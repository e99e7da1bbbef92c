// The four POST handlers of server.js: /api/generate, /api/grade-image,
// /api/grade-file and /api/chat. Each validates its input, calls the relay,
// and maps the outcome to a JSON reply; the two upload handlers also delete
// the uploaded file on every way out.
//
// The upstream model, fs.readFileSync and mammoth's text extraction are
// oracles: their results are parameters. The upload directory is a set of
// live paths held by an UploadDir object.
module Handlers {
  import opened Js
  import opened Retry
  import opened UploadFilter

  /** The upstream reply; the handlers read only its `text` field. */
  datatype Reply = Reply(text: Option<string>)

  /** The JSON body sent to the browser: `{ text }` or `{ error }`. */
  datatype Envelope = TextBody(text: string) | ErrorBody(error: string)

  datatype HttpReply = HttpReply(status: int, body: Envelope)

  /** `subject === 'toan' ? 'Toán' : 'Vật Lý'`: which teacher the prompt addresses. */
  datatype Subject = Math | Physics

  /** What a handler sends upstream; the wording of the instructions around it is not modelled. */
  datatype Prompt =
    | Raw(text: string)                                                        // /api/generate: the client's prompt
    | ChatPrompt(subject: Subject, message: string)                            // /api/chat
    | ImageGrading(subject: Subject, question: Option<string>, mimeType: string) // the image goes as inline data
    | WorkGrading(subject: Subject, question: Option<string>, work: string)      // the file's text is merged in

  /** What one request did: the reply, the number of upstream calls, and the prompt those calls carried. */
  datatype Handled = Handled(reply: HttpReply, aiCalls: nat, prompt: Option<Prompt>)

  /** What multer hands the handler: the unique path on disk, the client's file name and the MIME type. */
  datatype UploadedFile = UploadedFile(path: string, originalName: string, mimeType: string)

  /** `fs.readFileSync` of the upload: its content, or the error it throws. */
  datatype FileRead = Read(content: string) | ReadFailed(message: Option<string>)

  /** mammoth's `extractRawText`: the extracted text, or a failure. */
  datatype Extraction = Extracted(value: string) | ExtractionFailed

  const PromptRequired: string := "Prompt is required"
  const GeneratePlaceholder: string := "Không thể tạo nội dung"
  const GenerateFailed: string := "Có lỗi xảy ra khi gọi AI"
  const NoImage: string := "Vui lòng upload hình ảnh"
  const ImagePlaceholder: string := "Không thể phân tích hình ảnh"
  const ImageFailed: string := "Có lỗi xảy ra khi xử lý hình ảnh"
  const NoFile: string := "Vui lòng upload file"
  const DocxEmpty: string := "Không thể đọc nội dung file Word. File có thể bị lỗi hoặc rỗng."
  const DocxUnreadable: string := "Không thể đọc file Word. Vui lòng đảm bảo file là định dạng .docx hợp lệ."
  const UnsupportedFormat: string := "Định dạng file không được hỗ trợ"
  const FileImagePlaceholder: string := "Không thể phân tích file"
  const GradePlaceholder: string := "Không thể chấm bài"
  const FileFailed: string := "Có lỗi xảy ra khi xử lý file"
  const EmptyMessage: string := "Tin nhắn không được để trống"
  const ChatPlaceholder: string := "Xin lỗi, tôi không thể trả lời lúc này."
  const ChatFailed: string := "Có lỗi xảy ra trong chat"
  /** What reading `.text` of an undefined relay result throws. */
  const UndefinedResponse: string := "Cannot read properties of undefined (reading 'text')"

  function SubjectOf(subject: Option<string>): Subject
  {
    if subject == Some("toan") then Math else Physics
  }

  /** The string a reply carries, whichever kind of body it has. */
  function Payload(body: Envelope): string
  {
    match body
    case TextBody(t) => t
    case ErrorBody(e) => e
  }

  /** The `error.message` a handler's catch block sees when the relay did not resolve with a reply. */
  function ThrownMessage(o: RelayOutcome<Reply>): Option<string>
    requires !o.Resolved?
  {
    match o
    case Rethrown(m) => m
    case Overloaded => Some(OverloadedMessage)
    case NoAttempt => Some(UndefinedResponse)
  }

  /**
   * The reply once the relay has settled: 200 with `response.text || placeholder`,
   * or 500 with `error.message || fallback`.
   */
  function Respond(o: RelayOutcome<Reply>, placeholder: string, fallback: string): (r: HttpReply)
    requires placeholder != "" && fallback != ""
    ensures r.status == 200 <==> o.Resolved?
    ensures r.status != 200 ==> r.status == 500 && r.body.ErrorBody?
    ensures o.Resolved? && Truthy(o.value.text) ==> r.body == TextBody(o.value.text.value)
    ensures o.Resolved? && !Truthy(o.value.text) ==> r.body == TextBody(placeholder)
    ensures o.Overloaded? ==> r.body == ErrorBody(OverloadedMessage)
    ensures o.Rethrown? && Truthy(o.message) ==> r.body == ErrorBody(o.message.value)
    ensures o.Rethrown? && !Truthy(o.message) ==> r.body == ErrorBody(fallback)
    ensures Payload(r.body) != ""
  {
    if o.Resolved? then HttpReply(200, TextBody(OrElse(o.value.text, placeholder)))
    else HttpReply(500, ErrorBody(OrElse(ThrownMessage(o), fallback)))
  }

  /** A reply sent before any upstream call. */
  function ErrorReply(status: int, message: string): Handled
  {
    Handled(HttpReply(status, ErrorBody(message)), 0, None)
  }

  /** Calling the relay with the default three attempts and replying from its outcome. */
  function CallUpstream(prompt: Prompt, script: seq<CallOutcome<Reply>>, placeholder: string, fallback: string): (h: Handled)
    requires DefaultMaxRetries <= |script|
    requires placeholder != "" && fallback != ""
    ensures 1 <= h.aiCalls <= DefaultMaxRetries
    ensures h.prompt == Some(prompt)
    ensures h.reply.status == 200 || h.reply.status == 500
    ensures h.reply.status == 200 ==>
      && Relay(script, DefaultMaxRetries).outcome.Resolved?
      && h.reply.body == TextBody(OrElse(Relay(script, DefaultMaxRetries).outcome.value.text, placeholder))
    ensures h.aiCalls == Relay(script, DefaultMaxRetries).calls
    ensures h.reply == Respond(Relay(script, DefaultMaxRetries).outcome, placeholder, fallback)
    ensures Payload(h.reply.body) != ""
  {
    var t := Relay(script, DefaultMaxRetries);
    RelayShape(script, DefaultMaxRetries);
    Handled(Respond(t.outcome, placeholder, fallback), t.calls, Some(prompt))
  }

  // ---------------------------------------------------------------------------
  // The handlers as functions of their inputs and oracles

  /** POST /api/generate */
  function GenerateResponse(prompt: Option<string>, script: seq<CallOutcome<Reply>>): (h: Handled)
    requires DefaultMaxRetries <= |script|
    ensures !Truthy(prompt) ==> h == ErrorReply(400, PromptRequired)
    ensures Truthy(prompt) ==> h.prompt == Some(Raw(prompt.value)) && 1 <= h.aiCalls <= DefaultMaxRetries
    ensures h.reply.status == 400 <==> h.aiCalls == 0
    ensures h.reply.status == 200 ==>
      && Relay(script, DefaultMaxRetries).outcome.Resolved?
      && h.reply.body == TextBody(OrElse(Relay(script, DefaultMaxRetries).outcome.value.text, GeneratePlaceholder))
    ensures Truthy(prompt) ==>
      && h.aiCalls == Relay(script, DefaultMaxRetries).calls
      && h.reply == Respond(Relay(script, DefaultMaxRetries).outcome, GeneratePlaceholder, GenerateFailed)
    ensures Payload(h.reply.body) != ""
  {
    if !Truthy(prompt) then ErrorReply(400, PromptRequired)
    else CallUpstream(Raw(prompt.value), script, GeneratePlaceholder, GenerateFailed)
  }

  /** POST /api/chat */
  function ChatResponse(message: Option<string>, subject: Option<string>, script: seq<CallOutcome<Reply>>): (h: Handled)
    requires DefaultMaxRetries <= |script|
    ensures !Truthy(message) ==> h == ErrorReply(400, EmptyMessage)
    ensures Truthy(message) ==> h.prompt == Some(ChatPrompt(SubjectOf(subject), message.value)) && 1 <= h.aiCalls <= DefaultMaxRetries
    ensures h.reply.status == 400 <==> h.aiCalls == 0
    ensures h.reply.status == 200 ==>
      && Relay(script, DefaultMaxRetries).outcome.Resolved?
      && h.reply.body == TextBody(OrElse(Relay(script, DefaultMaxRetries).outcome.value.text, ChatPlaceholder))
    ensures Truthy(message) ==>
      && h.aiCalls == Relay(script, DefaultMaxRetries).calls
      && h.reply == Respond(Relay(script, DefaultMaxRetries).outcome, ChatPlaceholder, ChatFailed)
    ensures Payload(h.reply.body) != ""
  {
    if !Truthy(message) then ErrorReply(400, EmptyMessage)
    else CallUpstream(ChatPrompt(SubjectOf(subject), message.value), script, ChatPlaceholder, ChatFailed)
  }

  /** POST /api/grade-image */
  function GradeImageResponse(file: Option<UploadedFile>, question: Option<string>, subject: Option<string>,
                              read: FileRead, script: seq<CallOutcome<Reply>>): (h: Handled)
    requires DefaultMaxRetries <= |script|
    ensures file.None? ==> h == ErrorReply(400, NoImage)
    ensures h.reply.status == 400 <==> file.None?
    ensures h.reply.status == 400 ==> h.aiCalls == 0 && h.prompt.None?
    ensures file.Some? && read.ReadFailed? ==> h == ErrorReply(500, OrElse(read.message, ImageFailed))
    ensures h.aiCalls > 0 ==> h.prompt == Some(ImageGrading(SubjectOf(subject), question, file.value.mimeType))
    ensures h.aiCalls <= DefaultMaxRetries
    ensures h.reply.status == 200 ==>
      && Relay(script, DefaultMaxRetries).outcome.Resolved?
      && h.reply.body == TextBody(OrElse(Relay(script, DefaultMaxRetries).outcome.value.text, ImagePlaceholder))
    ensures file.Some? && read.Read? ==>
      && h.prompt == Some(ImageGrading(SubjectOf(subject), question, file.value.mimeType))
      && h.aiCalls == Relay(script, DefaultMaxRetries).calls
      && h.reply == Respond(Relay(script, DefaultMaxRetries).outcome, ImagePlaceholder, ImageFailed)
    ensures Payload(h.reply.body) != ""
  {
    if file.None? then ErrorReply(400, NoImage)
    else match read
      case ReadFailed(m) => ErrorReply(500, OrElse(m, ImageFailed))
      case Read(_) =>
        CallUpstream(ImageGrading(SubjectOf(subject), question, file.value.mimeType), script, ImagePlaceholder, ImageFailed)
  }

  /** A file read from disk is sent upstream with `prompt`; a failed read is a 500 carrying its message. */
  function GradeRead(prompt: Prompt, read: FileRead, script: seq<CallOutcome<Reply>>, placeholder: string): (h: Handled)
    requires DefaultMaxRetries <= |script|
    requires placeholder != ""
    ensures read.ReadFailed? ==> h == ErrorReply(500, OrElse(read.message, FileFailed))
    ensures read.Read? ==> h.prompt == Some(prompt) && 1 <= h.aiCalls <= DefaultMaxRetries
    ensures read.Read? ==>
      && h.aiCalls == Relay(script, DefaultMaxRetries).calls
      && h.reply == Respond(Relay(script, DefaultMaxRetries).outcome, placeholder, FileFailed)
    ensures h.reply.status != 400
    ensures h.aiCalls > 0 <==> h.prompt.Some?
    ensures Payload(h.reply.body) != ""
  {
    match read
    case ReadFailed(m) => ErrorReply(500, OrElse(m, FileFailed))
    case Read(_) => CallUpstream(prompt, script, placeholder, FileFailed)
  }

  /** The .docx branch of grade-file: unreadable or blank text is a 400, anything else is graded. */
  function GradeDocx(subj: Subject, question: Option<string>, extraction: Extraction, script: seq<CallOutcome<Reply>>): (h: Handled)
    requires DefaultMaxRetries <= |script|
    ensures extraction.ExtractionFailed? ==> h == ErrorReply(400, DocxUnreadable)
    ensures extraction.Extracted? && Trim(extraction.value) == "" ==> h == ErrorReply(400, DocxEmpty)
    ensures extraction.Extracted? && Trim(extraction.value) != "" ==>
      h.prompt == Some(WorkGrading(subj, question, extraction.value)) && 1 <= h.aiCalls <= DefaultMaxRetries
    ensures extraction.Extracted? && Trim(extraction.value) != "" ==>
      && h.aiCalls == Relay(script, DefaultMaxRetries).calls
      && h.reply == Respond(Relay(script, DefaultMaxRetries).outcome, GradePlaceholder, FileFailed)
    ensures h.aiCalls > 0 <==> h.prompt.Some?
    ensures Payload(h.reply.body) != ""
  {
    match extraction
    case ExtractionFailed => ErrorReply(400, DocxUnreadable)
    case Extracted(v) =>
      if Trim(v) == "" then ErrorReply(400, DocxEmpty)
      else CallUpstream(WorkGrading(subj, question, v), script, GradePlaceholder, FileFailed)
  }

  /** grade-file once the upload is present: what each extension route does. */
  function GradeRoute(route: Route, subj: Subject, question: Option<string>, mimeType: string,
                      read: FileRead, extraction: Extraction, script: seq<CallOutcome<Reply>>): (h: Handled)
    requires DefaultMaxRetries <= |script|
    ensures h.reply.status == 400 ==> h.aiCalls == 0 && h.prompt.None?
    ensures h.aiCalls > 0 <==> h.prompt.Some?
    ensures h.aiCalls <= DefaultMaxRetries
    ensures route == Unsupported ==> h == ErrorReply(400, UnsupportedFormat)
    ensures route == WordDocument ==> h == GradeDocx(subj, question, extraction, script)
    ensures route == PlainText && read.Read? ==>
      && h.prompt == Some(WorkGrading(subj, question, read.content))
      && h.aiCalls == Relay(script, DefaultMaxRetries).calls
      && h.reply == Respond(Relay(script, DefaultMaxRetries).outcome, GradePlaceholder, FileFailed)
    ensures route == Image && read.Read? ==>
      && h.prompt == Some(ImageGrading(subj, question, mimeType))
      && h.aiCalls == Relay(script, DefaultMaxRetries).calls
      && h.reply == Respond(Relay(script, DefaultMaxRetries).outcome, FileImagePlaceholder, FileFailed)
    ensures route != WordDocument && route != Unsupported && read.ReadFailed? ==>
      h == ErrorReply(500, OrElse(read.message, FileFailed))
    ensures Payload(h.reply.body) != ""
  {
    match route
    case PlainText =>
      GradeRead(WorkGrading(subj, question, if read.Read? then read.content else ""), read, script, GradePlaceholder)
    case WordDocument => GradeDocx(subj, question, extraction, script)
    case Image => GradeRead(ImageGrading(subj, question, mimeType), read, script, FileImagePlaceholder)
    case Unsupported => ErrorReply(400, UnsupportedFormat)
  }

  /** POST /api/grade-file: dispatch on the lower-cased extension, then the same call-and-reply as the others. */
  function GradeFileResponse(file: Option<UploadedFile>, question: Option<string>, subject: Option<string>,
                             read: FileRead, extraction: Extraction, script: seq<CallOutcome<Reply>>): (h: Handled)
    requires DefaultMaxRetries <= |script|
    ensures file.None? ==> h == ErrorReply(400, NoFile)
    ensures file.Some? ==>
      h == GradeRoute(RouteOf(LowerExt(file.value.originalName)), SubjectOf(subject), question,
                      file.value.mimeType, read, extraction, script)
    ensures h.reply.status == 400 ==> h.aiCalls == 0 && h.prompt.None?
    ensures h.aiCalls > 0 <==> h.prompt.Some?
    ensures Payload(h.reply.body) != ""
  {
    if file.None? then ErrorReply(400, NoFile)
    else GradeRoute(RouteOf(LowerExt(file.value.originalName)), SubjectOf(subject), question,
                    file.value.mimeType, read, extraction, script)
  }

  // ---------------------------------------------------------------------------
  // The handlers as step sequences

  method Generate(prompt: Option<string>, script: seq<CallOutcome<Reply>>) returns (h: Handled)
    requires DefaultMaxRetries <= |script|
    ensures h == GenerateResponse(prompt, script)
  {
    if !Truthy(prompt) {
      return ErrorReply(400, PromptRequired);
    }
    var outcome, calls, _ := CallGeminiWithRetry(script, DefaultMaxRetries);
    h := Handled(Respond(outcome, GeneratePlaceholder, GenerateFailed), calls, Some(Raw(prompt.value)));
  }

  method Chat(message: Option<string>, subject: Option<string>, script: seq<CallOutcome<Reply>>) returns (h: Handled)
    requires DefaultMaxRetries <= |script|
    ensures h == ChatResponse(message, subject, script)
  {
    if !Truthy(message) {
      return ErrorReply(400, EmptyMessage);
    }
    var prompt := ChatPrompt(SubjectOf(subject), message.value);
    var outcome, calls, _ := CallGeminiWithRetry(script, DefaultMaxRetries);
    h := Handled(Respond(outcome, ChatPlaceholder, ChatFailed), calls, Some(prompt));
  }

  /** The paths an upload handler is responsible for deleting. */
  function Uploaded(file: Option<UploadedFile>): set<string>
  {
    if file.Some? then {file.value.path} else {}
  }

  /** The directory multer writes uploads into, as the set of paths currently on disk. */
  class UploadDir {
    var live: set<string>

    constructor ()
      ensures live == {}
    {
      live := {};
    }

    /** multer's upload step: the allow-list, then the file is written under its unique path. */
    method Receive(file: UploadedFile) returns (d: Decision)
      modifies this
      ensures d == FileFilter(file.originalName, file.mimeType)
      ensures live == if d.Accept? then old(live) + {file.path} else old(live)
    {
      d := FileFilter(file.originalName, file.mimeType);
      if d.Accept? {
        live := live + {file.path};
      }
    }

    /** `fs.unlinkSync(path)` on a file that is there. */
    method Unlink(path: string)
      requires path in live
      modifies this
      ensures live == old(live) - {path}
    {
      live := live - {path};
    }

    /** The catch blocks' `if (req.file && fs.existsSync(req.file.path)) fs.unlinkSync(req.file.path)`. */
    method UnlinkIfExists(path: string)
      modifies this
      ensures live == old(live) - {path}
    {
      if path in live {
        live := live - {path};
      }
    }

    /** POST /api/grade-image: the upload is deleted after the call settles, on success and in the catch block. */
    method GradeImage(file: Option<UploadedFile>, question: Option<string>, subject: Option<string>,
                      read: FileRead, script: seq<CallOutcome<Reply>>) returns (h: Handled)
      requires DefaultMaxRetries <= |script|
      requires file.Some? ==> file.value.path in live
      modifies this
      ensures h == GradeImageResponse(file, question, subject, read, script)
      ensures live == old(live) - Uploaded(file)
    {
      if file.None? {
        return ErrorReply(400, NoImage);
      }
      var path := file.value.path;
      if read.ReadFailed? {
        UnlinkIfExists(path);
        return ErrorReply(500, OrElse(read.message, ImageFailed));
      }
      var prompt := ImageGrading(SubjectOf(subject), question, file.value.mimeType);
      var outcome, calls, _ := CallGeminiWithRetry(script, DefaultMaxRetries);
      if outcome.Resolved? {
        var text := OrElse(outcome.value.text, ImagePlaceholder);
        Unlink(path);
        return Handled(HttpReply(200, TextBody(text)), calls, Some(prompt));
      }
      UnlinkIfExists(path);
      h := Handled(HttpReply(500, ErrorBody(OrElse(ThrownMessage(outcome), ImageFailed))), calls, Some(prompt));
    }

    /** POST /api/grade-file: every way out after the upload deletes it. */
    method GradeFile(file: Option<UploadedFile>, question: Option<string>, subject: Option<string>,
                     read: FileRead, extraction: Extraction, script: seq<CallOutcome<Reply>>) returns (h: Handled)
      requires DefaultMaxRetries <= |script|
      requires file.Some? ==> file.value.path in live
      modifies this
      ensures h == GradeFileResponse(file, question, subject, read, extraction, script)
      ensures live == old(live) - Uploaded(file)
    {
      if file.None? {
        return ErrorReply(400, NoFile);
      }
      var path := file.value.path;
      var subj := SubjectOf(subject);
      var route := RouteOf(LowerExt(file.value.originalName));
      var prompt: Prompt;
      var placeholder: string;
      if route == PlainText {
        if read.ReadFailed? {
          UnlinkIfExists(path);
          return ErrorReply(500, OrElse(read.message, FileFailed));
        }
        prompt, placeholder := WorkGrading(subj, question, read.content), GradePlaceholder;
      } else if route == WordDocument {
        if extraction.ExtractionFailed? {
          Unlink(path);
          return ErrorReply(400, DocxUnreadable);
        }
        if Trim(extraction.value) == "" {
          Unlink(path);
          return ErrorReply(400, DocxEmpty);
        }
        prompt, placeholder := WorkGrading(subj, question, extraction.value), GradePlaceholder;
      } else if route == Image {
        if read.ReadFailed? {
          UnlinkIfExists(path);
          return ErrorReply(500, OrElse(read.message, FileFailed));
        }
        prompt, placeholder := ImageGrading(subj, question, file.value.mimeType), FileImagePlaceholder;
      } else {
        Unlink(path);
        return ErrorReply(400, UnsupportedFormat);
      }
      var outcome, calls, _ := CallGeminiWithRetry(script, DefaultMaxRetries);
      if outcome.Resolved? {
        var text := OrElse(outcome.value.text, placeholder);
        Unlink(path);
        return Handled(HttpReply(200, TextBody(text)), calls, Some(prompt));
      }
      UnlinkIfExists(path);
      h := Handled(HttpReply(500, ErrorBody(OrElse(ThrownMessage(outcome), FileFailed))), calls, Some(prompt));
    }

    /**
     * One whole grade-file request: the upload step, then the handler when the
     * allow-list accepted the file. No upload outlives the request.
     */
    method GradeFileRequest(upload: UploadedFile, question: Option<string>, subject: Option<string>,
                            read: FileRead, extraction: Extraction, script: seq<CallOutcome<Reply>>)
        returns (d: Decision, h: Option<Handled>)
      requires DefaultMaxRetries <= |script|
      requires upload.path !in live
      modifies this
      ensures d == FileFilter(upload.originalName, upload.mimeType)
      ensures d.Reject? ==> h.None?
      ensures d.Accept? ==> h == Some(GradeFileResponse(Some(upload), question, subject, read, extraction, script))
      ensures live == old(live)
    {
      d := Receive(upload);
      if d.Reject? {
        return d, None;
      }
      var handled := GradeFile(Some(upload), question, subject, read, extraction, script);
      h := Some(handled);
    }

    /** One whole grade-image request, likewise. */
    method GradeImageRequest(upload: UploadedFile, question: Option<string>, subject: Option<string>,
                             read: FileRead, script: seq<CallOutcome<Reply>>)
        returns (d: Decision, h: Option<Handled>)
      requires DefaultMaxRetries <= |script|
      requires upload.path !in live
      modifies this
      ensures d == FileFilter(upload.originalName, upload.mimeType)
      ensures d.Reject? ==> h.None?
      ensures d.Accept? ==> h == Some(GradeImageResponse(Some(upload), question, subject, read, script))
      ensures live == old(live)
    {
      d := Receive(upload);
      if d.Reject? {
        return d, None;
      }
      var handled := GradeImage(Some(upload), question, subject, read, script);
      h := Some(handled);
    }
  }

  // ---------------------------------------------------------------------------
  // Properties across the handlers

  /** When all three attempts report overload, generate answers 500 with the fixed message, never the upstream text. */
  lemma GenerateExhaustedRetries(prompt: Option<string>, script: seq<CallOutcome<Reply>>)
    requires DefaultMaxRetries <= |script|
    requires Truthy(prompt)
    requires forall j :: 0 <= j < DefaultMaxRetries ==> OverloadThrow(script[j])
    ensures GenerateResponse(prompt, script)
         == Handled(HttpReply(500, ErrorBody(OverloadedMessage)), 3, Some(Raw(prompt.value)))
  {
  }

  /** POST /api/generate with "test" and an upstream answering "42" replies { text: "42" } after one call. */
  lemma GenerateAnswers42(script: seq<CallOutcome<Reply>>)
    requires DefaultMaxRetries <= |script|
    requires script[0] == Returned(Reply(Some("42")))
    ensures GenerateResponse(Some("test"), script) == Handled(HttpReply(200, TextBody("42")), 1, Some(Raw("test")))
  {
  }

  /** A .docx whose extracted text is not all whitespace is graded with exactly that text in the prompt. */
  lemma DocxTextReachesPrompt(file: UploadedFile, question: Option<string>, subject: Option<string>, read: FileRead,
                              v: string, script: seq<CallOutcome<Reply>>)
    requires DefaultMaxRetries <= |script|
    requires LowerExt(file.originalName) == ".docx"
    requires !IsBlank(v)
    ensures var h := GradeFileResponse(Some(file), question, subject, read, Extracted(v), script);
      h.prompt == Some(WorkGrading(SubjectOf(subject), question, v)) && 1 <= h.aiCalls <= DefaultMaxRetries
  {
    TrimEmptyIff(v);
  }

  /** A .docx whose text is only whitespace is refused with 400 and nothing is sent upstream. */
  lemma BlankDocxRefused(file: UploadedFile, question: Option<string>, subject: Option<string>, read: FileRead,
                         v: string, script: seq<CallOutcome<Reply>>)
    requires DefaultMaxRetries <= |script|
    requires LowerExt(file.originalName) == ".docx"
    requires IsBlank(v)
    ensures GradeFileResponse(Some(file), question, subject, read, Extracted(v), script) == ErrorReply(400, DocxEmpty)
  {
    TrimEmptyIff(v);
  }
}
