// The browser's decisions in script.js before and after a request: the input
// guards of submitAnswer, submitChoice, submitImage and submitFile, and the
// mapping callAI applies to the JSON envelope it gets back.
module Client {
  import opened Js
  import Retry
  import Handlers

  /** A guard either lets the submission go ahead with what it will send, or shows a message and sends nothing. */
  datatype Guard<T> = Proceed(value: T) | Refuse(message: string)

  const EmptyAnswer: string := "Vui lòng nhập câu trả lời!"
  const NoChoice: string := "Hãy chọn 1 đáp án!"
  const NoImageSelected: string := "Vui lòng chọn hình ảnh trước!"
  const NoFileSelected: string := "Vui lòng chọn file trước!"
  const NoQuestionYet: string := "Vui lòng tạo đề bài trước khi nộp!"
  /** What the question area shows while a question is being generated. */
  const Generating: string := "Đang tạo"
  const ErrorPrefix: string := "❌ Lỗi: "
  const ConnectionError: string := "❌ Lỗi: Không kết nối được với AI."

  /** submitAnswer: the answer box's text, trimmed; an answer that trims to nothing is refused. */
  function SubmitAnswerGuard(answer: string): (g: Guard<string>)
    ensures g.Refuse? <==> IsBlank(answer)
    ensures g.Refuse? ==> g.message == EmptyAnswer
    ensures g.Proceed? ==> g.value == Trim(answer) && g.value != ""
  {
    TrimEmptyIff(answer);
    var userAnswer := Trim(answer);
    if userAnswer == "" then Refuse(EmptyAnswer) else Proceed(userAnswer)
  }

  /** submitChoice: the checked option's value; with no option checked nothing is sent. */
  function SubmitChoiceGuard(selected: Option<string>): (g: Guard<string>)
    ensures g.Refuse? <==> selected.None?
    ensures g.Refuse? ==> g.message == NoChoice
    ensures g.Proceed? ==> g.value == selected.value
  {
    match selected
    case None => Refuse(NoChoice)
    case Some(answer) => Proceed(answer)
  }

  datatype UploadKind = ImageUpload | FileUpload

  /** A question is ready once the question area is non-empty and no longer shows the "being generated" text. */
  predicate QuestionReady(question: string)
  {
    question != "" && !Includes(question, Generating)
  }

  /**
   * submitImage and submitFile: a file must be selected, then the question
   * must be ready; the question text is what gets sent with the upload.
   */
  function SubmitUploadGuard(kind: UploadKind, fileSelected: bool, question: string): (g: Guard<string>)
    ensures g.Proceed? <==> fileSelected && QuestionReady(question)
    ensures !fileSelected ==> g == Refuse(if kind == ImageUpload then NoImageSelected else NoFileSelected)
    ensures fileSelected && !QuestionReady(question) ==> g == Refuse(NoQuestionYet)
    ensures g.Proceed? ==> g.value == question
  {
    if !fileSelected then Refuse(if kind == ImageUpload then NoImageSelected else NoFileSelected)
    else if question == "" || Includes(question, Generating) then Refuse(NoQuestionYet)
    else Proceed(question)
  }

  /** While the page shows "Đang tạo bài tập..." in the question area, an upload is refused. */
  lemma UploadRefusedWhileGenerating(kind: UploadKind)
    ensures SubmitUploadGuard(kind, true, "Đang tạo bài tập...") == Refuse(NoQuestionYet)
  {
  }

  /** What `await res.json()` produced, or a failure of fetch or of JSON parsing. */
  datatype Fetched = Parsed(error: Option<string>, text: Option<string>) | TransportFailed

  /** callAI: the error prefixed with "❌ Lỗi: ", else the text (possibly undefined); a fixed string on transport failure. */
  function CallAI(f: Fetched): (r: Option<string>)
    ensures f.TransportFailed? ==> r == Some(ConnectionError)
    ensures f.Parsed? && Truthy(f.error) ==> r == Some(ErrorPrefix + f.error.value)
    ensures f.Parsed? && !Truthy(f.error) ==> r == f.text
  {
    match f
    case TransportFailed => Some(ConnectionError)
    case Parsed(error, text) => if Truthy(error) then Some(ErrorPrefix + error.value) else text
  }

  /** The envelope a handler sends, as the browser parses it. */
  function Parse(body: Handlers.Envelope): Fetched
  {
    match body
    case TextBody(t) => Parsed(None, Some(t))
    case ErrorBody(e) => Parsed(Some(e), None)
  }

  /**
   * Whatever /api/generate answers, callAI yields a string: the text on 200,
   * otherwise "❌ Lỗi: " followed by the server's error message.
   */
  lemma CallAIShowsGenerateReply(prompt: Option<string>, script: seq<Retry.CallOutcome<Handlers.Reply>>)
    requires Retry.DefaultMaxRetries <= |script|
    ensures var h := Handlers.GenerateResponse(prompt, script);
      var shown := CallAI(Parse(h.reply.body));
      && shown.Some?
      && (h.reply.body.TextBody? ==> shown.value == h.reply.body.text)
      && (h.reply.body.ErrorBody? ==> shown.value == ErrorPrefix + h.reply.body.error)
      && (h.reply.status != 200 ==> StartsWith(shown.value, ErrorPrefix))
  {
  }
}
