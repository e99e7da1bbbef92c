# Grading relay and answer editor, modelled in Dafny

The system is a small tutoring web application. A browser page asks an Express
server for practice questions in Math or Physics. A student answers by typing,
by picking an option, or by uploading an image or a document. The server relays
each request to the Gemini model and sends back the model's text as JSON.

This project models the parts of that system that make decisions:

- **The retry relay** (`callGeminiWithRetry`, module `Retry`). The upstream call
  is a script of outcomes: `script[i]` is what the (i+1)-th call does. It either
  returns a value or throws an error with an optional message. The loop returns
  the outcome, the number of calls made and the delays it asked for. The delays
  are recorded, not slept.
- **The upload allow-list** (multer's `fileFilter`, module `UploadFilter`). The
  extension is taken with a last-dot rule and lower-cased. This module also holds
  the extension dispatch of `/api/grade-file`.
- **The four request handlers** (module `Handlers`). Each one is both a function
  of its inputs and oracles (`GenerateResponse`, …) and a method that runs the
  same steps (`Generate`, …). The upload directory is an `UploadDir` object. It
  holds the set of upload paths that are on disk, and the two upload handlers
  are methods on it that delete the upload on every way out.
- **The answer box** (`insertSymbol`, `insertTemplate`, module `Editor`). The
  textarea is a `Textarea` object with `value`, `selectionStart` and
  `selectionEnd`.
- **The browser's guards and `callAI`'s envelope mapping** (module `Client`).
- **The JavaScript string operations** the above rely on (module `Js`):
  truthiness, `||`, `includes`, `trim` and `toLowerCase`.

The Gemini client, `fs.readFileSync` and mammoth's `extractRawText` are oracles.
Their results are parameters of the handlers.

Points where the code's behaviour is easy to misread:

- The backoff is linear: 2000, 4000, … ms, that is 2000·(i+1), although the
  comment at server.js:65 calls it exponential.
- The allow-list accepts a file when its extension **or** its MIME type is
  allowed. So a `.pdf` sent as `text/plain` reaches `/api/grade-file`. There it
  gets 400 "Định dạng file không được hỗ trợ" and the upload layer does not
  reject it.
- `/api/grade-file` dispatches on the extension alone. The MIME type is consulted
  only by the allow-list.
- The placeholder used when `response.text` is falsy is chosen by each handler,
  not by the relay.

## Model

| member | source | states |
|---|---|---|
| `Js.OrElse` | server.js:101 | `x \|\| fallback` is the string itself when truthy, else the fallback; never empty with a non-empty fallback |
| `Js.IncludesIff` | server.js:60 | the `includes` scan answers true exactly when the substring occurs at some index |
| `Js.TrimEmptyIff` | server.js:209 | `trim()` yields "" exactly when every character is ECMAScript whitespace or a line terminator |
| `Js.TrimIdempotent` | script.js:117 | a trimmed string neither starts nor ends with whitespace, and trimming again changes nothing |
| `Js.ToLower` | server.js:38 | lower-casing keeps the length and maps each character, leaving no ASCII capital |
| `Retry.Backoff` | server.js:65 | the wait after attempt i is 2000·(i+1) ms, a multiple of 2000 that grows linearly |
| `Retry.CallGeminiWithRetry` | server.js:55-76 | the loop's outcome, call count and recorded waits are exactly the relay's trace for the scripted calls |
| `Retry.AttemptsShape` | server.js:56-74 | from attempt i: at most maxRetries calls; every attempt but the last was an overload error followed by a wait of Backoff of its index; the last attempt settles the run; it is an overload error only when it was the final allowed attempt |
| `Retry.RelayShape` | server.js:55-76 | maxRetries <= 0 makes no call and yields undefined; otherwise 1..maxRetries calls, waits 2000, 4000, … one per retry, and the last call decides the outcome |
| `Retry.RelayWaitsIncrease` | server.js:63-66 | the recorded waits strictly increase |
| `Retry.RelaySuccessStops` | server.js:57-58 | a success after only overload errors is returned unchanged and no later call is made |
| `Retry.RelayOtherErrorPropagates` | server.js:60-73 | a first error without "overloaded" in its message is rethrown unchanged after one call and no wait |
| `Retry.RelayOverloadedIff` | server.js:69-71 | the fixed overload error is raised exactly when all maxRetries attempts were overload errors, after maxRetries calls and maxRetries-1 waits |
| `Retry.TwoOverloadsThenSuccess` | server.js:55-76 | two overload errors and then a success with three attempts give the success after 3 calls and waits [2000, 4000] |
| `UploadFilter.ExtName` | server.js:38 | the extension is "" or a proper suffix of the name that starts at a '.' and has no further '.'; it is "" exactly when no '.' follows the first character |
| `UploadFilter.ExtNameAtLastDot` | server.js:38 | the extension runs from the last '.' to the end when that '.' does not open the name |
| `UploadFilter.FileFilter` | server.js:37-51 | accept iff the lower-cased extension is one of the six allowed ones or the MIME type is one of the five allowed ones; otherwise reject with the fixed message |
| `UploadFilter.RouteOf` | server.js:193-258 | grade-file's dispatch: text for ".txt", Word for ".docx", image for the four image extensions, unsupported exactly for extensions outside the allow-list |
| `UploadFilter.AcceptedButUnsupported` | server.js:46 | because the test is OR, a `.pdf` sent as text/plain passes the filter and then routes to "unsupported" |
| `UploadFilter.UnsupportedOnlyByMime` | server.js:46 | an accepted upload routes to "unsupported" only when its MIME type let it in |
| `UploadFilter.UpperCaseExtensionAccepted` | server.js:38-46 | the extension test ignores case: "BAI.DOCX" is accepted whatever its MIME type and routes to the Word branch |
| `UploadFilter.LegacyWordRejected` | server.js:46-49 | a `.doc` file sent as application/msword is rejected with the fixed message |
| `Handlers.Respond` | server.js:161-173 | once the relay settles: 200 exactly on success, carrying `response.text` when truthy else the placeholder; otherwise 500 with the upstream message when truthy, the fixed overload message, or the handler's fallback; the payload is never empty |
| `Handlers.CallUpstream` | server.js:261-273 | a handler's upstream step makes exactly as many calls as the relay (1 to 3) with the given prompt, and its reply is Respond applied to the relay's outcome: 200 with `response.text`, or the placeholder when it is falsy, exactly when the relay resolved; else 500 with `error.message`, or the fallback when it is falsy |
| `Handlers.GenerateResponse` | server.js:85-110 | a falsy prompt gets 400 "Prompt is required" and no call; otherwise the prompt is sent as is, the call count is the relay's, and the reply is Respond on the relay's outcome with "Không thể tạo nội dung" and "Có lỗi xảy ra khi gọi AI"; 400 iff no call |
| `Handlers.ChatResponse` | server.js:286-317 | a falsy message gets 400 "Tin nhắn không được để trống" and no call; otherwise subject and message are sent, the call count is the relay's, and the reply is Respond on the relay's outcome with the chat placeholder and "Có lỗi xảy ra trong chat" |
| `Handlers.GradeImageResponse` | server.js:113-176 | no upload gives 400 and no call, and 400 happens only then; a read failure gives 500 with its message or the fallback; an image that was read is sent with the image prompt, the call count is the relay's, and the reply is Respond on the relay's outcome with "Không thể phân tích hình ảnh" and "Có lỗi xảy ra khi xử lý hình ảnh" |
| `Handlers.GradeRead` | server.js:274-281 | a file that cannot be read gives 500 with the error's message, or "Có lỗi xảy ra khi xử lý file" when it has none, and no call; a file that was read goes upstream with its prompt, the call count is the relay's and the reply is Respond on the relay's outcome with the given placeholder and "Có lỗi xảy ra khi xử lý file"; never a 400 |
| `Handlers.GradeDocx` | server.js:203-226 | an extractor failure gives 400 "Không thể đọc file Word…"; text that trims to "" gives 400 "Không thể đọc nội dung file Word…"; otherwise the extracted text is what the grading prompt carries, the call count is the relay's and the reply is Respond on the relay's outcome with "Không thể chấm bài" and "Có lỗi xảy ra khi xử lý file" |
| `Handlers.GradeRoute` | server.js:193-283 | a read .txt is graded with its content and replies Respond with "Không thể chấm bài"; a read image is graded with the image prompt and the upload's MIME type and replies Respond with "Không thể phân tích file"; both fall back to "Có lỗi xảy ra khi xử lý file" and make the relay's calls; .docx replies as GradeDocx; any other extension gives 400 "Định dạng file không được hỗ trợ"; every 400 makes no call, and calls are made exactly when a prompt was sent |
| `Handlers.GradeFileResponse` | server.js:179-283 | no upload gives 400 "Vui lòng upload file"; otherwise the reply is GradeRoute's for the route of the lower-cased extension of the original name; every 400 makes no call; a call is made exactly when a prompt was sent |
| `Handlers.Generate` | server.js:85-110 | the step sequence of /api/generate replies exactly as GenerateResponse |
| `Handlers.Chat` | server.js:286-317 | the step sequence of /api/chat replies exactly as ChatResponse |
| `Handlers.UploadDir.Receive` | server.js:34-52 | the upload step applies the filter and puts the file on disk only when it is accepted |
| `Handlers.UploadDir.Unlink` | server.js:164 | deleting an upload removes exactly that path |
| `Handlers.UploadDir.UnlinkIfExists` | server.js:169-171 | the catch block's guarded delete removes the path if present and nothing else |
| `Handlers.UploadDir.GradeImage` | server.js:113-176 | replies as GradeImageResponse, and afterwards the upload's path is gone and every other path is untouched, on success, on read failure and after a relay error |
| `Handlers.UploadDir.GradeFile` | server.js:179-283 | replies as GradeFileResponse, and afterwards the upload's path is gone on every exit: success, extractor failure, blank document, unsupported format and the catch block |
| `Handlers.UploadDir.GradeFileRequest` | server.js:179-283 | a whole grade-file request (upload step then handler) leaves the upload directory as it found it |
| `Handlers.UploadDir.GradeImageRequest` | server.js:113-176 | a whole grade-image request leaves the upload directory as it found it |
| `Handlers.GenerateExhaustedRetries` | server.js:85-110 | when all three attempts report overload, generate replies 500 with the fixed overload message after 3 calls, never with upstream text |
| `Handlers.GenerateAnswers42` | server.js:85-110 | prompt "test" with an upstream answering "42" replies 200 { text: "42" } after one call |
| `Handlers.DocxTextReachesPrompt` | server.js:203-221 | a .docx whose extracted text is not all whitespace is sent upstream, with exactly that text in the grading prompt, in one to three calls |
| `Handlers.BlankDocxRefused` | server.js:209-212 | a .docx whose text is only whitespace gets 400 with the fixed message and no call |
| `Editor.Splice` | script.js:25 | the new text keeps the prefix before start and the suffix from end, has the insert in between, and its length is \|text\| - (end - start) + \|insert\| |
| `Editor.SpliceUndo` | script.js:25 | splicing the replaced text back over the insert restores the original text |
| `Editor.Wrapped` | script.js:37 | the wrapped template is '$', the template, '$' |
| `Editor.ClampCaret` | script.js:41 | a caret position past the end of the text is moved to the end; others are kept |
| `Editor.Textarea.InsertSymbol` | script.js:19-29 | the selection is replaced by the symbol and the caret collapses right after it, at start + \|symbol\| |
| `Editor.Textarea.InsertTemplate` | script.js:31-43 | the selection is replaced by '$' + template + '$' and the caret collapses at start + cursorOffset + 1, clamped to the text |
| `Editor.TemplateCaretInside` | script.js:37-41 | with 0 <= cursorOffset <= \|template\| the caret needs no clamping, lies strictly after the opening '$' and at or before the closing '$', and has the first cursorOffset template characters before it |
| `Client.SubmitAnswerGuard` | script.js:116-121 | an answer that is all whitespace is refused with the fixed message and nothing is sent; otherwise the trimmed, non-empty answer is sent |
| `Client.SubmitChoiceGuard` | script.js:144-149 | with no option checked the fixed message is shown and nothing is sent; otherwise the checked value is sent |
| `Client.SubmitUploadGuard` | script.js:237-247 | submitImage and submitFile (script.js:282-292) send only when a file is selected and the question is non-empty and does not contain "Đang tạo", each refusal with its fixed message |
| `Client.UploadRefusedWhileGenerating` | script.js:243-247 | while the question area shows "Đang tạo bài tập...", an upload is refused |
| `Client.CallAI` | script.js:176-195 | a truthy `error` gives "❌ Lỗi: " + error, otherwise `text` (possibly undefined); a transport or parse failure gives the fixed connection message |
| `Client.CallAIShowsGenerateReply` | script.js:185-190 | whatever /api/generate replies, callAI yields a string: the text on success, otherwise "❌ Lỗi: " followed by the server's error |

## Left out

- Express setup, CORS, body parsing, static files and `app.listen`. These are framework wiring with no decisions.
- multer's disk storage and its `Date.now()`-based file names. The upload's path is an input and is taken to be unique.
- The 10 MB upload limit and the reply Express sends when multer rejects a file. Both are outside the handlers. `GradeFileRequest` and `GradeImageRequest` then return no handler result.
- The Gemini client, `fs.readFileSync` with base64 encoding, and mammoth. These are foreign libraries and appear only as oracle results. Image bytes are not modelled.
- `setTimeout`. The delays are recorded instead of waited, and `console.log`/`console.error` are dropped.
- The wording of every prompt. Only what a prompt carries is modelled: the subject choice, the question, the student's text or the image's MIME type.
- DOM rendering, MathJax, FileReader previews, the chat box (`sendChatMessage`, `toggleChat`), display toggles, and how submitImage and submitFile render the reply. This is all UI. The file-size label is floating-point formatting.
- `fetch` and JSON parsing in the browser. `callAI` receives the already parsed envelope, or a transport failure.
- Retry.CallGeminiWithRetry: a thrown value that is not an object (`throw undefined`) makes `error.message` itself throw; this is not modelled. The script must hold an outcome for each of the maxRetries calls the loop can make.
- UploadFilter.ExtName: treats the original name as a bare file name. POSIX `path.extname` differs for names containing '/' and for names made only of dots such as "..".
- Js.ToLower: lower-cases ASCII letters only. For membership in the extension allow-list this gives the same answer as full Unicode lower-casing: no non-ASCII character lower-cases to one of the ASCII letters used in the allowed extensions.
- String lengths and selection offsets count Unicode scalar values. JavaScript counts UTF-16 code units, so the two differ for characters outside the Basic Multilingual Plane.
- Request fields that are not strings, such as JSON numbers or arrays, are not modelled: a field is either absent or a string.
- A failing `fs.unlinkSync` is not modelled: deleting an upload always succeeds.
- Editor.Textarea.InsertTemplate: cursorOffset is a natural number. A negative offset would go through the DOM's unsigned conversion, which is not modelled. `focus()` and the preview refresh are UI.
