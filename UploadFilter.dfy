// The upload allow-list (multer's fileFilter in server.js) and the
// extension-based dispatch of /api/grade-file that runs after it.
module UploadFilter {
  import opened Js

  const AllowedExts: seq<string> := [".jpg", ".jpeg", ".png", ".gif", ".txt", ".docx"]

  const AllowedMimeTypes: seq<string> := [
    "image/jpeg", "image/png", "image/gif",
    "text/plain",
    "application/vnd.openxmlformats-officedocument.wordprocessingml.document"
  ]

  const ImageExts: seq<string> := [".jpg", ".jpeg", ".png", ".gif"]

  const RejectMessage: string :=
    "Chỉ chấp nhận file ảnh (jpg, png, gif) hoặc tài liệu (txt, docx). Lưu ý: Chỉ hỗ trợ file Word định dạng .docx, không hỗ trợ .doc cũ."

  /** The position of the last '.' in `s`, if there is one. */
  function LastDot(s: string): (r: Option<nat>)
    ensures r.Some? ==> r.value < |s| && s[r.value] == '.'
    ensures r.Some? ==> forall k :: r.value < k < |s| ==> s[k] != '.'
    ensures r.None? ==> forall k :: 0 <= k < |s| ==> s[k] != '.'
    decreases |s|
  {
    if |s| == 0 then None
    else if s[|s| - 1] == '.' then Some(|s| - 1)
    else LastDot(s[..|s| - 1])
  }

  /**
   * `path.extname` of a bare file name: from the last '.' to the end, or ""
   * when there is no '.' or the only one starts the name (".hidden").
   */
  function ExtName(name: string): (ext: string)
    ensures ext == "" || (|ext| < |name| && ext == name[|name| - |ext|..] && ext[0] == '.')
    ensures forall k :: 0 < k < |ext| ==> ext[k] != '.'
    ensures ext == "" <==> (forall k :: 0 < k < |name| ==> name[k] != '.')
  {
    match LastDot(name)
    case None => ""
    case Some(k) => if k == 0 then "" else name[k..]
  }

  /** The extension starts at the last '.' when that '.' does not open the name. */
  lemma ExtNameAtLastDot(name: string, k: nat)
    requires 0 < k < |name| && name[k] == '.'
    requires forall j :: k < j < |name| ==> name[j] != '.'
    ensures ExtName(name) == name[k..]
  {
  }

  /** `path.extname(file.originalname).toLowerCase()` */
  function LowerExt(name: string): string
  {
    ToLower(ExtName(name))
  }

  datatype Decision = Accept | Reject(message: string)

  /** fileFilter: accept on an allowed extension OR an allowed MIME type; otherwise reject with the fixed message. */
  function FileFilter(originalName: string, mimeType: string): (d: Decision)
    ensures d.Accept? <==> LowerExt(originalName) in AllowedExts || mimeType in AllowedMimeTypes
    ensures d.Reject? ==> d.message == RejectMessage
  {
    if LowerExt(originalName) in AllowedExts || mimeType in AllowedMimeTypes then Accept
    else Reject(RejectMessage)
  }

  /** How /api/grade-file treats an upload, by its lower-cased extension. */
  datatype Route = PlainText | WordDocument | Image | Unsupported

  function RouteOf(ext: string): (r: Route)
    ensures r == Unsupported <==> ext !in AllowedExts
    ensures r == Image <==> ext in ImageExts
    ensures r == PlainText <==> ext == ".txt"
    ensures r == WordDocument <==> ext == ".docx"
  {
    if ext == ".txt" then PlainText
    else if ext == ".docx" then WordDocument
    else if ext in ImageExts then Image
    else Unsupported
  }

  /**
   * Because the filter accepts on the MIME type alone, an accepted upload can
   * still carry an extension that grade-file does not support: a PDF sent as
   * text/plain passes the filter and reaches the "unsupported format" branch.
   */
  lemma AcceptedButUnsupported()
    ensures FileFilter("bai-lam.pdf", "text/plain").Accept?
    ensures RouteOf(LowerExt("bai-lam.pdf")) == Unsupported
  {
  }

  /** An accepted upload routes to "unsupported" only when its MIME type let it in. */
  lemma UnsupportedOnlyByMime(originalName: string, mimeType: string)
    requires FileFilter(originalName, mimeType).Accept?
    requires RouteOf(LowerExt(originalName)) == Unsupported
    ensures mimeType in AllowedMimeTypes
  {
  }

  /** The extension test ignores ASCII case: an upper-case ".DOCX" is accepted whatever its MIME type. */
  lemma UpperCaseExtensionAccepted(mimeType: string)
    ensures LowerExt("BAI.DOCX") == ".docx"
    ensures FileFilter("BAI.DOCX", mimeType).Accept?
    ensures RouteOf(LowerExt("BAI.DOCX")) == WordDocument
  {
    ExtNameAtLastDot("BAI.DOCX", 3);
    assert ToLower(".DOCX") == ".docx";
  }

  /** A legacy Word file (.doc, application/msword) is rejected with the fixed message. */
  lemma LegacyWordRejected()
    ensures FileFilter("bai.doc", "application/msword") == Reject(RejectMessage)
  {
  }
}
