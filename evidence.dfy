/** `EvidenceCollectorService`: where a failed test's screenshot, its page
    HTML and the session's video are stored, and what each capture method
    resolves to. The page captures, `video.path()` and the storage uploads
    are given by their outcomes. */
module Evidence {
  import opened Common

  /** `uploadBuffer(buffer, path, contentType)`: the public URL, or the
      error it rejects with. */
  type BufferUploader = (Bytes, string, string) -> Attempt<string>

  /** `uploadFile(localPath, remotePath)`. */
  type FileUploader = (string, string) -> Attempt<string>

  /** What the first page of a context offers for `saveVideo`: no video
      (recording is off), or a video whose `path()` resolves or rejects. */
  datatype PageVideo = NoVideo | Video(path: Attempt<string>)

  const ScreenshotFile: string := "/screenshot.png"
  const DomFile: string := "/dom.html"
  const VideoFile: string := "/recording.webm"

  /** The object path of a screenshot; the ids are inserted as they are. */
  function ScreenshotPath(submissionId: string, taskId: string): string {
    "evidence/" + submissionId + "/" + taskId + ScreenshotFile
  }

  /** The object path of a DOM snapshot. */
  function DomPath(submissionId: string, taskId: string): string {
    "evidence/" + submissionId + "/" + taskId + DomFile
  }

  /** The object path of a session's video. */
  function VideoPath(submissionId: string): string {
    "evidence/" + submissionId + VideoFile
  }

  /** `Buffer.from(html, 'utf-8')`: the UTF-8 encoding of each character. */
  function Utf8(s: string): (b: Bytes)
    ensures |s| <= |b| <= 4 * |s|
    decreases |s|
  {
    if s == [] then [] else Utf8Char(s[0]) + Utf8(s[1..])
  }

  function Utf8Char(c: char): (b: Bytes)
    ensures 1 <= |b| <= 4
  {
    var n := c as int;
    if n < 0x80 then [n as bv8]
    else if n < 0x800 then [(0xC0 + n / 0x40) as bv8, (0x80 + n % 0x40) as bv8]
    else if n < 0x10000 then
      [(0xE0 + n / 0x1000) as bv8, (0x80 + n / 0x40 % 0x40) as bv8, (0x80 + n % 0x40) as bv8]
    else
      [(0xF0 + n / 0x40000) as bv8, (0x80 + n / 0x1000 % 0x40) as bv8,
       (0x80 + n / 0x40 % 0x40) as bv8, (0x80 + n % 0x40) as bv8]
  }

  /** `captureScreenshot`: the URL the upload of the screenshot resolves to;
      a failing screenshot or upload rejects. */
  function CaptureScreenshot(shot: Attempt<Bytes>, submissionId: string, taskId: string,
                             upload: BufferUploader): Attempt<string>
  {
    match shot
    case Threw(e) => Threw(e)
    case Done(png) => upload(png, ScreenshotPath(submissionId, taskId), "image/png")
  }

  /** `captureDOMSnapshot`: the URL the upload of the page's HTML, encoded
      as UTF-8, resolves to; a failing `content()` or upload rejects. */
  function CaptureDomSnapshot(content: Attempt<string>, submissionId: string, taskId: string,
                              upload: BufferUploader): Attempt<string>
  {
    match content
    case Threw(e) => Threw(e)
    case Done(html) => upload(Utf8(html), DomPath(submissionId, taskId), "text/html")
  }

  /** `saveVideo`. No page, or no video on the first page, gives
      `undefined`; so does a failing `video.path()`, which the `catch`
      swallows. The upload's promise is returned without being awaited, so
      its rejection escapes the `catch` and is the result. */
  function SaveVideo(pages: seq<PageVideo>, submissionId: string, upload: FileUploader): Attempt<Option<string>> {
    if |pages| == 0 then Done(None)
    else
      match pages[0]
      case NoVideo => Done(None)
      case Video(path) =>
        match path
        case Threw(_) => Done(None)
        case Done(local) =>
          match upload(local, VideoPath(submissionId))
          case Done(url) => Done(Some(url))
          case Threw(e) => Threw(e)
  }

  /** The screenshot goes to `evidence/<submission>/<task>/screenshot.png`
      as `image/png`, and the result is the uploader's answer unchanged. */
  lemma ScreenshotUpload(png: Bytes, submissionId: string, taskId: string, upload: BufferUploader)
    ensures CaptureScreenshot(Done(png), submissionId, taskId, upload)
      == upload(png, "evidence/" + submissionId + "/" + taskId + "/screenshot.png", "image/png")
  {
  }

  /** The HTML goes to `evidence/<submission>/<task>/dom.html` as
      `text/html`, encoded as UTF-8. */
  lemma DomUpload(html: string, submissionId: string, taskId: string, upload: BufferUploader)
    ensures CaptureDomSnapshot(Done(html), submissionId, taskId, upload)
      == upload(Utf8(html), "evidence/" + submissionId + "/" + taskId + "/dom.html", "text/html")
  {
  }

  /** Within one submission, different tasks never share a screenshot or a
      DOM path. */
  lemma {:induction false} TaskPathsInjective(submissionId: string, t1: string, t2: string)
    ensures ScreenshotPath(submissionId, t1) == ScreenshotPath(submissionId, t2) ==> t1 == t2
    ensures DomPath(submissionId, t1) == DomPath(submissionId, t2) ==> t1 == t2
  {
    var pre := "evidence/" + submissionId + "/";
    InfixCancel(pre, t1, t2, ScreenshotFile);
    InfixCancel(pre, t1, t2, DomFile);
  }

  /** Equal strings with the same prefix and suffix have the same middle. */
  lemma InfixCancel(pre: string, m1: string, m2: string, post: string)
    ensures pre + m1 + post == pre + m2 + post ==> m1 == m2
  {
    if pre + m1 + post == pre + m2 + post {
      assert m1 == (pre + m1 + post)[|pre|..|pre| + |m1|];
      assert m2 == (pre + m2 + post)[|pre|..|pre| + |m2|];
    }
  }

  /** The three kinds of evidence never overwrite one another, whatever the
      ids: the paths end in `g`, `l` and `m`. */
  lemma EvidenceKindsDistinct(s1: string, t1: string, s2: string, t2: string, s3: string)
    ensures ScreenshotPath(s1, t1) != DomPath(s2, t2)
    ensures ScreenshotPath(s1, t1) != VideoPath(s3)
    ensures DomPath(s2, t2) != VideoPath(s3)
  {
    var a := ScreenshotPath(s1, t1);
    var b := DomPath(s2, t2);
    var c := VideoPath(s3);
    assert a[|a| - 1] == ScreenshotFile[|ScreenshotFile| - 1] == 'g';
    assert b[|b| - 1] == DomFile[|DomFile| - 1] == 'l';
    assert c[|c| - 1] == VideoFile[|VideoFile| - 1] == 'm';
  }

  /** Inserting the ids unescaped lets two different submission/task pairs
      share a path: a `/` may sit in either id. */
  lemma UnescapedIdsCollide()
    ensures ScreenshotPath("a/b", "c") == ScreenshotPath("a", "b/c")
  {
  }

  /** No page, or no video, gives `undefined` whatever the uploader does. */
  lemma SaveVideoWithoutVideo(pages: seq<PageVideo>, submissionId: string, upload: FileUploader)
    requires |pages| == 0 || pages[0].NoVideo?
    ensures SaveVideo(pages, submissionId, upload) == Done(None)
  {
  }

  /** Only the first page counts: the pages after it have no effect. */
  lemma SaveVideoFirstPage(first: PageVideo, rest1: seq<PageVideo>, rest2: seq<PageVideo>,
                           submissionId: string, upload: FileUploader)
    ensures SaveVideo([first] + rest1, submissionId, upload) == SaveVideo([first] + rest2, submissionId, upload)
  {
    assert ([first] + rest1)[0] == first == ([first] + rest2)[0];
  }

  /** A video whose path resolves is uploaded to
      `evidence/<submission>/recording.webm`; the result is the upload's URL,
      or its rejection. A failing `path()` gives `undefined`. */
  lemma SaveVideoUpload(local: Attempt<string>, rest: seq<PageVideo>, submissionId: string, upload: FileUploader)
    ensures local.Threw? ==> SaveVideo([Video(local)] + rest, submissionId, upload) == Done(None)
    ensures local.Done? ==>
      var u := upload(local.value, "evidence/" + submissionId + "/recording.webm");
      SaveVideo([Video(local)] + rest, submissionId, upload) == if u.Done? then Done(Some(u.value)) else Threw(u.error)
  {
    assert ([Video(local)] + rest)[0] == Video(local);
  }
}
