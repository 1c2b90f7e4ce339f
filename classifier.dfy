/** `SmartCache` of proxy/middleware.py: a pure classification of a response
    by its header map. Headers are looked up under their exact lower-case
    names, as the source's plain dictionary does. */
module Classifier {
  import opened Text

  /** `content_type`: the `content-type` entry, or `""`. */
  function ContentType(h: map<string, string>): (r: string)
    ensures "content-type" !in h ==> r == ""
    ensures "content-type" in h ==> r == h["content-type"]
  {
    if "content-type" in h then h["content-type"] else ""
  }

  /** `transfer_encoding`: the `transfer-encoding` entry, or `""`. */
  function TransferEncoding(h: map<string, string>): (r: string)
    ensures "transfer-encoding" !in h ==> r == ""
    ensures "transfer-encoding" in h ==> r == h["transfer-encoding"]
  {
    if "transfer-encoding" in h then h["transfer-encoding"] else ""
  }

  /** `str.startswith('image')`, case-sensitive. */
  predicate IsImageType(ct: string)
  {
    "image" <= ct
  }

  /** `pattern_program` (case-sensitive): `application/octet-stream` or
      `application/x-shockwave` as a prefix, or `font` followed by one line. */
  predicate IsApplicationType(ct: string)
  {
    "application/octet-stream" <= ct || "application/x-shockwave" <= ct ||
    ("font" <= ct && RestOfLine(ct[4..]))
  }

  /** `pattern_media` (case-sensitive): `video/` or `audio/` followed by one line. */
  predicate IsMediaType(ct: string)
  {
    ("video/" <= ct && RestOfLine(ct[6..])) || ("audio/" <= ct && RestOfLine(ct[6..]))
  }

  /** `pattern_text` under `re.I` on the lower-cased type: `text/` followed by
      one line, `application/javascript` or `application/x-javascript` as a
      prefix, `application/xhtml` or `application/vnd` followed by one line. */
  predicate TextPattern(l: string)
  {
    ("text/" <= l && RestOfLine(l[5..])) ||
    "application/javascript" <= l || "application/x-javascript" <= l ||
    ("application/xhtml" <= l && RestOfLine(l[17..])) ||
    ("application/vnd" <= l && RestOfLine(l[15..]))
  }

  /** `is_text` on a content type: the text pattern, or no type at all. */
  predicate IsTextType(ct: string)
    ensures ct == "" ==> IsTextType(ct)
  {
    TextPattern(Lower(ct)) || ct == ""
  }

  /** `is_image`: the response names an image type. */
  predicate IsImage(h: map<string, string>)
    ensures IsImage(h) <==> "content-type" in h && "image" <= h["content-type"]
  {
    IsImageType(ContentType(h))
  }

  /** `is_chunked`: the response is sent in chunks of unknown total length. */
  predicate IsChunked(h: map<string, string>)
    ensures IsChunked(h) <==> "transfer-encoding" in h && h["transfer-encoding"] == "chunked"
  {
    TransferEncoding(h) == "chunked"
  }

  /** `is_application`: a binary program, a Flash object or a font. */
  predicate IsApplication(h: map<string, string>)
    ensures IsApplication(h) ==> "content-type" in h && |h["content-type"]| >= 4
    ensures IsApplication(h) <==> ("content-type" in h &&
              ("application/octet-stream" <= h["content-type"] || "application/x-shockwave" <= h["content-type"] ||
               ("font" <= h["content-type"] && RestOfLine(h["content-type"][4..]))))
  {
    IsApplicationType(ContentType(h))
  }

  /** `is_media`: audio or video. */
  predicate IsMedia(h: map<string, string>)
    ensures IsMedia(h) ==> "content-type" in h && |h["content-type"]| >= 6
    ensures IsMedia(h) <==> ("content-type" in h &&
              ("video/" <= h["content-type"] || "audio/" <= h["content-type"]) && RestOfLine(h["content-type"][6..]))
  {
    IsMediaType(ContentType(h))
  }

  /** `is_text`: a missing or empty content type classifies as text. */
  predicate IsText(h: map<string, string>)
    ensures ContentType(h) == "" ==> IsText(h)
  {
    IsTextType(ContentType(h))
  }

  /** `is_iterable`: the reply is chunked, or has an image, application or
      media type. The proxy itself chooses its bodies by `IsText` and
      `IsCacheable` and never consults this test. */
  predicate IsIterable(h: map<string, string>)
    ensures "content-type" !in h ==> (IsIterable(h) <==> IsChunked(h))
  {
    IsImage(h) || IsChunked(h) || IsApplication(h) || IsMedia(h)
  }

  /** `is_cacheable`: the response is persisted as a file. Narrower than
      `IsIterable`: only images. */
  predicate IsCacheable(h: map<string, string>)
    ensures IsCacheable(h) ==> IsIterable(h)
    ensures IsCacheable(h) <==> IsImage(h)
  {
    IsImage(h)
  }

  /** The text test ignores ASCII case: a type and its lower-cased form
      classify alike. */
  lemma TextIgnoresCase(ct: string)
    ensures IsTextType(ct) <==> IsTextType(Lower(ct))
  {
    LowerIdempotent(ct);
    assert ct == "" <==> Lower(ct) == "";
  }

  /** The image, media and application tests do not ignore case. */
  lemma OtherTestsKeepCase()
    ensures IsImageType("image/png") && !IsImageType("Image/png")
    ensures IsMediaType("video/mp4") && !IsMediaType("Video/mp4")
    ensures IsApplicationType("font/woff") && !IsApplicationType("Font/woff")
    ensures IsTextType("Text/HTML")
  {
    assert "image" <= "image/png";
    assert "Image/png"[0] == 'I' != "image"[0];
    assert "video/" <= "video/mp4" && "video/mp4"[6..] == "mp4";
    assert "Video/mp4"[0] == 'V' != "video/"[0];
    assert "Video/mp4"[0] != "audio/"[0];
    assert "font" <= "font/woff" && "font/woff"[4..] == "/woff";
    assert "Font/woff"[0] == 'F' != "font"[0];
    assert "Font/woff"[0] != "application/octet-stream"[0] && "Font/woff"[0] != "application/x-shockwave"[0];
    assert Lower("Text/HTML") == "text/html";
    assert "text/" <= "text/html" && "text/html"[5..] == "html";
  }

  /** The image, media and application tests match case-sensitively: a type
      that starts with a capital letter passes none of them. */
  lemma BinaryTestsKeepCase(ct: string)
    requires |ct| > 0 && 'A' <= ct[0] <= 'Z'
    ensures !IsImageType(ct) && !IsMediaType(ct) && !IsApplicationType(ct)
  {
  }

  /** An image is never classified as text, so the cacheable branch of the
      proxy is reachable. */
  lemma ImageIsNotText(ct: string)
    requires IsImageType(ct)
    ensures !IsTextType(ct)
  {
    var l := Lower(ct);
    assert l[0] == 'i';
    assert "text/"[0] == 't' && "application/javascript"[0] == 'a' && "application/x-javascript"[0] == 'a';
    assert "application/xhtml"[0] == 'a' && "application/vnd"[0] == 'a';
  }

  /** Only the exact key `content-type` is consulted: a response that names
      the header `Content-Type` classifies as text, whatever its type. */
  lemma CapitalisedHeaderIsText()
    ensures var h := map["Content-Type" := "image/png"];
            IsText(h) && !IsCacheable(h) && !IsIterable(h)
  {
    var h := map["Content-Type" := "image/png"];
    assert "content-type" !in h;
    assert !("image" <= "");
  }
}
