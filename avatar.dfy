/** The avatar upload's file check: the picture's URI must end, ignoring case, in one of the
    allowed extensions; the file part is then always named and typed as a JPEG. */
module Avatar {
  import opened Text

  const AllowedExtensions: seq<string> := [".jpg", ".jpeg", ".png"]

  const UnsupportedText := "Chỉ hỗ trợ ảnh định dạng .jpg, .jpeg, .png"

  /** `allowedExtensions.some(ext => imageUri.toLowerCase().endsWith(ext))`. */
  predicate ExtensionAllowed(imageUri: string) {
    exists k :: 0 <= k < |AllowedExtensions| && EndsWith(ToLower(imageUri), AllowedExtensions[k])
  }

  /** The `file` entry of the form data. */
  datatype FilePart = FilePart(uri: string, name: string, mimeType: string)

  /** The check's verdict: the error thrown, or the part that is uploaded. */
  datatype Upload = Unsupported(message: string) | Sent(part: FilePart)

  function UploadAvatar(imageUri: string): (r: Upload)
    ensures r.Sent? <==> ExtensionAllowed(imageUri)
    ensures r.Sent? ==> r.part.uri == imageUri && r.part.name == "avatar.jpg" && r.part.mimeType == "image/jpeg"
    ensures r.Unsupported? ==> r.message == UnsupportedText
  {
    if ExtensionAllowed(imageUri) then Sent(FilePart(imageUri, "avatar.jpg", "image/jpeg"))
    else Unsupported(UnsupportedText)
  }

  /** Lower-casing works character by character, so it distributes over concatenation. */
  lemma {:induction false} ToLowerAppend(a: string, b: string)
    ensures ToLower(a + b) == ToLower(a) + ToLower(b)
  {
    var l, r := ToLower(a + b), ToLower(a) + ToLower(b);
    assert |l| == |r|;
    forall k | 0 <= k < |l| ensures l[k] == r[k] {
      if k < |a| {
        assert (a + b)[k] == a[k];
      } else {
        assert (a + b)[k] == b[k - |a|];
      }
    }
  }

  /** The check ignores case: a URI and its lower-cased form are accepted alike. */
  lemma ExtensionCaseInsensitive(imageUri: string)
    ensures ExtensionAllowed(imageUri) <==> ExtensionAllowed(ToLower(imageUri))
  {
    ToLowerIdempotent(imageUri);
  }

  /** Only the last five characters decide: the longest extension, ".jpeg", has five. */
  lemma OnlyEndingMatters(prefix: string, ending: string)
    requires |ending| >= 5
    ensures ExtensionAllowed(prefix + ending) <==> ExtensionAllowed(ending)
  {
    ToLowerAppend(prefix, ending);
    var whole, tail := ToLower(prefix + ending), ToLower(ending);
    forall k | 0 <= k < |AllowedExtensions|
      ensures EndsWith(whole, AllowedExtensions[k]) <==> EndsWith(tail, AllowedExtensions[k])
    {
      var ext := AllowedExtensions[k];
      assert whole[|whole| - |ext|..] == tail[|tail| - |ext|..];
    }
  }

  /** A URI ending in ".png" is accepted and still sent as "avatar.jpg" of type image/jpeg. */
  lemma PngSentAsJpeg(prefix: string)
    ensures UploadAvatar(prefix + ".png") == Sent(FilePart(prefix + ".png", "avatar.jpg", "image/jpeg"))
  {
    var uri := prefix + ".png";
    ToLowerAppend(prefix, ".png");
    LowersItself(".png");
    assert EndsWith(ToLower(uri), AllowedExtensions[2]);
  }

  /** A URI ending in ".gif" is refused: every allowed extension ends in 'g'. */
  lemma GifRefused(prefix: string)
    ensures UploadAvatar(prefix + ".gif") == Unsupported(UnsupportedText)
  {
    var uri := prefix + ".gif";
    ToLowerAppend(prefix, ".gif");
    LowersItself(".gif");
    var low := ToLower(uri);
    assert low == ToLower(prefix) + ".gif";
    assert low[|low| - 1] == 'f';
    forall k | 0 <= k < |AllowedExtensions| ensures !EndsWith(low, AllowedExtensions[k]) {
      var ext := AllowedExtensions[k];
      assert 0 < |ext| <= 5 && ext[|ext| - 1] == 'g';
      if |ext| <= |low| {
        assert low[|low| - |ext|..][|ext| - 1] == 'f';
      }
    }
  }

  /** A string without upper-case ASCII letters lower-cases to itself. */
  lemma LowersItself(s: string)
    requires forall k :: 0 <= k < |s| ==> !IsAsciiUpper(s[k])
    ensures ToLower(s) == s
  {
  }
}
