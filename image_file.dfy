/**
 * The image gate shared by the profile-photo upload and the support screenshot: the
 * file's MIME type must be one of four image types and its size at most 5 MiB. The type
 * is checked first.
 */
module ImageFile {
  import opened Wrappers

  /** What the handlers read from a `File`: its `type` and its `size` in bytes. */
  datatype FileInfo = FileInfo(mimeType: string, size: nat)

  const ALLOWED_TYPES: seq<string> := ["image/jpeg", "image/jpg", "image/png", "image/gif"]
  const MAX_SIZE: nat := 5 * 1024 * 1024

  const TYPE_NOT_ALLOWED := "Only JPEG, PNG, and GIF images are allowed"
  const TOO_LARGE := "File size must be less than 5MB"

  /** The message for a refused file, or `None` when the file may be used. */
  function ImageError(f: FileInfo): (r: Option<string>)
    ensures r == None <==> f.mimeType in ALLOWED_TYPES && f.size <= MAX_SIZE
    ensures r == Some(TYPE_NOT_ALLOWED) <==> f.mimeType !in ALLOWED_TYPES
    ensures r == Some(TOO_LARGE) <==> f.mimeType in ALLOWED_TYPES && f.size > MAX_SIZE
  {
    if f.mimeType !in ALLOWED_TYPES then Some(TYPE_NOT_ALLOWED)
    else if f.size > MAX_SIZE then Some(TOO_LARGE)
    else None
  }

  /**
   * The size limit is inclusive, although the message says "less than 5MB": a PNG of
   * exactly 5 MiB is accepted, one byte more is refused, and a type outside the list is
   * refused whatever its size.
   */
  lemma SizeLimitInclusive()
    ensures ImageError(FileInfo("image/png", 5242880)) == None
    ensures ImageError(FileInfo("image/png", 5242881)) == Some(TOO_LARGE)
    ensures ImageError(FileInfo("image/webp", 10)) == Some(TYPE_NOT_ALLOWED)
  {
    assert "image/webp" !in ALLOWED_TYPES by {
      assert "image/webp"[6] == 'w';
    }
  }
}
