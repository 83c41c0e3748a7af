/** The admin settings page: the checks a logo file passes before upload. */
module AdminSettings {
  import opened Common

  /** The selected file: its MIME type and size in bytes. */
  datatype FileInfo = FileInfo(mimeType: string, size: nat)

  datatype UploadError = NoFile | NotAnImage | TooLarge

  /** 2 MB, `2 * 1024 * 1024` bytes. */
  const MaxLogoBytes: nat := 2 * 1024 * 1024

  /** `uploadLogo`'s guards, in order: a file is selected, its type starts
      with `image/`, it is at most 2 MB. The first failing check wins. */
  function UploadCheck(file: Option<FileInfo>): (r: Result<FileInfo, UploadError>)
    ensures r == Err(NoFile) <==> file.None?
    ensures r == Err(NotAnImage) <==> file.Some? && !StartsWith(file.value.mimeType, "image/")
    ensures r == Err(TooLarge) <==>
      file.Some? && StartsWith(file.value.mimeType, "image/") && file.value.size > 2097152
    ensures r.Ok? ==> r == Ok(file.value)
  {
    match file
    case None => Err(NoFile)
    case Some(f) =>
      if !StartsWith(f.mimeType, "image/") then Err(NotAnImage)
      else if f.size > MaxLogoBytes then Err(TooLarge)
      else Ok(f)
  }

  /** An image of exactly 2 MB is accepted; one byte more is refused. */
  lemma SizeLimitIsInclusive(mimeType: string)
    requires StartsWith(mimeType, "image/")
    ensures UploadCheck(Some(FileInfo(mimeType, 2097152))).Ok?
    ensures UploadCheck(Some(FileInfo(mimeType, 2097153))) == Err(TooLarge)
  {
  }
}
