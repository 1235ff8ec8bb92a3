/**
 * The product-image upload: the size and format checks, the generated file
 * name and path, the row saved for the image, and the progress values shown
 * along the way. Reading the file, the clock, the random suffix and the
 * database answer are parameters.
 */
module ImageUpload {
  import opened Basics
  import opened Text

  /** The largest accepted file, in bytes: five mebibytes. */
  const MaxBytes: nat := 5 * 1024 * 1024

  /** The five accepted MIME types, compared exactly. */
  const AllowedTypes: seq<string> := ["image/jpeg", "image/jpg", "image/png", "image/gif", "image/webp"]

  datatype ImageFile = ImageFile(name: string, size: nat, mimeType: string)

  datatype UploadError = TooLarge | UnsupportedType | ReadFailed | SaveFailed(message: string)

  /** The row inserted into the image table; the data URL of the file doubles as its public URL. */
  datatype ImageRow = ImageRow(
    fileName: string, filePath: string, fileSize: nat, mimeType: string, publicUrl: string, originalName: string)

  /** What a successful upload returns. */
  datatype UploadedImage = UploadedImage(url: string, name: string, size: nat, path: string)

  /** The file checks, size first: a file that is too large is reported as such whatever its type. */
  function Validate(f: ImageFile): (r: Option<UploadError>)
    ensures r.None? <==> f.size <= MaxBytes && f.mimeType in AllowedTypes
    ensures f.size > MaxBytes ==> r == Some(TooLarge)
    ensures f.size <= MaxBytes && f.mimeType !in AllowedTypes ==> r == Some(UnsupportedType)
  {
    if f.size > MaxBytes then Some(TooLarge)
    else if f.mimeType !in AllowedTypes then Some(UnsupportedType)
    else None
  }

  /** `file.name.split('.').pop()`: the text after the last dot, or the whole name when it has none. */
  function Extension(name: string): (r: string)
    ensures '.' !in r
    ensures |r| <= |name| && r == name[|name| - |r|..]
    ensures '.' !in name ==> r == name
  {
    var r := LastSegment(name, '.');
    if '.' !in name then
      assert name[|name| - |r|..] == name;
      r
    else r
  }

  /** The stored name: the upload time in milliseconds, a dash, the random suffix, a dot, and the original extension. */
  function FileName(timestamp: nat, randomSuffix: string, originalName: string): string
  {
    NatToString(timestamp) + "-" + randomSuffix + "." + Extension(originalName)
  }

  /** The stored path: the name under the `products/` folder. */
  function FilePath(fileName: string): string
  {
    "products/" + fileName
  }

  /** One run of `uploadImage`: its outcome, every progress value set in order, the row sent if any, and the error state left. */
  datatype UploadRun = UploadRun(
    result: Result<UploadedImage, UploadError>, progress: seq<nat>, sent: Option<ImageRow>,
    uploading: bool, error: Option<UploadError>)

  /**
   * `uploadImage`. `dataUrl` is the reader's result (none when reading
   * fails); `saveError` is the database's error, if any; on success the
   * database hands back the row as inserted.
   */
  function Upload(f: ImageFile, dataUrl: Option<string>, timestamp: nat, randomSuffix: string,
                  saveError: Option<string>): (r: UploadRun)
    ensures r.result.Ok? <==> Validate(f).None? && dataUrl.Some? && saveError.None?
    ensures Validate(f).Some? ==> r.result == Err(Validate(f).value) && r.sent.None?
    ensures Validate(f).None? && dataUrl.None? ==> r.result == Err(ReadFailed) && r.sent.None?
    ensures Validate(f).None? && dataUrl.Some? && saveError.Some? ==> r.result == Err(SaveFailed(saveError.value))
    ensures r.sent.Some? <==> Validate(f).None? && dataUrl.Some?
    ensures r.sent.Some? ==>
              var name := FileName(timestamp, randomSuffix, f.name);
              r.sent.value == ImageRow(name, FilePath(name), f.size, f.mimeType, dataUrl.value, f.name)
    ensures r.result.Ok? ==>
              r.result.value == UploadedImage(r.sent.value.publicUrl, r.sent.value.fileName, f.size, r.sent.value.filePath)
    ensures r.result.Err? ==> r.error == Some(r.result.error)
    ensures r.result.Ok? ==> r.error.None?
    ensures !r.uploading
  {
    match Validate(f)
    case Some(e) => UploadRun(Err(e), [0], None, false, Some(e))
    case None =>
      match dataUrl
      case None => UploadRun(Err(ReadFailed), [0, 25], None, false, Some(ReadFailed))
      case Some(url) =>
        var name := FileName(timestamp, randomSuffix, f.name);
        var row := ImageRow(name, FilePath(name), f.size, f.mimeType, url, f.name);
        match saveError
        case Some(m) => UploadRun(Err(SaveFailed(m)), [0, 25, 50, 75], Some(row), false, Some(SaveFailed(m)))
        case None => UploadRun(Ok(UploadedImage(row.publicUrl, row.fileName, row.fileSize, row.filePath)),
                               [0, 25, 50, 75, 100], Some(row), false, None)
  }

  predicate NonDecreasing(s: seq<nat>) { forall i, j :: 0 <= i <= j < |s| ==> s[i] <= s[j] }

  // ---- proofs ----

  /** Progress starts at zero and never goes back; it reaches 100 exactly when the upload succeeds. */
  lemma ProgressLaws(f: ImageFile, dataUrl: Option<string>, timestamp: nat, randomSuffix: string, saveError: Option<string>)
    ensures var r := Upload(f, dataUrl, timestamp, randomSuffix, saveError);
            && |r.progress| > 0 && r.progress[0] == 0
            && NonDecreasing(r.progress)
            && (forall i :: 0 <= i < |r.progress| ==> r.progress[i] <= 100)
            && (r.progress[|r.progress| - 1] == 100 <==> r.result.Ok?)
  {
  }

  /** A successful upload reports the values 0, 25, 50, 75 and 100 in that order. */
  lemma SuccessProgress(f: ImageFile, dataUrl: Option<string>, timestamp: nat, randomSuffix: string, saveError: Option<string>)
    requires Upload(f, dataUrl, timestamp, randomSuffix, saveError).result.Ok?
    ensures Upload(f, dataUrl, timestamp, randomSuffix, saveError).progress == [0, 25, 50, 75, 100]
  {
  }

  /** A file of exactly five mebibytes passes; one byte more is refused as too large, whatever its type. */
  lemma SizeBoundary(name: string, mimeType: string)
    ensures mimeType in AllowedTypes ==> Validate(ImageFile(name, MaxBytes, mimeType)).None?
    ensures Validate(ImageFile(name, MaxBytes + 1, mimeType)) == Some(TooLarge)
  {
  }

  /** The type check is exact: an upper-case MIME type is refused. */
  lemma TypeIsCaseSensitive(name: string)
    ensures Validate(ImageFile(name, 0, "IMAGE/PNG")) == Some(UnsupportedType)
  {
    assert forall i :: 0 <= i < |AllowedTypes| ==> AllowedTypes[i][0] == 'i';
  }

  /** The extension read back from the generated name is the original file's. */
  lemma ExtensionRoundTrip(timestamp: nat, randomSuffix: string, originalName: string)
    ensures Extension(FileName(timestamp, randomSuffix, originalName)) == Extension(originalName)
  {
    var ext := Extension(originalName);
    var name := FileName(timestamp, randomSuffix, originalName);
    assert name == (NatToString(timestamp) + "-" + randomSuffix) + ['.'] + ext;
    LastSegmentAfterSep(NatToString(timestamp) + "-" + randomSuffix, '.', ext);
  }

  /** A name without a dot becomes its own extension; `photo.tar.gz` keeps only `gz`. */
  lemma ExtensionExamples()
    ensures Extension("foto") == "foto"
    ensures Extension("photo.tar.gz") == "gz"
  {
    assert "photo.tar.gz" == "photo.tar" + ['.'] + "gz";
    LastSegmentAfterSep("photo.tar", '.', "gz");
  }

  /** The sent row's path ends with its name, under the products folder, and keeps the original name and size. */
  lemma RowLayout(f: ImageFile, dataUrl: Option<string>, timestamp: nat, randomSuffix: string, saveError: Option<string>)
    requires Upload(f, dataUrl, timestamp, randomSuffix, saveError).sent.Some?
    ensures var row := Upload(f, dataUrl, timestamp, randomSuffix, saveError).sent.value;
            && row.filePath[..9] == "products/" && row.filePath[9..] == row.fileName
            && row.originalName == f.name && row.fileSize == f.size
            && Extension(row.fileName) == Extension(f.name)
  {
    ExtensionRoundTrip(timestamp, randomSuffix, f.name);
  }
}
