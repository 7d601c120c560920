/** The string side of image storage: which uploads are accepted, the name a
    stored file gets, the URL handed back, and the file name recovered from
    such a URL when the image is deleted. The UUID is an input. */
module FileStorage {
  import opened Base
  import opened Strings

  const UploadsPrefix := "/uploads/"
  const ImageContentTypePrefix := "image/"
  const DefaultExtension := ".jpg"
  const OnlyImagesMessage := "Only image files are allowed"

  /** An uploaded part: its declared content type and original file name,
      either of which the client may omit. */
  datatype UploadedFile = UploadedFile(contentType: Option<string>, originalFilename: Option<string>)

  predicate IsImage(f: UploadedFile) {
    f.contentType.Some? && StartsWith(f.contentType.value, ImageContentTypePrefix)
  }

  /** The original name's suffix from its last '.', or ".jpg" when there is
      no name or no '.' in it. */
  function Extension(originalFilename: Option<string>): (r: string)
    ensures originalFilename.None? || '.' !in originalFilename.value ==> r == DefaultExtension
    ensures originalFilename.Some? && '.' in originalFilename.value ==>
      var name := originalFilename.value;
      && 1 <= |r| <= |name| && name[|name| - |r|..] == r
      && r[0] == '.' && '.' !in r[1..]
  {
    if originalFilename.Some? && '.' in originalFilename.value then
      var name := originalFilename.value;
      name[LastIndexOf(name, '.')..]
    else DefaultExtension
  }

  function StoredFilename(uuid: string, f: UploadedFile): string {
    uuid + Extension(f.originalFilename)
  }

  /** `storeFile`: a non-image is refused; otherwise the URL under /uploads/
      of the generated file name. */
  function StoreFile(f: UploadedFile, uuid: string): (r: Result<string>)
    ensures r.Ok? <==> IsImage(f)
    ensures r.Err? ==> r.error == IllegalArgument(OnlyImagesMessage)
    ensures r.Ok? ==>
      && StartsWith(r.value, UploadsPrefix)
      && r.value[|UploadsPrefix|..] == StoredFilename(uuid, f)
  {
    if !IsImage(f) then Err(IllegalArgument(OnlyImagesMessage))
    else Ok(UploadsPrefix + StoredFilename(uuid, f))
  }

  /** `deleteFile`: the file name a URL designates under the upload
      directory, or nothing for a missing URL or one outside /uploads/. */
  function FileToDelete(fileUrl: Option<string>): (r: Option<string>)
    ensures r.Some? <==> fileUrl.Some? && StartsWith(fileUrl.value, UploadsPrefix)
    ensures r.Some? ==> fileUrl.value == UploadsPrefix + r.value
  {
    if fileUrl.None? || !StartsWith(fileUrl.value, UploadsPrefix) then None
    else Some(fileUrl.value[|UploadsPrefix|..])
  }

  /** Deleting by the URL that `storeFile` returned designates exactly the
      file it stored. */
  lemma StoreThenDeleteRoundTrip(f: UploadedFile, uuid: string)
    requires IsImage(f)
    ensures FileToDelete(Some(StoreFile(f, uuid).value)) == Some(StoredFilename(uuid, f))
  {
  }

  /** An original name's extension survives storage. */
  lemma ExtensionKept(base: string, ext: string)
    requires '.' !in ext
    ensures Extension(Some(base + "." + ext)) == "." + ext
  {
    var name := base + "." + ext;
    assert name[|base|] == '.';
    var k := LastIndexOf(name, '.');
    assert k == |base|;
    assert name[k..] == "." + ext;
  }
}
