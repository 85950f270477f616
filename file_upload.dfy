/**
 * The backend's `/api/files` controller: an upload is stored in the upload directory under a
 * fresh name made of a random UUID and the original file's extension, and is downloaded again
 * by that name. The UUID and the I/O failures of the file system are inputs.
 */
module FileUpload {
  import opened Wrappers
  import opened Text
  import opened Web

  type Bytes = seq<bv8>

  /** The parts of a `MultipartFile` the controller reads. */
  datatype MultipartFile = MultipartFile(originalFilename: Option<string>, content: Bytes, contentType: Option<string>)

  /** An `IOException` the file system raises, by message; `None` when the operation succeeds. */
  datatype IoFaults = IoFaults(createDirectoryError: Option<string>, copyError: Option<string>)

  /** The JSON map of an upload reply. */
  datatype UploadBody =
    | Uploaded(filename: string, originalName: string, url: string, size: string, contentType: Option<string>)
    | UploadError(error: string)

  /** Exceptions the controller does not catch. */
  datatype Uncaught =
    | NullPointer              // no original file name
    | StringIndexOutOfBounds   // an original file name without a dot

  const DownloadPrefix := "/api/files/download/"
  const UploadErrorPrefix := "Failed to upload file: "

  /** The upload directory: whether it exists yet, and the stored files by name. */
  datatype Disk = Disk(directoryExists: bool, files: map<string, Bytes>)

  /** `originalFilename.substring(originalFilename.lastIndexOf("."))`. */
  function Extension(original: string): (r: Option<string>)
    ensures r.None? <==> '.' !in original
    ensures r.Some? ==> |r.value| >= 1 && r.value[0] == '.' && '.' !in r.value[1..] && EndsWith(original, r.value)
  {
    var dot := LastIndexOf(original, '.');
    if dot < 0 then None
    else
      assert original[dot..][1..] == original[dot + 1..];
      Some(original[dot..])
  }

  /** The whole upload: the new disk and the reply or the exception that escapes. `directory` is
      the configured upload directory, used in the message of a name clash. */
  function UploadSpec(disk: Disk, directory: string, file: MultipartFile, uuid: string, faults: IoFaults)
    : (Disk, Result<Response<UploadBody>, Uncaught>)
  {
    if !disk.directoryExists && faults.createDirectoryError.Some? then
      (disk, Success(Response(400, UploadError(UploadErrorPrefix + faults.createDirectoryError.value))))
    else
      var ready := disk.(directoryExists := true);
      if file.originalFilename.None? then (ready, Failure(NullPointer))
      else
        var original := file.originalFilename.value;
        match Extension(original)
        case None => (ready, Failure(StringIndexOutOfBounds))
        case Some(extension) =>
          var filename := uuid + extension;
          if filename in ready.files then
            // `Files.copy` refuses to replace a file: FileAlreadyExistsException, an IOException
            (ready, Success(Response(400, UploadError(UploadErrorPrefix + directory + "/" + filename))))
          else if faults.copyError.Some? then
            (ready, Success(Response(400, UploadError(UploadErrorPrefix + faults.copyError.value))))
          else
            (ready.(files := ready.files[filename := file.content]),
             Success(Response(200, Uploaded(filename, original, DownloadPrefix + filename,
                                            DecimalString(|file.content|), file.contentType))))
  }

  /** An accepted upload is stored under the UUID followed by the original's extension, the reply
      names that file and its download URL, and the size reads back as the content's length. */
  lemma UploadNaming(disk: Disk, directory: string, file: MultipartFile, uuid: string, faults: IoFaults)
    ensures var (after, r) := UploadSpec(disk, directory, file, uuid, faults);
      r.Success? && r.value.status == 200 ==>
        && file.originalFilename.Some?
        && var extension := Extension(file.originalFilename.value);
        && extension.Some?
        && r.value.body.filename == uuid + extension.value
        && EndsWith(r.value.body.filename, extension.value)
        && EndsWith(file.originalFilename.value, extension.value)
        && r.value.body.url == DownloadPrefix + r.value.body.filename
        && ParseDecimal(r.value.body.size) == |file.content|
        && after.files == disk.files[r.value.body.filename := file.content]
  {
    var (after, r) := UploadSpec(disk, directory, file, uuid, faults);
    if r.Success? && r.value.status == 200 {
      ParseDecimalString(|file.content|);
      var extension := Extension(file.originalFilename.value).value;
      assert EndsWith(uuid + extension, extension) by {
        assert (uuid + extension)[|uuid + extension| - |extension|..] == extension;
      }
    }
  }

  /** An upload never replaces or removes a stored file, and it adds at most one; the exceptions
      are exactly a missing name and a name without a dot. */
  lemma UploadOnlyAdds(disk: Disk, directory: string, file: MultipartFile, uuid: string, faults: IoFaults)
    ensures var (after, r) := UploadSpec(disk, directory, file, uuid, faults);
      && (forall name :: name in disk.files ==> name in after.files && after.files[name] == disk.files[name])
      && (r.Success? && r.value.status != 200 ==> after.files == disk.files)
      && (r.Failure? ==> after.files == disk.files)
      && (r.Failure? <==>
            (disk.directoryExists || faults.createDirectoryError.None?)
            && (file.originalFilename.None? || '.' !in file.originalFilename.value))
  {
    var (after, r) := UploadSpec(disk, directory, file, uuid, faults);
    if disk.directoryExists || faults.createDirectoryError.None? {
      if file.originalFilename.Some? {
        var extension := Extension(file.originalFilename.value);
        if extension.Some? {
          var filename := uuid + extension.value;
          if filename !in disk.files && faults.copyError.None? {
            assert after.files == disk.files[filename := file.content];
          } else {
            assert after.files == disk.files;
          }
        }
      }
    }
  }

  /** The reply to `GET /api/files/download/{filename}`. */
  datatype DownloadBody =
    | Attachment(contentDisposition: string, content: Bytes)
    | Empty

  /** `downloadFile` on the controller's disk (`FileUploadController.State()`); `malformed` says
      whether building the resource URL fails. Downloading changes nothing. */
  function DownloadSpec(disk: Disk, filename: string, malformed: bool): (r: Response<DownloadBody>)
    ensures r.status == 200 <==> !malformed && filename in disk.files
    ensures r.status == 200 ==>
      r.body == Attachment("attachment; filename=\"" + filename + "\"", disk.files[filename])
    ensures r.status != 200 ==> r.body == Empty && (r.status == 400 <==> malformed)
  {
    if malformed then Response(400, Empty)
    else if filename in disk.files then
      Response(200, Attachment("attachment; filename=\"" + filename + "\"", disk.files[filename]))
    else Response(404, Empty)
  }

  /** The download path variable of a URL the upload reply gives. */
  function DownloadName(url: string): (r: Option<string>)
    ensures r.Some? <==> DownloadPrefix <= url
    ensures r.Some? ==> url == DownloadPrefix + r.value
  {
    if DownloadPrefix <= url then
      assert url == DownloadPrefix + url[|DownloadPrefix|..];
      Some(url[|DownloadPrefix|..])
    else None
  }

  /** Following the URL of an accepted upload downloads exactly the uploaded content. */
  lemma UploadThenDownload(disk: Disk, directory: string, file: MultipartFile, uuid: string, faults: IoFaults)
    ensures var (after, r) := UploadSpec(disk, directory, file, uuid, faults);
      r.Success? && r.value.status == 200 ==>
        && DownloadName(r.value.body.url) == Some(r.value.body.filename)
        && DownloadSpec(after, r.value.body.filename, false).status == 200
        && DownloadSpec(after, r.value.body.filename, false).body.content == file.content
  {
    var (after, r) := UploadSpec(disk, directory, file, uuid, faults);
    if r.Success? && r.value.status == 200 {
      var url := r.value.body.url;
      assert url[|DownloadPrefix|..] == r.value.body.filename;
    }
  }

  /** The controller with its upload directory. */
  class FileUploadController {
    const uploadDirectory: string
    var directoryExists: bool
    var files: map<string, Bytes>

    function State(): Disk
      reads this
    {
      Disk(directoryExists, files)
    }

    constructor (uploadDirectory: string, disk: Disk)
      ensures this.uploadDirectory == uploadDirectory && State() == disk
    {
      this.uploadDirectory := uploadDirectory;
      directoryExists := disk.directoryExists;
      files := disk.files;
    }

    /** `uploadFile`. */
    method UploadFile(file: MultipartFile, uuid: string, faults: IoFaults)
      returns (r: Result<Response<UploadBody>, Uncaught>)
      modifies this
      ensures (State(), r) == UploadSpec(old(State()), uploadDirectory, file, uuid, faults)
    {
      if !directoryExists {
        if faults.createDirectoryError.Some? {
          return Success(Response(400, UploadError(UploadErrorPrefix + faults.createDirectoryError.value)));
        }
        directoryExists := true;
      }
      if file.originalFilename.None? {
        return Failure(NullPointer);
      }
      var original := file.originalFilename.value;
      var dot := LastIndexOf(original, '.');
      if dot < 0 {
        return Failure(StringIndexOutOfBounds);
      }
      var filename := uuid + original[dot..];
      if filename in files {
        return Success(Response(400, UploadError(UploadErrorPrefix + uploadDirectory + "/" + filename)));
      }
      if faults.copyError.Some? {
        return Success(Response(400, UploadError(UploadErrorPrefix + faults.copyError.value)));
      }
      files := files[filename := file.content];
      r := Success(Response(200, Uploaded(filename, original, DownloadPrefix + filename,
                                          DecimalString(|file.content|), file.contentType)));
    }
  }
}
