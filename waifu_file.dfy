/** The domain records of WaifuFile.kt: an uploaded file as the server
    describes it, its option flags, and the options of one upload request.
    Kotlin's default arguments become constructor defaults. */
module WaifuFileModel {
  import opened Wrappers
  import opened Platform

  /** The flags the server reports for a stored file. */
  datatype FileOptions = FileOptions(
    hideFilename: bool := false,
    oneTimeDownload: bool := false,
    protected: bool := false)

  /** A file stored on the server; bucket, id and views are optional. */
  datatype WaifuFile = WaifuFile(
    token: string,
    url: string,
    options: FileOptions,
    retentionPeriod: string,
    bucket: Option<string> := None,
    id: Option<int32> := None,
    views: Option<int32> := None)

  /** What a caller may ask of one upload; every field has a default. */
  datatype FileUploadOptions = FileUploadOptions(
    expires: Option<string> := None,
    hideFilename: bool := false,
    password: Option<string> := None,
    oneTimeDownload: bool := false,
    bucketToken: Option<string> := None)

  /** Omitted arguments take their defaults: all flags false, all optional fields absent. */
  lemma Defaults(token: string, url: string, options: FileOptions, retention: string)
    ensures FileOptions() == FileOptions(false, false, false)
    ensures FileUploadOptions() == FileUploadOptions(None, false, None, false, None)
    ensures WaifuFile(token, url, options, retention) == WaifuFile(token, url, options, retention, None, None, None)
  {
  }

  /** Naming one argument leaves every other field at its default. */
  lemma PasswordOnly(password: string)
    ensures FileUploadOptions(password := Some(password)) == FileUploadOptions(None, false, Some(password), false, None)
  {
  }

  /** Data-class equality: two records are equal exactly when all their fields are. */
  lemma StructuralEquality(a: WaifuFile, b: WaifuFile)
    ensures a == b <==>
      a.token == b.token && a.url == b.url && a.options == b.options && a.retentionPeriod == b.retentionPeriod &&
      a.bucket == b.bucket && a.id == b.id && a.views == b.views
  {
  }
}
