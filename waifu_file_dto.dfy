/** The wire records of WaifuFileDto.kt, as decoded from the server's JSON. */
module Dto {
  import opened Wrappers
  import opened Platform

  /** Option flags of a stored file; a flag absent from the JSON is false. */
  datatype FileOptionsDto = FileOptionsDto(
    hideFilename: bool := false,
    oneTimeDownload: bool := false,
    protected: bool := false)

  /** The server's file record: token, url, options and retentionPeriod are
      required; bucket, id and views may be absent. */
  datatype WaifuFileDto = WaifuFileDto(
    token: string,
    url: string,
    options: FileOptionsDto,
    retentionPeriod: string,
    bucket: Option<string> := None,
    id: Option<int32> := None,
    views: Option<int32> := None)

  /** The server's error object; all three fields are required. */
  datatype ErrorResponse = ErrorResponse(name: string, message: string, status: int32)

  /** Fields left out of a record take their defaults. */
  lemma DtoDefaults(token: string, url: string, retention: string)
    ensures FileOptionsDto() == FileOptionsDto(false, false, false)
    ensures WaifuFileDto(token, url, FileOptionsDto(), retention) ==
            WaifuFileDto(token, url, FileOptionsDto(false, false, false), retention, None, None, None)
  {
  }
}
