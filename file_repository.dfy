/** FileRepository.uploadFile and toDomain: which multipart parts an upload
    sends, when the server's answer counts as a success, which message a
    failure carries, and how the server record becomes a domain record.
    HTTP is abstracted: the API is a function from the request to its
    outcome, and JSON decoding of the error body is a partial function. */
module Repository {
  import opened Wrappers
  import opened Platform
  import opened Text
  import opened WaifuFileModel
  import opened Dto

  const FILE_PART_NAME := "file"
  const OCTET_STREAM := "application/octet-stream"
  const UPLOAD_FAILED_PREFIX := "Upload failed: "

  /** A text part of the multipart body. */
  datatype FormPart = FormPart(name: string, text: string)

  /** One multipart upload: the binary part "file" (with the file's name,
      media type and bytes) and the text parts, in the order the API declares them. */
  datatype UploadRequest = UploadRequest(
    partName: string, fileName: string, contentType: string, content: seq<byte>, parts: seq<FormPart>)

  /** A nullable part: Retrofit leaves a null part out of the body. */
  function OptionalPart(name: string, value: Option<string>): seq<FormPart> {
    if value.Some? then [FormPart(name, value.value)] else []
  }

  /** The text parts built from the options: the two flags always, as "true"/"false";
      expires, password and bucket_token only when set. */
  function RequestParts(options: FileUploadOptions): seq<FormPart> {
    OptionalPart("expires", options.expires)
    + [FormPart("hide_filename", BoolToString(options.hideFilename))]
    + OptionalPart("password", options.password)
    + [FormPart("one_time_download", BoolToString(options.oneTimeDownload))]
    + OptionalPart("bucket_token", options.bucketToken)
  }

  function BuildRequest(file: LocalFile, options: FileUploadOptions): UploadRequest {
    UploadRequest(FILE_PART_NAME, file.name, OCTET_STREAM, file.content, RequestParts(options))
  }

  /** The text of the first part with the given name, as a server reads the body. */
  function PartText(parts: seq<FormPart>, name: string): Option<string> {
    if |parts| == 0 then None
    else if parts[0].name == name then Some(parts[0].text)
    else PartText(parts[1..], name)
  }

  lemma {:induction false} PartTextAppend(a: seq<FormPart>, b: seq<FormPart>, name: string)
    ensures PartText(a + b, name) == if PartText(a, name).Some? then PartText(a, name) else PartText(b, name)
    decreases |a|
  {
    if |a| == 0 {
      assert a + b == b;
    } else {
      assert (a + b)[0] == a[0];
      assert (a + b)[1..] == a[1..] + b;
      PartTextAppend(a[1..], b, name);
    }
  }

  /** Looking a name up in the five groups of parts, in order. */
  lemma PartTextOfGroups(e: seq<FormPart>, h: seq<FormPart>, p: seq<FormPart>, o: seq<FormPart>, b: seq<FormPart>,
                         name: string)
    ensures PartText(e + h + p + o + b, name) ==
      if PartText(e, name).Some? then PartText(e, name)
      else if PartText(h, name).Some? then PartText(h, name)
      else if PartText(p, name).Some? then PartText(p, name)
      else if PartText(o, name).Some? then PartText(o, name)
      else PartText(b, name)
  {
    assert e + h + p + o + b == e + (h + (p + (o + b)));
    PartTextAppend(e, h + (p + (o + b)), name);
    PartTextAppend(h, p + (o + b), name);
    PartTextAppend(p, o + b, name);
    PartTextAppend(o, b, name);
  }

  /** hide_filename and one_time_download are always sent as "true"/"false";
      expires, password and bucket_token are present exactly when the option is
      set, and then carry its text. */
  lemma RequestPartsContent(options: FileUploadOptions)
    ensures PartText(RequestParts(options), "hide_filename") == Some(BoolToString(options.hideFilename))
    ensures PartText(RequestParts(options), "one_time_download") == Some(BoolToString(options.oneTimeDownload))
    ensures PartText(RequestParts(options), "expires") == options.expires
    ensures PartText(RequestParts(options), "password") == options.password
    ensures PartText(RequestParts(options), "bucket_token") == options.bucketToken
  {
    var e := OptionalPart("expires", options.expires);
    var h := [FormPart("hide_filename", BoolToString(options.hideFilename))];
    var p := OptionalPart("password", options.password);
    var o := [FormPart("one_time_download", BoolToString(options.oneTimeDownload))];
    var b := OptionalPart("bucket_token", options.bucketToken);
    PartTextOfGroups(e, h, p, o, b, "expires");
    PartTextOfGroups(e, h, p, o, b, "hide_filename");
    PartTextOfGroups(e, h, p, o, b, "password");
    PartTextOfGroups(e, h, p, o, b, "one_time_download");
    PartTextOfGroups(e, h, p, o, b, "bucket_token");
  }

  /** How a server reads a flag part. */
  function ParseBool(s: string): bool {
    s == "true"
  }

  /** The options a server reads back from the text parts. */
  function OptionsFromParts(parts: seq<FormPart>): FileUploadOptions {
    FileUploadOptions(
      expires := PartText(parts, "expires"),
      hideFilename := ParseBool(PartText(parts, "hide_filename").GetOr("false")),
      password := PartText(parts, "password"),
      oneTimeDownload := ParseBool(PartText(parts, "one_time_download").GetOr("false")),
      bucketToken := PartText(parts, "bucket_token"))
  }

  /** The request carries the options without loss: reading its parts gives them back. */
  lemma PartsRoundTrip(options: FileUploadOptions)
    ensures OptionsFromParts(RequestParts(options)) == options
  {
    RequestPartsContent(options);
  }

  /** The HTTP answer as Retrofit presents it: the status code, the decoded body
      (if any), the raw error body (None when absent or unreadable) and the status message. */
  datatype HttpResponse = HttpResponse(
    code: int, body: Option<WaifuFileDto>, errorBody: Option<string>, message: string)
  {
    /** Retrofit's `isSuccessful`: a 2xx status code. */
    predicate IsSuccessful() {
      200 <= code < 300
    }
  }

  /** One API call either answers or throws. */
  datatype ApiOutcome = Responded(response: HttpResponse) | Threw(exception: Exception)

  /** The server record as a domain record: every field copied, the flags taken from the server. */
  function ToDomain(dto: WaifuFileDto): WaifuFile {
    WaifuFile(
      token := dto.token,
      url := dto.url,
      options := FileOptions(dto.options.hideFilename, dto.options.oneTimeDownload, dto.options.protected),
      retentionPeriod := dto.retentionPeriod,
      bucket := dto.bucket,
      id := dto.id,
      views := dto.views)
  }

  /** The inverse mapping, a domain record back to the wire record. */
  function FromDomain(f: WaifuFile): WaifuFileDto {
    WaifuFileDto(f.token, f.url, FileOptionsDto(f.options.hideFilename, f.options.oneTimeDownload, f.options.protected),
                 f.retentionPeriod, f.bucket, f.id, f.views)
  }

  /** toDomain loses nothing and invents nothing: it is a bijection between the two records. */
  lemma ToDomainBijective(dto: WaifuFileDto, f: WaifuFile)
    ensures FromDomain(ToDomain(dto)) == dto
    ensures ToDomain(FromDomain(f)) == f
    ensures ToDomain(dto) == f <==> dto == FromDomain(f)
  {
  }

  /** The server's own message, when the error body is there and decodes as an ErrorResponse. */
  function DecodedMessage(errorBody: Option<string>, decode: string -> Option<ErrorResponse>): Option<string> {
    if errorBody.Some? && decode(errorBody.value).Some? then Some(decode(errorBody.value).value.message) else None
  }

  /** The message of a failed response: the server's message, else "Upload failed: " and the status message. */
  function FailureMessage(response: HttpResponse, decode: string -> Option<ErrorResponse>): (m: string)
    ensures DecodedMessage(response.errorBody, decode).None? ==> m == UPLOAD_FAILED_PREFIX + response.message
    ensures response.errorBody.Some? && decode(response.errorBody.value).Some? ==>
              m == decode(response.errorBody.value).value.message
  {
    DecodedMessage(response.errorBody, decode).GetOr(UPLOAD_FAILED_PREFIX + response.message)
  }

  /** FileRepository.uploadFile: one API call with the request built from the file and options. */
  function UploadFile(file: LocalFile, options: FileUploadOptions,
                      api: UploadRequest -> ApiOutcome, decode: string -> Option<ErrorResponse>)
    : (r: Result<WaifuFile, Exception>)
    ensures var outcome := api(BuildRequest(file, options));
      && (r.Success? <==> outcome.Responded? && outcome.response.IsSuccessful() && outcome.response.body.Some?)
      && (r.Success? ==> r.value == ToDomain(outcome.response.body.value))
      && (outcome.Threw? ==> r == Failure(outcome.exception))
      && (outcome.Responded? && r.Failure? ==> r.error == Exception(Some(FailureMessage(outcome.response, decode))))
  {
    match api(BuildRequest(file, options))
    case Threw(e) => Failure(e)
    case Responded(response) =>
      if response.IsSuccessful() && response.body.Some? then Success(ToDomain(response.body.value))
      else Failure(Exception(Some(FailureMessage(response, decode))))
  }

  /** Exactly one call, no retry: the result depends on the API only through its
      answer to the one request built from the file and the options. */
  lemma OnlyTheOneRequestMatters(file: LocalFile, options: FileUploadOptions,
                                 api1: UploadRequest -> ApiOutcome, api2: UploadRequest -> ApiOutcome,
                                 decode: string -> Option<ErrorResponse>)
    requires api1(BuildRequest(file, options)) == api2(BuildRequest(file, options))
    ensures UploadFile(file, options, api1, decode) == UploadFile(file, options, api2, decode)
  {
  }

  /** A failure that comes from a response always carries a message; only a thrown
      exception can leave the message absent. */
  lemma ResponseFailuresHaveMessage(file: LocalFile, options: FileUploadOptions,
                                    api: UploadRequest -> ApiOutcome, decode: string -> Option<ErrorResponse>)
    requires UploadFile(file, options, api, decode).Failure?
    ensures UploadFile(file, options, api, decode).error.message.None? ==>
              api(BuildRequest(file, options)) == Threw(Exception(None))
  {
  }

  /** The domain record's flags are the server's, whatever the request asked for. */
  lemma ServerFlagsWin(file: LocalFile, options1: FileUploadOptions, options2: FileUploadOptions,
                       api: UploadRequest -> ApiOutcome, decode: string -> Option<ErrorResponse>)
    requires api(BuildRequest(file, options1)) == api(BuildRequest(file, options2))
    requires UploadFile(file, options1, api, decode).Success?
    ensures UploadFile(file, options2, api, decode).Success?
    ensures UploadFile(file, options1, api, decode).value.options == UploadFile(file, options2, api, decode).value.options
    ensures var dto := api(BuildRequest(file, options1)).response.body.value;
      UploadFile(file, options1, api, decode).value.options ==
        FileOptions(dto.options.hideFilename, dto.options.oneTimeDownload, dto.options.protected)
  {
  }
}
