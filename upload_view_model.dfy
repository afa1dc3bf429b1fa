/** UploadViewModel: the batch upload orchestrator and the state it publishes.
    The coroutine runs synchronously; every value written to the observable
    state, and every call of the upload, is recorded in a ghost log. */
module UploadPresentation {
  import opened Wrappers
  import opened Platform
  import opened Text
  import opened WaifuFileModel
  import opened UploadStateModel
  import Dto
  import Repository

  /** The options the user edits on the upload screen. */
  datatype UploadOptions = UploadOptions(
    expires: Option<string>, hideFilename: bool, password: Option<string>, oneTimeDownload: bool)

  const INITIAL_OPTIONS := UploadOptions(None, false, None, false)
  const UNKNOWN_ERROR := "Unknown error"
  const LINE_SEPARATOR := "\n"

  /** The upload use case (the repository's upload of one file with the given
      options); the first argument is the file's position in the batch, so that
      the outcome may differ from call to call. */
  type Uploader = (nat, LocalFile, FileUploadOptions) -> Result<WaifuFile, Exception>

  /** UploadFileUseCase.uploadDirect: the repository's upload, where the API
      answers the request of the i-th call of a batch with apis(i). */
  function DirectUpload(apis: nat -> (Repository.UploadRequest -> Repository.ApiOutcome),
                        decode: string -> Option<Dto.ErrorResponse>): Uploader {
    (i: nat, f: LocalFile, o: FileUploadOptions) => Repository.UploadFile(f, o, apis(i), decode)
  }


  /** The request options taken from the screen options at the start of a batch. */
  function Snapshot(o: UploadOptions): FileUploadOptions {
    FileUploadOptions(o.expires, o.hideFilename, o.password, o.oneTimeDownload, None)
  }

  /** The outcome of each file's upload, in batch order. */
  function Outcomes(files: seq<LocalFile>, options: FileUploadOptions, upload: Uploader)
    : (rs: seq<Result<WaifuFile, Exception>>)
    ensures |rs| == |files|
    ensures forall i :: 0 <= i < |files| ==> rs[i] == upload(i, files[i], options)
  {
    seq(|files|, i requires 0 <= i < |files| => upload(i, files[i], options))
  }

  /** The status an entry ends with: the uploaded file, or the failure's message
      with "Unknown error" for a missing one. */
  function FinalStatus(r: Result<WaifuFile, Exception>): FileUploadStatus {
    match r
    case Success(f) => FileUploadStatus.Success(f)
    case Failure(e) => FileUploadStatus.Error(e.message.GetOr(UNKNOWN_ERROR))
  }

  /** The line a failed file contributes to the batch error: "<name>: <message>",
      where a missing message is rendered by the string template as "null". */
  function ErrorLine(file: LocalFile, e: Exception): string {
    file.name + ": " + NullableToString(e.message)
  }

  /** The uploaded files, in batch order. */
  function Succeeded(rs: seq<Result<WaifuFile, Exception>>): seq<WaifuFile> {
    if |rs| == 0 then []
    else Succeeded(rs[..|rs| - 1]) + (if rs[|rs| - 1].Success? then [rs[|rs| - 1].value] else [])
  }

  /** The error lines of the failed files, in batch order. */
  function ErrorLines(files: seq<LocalFile>, rs: seq<Result<WaifuFile, Exception>>): seq<string>
    requires |files| == |rs|
  {
    if |rs| == 0 then []
    else
      ErrorLines(files[..|files| - 1], rs[..|rs| - 1])
      + (if rs[|rs| - 1].Failure? then [ErrorLine(files[|files| - 1], rs[|rs| - 1].error)] else [])
  }

  /** The status of entry j in the m-th progress list of a batch: list 0 is all
      Pending, list 2j+1 marks entry j Uploading, from list 2j+2 on it is final. */
  function StatusAt(rs: seq<Result<WaifuFile, Exception>>, j: nat, m: nat): FileUploadStatus
    requires j < |rs|
  {
    if m >= 2 * j + 2 then FinalStatus(rs[j])
    else if m == 2 * j + 1 then FileUploadStatus.Uploading
    else Pending
  }

  function ProgressAt(files: seq<LocalFile>, rs: seq<Result<WaifuFile, Exception>>, m: nat): seq<FileUploadProgress>
    requires |files| == |rs|
  {
    seq(|files|, j requires 0 <= j < |files| => FileUploadProgress(files[j].name, StatusAt(rs, j, m)))
  }

  /** The state a batch ends in: Success with the first uploaded file and all of
      them as soon as one upload succeeded, otherwise Error with the joined lines
      and an exception whose message is the first line. */
  function Terminal(files: seq<LocalFile>, rs: seq<Result<WaifuFile, Exception>>): UploadState
    requires |files| == |rs|
  {
    var ok := Succeeded(rs);
    var lines := ErrorLines(files, rs);
    if |ok| > 0 then UploadState.Success(ok[0], ok)
    else UploadState.Error(JoinToString(lines, LINE_SEPARATOR),
                           Some(Exception(if |lines| > 0 then Some(lines[0]) else None)))
  }

  /** The state a batch publishes after its first m half-steps (two per file). */
  function ProgressState(files: seq<LocalFile>, rs: seq<Result<WaifuFile, Exception>>, m: nat): UploadState
    requires |files| == |rs|
  {
    if |files| == 1 then UploadState.Uploading(if m == 0 then 0 else 100)
    else UploadingMultiple(ProgressAt(files, rs, m))
  }

  /** A call of the upload: the file, the options, and how many states the view
      model had published when the call was made. */
  datatype UploadCall = UploadCall(file: LocalFile, options: FileUploadOptions, after: nat)

  /** The states a batch publishes, in order: for one file Uploading(0),
      Uploading(100) and the terminal state; for N > 1 files the progress lists
      0 to 2N and then the terminal state; nothing for an empty batch. */
  function BatchStates(files: seq<LocalFile>, rs: seq<Result<WaifuFile, Exception>>): seq<UploadState>
    requires |files| == |rs|
  {
    if |files| == 0 then []
    else if |files| == 1 then [UploadState.Uploading(0), UploadState.Uploading(100), Terminal(files, rs)]
    else seq(2 * |files| + 1, m requires 0 <= m < 2 * |files| + 1 => UploadingMultiple(ProgressAt(files, rs, m)))
         + [Terminal(files, rs)]
  }

  /** How many of a batch's states are out once its first k files are done: the
      first state, then one per file for a single file and two per file otherwise. */
  function StatesBefore(n: nat, k: nat): nat {
    if n == 1 then 1 + k else 1 + 2 * k
  }

  /** The upload calls of a batch that starts when `base` states have been
      published: file i is uploaded, with the batch's options, once 2i+2 of the
      batch's states are out. */
  function BatchCalls(files: seq<LocalFile>, options: FileUploadOptions, base: nat): seq<UploadCall> {
    seq(|files|, i requires 0 <= i < |files| => UploadCall(files[i], options, base + 2 * i + 2))
  }

  /** The states a batch publishes for file i: 100% for a single file; for a larger
      batch the list marking entry i Uploading and the list giving it its result. */
  function StepStates(files: seq<LocalFile>, rs: seq<Result<WaifuFile, Exception>>, i: nat): seq<UploadState>
    requires |files| == |rs|
  {
    if |files| == 1 then [ProgressState(files, rs, 2 * i + 1)]
    else [ProgressState(files, rs, 2 * i + 1), ProgressState(files, rs, 2 * i + 2)]
  }

  /** The states a batch has published once its first k files are done. */
  function StatesUpTo(files: seq<LocalFile>, rs: seq<Result<WaifuFile, Exception>>, k: nat): seq<UploadState>
    requires k <= |files| == |rs|
  {
    if k == 0 then [ProgressState(files, rs, 0)] else StatesUpTo(files, rs, k - 1) + StepStates(files, rs, k - 1)
  }

  /** The upload calls a batch has made once its first k files are done. */
  function CallsUpTo(files: seq<LocalFile>, options: FileUploadOptions, base: nat, k: nat): seq<UploadCall>
    requires k <= |files|
  {
    if k == 0 then [] else CallsUpTo(files, options, base, k - 1) + [UploadCall(files[k - 1], options, base + 2 * k)]
  }

  class UploadViewModel {
    var uploadState: UploadState
    var uploadOptions: UploadOptions
    /** Every state published, in order. */
    ghost var published: seq<UploadState>
    /** Every call of the upload, in order. */
    ghost var calls: seq<UploadCall>

    /** The current state is the last one published. */
    ghost predicate Valid()
      reads this
    {
      |published| > 0 && published[|published| - 1] == uploadState
    }

    constructor ()
      ensures Valid()
      ensures uploadState == Idle && uploadOptions == INITIAL_OPTIONS
      ensures published == [Idle] && calls == []
    {
      uploadState := Idle;
      uploadOptions := INITIAL_OPTIONS;
      published := [Idle];
      calls := [];
    }

    /** `_uploadState.value = s`. */
    method SetState(s: UploadState)
      modifies this`uploadState, this`published
      ensures Valid()
      ensures uploadState == s && published == old(published) + [s]
    {
      uploadState := s;
      published := published + [s];
    }

    /** Record that the upload was called with this file and these options. */
    ghost method RecordCall(file: LocalFile, options: FileUploadOptions)
      modifies this`calls
      ensures calls == old(calls) + [UploadCall(file, options, |published|)]
    {
      calls := calls + [UploadCall(file, options, |published|)];
    }

    method UploadFile(file: LocalFile, upload: Uploader)
      requires Valid()
      modifies this`uploadState, this`published, this`calls
      ensures Valid() && uploadOptions == old(uploadOptions)
      ensures published == old(published) + BatchStates([file], Outcomes([file], Snapshot(uploadOptions), upload))
      ensures calls == old(calls) + BatchCalls([file], Snapshot(uploadOptions), |old(published)|)
      ensures uploadState == Terminal([file], Outcomes([file], Snapshot(uploadOptions), upload))
    {
      UploadFiles([file], upload);
    }

    /** Upload the files one after the other in their order, publishing progress
        for each and a terminal state at the end. An empty list does nothing. */
    method UploadFiles(files: seq<LocalFile>, upload: Uploader)
      requires Valid()
      modifies this`uploadState, this`published, this`calls
      ensures Valid() && uploadOptions == old(uploadOptions)
      ensures published == old(published) + BatchStates(files, Outcomes(files, Snapshot(uploadOptions), upload))
      ensures calls == old(calls) + BatchCalls(files, Snapshot(uploadOptions), |old(published)|)
      ensures |files| == 0 ==> uploadState == old(uploadState)
      ensures |files| > 0 ==> uploadState == Terminal(files, Outcomes(files, Snapshot(uploadOptions), upload))
    {
      if |files| == 0 {
        return;
      }
      ghost var rs := Outcomes(files, Snapshot(uploadOptions), upload);
      StartBatch(files, rs);

      var options := FileUploadOptions(
        expires := uploadOptions.expires,
        hideFilename := uploadOptions.hideFilename,
        password := uploadOptions.password,
        oneTimeDownload := uploadOptions.oneTimeDownload,
        bucketToken := None);

      var uploadedFiles: seq<WaifuFile> := [];
      var errors: seq<string> := [];

      var index := 0;
      while index < |files|
        invariant 0 <= index <= |files|
        invariant published == old(published) + StatesUpTo(files, rs, index)
        invariant |published| == |old(published)| + StatesBefore(|files|, index)
        invariant calls == old(calls) + CallsUpTo(files, options, |old(published)|, index)
        invariant uploadState == ProgressState(files, rs, 2 * index)
        invariant uploadedFiles == Succeeded(rs[..index])
        invariant errors == ErrorLines(files[..index], rs[..index])
      {
        uploadedFiles, errors := UploadNext(files, rs, options, upload, index, uploadedFiles, errors, old(published), old(calls));
        index := index + 1;
      }
      assert rs[..index] == rs && files[..index] == files;
      PublishTerminal(files, rs, uploadedFiles, errors);
      BatchComplete(old(published), old(calls), files, options, rs, published, calls);
    }

    /** The first state of a batch: the single file at 0%, or every entry Pending. */
    method StartBatch(files: seq<LocalFile>, ghost rs: seq<Result<WaifuFile, Exception>>)
      requires 0 < |files| == |rs|
      modifies this`uploadState, this`published
      ensures Valid()
      ensures uploadState == ProgressState(files, rs, 0)
      ensures published == old(published) + StatesUpTo(files, rs, 0)
    {
      if |files| == 1 {
        SetState(UploadState.Uploading(0));
      } else {
        var initialProgress := seq(|files|, i requires 0 <= i < |files| => FileUploadProgress(files[i].name, Pending));
        assert initialProgress == ProgressAt(files, rs, 0);
        SetState(UploadingMultiple(initialProgress));
      }
    }

    /** The body of the batch loop for file `index`: mark it, upload it, record
        its outcome in the accumulators, and publish its final entry. `before`
        and `callsBefore` are the record as it stood when the batch started. */
    method UploadNext(files: seq<LocalFile>, ghost rs: seq<Result<WaifuFile, Exception>>,
                      options: FileUploadOptions, upload: Uploader, index: nat,
                      uploadedFiles: seq<WaifuFile>, errors: seq<string>,
                      ghost before: seq<UploadState>, ghost callsBefore: seq<UploadCall>)
      returns (uploadedFiles': seq<WaifuFile>, errors': seq<string>)
      requires index < |files| == |rs|
      requires rs[index] == upload(index, files[index], options)
      requires published == before + StatesUpTo(files, rs, index)
      requires |published| == |before| + StatesBefore(|files|, index)
      requires calls == callsBefore + CallsUpTo(files, options, |before|, index)
      requires uploadState == ProgressState(files, rs, 2 * index)
      requires uploadedFiles == Succeeded(rs[..index])
      requires errors == ErrorLines(files[..index], rs[..index])
      modifies this`uploadState, this`published, this`calls
      ensures published == before + StatesUpTo(files, rs, index + 1)
      ensures |published| == |before| + StatesBefore(|files|, index + 1)
      ensures calls == callsBefore + CallsUpTo(files, options, |before|, index + 1)
      ensures uploadState == ProgressState(files, rs, 2 * (index + 1))
      ensures uploadedFiles' == Succeeded(rs[..index + 1])
      ensures errors' == ErrorLines(files[..index + 1], rs[..index + 1])
    {
      ghost var published0, calls0 := published, calls;
      uploadedFiles', errors' := uploadedFiles, errors;
      var file := files[index];
      MarkUploading(files, rs, index);
      ghost var published1 := published;
      var result := upload(index, file, options);
      RecordCall(file, options);
      assert result == rs[index];
      SucceededPrefix(rs, index);
      ErrorLinesPrefix(files, rs, index);
      if result.Success? {
        uploadedFiles' := uploadedFiles' + [result.value];
      } else {
        errors' := errors' + [ErrorLine(file, result.error)];
      }
      MarkDone(files, rs, index, result);
      StepRecorded(before, callsBefore, files, options, rs, index, published0, published1, published, calls0, calls);
      assert 2 * (index + 1) == 2 * index + 2;
    }

    /** Publish the batch's terminal state from the accumulated results. */
    method PublishTerminal(files: seq<LocalFile>, ghost rs: seq<Result<WaifuFile, Exception>>,
                           uploadedFiles: seq<WaifuFile>, errors: seq<string>)
      requires |files| == |rs|
      requires uploadedFiles == Succeeded(rs) && errors == ErrorLines(files, rs)
      modifies this`uploadState, this`published
      ensures Valid()
      ensures uploadState == Terminal(files, rs)
      ensures published == old(published) + [uploadState]
    {
      var finalState;
      if |errors| == 0 && |uploadedFiles| > 0 {
        finalState := UploadState.Success(uploadedFiles[0], uploadedFiles);
      } else if |uploadedFiles| == 0 {
        finalState := UploadState.Error(JoinToString(errors, LINE_SEPARATOR),
                                        Some(Exception(if |errors| > 0 then Some(errors[0]) else None)));
      } else {
        finalState := UploadState.Success(uploadedFiles[0], uploadedFiles);
      }
      SetState(finalState);
    }

    /** The first half of a file's step: one file publishes its progress
        percentage, a larger batch marks the file's entry Uploading. */
    method MarkUploading(files: seq<LocalFile>, ghost rs: seq<Result<WaifuFile, Exception>>, index: nat)
      requires index < |files| == |rs|
      requires uploadState == ProgressState(files, rs, 2 * index)
      modifies this`uploadState, this`published
      ensures Valid()
      ensures uploadState == ProgressState(files, rs, 2 * index + 1)
      ensures published == old(published) + [uploadState]
    {
      if |files| == 1 {
        var progress := (index + 1) * 100 / |files|;
        SetState(UploadState.Uploading(progress as int32));
      } else {
        var currentState := uploadState;
        if currentState.UploadingMultiple? {
          var updatedProgress := currentState.files;
          updatedProgress := updatedProgress[index := updatedProgress[index].(status := FileUploadStatus.Uploading)];
          ProgressStep(files, rs, 2 * index);
          SetState(UploadingMultiple(updatedProgress));
        }
      }
    }

    /** The second half of a file's step: a larger batch gives the file's entry
        the upload's result; one file publishes nothing here. */
    method MarkDone(files: seq<LocalFile>, ghost rs: seq<Result<WaifuFile, Exception>>, index: nat,
                    result: Result<WaifuFile, Exception>)
      requires Valid() && index < |files| == |rs| && result == rs[index]
      requires uploadState == ProgressState(files, rs, 2 * index + 1)
      modifies this`uploadState, this`published
      ensures Valid()
      ensures uploadState == ProgressState(files, rs, 2 * index + 2)
      ensures published == old(published) + (if |files| == 1 then [] else [uploadState])
    {
      if |files| > 1 {
        var currentState := uploadState;
        if currentState.UploadingMultiple? {
          var updatedProgress := currentState.files;
          updatedProgress := updatedProgress[index := updatedProgress[index].(status := FinalStatus(result))];
          ProgressStep(files, rs, 2 * index + 1);
          SetState(UploadingMultiple(updatedProgress));
        }
      }
    }

    /** Replace the screen options wholesale. */
    method UpdateUploadOptions(options: UploadOptions)
      modifies this`uploadOptions
      ensures uploadOptions == options
    {
      uploadOptions := options;
    }

    /** Back to Idle, from any state. */
    method ResetUploadState()
      modifies this`uploadState, this`published
      ensures Valid()
      ensures uploadState == Idle && published == old(published) + [Idle]
    {
      SetState(Idle);
    }
  }

  // ---------------------------------------------------------------------------
  // The loop's record of a batch against its closed form

  /** What the view model has published and called after file i of a batch,
      from what one step adds. */
  lemma StepRecorded(before: seq<UploadState>, callsBefore: seq<UploadCall>,
                     files: seq<LocalFile>, options: FileUploadOptions, rs: seq<Result<WaifuFile, Exception>>, i: nat,
                     p0: seq<UploadState>, p1: seq<UploadState>, p2: seq<UploadState>,
                     c0: seq<UploadCall>, c1: seq<UploadCall>)
    requires i < |files| == |rs|
    requires p0 == before + StatesUpTo(files, rs, i) && |p0| == |before| + StatesBefore(|files|, i)
    requires p1 == p0 + [ProgressState(files, rs, 2 * i + 1)]
    requires p2 == p1 + (if |files| == 1 then [] else [ProgressState(files, rs, 2 * i + 2)])
    requires c0 == callsBefore + CallsUpTo(files, options, |before|, i)
    requires c1 == c0 + [UploadCall(files[i], options, |p1|)]
    ensures p2 == before + StatesUpTo(files, rs, i + 1)
    ensures |p2| == |before| + StatesBefore(|files|, i + 1)
    ensures c1 == callsBefore + CallsUpTo(files, options, |before|, i + 1)
  {
    var step := StepStates(files, rs, i);
    assert p2 == p0 + step;
    assert |p1| == |before| + 2 * (i + 1);
    var call := UploadCall(files[i], options, |before| + 2 * (i + 1));
    assert c1 == c0 + [call];
    assert CallsUpTo(files, options, |before|, i + 1) == CallsUpTo(files, options, |before|, i) + [call];
    assert StatesUpTo(files, rs, i + 1) == StatesUpTo(files, rs, i) + step;
  }

  /** Step by step, a batch publishes the start of its states. */
  lemma {:induction false} StatesUpToPrefix(files: seq<LocalFile>, rs: seq<Result<WaifuFile, Exception>>, k: nat)
    requires 0 < |files| == |rs| && k <= |files|
    ensures StatesBefore(|files|, k) <= |BatchStates(files, rs)|
    ensures StatesUpTo(files, rs, k) == BatchStates(files, rs)[..StatesBefore(|files|, k)]
  {
    if k == 0 {
      FirstState(files, rs);
    } else {
      StatesUpToPrefix(files, rs, k - 1);
      StepSlice(files, rs, k - 1);
      SliceJoin(BatchStates(files, rs), StatesBefore(|files|, k - 1), StatesBefore(|files|, k));
    }
  }

  /** The first state of a batch opens its states. */
  lemma FirstState(files: seq<LocalFile>, rs: seq<Result<WaifuFile, Exception>>)
    requires 0 < |files| == |rs|
    ensures 1 <= |BatchStates(files, rs)|
    ensures BatchStates(files, rs)[..1] == [ProgressState(files, rs, 0)]
  {
    var bs := BatchStates(files, rs);
    assert bs[0] == ProgressState(files, rs, 0);
    assert bs[..1] == [bs[0]];
  }

  lemma SliceJoin<T>(s: seq<T>, a: nat, b: nat)
    requires a <= b <= |s|
    ensures s[..a] + s[a..b] == s[..b]
  {
  }

  /** Step by step, a batch makes the start of its calls. */
  lemma {:induction false} CallsUpToPrefix(files: seq<LocalFile>, options: FileUploadOptions, base: nat, k: nat)
    requires k <= |files|
    ensures CallsUpTo(files, options, base, k) == BatchCalls(files, options, base)[..k]
  {
    var bc := BatchCalls(files, options, base);
    if k > 0 {
      CallsUpToPrefix(files, options, base, k - 1);
      assert bc[..k - 1] + [bc[k - 1]] == bc[..k];
    }
  }

  /** Once a batch has published its terminal state, it has published all of
      its states and made all of its calls. */
  lemma BatchComplete(before: seq<UploadState>, callsBefore: seq<UploadCall>,
                      files: seq<LocalFile>, options: FileUploadOptions, rs: seq<Result<WaifuFile, Exception>>,
                      p: seq<UploadState>, c: seq<UploadCall>)
    requires 0 < |files| == |rs|
    requires p == before + StatesUpTo(files, rs, |files|) + [Terminal(files, rs)]
    requires c == callsBefore + CallsUpTo(files, options, |before|, |files|)
    ensures p == before + BatchStates(files, rs)
    ensures c == callsBefore + BatchCalls(files, options, |before|)
  {
    var bs := BatchStates(files, rs);
    StatesUpToPrefix(files, rs, |files|);
    CallsUpToPrefix(files, options, |before|, |files|);
    assert bs == bs[..StatesBefore(|files|, |files|)] + [Terminal(files, rs)];
    assert BatchCalls(files, options, |before|)[..|files|] == BatchCalls(files, options, |before|);
  }

  /** The states of file i stand in the batch's states right after those of the files before it. */
  lemma StepSlice(files: seq<LocalFile>, rs: seq<Result<WaifuFile, Exception>>, i: nat)
    requires i < |files| == |rs|
    ensures StatesBefore(|files|, i + 1) <= |BatchStates(files, rs)|
    ensures BatchStates(files, rs)[StatesBefore(|files|, i)..StatesBefore(|files|, i + 1)] == StepStates(files, rs, i)
  {
    var bs := BatchStates(files, rs);
    var a := StatesBefore(|files|, i);
    if |files| == 1 {
      assert a == 1 && bs[1] == ProgressState(files, rs, 1);
      assert bs[1..2] == [bs[1]];
    } else {
      assert a == 2 * i + 1 && |bs| == 2 * |files| + 2;
      assert bs[a] == UploadingMultiple(ProgressAt(files, rs, 2 * i + 1)) == ProgressState(files, rs, 2 * i + 1);
      assert bs[a + 1] == UploadingMultiple(ProgressAt(files, rs, 2 * i + 2)) == ProgressState(files, rs, 2 * i + 2);
      assert bs[a..a + 2] == [bs[a], bs[a + 1]];
    }
  }

  lemma SucceededPrefix(rs: seq<Result<WaifuFile, Exception>>, k: nat)
    requires k < |rs|
    ensures Succeeded(rs[..k + 1]) == Succeeded(rs[..k]) + (if rs[k].Success? then [rs[k].value] else [])
  {
    assert rs[..k + 1][..k] == rs[..k];
  }

  lemma ErrorLinesPrefix(files: seq<LocalFile>, rs: seq<Result<WaifuFile, Exception>>, k: nat)
    requires k < |files| == |rs|
    ensures ErrorLines(files[..k + 1], rs[..k + 1])
         == ErrorLines(files[..k], rs[..k]) + (if rs[k].Failure? then [ErrorLine(files[k], rs[k].error)] else [])
  {
    assert rs[..k + 1][..k] == rs[..k];
    assert files[..k + 1][..k] == files[..k];
  }

  /** One step of a batch changes exactly one entry of the progress list: step
      2i marks entry i Uploading, step 2i+1 gives it its final status; the length
      of the list and every file name stay as they were. */
  lemma ProgressStep(files: seq<LocalFile>, rs: seq<Result<WaifuFile, Exception>>, m: nat)
    requires |files| == |rs| && m < 2 * |files|
    ensures var before := ProgressAt(files, rs, m); var after := ProgressAt(files, rs, m + 1); var i := m / 2;
      && |before| == |after| == |files|
      && (forall j :: 0 <= j < |files| ==> before[j].fileName == after[j].fileName == files[j].name)
      && before[i].status == (if m % 2 == 0 then Pending else FileUploadStatus.Uploading)
      && after == before[i := before[i].(status := if m % 2 == 0 then FileUploadStatus.Uploading else FinalStatus(rs[i]))]
  {
    var before := ProgressAt(files, rs, m);
    var after := ProgressAt(files, rs, m + 1);
    var i := m / 2;
    var expected := before[i := before[i].(status := if m % 2 == 0 then FileUploadStatus.Uploading else FinalStatus(rs[i]))];
    forall j | 0 <= j < |files|
      ensures after[j] == expected[j]
    {
      if j != i {
        assert StatusAt(rs, j, m) == StatusAt(rs, j, m + 1);
      }
    }
  }

  // ---------------------------------------------------------------------------
  // The states and calls of a batch

  /** A one-file batch publishes Uploading(0), then Uploading(100) before the
      upload is called, whatever its outcome; the only state published after the
      call is the terminal one, which holds the file or its failure. */
  lemma SingleFileBatch(file: LocalFile, options: FileUploadOptions, r: Result<WaifuFile, Exception>, base: nat)
    ensures var states := BatchStates([file], [r]); var calls := BatchCalls([file], options, base);
      && |states| == 3 && |calls| == 1
      && states[0] == UploadState.Uploading(0) && states[1] == UploadState.Uploading(100)
      && calls[0] == UploadCall(file, options, base + 2)
      && states[2] == match r
                      case Success(f) => UploadState.Success(f, [f])
                      case Failure(e) => UploadState.Error(ErrorLine(file, e), Some(Exception(Some(ErrorLine(file, e)))))
  {
    assert [r][..0] == [] && [file][..0] == [];
    match r {
      case Success(f) =>
        assert Succeeded([r]) == [f];
      case Failure(e) =>
        assert Succeeded([r]) == [];
        assert ErrorLines([file], [r]) == [ErrorLine(file, e)];
    }
  }

  /** A batch of N > 1 files publishes 2N+2 states: first a list of every file,
      in order, all Pending; then 2N lists, each changing exactly one entry of the
      one before (list 2i+1 marks entry i Uploading, list 2i+2 gives it its
      result); then the terminal state. */
  lemma MultiFileBatch(files: seq<LocalFile>, rs: seq<Result<WaifuFile, Exception>>)
    requires 1 < |files| == |rs|
    ensures var states := BatchStates(files, rs);
      && |states| == 2 * |files| + 2
      && (forall m :: 0 <= m <= 2 * |files| ==> states[m].UploadingMultiple? && |states[m].files| == |files|)
      && (forall j :: 0 <= j < |files| ==> states[0].files[j] == FileUploadProgress(files[j].name, Pending))
      && (forall m :: 0 <= m < 2 * |files| ==>
            states[m + 1].files == states[m].files[m / 2 := states[m].files[m / 2].(status :=
              if m % 2 == 0 then FileUploadStatus.Uploading else FinalStatus(rs[m / 2]))])
      && (forall j :: 0 <= j < |files| ==> states[2 * |files|].files[j].status == FinalStatus(rs[j]))
      && states[2 * |files| + 1] == Terminal(files, rs)
  {
    var states := BatchStates(files, rs);
    forall m | 0 <= m < 2 * |files|
      ensures states[m + 1].files == states[m].files[m / 2 := states[m].files[m / 2].(status :=
                if m % 2 == 0 then FileUploadStatus.Uploading else FinalStatus(rs[m / 2]))]
    {
      ProgressStep(files, rs, m);
    }
  }

  /** In a larger batch file i is uploaded right after the list marking its entry
      Uploading is published, and the first list published after the call gives
      that entry the upload's result and leaves every other entry as it was. */
  lemma MultiFileInterleaving(files: seq<LocalFile>, options: FileUploadOptions,
                              rs: seq<Result<WaifuFile, Exception>>, base: nat, i: nat)
    requires 1 < |files| == |rs| && i < |files|
    ensures var states := BatchStates(files, rs); var call := BatchCalls(files, options, base)[i];
      var k := call.after - base;
      && call.file == files[i] && call.options == options
      && 0 < k < |states| - 1
      && states[k - 1].UploadingMultiple? && states[k].UploadingMultiple?
      && |states[k - 1].files| == |states[k].files| == |files|
      && states[k - 1].files[i] == FileUploadProgress(files[i].name, FileUploadStatus.Uploading)
      && states[k].files[i] == FileUploadProgress(files[i].name, FinalStatus(rs[i]))
      && (forall j :: 0 <= j < |files| && j != i ==> states[k - 1].files[j] == states[k].files[j])
  {
    ProgressStep(files, rs, 2 * i + 1);
  }

  /** The calls of a batch are made in the files' order, each after the one
      before it has had a state published in between, and all of them before
      the terminal state. */
  lemma CallsInOrder(files: seq<LocalFile>, options: FileUploadOptions,
                     rs: seq<Result<WaifuFile, Exception>>, base: nat)
    requires |files| == |rs|
    ensures var calls := BatchCalls(files, options, base);
      && |calls| == |files|
      && (forall i :: 0 <= i < |files| ==> calls[i].file == files[i] && calls[i].options == options)
      && (forall i, j :: 0 <= i < j < |files| ==> calls[i].after < calls[j].after)
      && (forall i :: 0 <= i < |files| ==> base < calls[i].after < base + |BatchStates(files, rs)|)
  {
  }

  // ---------------------------------------------------------------------------
  // Progress lists

  /** List 0 has every entry Pending, list 2N every entry final. */
  lemma ProgressEnds(files: seq<LocalFile>, rs: seq<Result<WaifuFile, Exception>>)
    requires |files| == |rs|
    ensures forall j :: 0 <= j < |files| ==> ProgressAt(files, rs, 0)[j].status == Pending
    ensures forall j :: 0 <= j < |files| ==> ProgressAt(files, rs, 2 * |files|)[j].status == FinalStatus(rs[j])
  {
  }

  // ---------------------------------------------------------------------------
  // The terminal state

  /** A file is among the uploaded ones exactly when one of the uploads returned it. */
  lemma {:induction false} SucceededMembers(rs: seq<Result<WaifuFile, Exception>>, f: WaifuFile)
    ensures f in Succeeded(rs) <==> exists i :: 0 <= i < |rs| && rs[i] == Result.Success(f)
  {
    if |rs| > 0 {
      var init := rs[..|rs| - 1];
      SucceededMembers(init, f);
      if f in Succeeded(init) {
        var i :| 0 <= i < |init| && init[i] == Result.Success(f);
        assert rs[i] == Result.Success(f);
      }
      if i :| 0 <= i < |rs| && rs[i] == Result.Success(f) {
        if i < |init| {
          assert init[i] == Result.Success(f);
        }
      }
    }
  }

  /** The first uploaded file is the one of the first upload that succeeded. */
  lemma {:induction false} SucceededFirst(rs: seq<Result<WaifuFile, Exception>>, i: nat)
    requires i < |rs| && rs[i].Success?
    requires forall j :: 0 <= j < i ==> rs[j].Failure?
    ensures |Succeeded(rs)| > 0 && Succeeded(rs)[0] == rs[i].value
  {
    if |rs| - 1 > i {
      SucceededFirst(rs[..|rs| - 1], i);
    } else {
      NoneSucceeded(rs[..i]);
      assert rs[..|rs| - 1] == rs[..i];
    }
  }

  /** When every upload fails, nothing is uploaded. */
  lemma {:induction false} NoneSucceeded(rs: seq<Result<WaifuFile, Exception>>)
    requires forall j :: 0 <= j < |rs| ==> rs[j].Failure?
    ensures Succeeded(rs) == []
  {
    if |rs| > 0 {
      NoneSucceeded(rs[..|rs| - 1]);
    }
  }

  /** When every upload succeeds, the uploaded files are all results in order. */
  lemma {:induction false} AllSucceeded(rs: seq<Result<WaifuFile, Exception>>)
    requires forall j :: 0 <= j < |rs| ==> rs[j].Success?
    ensures Succeeded(rs) == seq(|rs|, j requires 0 <= j < |rs| => rs[j].value)
  {
    if |rs| > 0 {
      AllSucceeded(rs[..|rs| - 1]);
    }
  }

  /** The uploaded files of a batch are those of its first part followed by
      those of its second part: the list keeps the order of the files. */
  lemma {:induction false} SucceededSplit(rs: seq<Result<WaifuFile, Exception>>, k: nat)
    requires k <= |rs|
    ensures Succeeded(rs) == Succeeded(rs[..k]) + Succeeded(rs[k..])
    decreases |rs| - k
  {
    if k == |rs| {
      assert rs[..k] == rs;
      assert rs[k..] == [];
    } else {
      var init := rs[..|rs| - 1];
      SucceededSplit(init, k);
      assert init[..k] == rs[..k];
      assert rs[k..][..|rs[k..]| - 1] == init[k..];
    }
  }

  /** Every file is either uploaded or contributes an error line. */
  lemma {:induction false} PartitionCount(files: seq<LocalFile>, rs: seq<Result<WaifuFile, Exception>>)
    requires |files| == |rs|
    ensures |Succeeded(rs)| + |ErrorLines(files, rs)| == |files|
  {
    if |rs| > 0 {
      PartitionCount(files[..|files| - 1], rs[..|rs| - 1]);
    }
  }

  /** When every upload fails, the error lines are those of all files, in order. */
  lemma {:induction false} AllErrorLines(files: seq<LocalFile>, rs: seq<Result<WaifuFile, Exception>>)
    requires |files| == |rs|
    requires forall j :: 0 <= j < |rs| ==> rs[j].Failure?
    ensures ErrorLines(files, rs) == seq(|files|, j requires 0 <= j < |files| => ErrorLine(files[j], rs[j].error))
  {
    if |rs| > 0 {
      AllErrorLines(files[..|files| - 1], rs[..|rs| - 1]);
    }
  }

  /** A batch ends in Success exactly when at least one upload succeeded; the
      Success carries the first uploaded file and every uploaded file. */
  lemma TerminalSuccess(files: seq<LocalFile>, rs: seq<Result<WaifuFile, Exception>>)
    requires |files| == |rs|
    ensures Terminal(files, rs).Success? <==> exists i :: 0 <= i < |rs| && rs[i].Success?
    ensures Terminal(files, rs).Success? ==>
      Terminal(files, rs).allFiles == Succeeded(rs) && Terminal(files, rs).file == Succeeded(rs)[0]
  {
    if i :| 0 <= i < |rs| && rs[i].Success? {
      SucceededMembers(rs, rs[i].value);
    } else {
      NoneSucceeded(rs);
    }
  }

  /** Where the first success is at i, the Success state's file is i's. */
  lemma TerminalFirstSuccess(files: seq<LocalFile>, rs: seq<Result<WaifuFile, Exception>>, i: nat)
    requires |files| == |rs| && i < |rs| && rs[i].Success?
    requires forall j :: 0 <= j < i ==> rs[j].Failure?
    ensures Terminal(files, rs) == UploadState.Success(rs[i].value, Succeeded(rs))
  {
    SucceededFirst(rs, i);
  }

  /** When every upload of a non-empty batch fails, the batch ends in Error: the
      message joins every file's "<name>: <message>" line with line breaks, so it
      starts with the first line and contains each of them, and the exception's
      message is the first line. */
  lemma TerminalAllFail(files: seq<LocalFile>, rs: seq<Result<WaifuFile, Exception>>)
    requires 0 < |files| == |rs|
    requires forall j :: 0 <= j < |rs| ==> rs[j].Failure?
    ensures var lines := seq(|files|, j requires 0 <= j < |files| => ErrorLine(files[j], rs[j].error));
      Terminal(files, rs) == UploadState.Error(JoinToString(lines, LINE_SEPARATOR), Some(Exception(Some(lines[0]))))
    ensures forall j :: 0 <= j < |files| ==> Contains(Terminal(files, rs).message, ErrorLine(files[j], rs[j].error))
    ensures var first := ErrorLine(files[0], rs[0].error);
      |Terminal(files, rs).message| >= |first| && Terminal(files, rs).message[..|first|] == first
  {
    NoneSucceeded(rs);
    AllErrorLines(files, rs);
    var lines := ErrorLines(files, rs);
    JoinStartsWithFirst(lines, LINE_SEPARATOR);
    forall j | 0 <= j < |files|
      ensures Contains(Terminal(files, rs).message, ErrorLine(files[j], rs[j].error))
    {
      JoinContains(lines, LINE_SEPARATOR, j);
    }
  }

  /** A failure without a message reads "Unknown error" in its progress entry but
      "null" in the batch's error line. */
  lemma MissingMessage(file: LocalFile)
    ensures FinalStatus(Result.Failure(Exception(None))) == FileUploadStatus.Error(UNKNOWN_ERROR)
    ensures ErrorLine(file, Exception(None)) == file.name + ": null"
  {
  }

  // ---------------------------------------------------------------------------
  // The requests of a batch

  /** Every request of a batch sends the screen options as they were when the
      batch started: both flags always, expiry and password when set, and never
      a bucket token. */
  lemma BatchRequestParts(o: UploadOptions, file: LocalFile)
    ensures var parts := Repository.BuildRequest(file, Snapshot(o)).parts;
      && Repository.PartText(parts, "expires") == o.expires
      && Repository.PartText(parts, "hide_filename") == Some(BoolToString(o.hideFilename))
      && Repository.PartText(parts, "password") == o.password
      && Repository.PartText(parts, "one_time_download") == Some(BoolToString(o.oneTimeDownload))
      && Repository.PartText(parts, "bucket_token") == None
    ensures Repository.OptionsFromParts(Repository.BuildRequest(file, Snapshot(o)).parts) == Snapshot(o)
  {
    Repository.RequestPartsContent(Snapshot(o));
    Repository.PartsRoundTrip(Snapshot(o));
  }

  /** With the direct upload, file i's outcome is the repository's upload of
      that file with the batch's options against the API's i-th answer. */
  lemma DirectUploadOutcomes(files: seq<LocalFile>, o: UploadOptions,
                             apis: nat -> (Repository.UploadRequest -> Repository.ApiOutcome),
                             decode: string -> Option<Dto.ErrorResponse>, i: nat)
    requires i < |files|
    ensures var r := Outcomes(files, Snapshot(o), DirectUpload(apis, decode))[i];
      var outcome := apis(i)(Repository.BuildRequest(files[i], Snapshot(o)));
      && (r.Success? <==> outcome.Responded? && outcome.response.IsSuccessful() && outcome.response.body.Some?)
      && (outcome.Threw? ==> r == Result.Failure(outcome.exception))
  {
    var r := Outcomes(files, Snapshot(o), DirectUpload(apis, decode))[i];
    assert r == Repository.UploadFile(files[i], Snapshot(o), apis(i), decode);
  }
}
