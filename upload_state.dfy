/** The state machine declarations of UploadState.kt. */
module UploadStateModel {
  import opened Wrappers
  import opened Platform
  import opened WaifuFileModel

  /** Where one file of a batch stands. */
  datatype FileUploadStatus = Pending | Uploading | Success(file: WaifuFile) | Error(message: string)

  /** One entry of a batch's progress list: a file name and its status. */
  datatype FileUploadProgress = FileUploadProgress(fileName: string, status: FileUploadStatus)

  /** The state the upload screen observes. */
  datatype UploadState =
    | Idle
    | Uploading(progress: int32)
    | UploadingMultiple(files: seq<FileUploadProgress>)
    | Processing
    | Success(file: WaifuFile, allFiles: seq<WaifuFile> := [])
    | Error(message: string, exception: Option<Exception> := None)

  /** A Success built from the primary file alone lists no files;
      an Error built from a message alone carries no exception. */
  lemma StateDefaults(f: WaifuFile, message: string)
    ensures UploadState.Success(f).allFiles == []
    ensures UploadState.Error(message).exception == None
  {
  }

  /** The six variants are pairwise distinct, whatever they carry. */
  lemma VariantsDistinct(p: int32, q: int32, fs: seq<FileUploadProgress>, f: WaifuFile, all: seq<WaifuFile>,
                         m: string, e: Option<Exception>)
    ensures Idle != UploadState.Uploading(p) && Idle != UploadingMultiple(fs) && Idle != Processing
    ensures Idle != UploadState.Success(f, all) && Idle != UploadState.Error(m, e)
    ensures UploadState.Uploading(p) != UploadingMultiple(fs) && UploadState.Uploading(p) != Processing
    ensures UploadState.Uploading(p) != UploadState.Success(f, all) && UploadState.Uploading(p) != UploadState.Error(m, e)
    ensures UploadingMultiple(fs) != Processing && UploadingMultiple(fs) != UploadState.Success(f, all)
    ensures UploadingMultiple(fs) != UploadState.Error(m, e)
    ensures Processing != UploadState.Success(f, all) && Processing != UploadState.Error(m, e)
    ensures UploadState.Success(f, all) != UploadState.Error(m, e)
    ensures UploadState.Uploading(p) == UploadState.Uploading(q) <==> p == q
  {
  }
}
