# WaifuVault Android upload core, modelled in Dafny

This project models the upload path of the WaifuVault Android client:

- **The batch upload orchestrator** (`UploadViewModel`). It walks an ordered list of files and uploads each one. For a single file it publishes a percentage. For a larger batch it publishes a per-file progress list. At the end it publishes one terminal `Success` or `Error` state.
- **The state it publishes** (`UploadState`, `FileUploadStatus`, `FileUploadProgress`).
- **The repository upload** (`FileRepository.uploadFile` and `toDomain`): which multipart parts are sent, when a response counts as success, which message a failure carries, and how the server record becomes the domain record.
- **The chunk layout loop** (`ChunkUploadManager.createChunks`) and the chunked-upload entry point.
- **The file-size formatter** (`FileUtils.formatFileSize`).
- **The connectivity rules** (`NetworkManager`).
- **The records with their defaults** (`WaifuFile`, `FileOptions`, `FileUploadOptions`, the DTOs).

The view model is a class. Its fields are `uploadState` and `uploadOptions`. Two ghost logs sit beside them:

- `published` holds every state the view model has published, in order.
- `calls` holds every upload call, in order. Each call also records how many states had been published when it was made, so the log shows which states come before and after it.

The upload itself is a function parameter. It maps the file's position in the batch, the file and the options to `Result<WaifuFile, Exception>`.

The batch is specified by closed-form functions of the file list and the outcomes:

- `BatchStates` is the list of states a batch publishes.
- `ProgressAt(files, rs, m)` is the m-th progress list.
- `BatchCalls` is the list of a batch's upload calls.
- `Terminal` is the final state.

`UploadFiles` is proved, by its loop invariants, to append exactly `BatchStates` to `published` and `BatchCalls` to `calls`, and to end in `Terminal`. The lemmas then state what those functions mean.

The modules follow the source files:

| module | file |
|---|---|
| `UploadPresentation` | `upload_view_model.dfy` |
| `UploadStateModel` | `upload_state.dfy` |
| `WaifuFileModel` | `waifu_file.dfy` |
| `Dto` | `waifu_file_dto.dfy` |
| `Repository` | `file_repository.dfy` |
| `ChunkUpload` | `chunk_upload_manager.dfy` |
| `FileUtils` | `file_utils.dfy` |
| `Network` | `network_manager.dfy` |

Three support modules sit beside them:

- `Wrappers` holds `Option` and `Result`.
- `Platform` holds a file as name plus bytes, an exception as an optional message, and Kotlin's `Int` as `int32`.
- `Text` holds Kotlin's `toString` renderings and `joinToString`.

The tests of the view model expect an aggregate error containing `"null"` for a failure without a message, and the code does produce that. The model keeps this as written (`MissingMessage`).

For a single file, `Uploading(100)` is published at UploadViewModel.kt:69-71, before the upload call at line 83. The model keeps that order (`SingleFileBatch`).

## Model

| member | source | states |
|---|---|---|
| UploadPresentation.UploadViewModel.constructor | app/src/main/java/com/waifuvault/mobile/presentation/upload/UploadViewModel.kt:24-34 | the state starts Idle, the options start with no expiry, no password and both flags false, Idle is the one state published so far, and no upload has been called |
| UploadPresentation.UploadViewModel.UploadFiles | app/src/main/java/com/waifuvault/mobile/presentation/upload/UploadViewModel.kt:41-131 | the published states grow by exactly BatchStates of the files and outcomes, and the calls by exactly BatchCalls with the option snapshot, so an empty list changes nothing; the options are untouched and a non-empty batch ends in Terminal |
| UploadPresentation.UploadViewModel.UploadFile | app/src/main/java/com/waifuvault/mobile/presentation/upload/UploadViewModel.kt:37-39 | uploading one file is the batch of that one file |
| UploadPresentation.UploadViewModel.StartBatch | app/src/main/java/com/waifuvault/mobile/presentation/upload/UploadViewModel.kt:45-55 | the first published state is Uploading(0) for one file, else a list with every entry Pending under its file's name |
| UploadPresentation.UploadViewModel.UploadNext | app/src/main/java/com/waifuvault/mobile/presentation/upload/UploadViewModel.kt:68-114 | one loop step publishes exactly file i's states, calls the upload once for file i with the batch's options right after the first of them, moves the state from half-step 2i to 2i+2, and extends the uploaded files and the error lines by file i's outcome |
| UploadPresentation.UploadViewModel.MarkUploading | app/src/main/java/com/waifuvault/mobile/presentation/upload/UploadViewModel.kt:69-81 | publishes (index+1)*100/1 = 100 for one file, or the list with entry i turned Uploading |
| UploadPresentation.UploadViewModel.MarkDone | app/src/main/java/com/waifuvault/mobile/presentation/upload/UploadViewModel.kt:85-113 | in a larger batch it publishes the list with entry i given its result; for one file it publishes nothing |
| UploadPresentation.UploadViewModel.PublishTerminal | app/src/main/java/com/waifuvault/mobile/presentation/upload/UploadViewModel.kt:116-129 | the three-way choice over the accumulated successes and errors publishes exactly Terminal |
| UploadPresentation.UploadViewModel.UpdateUploadOptions | app/src/main/java/com/waifuvault/mobile/presentation/upload/UploadViewModel.kt:133-135 | the options are replaced wholesale and nothing else changes |
| UploadPresentation.UploadViewModel.ResetUploadState | app/src/main/java/com/waifuvault/mobile/presentation/upload/UploadViewModel.kt:137-139 | from any state, Idle is published and becomes the state |
| UploadPresentation.SingleFileBatch | app/src/main/java/com/waifuvault/mobile/presentation/upload/UploadViewModel.kt:45-83 | one file publishes Uploading(0) and Uploading(100) before its only upload call, and only the terminal state after it, whatever the outcome; the terminal state is Success(f, [f]) or Error with the file's line as message and as exception message |
| UploadPresentation.MultiFileBatch | app/src/main/java/com/waifuvault/mobile/presentation/upload/UploadViewModel.kt:47-113 | N > 1 files publish 2N+2 states: a list of every file, in order, all Pending; then 2N lists, each changing exactly entry m/2 of the one before (to Uploading, then to its result); then the terminal state; the last list gives every entry its final status |
| UploadPresentation.MultiFileInterleaving | app/src/main/java/com/waifuvault/mobile/presentation/upload/UploadViewModel.kt:72-113 | in a larger batch the upload of file i is called right after the list marking entry i Uploading is published, and the first list after the call gives entry i the outcome and keeps every other entry |
| UploadPresentation.ProgressStep | app/src/main/java/com/waifuvault/mobile/presentation/upload/UploadViewModel.kt:73-111 | each published list differs from the previous one in exactly entry m/2, which goes Pending to Uploading or Uploading to its final status; length and names are kept |
| UploadPresentation.ProgressEnds | app/src/main/java/com/waifuvault/mobile/presentation/upload/UploadViewModel.kt:48-53 | the first list is all Pending and the last gives every entry its final status |
| UploadPresentation.CallsInOrder | app/src/main/java/com/waifuvault/mobile/presentation/upload/UploadViewModel.kt:68-83 | the upload is called exactly once per file, in list order, always with the batch's option snapshot, with at least one state published between calls and every call made before the terminal state |
| UploadPresentation.BatchRequestParts | app/src/main/java/com/waifuvault/mobile/presentation/upload/UploadViewModel.kt:57-63 | every request of a batch carries the screen options and no bucket token, and the options can be read back from its parts |
| UploadPresentation.DirectUploadOutcomes | app/src/main/java/com/waifuvault/mobile/domain/usecase/UploadFileUseCase.kt:22-27 | with the direct upload, file i succeeds iff the API's i-th answer is a 2xx response with a body, and a thrown exception is passed through |
| UploadPresentation.SucceededMembers | app/src/main/java/com/waifuvault/mobile/presentation/upload/UploadViewModel.kt:85-87 | a file is among the uploaded files iff some upload returned it |
| UploadPresentation.SucceededFirst | app/src/main/java/com/waifuvault/mobile/presentation/upload/UploadViewModel.kt:116-118 | the first uploaded file is the result of the first upload that succeeded |
| UploadPresentation.NoneSucceeded | app/src/main/java/com/waifuvault/mobile/presentation/upload/UploadViewModel.kt:120 | when every upload fails nothing is uploaded |
| UploadPresentation.AllSucceeded | app/src/main/java/com/waifuvault/mobile/presentation/upload/UploadViewModel.kt:85-87 | when every upload succeeds the uploaded files are all the results, in order |
| UploadPresentation.SucceededSplit | app/src/main/java/com/waifuvault/mobile/presentation/upload/UploadViewModel.kt:68-87 | the uploaded files of a batch are those of any prefix followed by those of the rest, so the input order is kept |
| UploadPresentation.PartitionCount | app/src/main/java/com/waifuvault/mobile/presentation/upload/UploadViewModel.kt:85-101 | each file yields either an uploaded file or an error line |
| UploadPresentation.AllErrorLines | app/src/main/java/com/waifuvault/mobile/presentation/upload/UploadViewModel.kt:99-101 | when every upload fails, the error lines are each file's "name: message", in order |
| UploadPresentation.TerminalSuccess | app/src/main/java/com/waifuvault/mobile/presentation/upload/UploadViewModel.kt:116-129 | the batch ends in Success iff at least one upload succeeded, partial failures included; it carries the first uploaded file and all of them |
| UploadPresentation.TerminalFirstSuccess | app/src/main/java/com/waifuvault/mobile/presentation/upload/UploadViewModel.kt:116-128 | when the first success is at i, the terminal state is Success(result i, uploaded files) |
| UploadPresentation.TerminalAllFail | app/src/main/java/com/waifuvault/mobile/presentation/upload/UploadViewModel.kt:120-125 | when every upload fails, the batch ends in Error: the lines joined by line breaks, an exception carrying the first line, and a message that starts with the first file's line and contains every file's line |
| UploadPresentation.MissingMessage | app/src/main/java/com/waifuvault/mobile/presentation/upload/UploadViewModel.kt:100-108 | a failure without a message shows "Unknown error" in its entry but "name: null" in the error line |
| UploadStateModel.StateDefaults | app/src/main/java/com/waifuvault/mobile/domain/model/UploadState.kt:20-21 | Success without a list has no further files, and Error without an exception has none |
| UploadStateModel.VariantsDistinct | app/src/main/java/com/waifuvault/mobile/domain/model/UploadState.kt:15-22 | the six states are pairwise distinct, and Uploading is determined by its progress |
| WaifuFileModel.Defaults | app/src/main/java/com/waifuvault/mobile/domain/model/WaifuFile.kt:3-25 | the option flags default to false, the upload options to nothing set, and bucket, id and views to absent |
| WaifuFileModel.PasswordOnly | app/src/main/java/com/waifuvault/mobile/domain/model/WaifuFile.kt:19-25 | giving only a password leaves every other upload option at its default |
| WaifuFileModel.StructuralEquality | app/src/main/java/com/waifuvault/mobile/domain/model/WaifuFile.kt:3-11 | two files are equal iff all their fields are |
| Dto.DtoDefaults | app/src/main/java/com/waifuvault/mobile/data/remote/dto/WaifuFileDto.kt:6-21 | the server record's flags default to false and bucket, id and views to absent |
| Repository.RequestPartsContent | app/src/main/java/com/waifuvault/mobile/data/repository/FileRepository.kt:31-44 | both flags are always sent as "true"/"false"; expires, password and bucket_token are sent iff set, with their text |
| Repository.PartsRoundTrip | app/src/main/java/com/waifuvault/mobile/data/repository/FileRepository.kt:31-44 | the upload options can be read back from the parts sent |
| Repository.UploadFile | app/src/main/java/com/waifuvault/mobile/data/repository/FileRepository.kt:20-62 | success iff the API answers 2xx with a body, the value then being the mapped body; a thrown exception is returned as it is; any other answer fails with the failure message |
| Repository.FailureMessage | app/src/main/java/com/waifuvault/mobile/data/repository/FileRepository.kt:49-57 | the decoded server message when the error body decodes, else "Upload failed: " and the status message |
| Repository.OnlyTheOneRequestMatters | app/src/main/java/com/waifuvault/mobile/data/repository/FileRepository.kt:37-44 | the result depends only on the API's answer to the one request built; there is no retry |
| Repository.ResponseFailuresHaveMessage | app/src/main/java/com/waifuvault/mobile/data/repository/FileRepository.kt:46-61 | a failure without a message can only be an exception the API threw |
| Repository.ServerFlagsWin | app/src/main/java/com/waifuvault/mobile/data/repository/FileRepository.kt:65-72 | the uploaded file's flags come from the server record, not from the options sent |
| Repository.ToDomainBijective | app/src/main/java/com/waifuvault/mobile/data/repository/FileRepository.kt:65-77 | the mapping from server record to domain record copies every field, so it is a bijection |
| ChunkUpload.CreateChunks | app/src/main/java/com/waifuvault/mobile/util/ChunkUploadManager.kt:60-90 | the loop returns exactly the chunk layout of the file |
| ChunkUpload.LayoutTiles | app/src/main/java/com/waifuvault/mobile/util/ChunkUploadManager.kt:63-85 | chunk i has index i; offsets start at 0 and each follows the previous end; the size is min(chunkSize, rest); the data is the file's bytes at that offset |
| ChunkUpload.LayoutFromTiles | app/src/main/java/com/waifuvault/mobile/util/ChunkUploadManager.kt:67-85 | the loop's tiling holds from any offset onward |
| ChunkUpload.LayoutCount | app/src/main/java/com/waifuvault/mobile/util/ChunkUploadManager.kt:67-86 | there are ceil(size/chunkSize) chunks, none for an empty file |
| ChunkUpload.LayoutFullChunks | app/src/main/java/com/waifuvault/mobile/util/ChunkUploadManager.kt:68-69 | every chunk but the last is exactly chunkSize long |
| ChunkUpload.LayoutReassembles | app/src/main/java/com/waifuvault/mobile/util/ChunkUploadManager.kt:67-86 | the chunks' data concatenated is the file, and their sizes sum to its length |
| ChunkUpload.UploadFileInChunks | app/src/main/java/com/waifuvault/mobile/util/ChunkUploadManager.kt:27-72 | exactly one result is emitted. A file no larger than the chunk size is uploaded directly. For a larger file, a read fault, or a negative chunk size with a non-empty file, is emitted as the failure and nothing is uploaded. Otherwise the one emission is the single repository upload with the caller's options |
| FileUtils.FormatBytes | app/src/main/java/com/waifuvault/mobile/util/FileUtils.kt:50 | below 1024 the text is the decimal count and " B" |
| FileUtils.UnitBrackets | app/src/main/java/com/waifuvault/mobile/util/FileUtils.kt:49-54 | B below 1024, then KB, MB and GB by powers of 1024, with exact powers in the higher unit |
| FileUtils.UnitMonotone | app/src/main/java/com/waifuvault/mobile/util/FileUtils.kt:49-54 | a larger count never selects a smaller unit |
| FileUtils.HundredthsNearest | app/src/main/java/com/waifuvault/mobile/util/FileUtils.kt:51-53 | the rounded hundredths are nearest to bytes*100/scale, with halves rounded up |
| FileUtils.TwoDecimalsParse | app/src/main/java/com/waifuvault/mobile/util/FileUtils.kt:51-53 | the number has exactly two digits after '.' and reads back as the hundredths |
| FileUtils.FormatFileSizeMeaning | app/src/main/java/com/waifuvault/mobile/util/FileUtils.kt:51-53 | from 1024 on the text is a digit run, '.', two digits, a space and the unit; it reads back as bytes/1024^k rounded to hundredths |
| FileUtils.FormatFileSizeExamples | app/src/main/java/com/waifuvault/mobile/util/FileUtils.kt:48-55 | 0, 512, 1024 and 1536 render as "0 B", "512 B", "1.00 KB" and "1.50 KB" |
| FileUtils.FormatFileSizeLargeExamples | app/src/main/java/com/waifuvault/mobile/util/FileUtils.kt:48-55 | 1 MiB, 2.5 MiB, 1 GiB, 1.5 GiB and 5 GiB render with two decimals in MB or GB |
| Network.IsNetworkAvailable | app/src/main/java/com/waifuvault/mobile/util/NetworkManager.kt:25-31 | true iff a network with capabilities has both INTERNET and VALIDATED |
| Network.NetworkTypeCharacterized | app/src/main/java/com/waifuvault/mobile/util/NetworkManager.kt:33-48 | NONE without a network or capabilities; wifi before ethernet before cellular; cellular under 2000 kbps is SLOW_4G; anything else is NONE |
| Network.GetOptimalChunkSize | app/src/main/java/com/waifuvault/mobile/util/NetworkManager.kt:82-90 | the chunk size always lies between 2 MiB and 10 MiB |
| Network.OptimalChunkSizeFits | app/src/main/java/com/waifuvault/mobile/util/NetworkManager.kt:82-90 | 10 MiB exactly for WIFI and ETHERNET, the 5 MiB default exactly for CELLULAR and NONE, 2 MiB exactly for SLOW_4G |
| Text.ParseNatToString | app/src/main/java/com/waifuvault/mobile/util/FileUtils.kt:50 | a count's decimal rendering reads back as the count |
| Text.JoinStartsWithFirst | app/src/main/java/com/waifuvault/mobile/presentation/upload/UploadViewModel.kt:122 | the joined text starts with the first line |
| Text.JoinContains | app/src/main/java/com/waifuvault/mobile/presentation/upload/UploadViewModel.kt:122 | every joined line occurs in the joined text |

## Left out

- **User interface.** The upload and file management screens, navigation, intents and view-model factories are not logic and are not modelled.
- **Platform calls.** `FileUtils.getFileName`, `getFileSize` and `copyUriToFile` need Android content resolvers and streams. `NetworkManager.observeNetworkState` is a platform callback flow. Capabilities are input data.
- **HTTP and JSON.** The Retrofit interface, OkHttp request bodies and JSON decoding are abstracted. The API is a function from the request to a response or a thrown exception, and decoding the error body is a partial function.
- **Concurrency.** `viewModelScope.launch` and `withContext` run synchronously. The model records every assignment to the state, while a StateFlow skips a value equal to the current one.
- **Processing state.** The Processing state is declared but the view model never publishes it.
- **Floating point.** `formatFileSize` is modelled as integer half-up rounding of bytes*100/1024^k, which is exact for counts below 2^53. That this agrees with Java's `%.2f` formatting of a double is assumed, not proved.
- **Local settings.** `PreferencesManager` storage and `FileManagementViewModel` are not modelled.
- **Forwarding use cases.** `UploadFileUseCase.uploadDirect` is modelled as `DirectUpload`. `UploadFileUseCase` declares two constructor parameters, while UploadViewModel.kt line 22 passes one. The model does not depend on that constructor. The bucket, file-info and delete use cases call repository methods that are not part of this model.
- **Progress calculation.** `ChunkUploadManager.calculateProgress` (ChunkUploadManager.kt:92-94) only forwards to `UploadProgress.calculate`, which is not part of this model, and so it is not modelled. `ChunkInfo` is not part of this model either; `Chunk` is the model's own record.
- ChunkUpload.CreateChunks: requires a positive chunk size. With any chunk size of 0 or less and an empty file, the source skips its loop and returns no chunks; the model does not cover that case. With 0 and a non-empty file the source never leaves its loop. With a negative size and a non-empty file it throws while allocating a negative-length buffer; `UploadFileInChunks` models that failure. The only chunk size the source passes is the 5 MiB default.
- ChunkUpload.CreateChunks: the chunk data is a slice of the file's bytes. It is not a buffer filled in place by `readFully`, and a read failure part way through is not modelled.
- ChunkUpload.UploadFileInChunks: excludes only a chunk size of 0 with a non-empty file, where the source never leaves the loop of createChunks. The message of the negative-array-size exception is modelled as the size in decimal, which is how the Java runtime reports it.
- ChunkUpload.UploadFileInChunks: a failure while reading the file is an input (`readFault`) rather than file I/O. Like the source, it never uploads chunk by chunk.
- ChunkUpload.CreateChunks: chunk indices are unbounded, while the source's chunk index is an `Int` that a file of more than 2^31 chunks would overflow.
