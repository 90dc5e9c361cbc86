# Multipart upload orchestration, modelled in Dafny

A model of the client side of a multipart upload to an object store: the function
`uploadMultipart` in `frontend/s3.js`. It asks a backend control plane to start an upload
session. It cuts the file into parts of `chunkSize` bytes (100 MiB by default). It asks
for a signed URL for each part, one at a time and in ascending order, and launches the
PUT of each part's slice as soon as its URL arrives. It waits for all PUTs, builds the
list `{ETag, PartNumber}` in part order and completes the session with it. Any error
after the session has started ends in its `catch` block, which aborts the session.

The model has four modules:

- `Parts` (`parts.dfy`) is the part planner. `Plan(fileSize, chunkSize)` is the
  sequence of `Part(partNumber, start, end)`. It is computed as the loop computes it:
  `NUM_CHUNKS = floor(fileSize / chunkSize) + 1`, `file.slice(start, end)` for every part
  but the last and `file.slice(start)` for the last. `Blob.slice` clamping is written
  out. Lemmas prove that the ranges partition `[0, fileSize)`.
- `Progress` (`progress.dfy`) is the closure counter `bytesTransferred`. It is a class
  whose progress callback adds each reported delta. A ghost history ties the counter to
  the sum of all deltas reported so far.
- `Upload` (`upload.dfy`) is the orchestrator. The collaborators are a scripted
  environment `Env`:
  - the outcome of the start request;
  - one sign outcome per part;
  - one PUT outcome per part (an ETag, or a failure), each with the progress deltas it
    reported;
  - the outcome of the completion request and of the abort request.

  The method `UploadMultipart` follows the source step by step: a `while` loop that signs
  and launches, `AwaitAll` for `Promise.all`, a `for` loop that builds the parts array,
  then completion or abort. It returns the result, the trace of requests it issued, and
  the counter. It is proved equal to `Spec`, a phase-by-phase definition of the run.
- `UploadProperties` (`upload_properties.dfy`) proves what the source promises about
  `Spec`. `UploadScenarios` (`upload_scenarios.dfy`) derives three concrete runs on a
  250 MiB file from those properties.

Behaviour kept as the code has it:

- A file whose size is an exact multiple of the chunk size gets a trailing empty part.
  An empty file gets one empty part. `Parts.PlanOfExactMultiple` pins this down.
- A failed PUT is swallowed into `undefined` by `.catch`. It is detected only when the
  code reads `.headers` of that `undefined` entry while building the parts list. That
  throw is the cause `TransferLost(partNumber)`.
- Because the completion request is inside the `try` (frontend/s3.js:67), a rejected
  completion is caught and the session is aborted.
- The abort request is awaited inside `catch`. If it is rejected, that rejection
  propagates out of `uploadMultipart` (`AbortRejected`). Otherwise the call returns
  `undefined` (`Aborted`).
- A rejected start request propagates before the `try`, so nothing is aborted.

## Model

| member | source | states |
|---|---|---|
| `Parts.BlobSlice` | frontend/s3.js:30 | the selected range always lies within the blob and never has negative length; when the offsets are inside the blob it is exactly [start, end), or [start, size) with no end |
| `Parts.NumChunks` | frontend/s3.js:21 | the part count is at least 1, so even an empty file has a part |
| `Parts.NumChunksBounds` | frontend/s3.js:21 | (N-1)*chunkSize <= fileSize < N*chunkSize: the last part never starts past the end of the file |
| `Parts.SliceOf` | frontend/s3.js:28-30 | part `index` carries part number `index`, lies within the file with start <= end, and the last part ends at the file size |
| `Parts.Plan` | frontend/s3.js:21-30 | the plan has exactly fileSize / chunkSize + 1 parts (integer division) |
| `Parts.FullPart` | frontend/s3.js:28-30 | every part i < N is exactly [(i-1)*chunkSize, i*chunkSize), has length chunkSize and ends inside the file |
| `Parts.LastPart` | frontend/s3.js:21-30 | the last part is [(N-1)*chunkSize, fileSize); its length is fileSize % chunkSize, never negative, and it is empty exactly when chunkSize divides fileSize |
| `Parts.PartStart` | frontend/s3.js:26-30 | part i has part number i and starts at (i-1)*chunkSize, with start <= end <= fileSize |
| `Parts.StartsIncrease` | frontend/s3.js:26-28 | part numbers increase strictly with the start of their ranges |
| `Parts.Contiguous` | frontend/s3.js:26-30 | the first part starts at 0, each part ends where the next starts, the last ends at fileSize |
| `Parts.Partition` | frontend/s3.js:21-30 | every byte b of the file lies in the part with index b / chunkSize and in no other part: no gap, no overlap |
| `Parts.CoveredPlan` | frontend/s3.js:21-30 | the part lengths add up to the file size |
| `Parts.PlanWithRemainder` | frontend/s3.js:21-30 | 250 MiB in 100 MiB chunks gives [0,100), [100,200), [200,250) MiB |
| `Parts.PlanOfExactMultiple` | frontend/s3.js:21-30 | a file of exactly one chunk gets two parts, the second empty; an empty file gets one empty part |
| `Progress.SumConcat` | frontend/s3.js:45 | the counter after two batches of reports is the sum of the two batches |
| `Progress.SumPrefix` | frontend/s3.js:45 | the count after any prefix of the reports is at most the count after all of them: the counter never decreases |
| `Progress.ProgressCounter.constructor` | frontend/s3.js:16 | the counter starts at 0 with nothing reported |
| `Progress.ProgressCounter.OnUploadProgress` | frontend/s3.js:44-45 | one callback adds its delta to the counter and to the history, keeping counter == sum of the history |
| `Progress.ProgressCounter.OnUploadProgressAll` | frontend/s3.js:44-48 | a transfer's callbacks add the sum of its deltas, in order |
| `Upload.FirstRejected` | frontend/s3.js:26-33 | the index of the first rejected sign reply: all replies before it succeeded, and the one at it was rejected |
| `Upload.FirstFailed` | frontend/s3.js:50-61 | the index of the first failed PUT: all before it delivered, the one at it failed |
| `Upload.LaunchesProjections` | frontend/s3.js:26-53 | after m loop iterations, parts 1..m were signed in ascending order and part i's planned slice was PUT to the URL signed for it; no completion or abort |
| `Upload.ReportedWithinFile` | frontend/s3.js:16-45 | if each PUT reports at most its own slice's bytes, the total reported never exceeds the file size |
| `Upload.SignAndLaunch` | frontend/s3.js:26-54 | the loop issues the sign and launch requests of `Launches` up to the first rejected sign request, then that sign request, and reports which part was rejected |
| `Upload.AwaitAll` | frontend/s3.js:36-56 | `Promise.all` yields, in launch order, each PUT's ETag or `undefined`, and the counter has absorbed every delta reported |
| `Upload.BuildPartsArray` | frontend/s3.js:58-64 | the parts list exists exactly when no entry is `undefined`; entry j is {ETag of entry j, PartNumber j+1}; otherwise the fault is at the first `undefined` entry |
| `Upload.AwaitAndComplete` | frontend/s3.js:56-67 | after every part is signed: a failed PUT throws `TransferLost` for the first failed part with no completion request; otherwise completion is requested once with the parts list, and its reply decides success |
| `Upload.UploadMultipart` | frontend/s3.js:11-73 | the result and the trace are those of `Spec`; once all PUTs were awaited the counter equals the sum of all their deltas, and it is within the file size when each PUT stayed within its slice |
| `Upload.Spec` | frontend/s3.js:11-73 | the reference run phase by phase; its own contract: the first request starts the session under path + file.name, and a rejected start propagates and is the only request |
| `UploadProperties.SpecProjections` | frontend/s3.js:15-72 | for a started session: the signs are 1..k plus the rejected part k+1 if any, the PUTs are those of the loop, completion appears once with `PartsList` exactly when every part was signed and delivered, and one abort appears unless that completion succeeded |
| `UploadProperties.SignsAscending` | frontend/s3.js:26-33 | sign requests go to parts 1, 2, ... in strictly ascending order, through the first rejected one and no further |
| `UploadProperties.PutsFollowPlan` | frontend/s3.js:28-53 | exactly one PUT per signed part, in part order, carrying part i's planned slice and file type to the URL signed for part i |
| `UploadProperties.CompletionInPartOrder` | frontend/s3.js:56-68 | completion is requested at most once, exactly when every part was signed and delivered, with N entries where entry j has the ETag of part j+1's PUT and part number j+1; success happens exactly when that request succeeds, and returns its response |
| `UploadProperties.AbortExactlyOnce` | frontend/s3.js:15-72 | a started session that does not complete is aborted exactly once, as the last request, with its own id; no abort after a rejected start or a successful completion; the cause is the first failure in program order; the call returns nothing unless the abort itself is rejected |
| `UploadScenarios.ThreePartsComplete` | frontend/s3.js:11-73 | 250 MiB, every request succeeding: parts 1, 2, 3 signed and PUT in order, completion with ETags e1, e2, e3 under part numbers 1, 2, 3, and no abort |
| `UploadScenarios.SignRejectedAtPart2` | frontend/s3.js:11-73 | signing part 2 rejected: parts 1 and 2 signed, one PUT, no completion, one abort, no result |
| `UploadScenarios.TransferLostAtPart2` | frontend/s3.js:11-73 | part 2's PUT fails: all three parts signed and PUT, no completion, one abort caused by part 2 |

## Left out

- The HTTP transport is not modelled: axios requests, backend URLs, query parameters, the
  `Content-Type` and `Access-Control-Expose-Headers` headers (frontend/s3.js:36-52, 80-152).
  Each control-plane request and each PUT is one scripted outcome in `Env`.
- backend/main.py and backend/run.py are not part of this model. They are thin FastAPI
  wrappers over storage-service calls plus server start-up, with no orchestration logic.
- UploadProperties.AbortExactlyOnce: assumes every request settles. Each environment
  outcome is a reply or a rejection, and each PUT delivers or fails. The source sets no
  timeout on any axios request (frontend/s3.js:36, 81, 100, 121, 141). A sign, PUT or
  completion request that never answers leaves `uploadMultipart` pending forever, and
  the started session is then neither completed nor aborted.
- Concurrency is not modelled. In the source, PUTs run concurrently with each other and
  with later sign requests. `Promise.all` returns its results in array order, so the model
  launches all PUTs, then settles them in index order, which computes the same lists.
- Upload.UploadMultipart: applies every progress delta at the `Promise.all` step. When a
  sign request is rejected, the PUTs already launched are never awaited, so the counter
  it returns on that path is 0. Progress events that fire during signing, or after the
  abort, are not modelled.
- The floating-point `progress = bytesTransferred / file.size` and all `console.log` and
  `console.error` output are not modelled.
- Sizes are unbounded integers. For sizes below 2^53, `Math.floor(fileSize / chunkSize)`
  on JavaScript numbers equals integer division. Larger sizes are not modelled.
- `chunkSize` must be a positive integer (`requires chunkSize > 0`). The source has no
  guard for a chunk size of 0. For an empty file, `0 / 0` is `NaN`, so the loop runs zero
  times and completion is requested with an empty parts list. For a non-empty file the part
  count is `Infinity`, and the loop signs empty slices `[0, 0)` until a sign request is
  rejected, then aborts. Neither case is modelled, and nor are fractional chunk sizes.
- Part contents are not modelled: slices are byte ranges, not data.
- A delivered PUT always carries an ETag in the model. In the source, a response whose
  ETag header is not exposed gives `ETag: undefined` in the completion list.
- The JSDoc mentions an `uploadProgressFn` parameter, but the function does not take one.
  Progress is only logged.
