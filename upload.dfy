/**
 * The orchestration of one multipart upload, `uploadMultipart`: start a session, sign
 * and launch the PUT of every planned part in ascending order, wait for all PUTs,
 * aggregate their ETags in part order, complete the session, and abort it once when
 * anything after the start fails.
 *
 * The collaborators (the four control-plane requests and the part PUTs) are a scripted
 * environment of outcomes, and the orchestrator returns, besides its result, the trace of
 * the requests it issued.
 */
module Upload {
  import opened Wrappers
  import opened Parts
  import opened Progress

  /** The default part size, 100 MiB. */
  const DefaultChunkSize: nat := 100 * 1024 * 1024

  /** The file handle: its name, its size in bytes and its declared MIME type. */
  datatype File = File(name: string, size: nat, contentType: string)

  /** How one awaited control-plane request settles: with its response body (an upload id,
      a signed URL, a completion confirmation, an acknowledgement), or rejected. */
  datatype Reply = Ok(body: string) | Rejected

  /** How one part's PUT ends: the `ETag` header of the storage response, or a transport
      failure. Either way, the byte deltas its progress callback reported, in order. */
  datatype Transfer = Delivered(etag: string, deltas: seq<nat>) | Failed(deltas: seq<nat>)

  /** The scripted environment: the outcome of the start request, one sign outcome and one
      PUT outcome per part (by part index), the outcome of completion and of abort. */
  datatype Env = Env(start: Reply, sign: seq<Reply>, transfers: seq<Transfer>,
                     complete: Reply, abort: Reply)

  /** One entry of the list sent to completion, `{ETag, PartNumber}`. */
  datatype CompletedPart = CompletedPart(etag: string, partNumber: nat)

  /** A request the orchestrator issues, in the order it issues them. */
  datatype Call =
    | StartCall(fileName: string)
    | SignCall(uploadId: string, fileName: string, partNumber: nat)
    | PutCall(url: string, contentType: string, start: nat, end: nat)
    | CompleteCall(uploadId: string, fileName: string, parts: seq<CompletedPart>)
    | AbortCall(uploadId: string, fileName: string)

  /** The error the `catch` block receives. */
  datatype Cause =
    | SignFailed(partNumber: nat)     // `preSignPart` rejected for this part
    | TransferLost(partNumber: nat)   // reading `headers` of the `undefined` left by a failed PUT
    | CompleteFailed                  // `completeMultipartUpload` rejected

  /** How a call of `uploadMultipart` ends. */
  datatype UploadResult =
    | StartRejected                   // the start request's rejection propagates; nothing else ran
    | Completed(response: string)     // resolves with the completion response
    | Aborted(cause: Cause)           // the catch block aborted; resolves with `undefined`
    | AbortRejected(cause: Cause)     // the catch block's abort request itself rejected, and that propagates

  /** The number of leading replies that settled `Ok`: the index of the first rejected one,
      or the length when none is. */
  function FirstRejected(replies: seq<Reply>): (k: nat)
    ensures k <= |replies|
    ensures forall i :: 0 <= i < k ==> replies[i].Ok?
    ensures k < |replies| ==> replies[k].Rejected?
  {
    if replies == [] || replies[0].Rejected? then 0 else 1 + FirstRejected(replies[1..])
  }

  /** The index of the first failed transfer, or the length when none failed. */
  function FirstFailed(transfers: seq<Transfer>): (k: nat)
    ensures k <= |transfers|
    ensures forall i :: 0 <= i < k ==> transfers[i].Delivered?
    ensures k < |transfers| ==> transfers[k].Failed?
  {
    if transfers == [] || transfers[0].Failed? then 0 else 1 + FirstFailed(transfers[1..])
  }

  /** The part numbers 1, 2, ..., n. */
  function Ascending(n: nat): (r: seq<nat>)
    ensures |r| == n
    ensures forall i :: 0 <= i < n ==> r[i] == i + 1
  {
    if n == 0 then [] else Ascending(n - 1) + [n]
  }

  /** What a PUT's promise, after `.catch(err => console.error(err))`, resolves to: the
      response (here its ETag), or `undefined` after a failure. */
  function Settled(t: Transfer): Option<string>
  {
    match t
    case Delivered(etag, _) => Some(etag)
    case Failed(_) => None
  }

  /** All progress deltas of a sequence of transfers, transfer by transfer. */
  function AllDeltas(transfers: seq<Transfer>): seq<nat>
  {
    if transfers == [] then []
    else AllDeltas(transfers[..|transfers| - 1]) + transfers[|transfers| - 1].deltas
  }

  /** Each transfer reports at most the bytes of its own slice. */
  predicate WithinSlices(transfers: seq<Transfer>, plan: seq<Part>)
  {
    |transfers| == |plan| &&
    forall i :: 0 <= i < |plan| ==> Sum(transfers[i].deltas) <= plan[i].Length()
  }

  // Projections of a trace onto each kind of request.

  /** The part numbers of the sign requests, in the order they were issued. */
  function Signs(trace: seq<Call>): seq<nat>
  {
    if trace == [] then []
    else (if trace[0].SignCall? then [trace[0].partNumber] else []) + Signs(trace[1..])
  }

  /** The PUTs, in the order they were launched. */
  function Puts(trace: seq<Call>): seq<Call>
  {
    if trace == [] then []
    else (if trace[0].PutCall? then [trace[0]] else []) + Puts(trace[1..])
  }

  /** The number of abort requests. */
  function Aborts(trace: seq<Call>): nat
  {
    if trace == [] then 0
    else (if trace[0].AbortCall? then 1 else 0) + Aborts(trace[1..])
  }

  /** The part lists sent to completion, one per completion request. */
  function Completions(trace: seq<Call>): seq<seq<CompletedPart>>
  {
    if trace == [] then []
    else (if trace[0].CompleteCall? then [trace[0].parts] else []) + Completions(trace[1..])
  }

  /** The projections distribute over concatenation of traces. */
  lemma {:induction false} SignsConcat(a: seq<Call>, b: seq<Call>)
    ensures Signs(a + b) == Signs(a) + Signs(b)
  {
    if a == [] {
      assert a + b == b;
    } else {
      assert (a + b)[1..] == a[1..] + b;
      SignsConcat(a[1..], b);
    }
  }

  lemma {:induction false} PutsConcat(a: seq<Call>, b: seq<Call>)
    ensures Puts(a + b) == Puts(a) + Puts(b)
  {
    if a == [] {
      assert a + b == b;
    } else {
      assert (a + b)[1..] == a[1..] + b;
      PutsConcat(a[1..], b);
    }
  }

  lemma {:induction false} AbortsConcat(a: seq<Call>, b: seq<Call>)
    ensures Aborts(a + b) == Aborts(a) + Aborts(b)
  {
    if a == [] {
      assert a + b == b;
    } else {
      assert (a + b)[1..] == a[1..] + b;
      AbortsConcat(a[1..], b);
    }
  }

  lemma {:induction false} CompletionsConcat(a: seq<Call>, b: seq<Call>)
    ensures Completions(a + b) == Completions(a) + Completions(b)
  {
    if a == [] {
      assert a + b == b;
    } else {
      assert (a + b)[1..] == a[1..] + b;
      CompletionsConcat(a[1..], b);
    }
  }

  lemma ProjectConcat(a: seq<Call>, b: seq<Call>)
    ensures Signs(a + b) == Signs(a) + Signs(b)
    ensures Puts(a + b) == Puts(a) + Puts(b)
    ensures Aborts(a + b) == Aborts(a) + Aborts(b)
    ensures Completions(a + b) == Completions(a) + Completions(b)
  {
    SignsConcat(a, b);
    PutsConcat(a, b);
    AbortsConcat(a, b);
    CompletionsConcat(a, b);
  }

  /** Appending one request adds its own projection. */
  lemma AppendCall(t: seq<Call>, c: Call)
    ensures Signs(t + [c]) == Signs(t) + (if c.SignCall? then [c.partNumber] else [])
    ensures Puts(t + [c]) == Puts(t) + (if c.PutCall? then [c] else [])
    ensures Aborts(t + [c]) == Aborts(t) + (if c.AbortCall? then 1 else 0)
    ensures Completions(t + [c]) == Completions(t) + (if c.CompleteCall? then [c.parts] else [])
  {
    ProjectConcat(t, [c]);
    assert [c][1..] == [];
  }

  /** The requests of the first `m` loop iterations that got a signed URL: sign part i, then
      launch the PUT of part i's slice to that URL. */
  function Launches(uploadId: string, fileName: string, contentType: string,
                    plan: seq<Part>, sign: seq<Reply>, m: nat): seq<Call>
    requires m <= |plan| && m <= |sign|
    requires forall i :: 0 <= i < m ==> sign[i].Ok?
  {
    if m == 0 then []
    else Launches(uploadId, fileName, contentType, plan, sign, m - 1) +
         [SignCall(uploadId, fileName, m),
          PutCall(sign[m - 1].body, contentType, plan[m - 1].start, plan[m - 1].end)]
  }

  /** After m iterations, parts 1..m were signed in ascending order and part i's slice was
      PUT to the URL signed for part i; nothing was completed or aborted. */
  lemma {:induction false} LaunchesProjections(uploadId: string, fileName: string, contentType: string,
                                               plan: seq<Part>, sign: seq<Reply>, m: nat)
    requires m <= |plan| && m <= |sign|
    requires forall i :: 0 <= i < m ==> sign[i].Ok?
    ensures var calls := Launches(uploadId, fileName, contentType, plan, sign, m);
            Signs(calls) == Ascending(m) &&
            |Puts(calls)| == m &&
            (forall i :: 0 <= i < m ==>
               Puts(calls)[i] == PutCall(sign[i].body, contentType, plan[i].start, plan[i].end)) &&
            Aborts(calls) == 0 && Completions(calls) == []
  {
    if m > 0 {
      var prev := Launches(uploadId, fileName, contentType, plan, sign, m - 1);
      var sc := SignCall(uploadId, fileName, m);
      var pc := PutCall(sign[m - 1].body, contentType, plan[m - 1].start, plan[m - 1].end);
      LaunchesProjections(uploadId, fileName, contentType, plan, sign, m - 1);
      ProjectConcat(prev, [sc, pc]);
      assert [sc, pc][1..] == [pc];
      assert Signs([pc]) == [] && Puts([pc]) == [pc];
      assert Signs([sc, pc]) == [m] && Puts([sc, pc]) == [pc];
      assert Aborts([pc]) == 0 && Completions([pc]) == [];
      assert Aborts([sc, pc]) == 0 && Completions([sc, pc]) == [];
    }
  }

  /** Bytes reported by the first k transfers stay within the first k slices. */
  lemma {:induction false} DeltasWithinCovered(transfers: seq<Transfer>, plan: seq<Part>, k: nat)
    requires WithinSlices(transfers, plan) && k <= |plan|
    ensures Sum(AllDeltas(transfers[..k])) <= Covered(plan[..k])
  {
    if k > 0 {
      DeltasWithinCovered(transfers, plan, k - 1);
      assert transfers[..k][..k - 1] == transfers[..k - 1];
      assert plan[..k][..k - 1] == plan[..k - 1];
      SumConcat(AllDeltas(transfers[..k - 1]), transfers[k - 1].deltas);
    }
  }

  /** When every transfer reports at most its own slice, the counter never exceeds the
      file size. */
  lemma ReportedWithinFile(fileSize: nat, chunkSize: nat, transfers: seq<Transfer>)
    requires chunkSize > 0 && WithinSlices(transfers, Plan(fileSize, chunkSize))
    ensures Sum(AllDeltas(transfers)) <= fileSize
  {
    var plan := Plan(fileSize, chunkSize);
    DeltasWithinCovered(transfers, plan, |plan|);
    assert transfers[..|plan|] == transfers && plan[..|plan|] == plan;
    CoveredPlan(fileSize, chunkSize);
  }

  /** The `for` loop over the parts: compute part `index`'s slice, wait for its signed URL,
      launch its PUT without waiting for it; a rejected sign request ends the loop. */
  method SignAndLaunch(uploadId: string, fileName: string, file: File, chunkSize: nat,
                       sign: seq<Reply>)
    returns (calls: seq<Call>, failed: Option<nat>)
    requires chunkSize > 0 && |sign| == NumChunks(file.size, chunkSize)
    ensures failed == (if FirstRejected(sign) < |sign| then Some(FirstRejected(sign) + 1) else None)
    ensures calls == Launches(uploadId, fileName, file.contentType, Plan(file.size, chunkSize),
                              sign, FirstRejected(sign)) +
                     (if FirstRejected(sign) < |sign|
                      then [SignCall(uploadId, fileName, FirstRejected(sign) + 1)] else [])
  {
    var numChunks := NumChunks(file.size, chunkSize);
    ghost var plan := Plan(file.size, chunkSize);
    calls := [];
    var index := 1;
    while index < numChunks + 1
      invariant 1 <= index <= numChunks + 1
      invariant forall i :: 0 <= i < index - 1 ==> sign[i].Ok?
      invariant calls == Launches(uploadId, fileName, file.contentType, plan, sign, index - 1)
    {
      var start := (index - 1) * chunkSize;
      var end := index * chunkSize;
      var blob := if index < numChunks then BlobSlice(file.size, start, Some(end))
                  else BlobSlice(file.size, start, None);
      calls := calls + [SignCall(uploadId, fileName, index)];
      if sign[index - 1].Rejected? {
        return calls, Some(index);
      }
      var url := sign[index - 1].body;
      assert plan[index - 1] == SliceOf(file.size, chunkSize, index);
      calls := calls + [PutCall(url, file.contentType, blob.0, blob.1)];
      index := index + 1;
    }
    failed := None;
  }

  /** `await Promise.all(promiseArray)`: every PUT settles, its progress callbacks having
      run, and the settled values come back in launch order. */
  method AwaitAll(transfers: seq<Transfer>, progress: ProgressCounter)
    returns (resolved: seq<Option<string>>)
    requires progress.Valid()
    modifies progress
    ensures progress.Valid()
    ensures progress.reported == old(progress.reported) + AllDeltas(transfers)
    ensures |resolved| == |transfers|
    ensures forall i :: 0 <= i < |transfers| ==> resolved[i] == Settled(transfers[i])
  {
    resolved := [];
    for i := 0 to |transfers|
      invariant progress.Valid()
      invariant progress.reported == old(progress.reported) + AllDeltas(transfers[..i])
      invariant |resolved| == i
      invariant forall j :: 0 <= j < i ==> resolved[j] == Settled(transfers[j])
    {
      progress.OnUploadProgressAll(transfers[i].deltas);
      assert transfers[..i + 1][..i] == transfers[..i];
      resolved := resolved + [Settled(transfers[i])];
    }
    assert transfers[..|transfers|] == transfers;
  }

  /** The outcome of building `uploadPartsArray`: the list, or the index at which reading
      `headers` of an `undefined` entry throws. */
  datatype Aggregate = PartsArray(parts: seq<CompletedPart>) | Fault(index: nat)

  /** `resolvedArray.forEach((r, index) => uploadPartsArray.push({ETag: r.headers.etag,
      PartNumber: index + 1}))`: part numbers come from array positions, and the first
      `undefined` entry throws. */
  method BuildPartsArray(resolved: seq<Option<string>>) returns (r: Aggregate)
    ensures r.PartsArray? <==> forall i :: 0 <= i < |resolved| ==> resolved[i].Some?
    ensures r.PartsArray? ==>
              |r.parts| == |resolved| &&
              forall j :: 0 <= j < |resolved| ==>
                resolved[j].Some? && r.parts[j] == CompletedPart(resolved[j].value, j + 1)
    ensures r.Fault? ==>
              r.index < |resolved| && resolved[r.index].None? &&
              forall i :: 0 <= i < r.index ==> resolved[i].Some?
  {
    var parts: seq<CompletedPart> := [];
    for index := 0 to |resolved|
      invariant |parts| == index
      invariant forall j :: 0 <= j < index ==>
                  resolved[j].Some? && parts[j] == CompletedPart(resolved[j].value, j + 1)
    {
      if resolved[index].None? {
        return Fault(index);
      }
      parts := parts + [CompletedPart(resolved[index].value, index + 1)];
    }
    return PartsArray(parts);
  }

  /** The list `uploadPartsArray` when every PUT delivered: entry j carries the ETag of
      the transfer launched for part j+1, under part number j+1. */
  function PartsList(transfers: seq<Transfer>): (parts: seq<CompletedPart>)
    requires forall j :: 0 <= j < |transfers| ==> transfers[j].Delivered?
  {
    seq(|transfers|, j requires 0 <= j < |transfers| => CompletedPart(transfers[j].etag, j + 1))
  }

  /** How the rest of the `try` block after the loop ends: with the completion response,
      or with the error the `catch` block receives. */
  datatype Settlement = Done(response: string) | Thrown(cause: Cause)

  /** The rest of the `try` block once every part was signed: await all PUTs, build the
      parts list, and request completion with it. */
  method AwaitAndComplete(uploadId: string, fileName: string, env: Env, progress: ProgressCounter)
    returns (outcome: Settlement, calls: seq<Call>)
    requires progress.Valid()
    modifies progress
    ensures progress.Valid()
    ensures progress.reported == old(progress.reported) + AllDeltas(env.transfers)
    ensures FirstFailed(env.transfers) < |env.transfers| ==>
              calls == [] && outcome == Thrown(TransferLost(FirstFailed(env.transfers) + 1))
    ensures FirstFailed(env.transfers) == |env.transfers| ==>
              calls == [CompleteCall(uploadId, fileName, PartsList(env.transfers))] &&
              outcome == (if env.complete.Ok? then Done(env.complete.body) else Thrown(CompleteFailed))
  {
    var resolved := AwaitAll(env.transfers, progress);
    var aggregate := BuildPartsArray(resolved);
    assert forall i :: 0 <= i < |resolved| ==> (resolved[i].None? <==> env.transfers[i].Failed?);
    if aggregate.Fault? {
      return Thrown(TransferLost(aggregate.index + 1)), [];
    }
    assert aggregate.parts == PartsList(env.transfers);
    calls := [CompleteCall(uploadId, fileName, aggregate.parts)];
    outcome := if env.complete.Ok? then Done(env.complete.body) else Thrown(CompleteFailed);
  }

  /** A call of `uploadMultipart`: how it ends and the requests it issued. */
  datatype Run = Run(result: UploadResult, trace: seq<Call>)

  /** The `catch` block: issue the abort request after `calls`, and end according to how
      the abort request settles. */
  function Aborting(uploadId: string, fileName: string, env: Env, calls: seq<Call>, cause: Cause): Run
  {
    Run(if env.abort.Ok? then Aborted(cause) else AbortRejected(cause),
        calls + [AbortCall(uploadId, fileName)])
  }

  /** The run of `uploadMultipart(path, file, chunkSize)` against `env`, phase by phase:
      every part up to the first rejected sign request is signed and launched; a rejected
      sign request, a failed PUT or a rejected completion is answered by one abort. */
  function Spec(path: string, file: File, env: Env, chunkSize: nat): (r: Run)
    requires chunkSize > 0
    requires |env.sign| == NumChunks(file.size, chunkSize)
    requires |env.transfers| == NumChunks(file.size, chunkSize)
    // The session is started first, under `path + file.name`; a rejected start
    // propagates and no other request follows it.
    ensures |r.trace| >= 1 && r.trace[0] == StartCall(path + file.name)
    ensures r.result.StartRejected? <==> env.start.Rejected?
    ensures env.start.Rejected? ==> r.trace == [StartCall(path + file.name)]
  {
    var fileName := path + file.name;
    if env.start.Rejected? then Run(StartRejected, [StartCall(fileName)])
    else
      var uploadId := env.start.body;
      var k := FirstRejected(env.sign);
      var signed := [StartCall(fileName)] +
        Launches(uploadId, fileName, file.contentType, Plan(file.size, chunkSize), env.sign, k);
      if k < |env.sign| then
        Aborting(uploadId, fileName, env, signed + [SignCall(uploadId, fileName, k + 1)],
                 SignFailed(k + 1))
      else if FirstFailed(env.transfers) < |env.transfers| then
        Aborting(uploadId, fileName, env, signed, TransferLost(FirstFailed(env.transfers) + 1))
      else
        var completing := signed + [CompleteCall(uploadId, fileName, PartsList(env.transfers))];
        if env.complete.Ok? then Run(Completed(env.complete.body), completing)
        else Aborting(uploadId, fileName, env, completing, CompleteFailed)
  }

  /** `uploadMultipart(path, file, chunkSize)` run against the environment `env`. */
  method UploadMultipart(path: string, file: File, env: Env, chunkSize: nat := DefaultChunkSize)
    returns (result: UploadResult, trace: seq<Call>, bytesTransferred: nat)
    requires chunkSize > 0
    requires |env.sign| == NumChunks(file.size, chunkSize)
    requires |env.transfers| == NumChunks(file.size, chunkSize)
    ensures Run(result, trace) == Spec(path, file, env, chunkSize)
    // Once all PUTs were awaited the counter holds every delta they reported, and stays
    // within the file size when each stayed within its slice; it is 0 when nothing was awaited.
    ensures env.start.Ok? && FirstRejected(env.sign) == |env.sign| ==>
              bytesTransferred == Sum(AllDeltas(env.transfers))
    ensures env.start.Ok? && FirstRejected(env.sign) == |env.sign| &&
            WithinSlices(env.transfers, Plan(file.size, chunkSize)) ==>
              bytesTransferred <= file.size
    ensures !(env.start.Ok? && FirstRejected(env.sign) == |env.sign|) ==> bytesTransferred == 0
  {
    var fileName := path + file.name;
    trace := [StartCall(fileName)];
    if env.start.Rejected? {
      return StartRejected, trace, 0;
    }
    var uploadId := env.start.body;
    var progress := new ProgressCounter();
    var launched, failed := SignAndLaunch(uploadId, fileName, file, chunkSize, env.sign);
    trace := trace + launched;
    var cause: Cause;
    if failed.Some? {
      cause := SignFailed(failed.value);
    } else {
      var outcome, completion := AwaitAndComplete(uploadId, fileName, env, progress);
      assert progress.reported == AllDeltas(env.transfers);
      if WithinSlices(env.transfers, Plan(file.size, chunkSize)) {
        ReportedWithinFile(file.size, chunkSize, env.transfers);
      }
      trace := trace + completion;
      if outcome.Done? {
        return Completed(outcome.response), trace, progress.bytesTransferred;
      }
      cause := outcome.cause;
    }
    trace := trace + [AbortCall(uploadId, fileName)];
    result := if env.abort.Ok? then Aborted(cause) else AbortRejected(cause);
    bytesTransferred := progress.bytesTransferred;
  }
}
