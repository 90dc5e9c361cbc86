/**
 * What a run of `uploadMultipart` guarantees, proved about its specification `Spec`:
 * the session is started first, parts are signed in ascending order, each part's slice
 * goes to the URL signed for it, completion receives the ETags in part order, and a
 * started session that does not complete is aborted exactly once.
 */
module UploadProperties {
  import opened Parts
  import opened Upload

  /** The requests up to the end of the loop: the start request and the completed loop
      iterations carry no abort and no completion. */
  lemma SignedProjections(fileName: string, uploadId: string, contentType: string,
                          plan: seq<Part>, sign: seq<Reply>, k: nat)
    requires k <= |plan| && k <= |sign|
    requires forall i :: 0 <= i < k ==> sign[i].Ok?
    ensures var signed := [StartCall(fileName)] + Launches(uploadId, fileName, contentType, plan, sign, k);
            Signs(signed) == Ascending(k) &&
            Puts(signed) == Puts(Launches(uploadId, fileName, contentType, plan, sign, k)) &&
            Aborts(signed) == 0 && Completions(signed) == []
  {
    var launches := Launches(uploadId, fileName, contentType, plan, sign, k);
    LaunchesProjections(uploadId, fileName, contentType, plan, sign, k);
    AppendCall([], StartCall(fileName));
    assert [] + [StartCall(fileName)] == [StartCall(fileName)];
    ProjectConcat([StartCall(fileName)], launches);
  }

  /** The trace of a started run, projected onto each kind of request: the signs of the
      loop plus the rejected one, the PUTs of the loop, one completion when every part
      was signed and delivered, and one abort when anything failed. */
  lemma SpecProjections(path: string, file: File, env: Env, chunkSize: nat)
    requires chunkSize > 0
    requires |env.sign| == NumChunks(file.size, chunkSize)
    requires |env.transfers| == NumChunks(file.size, chunkSize)
    requires env.start.Ok?
    ensures var trace := Spec(path, file, env, chunkSize).trace;
            var k := FirstRejected(env.sign);
            var reached := k == |env.sign| && FirstFailed(env.transfers) == |env.transfers|;
            Signs(trace) == Ascending(k) + (if k < |env.sign| then [k + 1] else []) &&
            Puts(trace) == Puts(Launches(env.start.body, path + file.name, file.contentType,
                                         Plan(file.size, chunkSize), env.sign, k)) &&
            Completions(trace) == (if reached then [PartsList(env.transfers)] else []) &&
            Aborts(trace) == (if reached && env.complete.Ok? then 0 else 1)
  {
    var fileName := path + file.name;
    var uploadId := env.start.body;
    var k := FirstRejected(env.sign);
    var plan := Plan(file.size, chunkSize);
    var signed := [StartCall(fileName)] + Launches(uploadId, fileName, file.contentType, plan, env.sign, k);
    SignedProjections(fileName, uploadId, file.contentType, plan, env.sign, k);
    var abort := AbortCall(uploadId, fileName);
    if k < |env.sign| {
      var failing := signed + [SignCall(uploadId, fileName, k + 1)];
      AppendCall(signed, SignCall(uploadId, fileName, k + 1));
      AppendCall(failing, abort);
    } else if FirstFailed(env.transfers) < |env.transfers| {
      AppendCall(signed, abort);
    } else {
      var completing := signed + [CompleteCall(uploadId, fileName, PartsList(env.transfers))];
      AppendCall(signed, CompleteCall(uploadId, fileName, PartsList(env.transfers)));
      AppendCall(completing, abort);
    }
  }

  /** Sign requests go out for parts 1, 2, ... in strictly ascending order, and none after
      the first rejected one: the parts signed are exactly 1 .. k+1 when part k+1 is the
      first rejected, and 1 .. N when none is. */
  lemma SignsAscending(path: string, file: File, env: Env, chunkSize: nat)
    requires chunkSize > 0
    requires |env.sign| == NumChunks(file.size, chunkSize)
    requires |env.transfers| == NumChunks(file.size, chunkSize)
    requires env.start.Ok?
    ensures var k := FirstRejected(env.sign);
            Signs(Spec(path, file, env, chunkSize).trace) ==
              Ascending(if k < |env.sign| then k + 1 else |env.sign|)
  {
    SpecProjections(path, file, env, chunkSize);
  }

  /** Each part that got a signed URL has exactly its planned slice PUT to that URL, with
      the file's content type, in part order; no other PUT is launched. */
  lemma PutsFollowPlan(path: string, file: File, env: Env, chunkSize: nat)
    requires chunkSize > 0
    requires |env.sign| == NumChunks(file.size, chunkSize)
    requires |env.transfers| == NumChunks(file.size, chunkSize)
    requires env.start.Ok?
    ensures var puts := Puts(Spec(path, file, env, chunkSize).trace);
            var k := FirstRejected(env.sign);
            |puts| == k &&
            forall i :: 0 <= i < k ==>
              puts[i] == PutCall(env.sign[i].body, file.contentType,
                                 Plan(file.size, chunkSize)[i].start, Plan(file.size, chunkSize)[i].end)
  {
    SpecProjections(path, file, env, chunkSize);
    LaunchesProjections(env.start.body, path + file.name, file.contentType,
                        Plan(file.size, chunkSize), env.sign, FirstRejected(env.sign));
  }

  /** Completion is requested at most once, and exactly when the session started and every
      part was signed and delivered; its list has one entry per part, entry j carrying the
      ETag of part j+1's transfer under part number j+1. The run succeeds exactly when
      that request also succeeds, ends with it, and returns its response. */
  lemma CompletionInPartOrder(path: string, file: File, env: Env, chunkSize: nat)
    requires chunkSize > 0
    requires |env.sign| == NumChunks(file.size, chunkSize)
    requires |env.transfers| == NumChunks(file.size, chunkSize)
    ensures var r := Spec(path, file, env, chunkSize);
            var reached := env.start.Ok? && FirstRejected(env.sign) == |env.sign| &&
                           FirstFailed(env.transfers) == |env.transfers|;
            |Completions(r.trace)| == (if reached then 1 else 0) &&
            (reached ==>
               |Completions(r.trace)[0]| == |env.transfers| &&
               forall j :: 0 <= j < |env.transfers| ==>
                 env.transfers[j].Delivered? &&
                 Completions(r.trace)[0][j] == CompletedPart(env.transfers[j].etag, j + 1)) &&
            (r.result.Completed? <==> reached && env.complete.Ok?) &&
            (r.result.Completed? ==>
               r.result.response == env.complete.body && r.trace[|r.trace| - 1].CompleteCall?)
  {
    if env.start.Ok? {
      SpecProjections(path, file, env, chunkSize);
    }
  }

  /** A started session that does not complete is aborted exactly once, by the last
      request, with the session's id; a rejected start or a successful completion is
      never followed by an abort. The error behind the abort is the first failure in
      program order, and the run resolves with no result unless the abort request itself
      is rejected. */
  lemma AbortExactlyOnce(path: string, file: File, env: Env, chunkSize: nat)
    requires chunkSize > 0
    requires |env.sign| == NumChunks(file.size, chunkSize)
    requires |env.transfers| == NumChunks(file.size, chunkSize)
    ensures var r := Spec(path, file, env, chunkSize);
            Aborts(r.trace) == (if env.start.Ok? && !r.result.Completed? then 1 else 0) &&
            (env.start.Ok? && !r.result.Completed? ==>
               r.trace[|r.trace| - 1] == AbortCall(env.start.body, path + file.name) &&
               (r.result.Aborted? <==> env.abort.Ok?) &&
               (r.result.Aborted? || r.result.AbortRejected?) &&
               r.result.cause == (if FirstRejected(env.sign) < |env.sign|
                                  then SignFailed(FirstRejected(env.sign) + 1)
                                  else if FirstFailed(env.transfers) < |env.transfers|
                                  then TransferLost(FirstFailed(env.transfers) + 1)
                                  else CompleteFailed))
  {
    if env.start.Ok? {
      SpecProjections(path, file, env, chunkSize);
    }
  }
}
