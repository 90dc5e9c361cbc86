/**
 * Concrete runs of `uploadMultipart` on a 250 MiB file with the default 100 MiB parts,
 * derived from the general properties.
 */
module UploadScenarios {
  import opened Parts
  import opened Upload
  import opened UploadProperties

  const Video: File := File("video.mp4", 250 * MiB, "video/mp4")

  function Signed(): seq<Reply> { [Ok("url1"), Ok("url2"), Ok("url3")] }

  function Delivered3(): seq<Transfer>
  {
    [Delivered("e1", [100 * MiB]), Delivered("e2", [100 * MiB]), Delivered("e3", [50 * MiB])]
  }

  /** Every request succeeds: three parts are signed and PUT in order, completion gets
      their ETags under part numbers 1, 2, 3, and nothing is aborted. */
  lemma ThreePartsComplete()
    ensures var env := Env(Ok("id"), Signed(), Delivered3(), Ok("done"), Ok("ack"));
            var r := Spec("uploads/", Video, env, DefaultChunkSize);
            r.result == Completed("done") &&
            Signs(r.trace) == [1, 2, 3] &&
            Puts(r.trace) == [PutCall("url1", "video/mp4", 0, 100 * MiB),
                              PutCall("url2", "video/mp4", 100 * MiB, 200 * MiB),
                              PutCall("url3", "video/mp4", 200 * MiB, 250 * MiB)] &&
            Completions(r.trace) == [[CompletedPart("e1", 1), CompletedPart("e2", 2),
                                      CompletedPart("e3", 3)]] &&
            Aborts(r.trace) == 0
  {
    var env := Env(Ok("id"), Signed(), Delivered3(), Ok("done"), Ok("ack"));
    PlanWithRemainder();
    assert FirstRejected(env.sign) == 3 && FirstFailed(env.transfers) == 3;
    SignsAscending("uploads/", Video, env, DefaultChunkSize);
    PutsFollowPlan("uploads/", Video, env, DefaultChunkSize);
    CompletionInPartOrder("uploads/", Video, env, DefaultChunkSize);
    AbortExactlyOnce("uploads/", Video, env, DefaultChunkSize);
    var parts := Completions(Spec("uploads/", Video, env, DefaultChunkSize).trace)[0];
    assert parts[0] == CompletedPart("e1", 1) && parts[1] == CompletedPart("e2", 2) &&
           parts[2] == CompletedPart("e3", 3);
    assert parts == [CompletedPart("e1", 1), CompletedPart("e2", 2), CompletedPart("e3", 3)];
  }

  /** Signing part 2 is rejected: parts 1 and 2 are signed, only part 1 is PUT, completion
      is never requested, the session is aborted once, and the call returns no result. */
  lemma SignRejectedAtPart2()
    ensures var env := Env(Ok("id"), [Ok("url1"), Rejected, Ok("url3")], Delivered3(),
                           Ok("done"), Ok("ack"));
            var r := Spec("uploads/", Video, env, DefaultChunkSize);
            r.result == Aborted(SignFailed(2)) &&
            Signs(r.trace) == [1, 2] && |Puts(r.trace)| == 1 &&
            Completions(r.trace) == [] && Aborts(r.trace) == 1
  {
    var env := Env(Ok("id"), [Ok("url1"), Rejected, Ok("url3")], Delivered3(), Ok("done"), Ok("ack"));
    assert FirstRejected(env.sign) == 1;
    SignsAscending("uploads/", Video, env, DefaultChunkSize);
    PutsFollowPlan("uploads/", Video, env, DefaultChunkSize);
    CompletionInPartOrder("uploads/", Video, env, DefaultChunkSize);
    AbortExactlyOnce("uploads/", Video, env, DefaultChunkSize);
  }

  /** The PUT of part 2 fails at the network layer: every part is still signed and PUT,
      reading the missing response throws, and the session is aborted once. */
  lemma TransferLostAtPart2()
    ensures var env := Env(Ok("id"), Signed(),
                           [Delivered("e1", [100 * MiB]), Failed([]), Delivered("e3", [50 * MiB])],
                           Ok("done"), Ok("ack"));
            var r := Spec("uploads/", Video, env, DefaultChunkSize);
            r.result == Aborted(TransferLost(2)) &&
            Signs(r.trace) == [1, 2, 3] && |Puts(r.trace)| == 3 &&
            Completions(r.trace) == [] && Aborts(r.trace) == 1
  {
    var env := Env(Ok("id"), Signed(),
                   [Delivered("e1", [100 * MiB]), Failed([]), Delivered("e3", [50 * MiB])],
                   Ok("done"), Ok("ack"));
    assert FirstRejected(env.sign) == 3 && FirstFailed(env.transfers) == 1;
    SignsAscending("uploads/", Video, env, DefaultChunkSize);
    PutsFollowPlan("uploads/", Video, env, DefaultChunkSize);
    CompletionInPartOrder("uploads/", Video, env, DefaultChunkSize);
    AbortExactlyOnce("uploads/", Video, env, DefaultChunkSize);
  }
}
