/**
 * The upload's byte counter: `bytesTransferred`, a closure variable of `uploadMultipart`
 * that every part's `onUploadProgress` callback increases by the bytes it reports.
 */
module Progress {

  /** The sum of a sequence of byte deltas, added up in the order they were reported. */
  function Sum(deltas: seq<nat>): nat
  {
    if deltas == [] then 0 else Sum(deltas[..|deltas| - 1]) + deltas[|deltas| - 1]
  }

  /** Reporting `a` and then `b` counts the bytes of both. */
  lemma {:induction false} SumConcat(a: seq<nat>, b: seq<nat>)
    ensures Sum(a + b) == Sum(a) + Sum(b)
  {
    if b == [] {
      assert a + b == a;
    } else {
      var b' := b[..|b| - 1];
      assert (a + b)[..|a + b| - 1] == a + b';
      SumConcat(a, b');
    }
  }

  /** The count after any prefix of the reports is at most the count after all of them:
      with non-negative deltas the counter never goes down. */
  lemma {:induction false} SumPrefix(deltas: seq<nat>, k: nat)
    requires k <= |deltas|
    ensures Sum(deltas[..k]) <= Sum(deltas)
  {
    assert deltas == deltas[..k] + deltas[k..];
    SumConcat(deltas[..k], deltas[k..]);
  }

  /** The shared progress state of one upload. */
  class ProgressCounter {
    var bytesTransferred: nat
    /** Every delta reported so far, in the order the callbacks ran. */
    ghost var reported: seq<nat>

    ghost predicate Valid()
      reads this
    {
      bytesTransferred == Sum(reported)
    }

    /** `let bytesTransferred = 0` */
    constructor ()
      ensures Valid() && reported == [] && bytesTransferred == 0
    {
      bytesTransferred := 0;
      reported := [];
    }

    /** One `onUploadProgress` callback: `bytesTransferred += progressEvent.bytes`. */
    method OnUploadProgress(bytes: nat)
      requires Valid()
      modifies this
      ensures Valid()
      ensures reported == old(reported) + [bytes]
      ensures bytesTransferred == old(bytesTransferred) + bytes
    {
      assert (reported + [bytes])[..|reported|] == reported;
      bytesTransferred := bytesTransferred + bytes;
      reported := reported + [bytes];
    }

    /** The callbacks of one transfer, in order. */
    method OnUploadProgressAll(deltas: seq<nat>)
      requires Valid()
      modifies this
      ensures Valid()
      ensures reported == old(reported) + deltas
      ensures bytesTransferred == old(bytesTransferred) + Sum(deltas)
    {
      for k := 0 to |deltas|
        invariant Valid()
        invariant reported == old(reported) + deltas[..k]
      {
        assert deltas[..k + 1] == deltas[..k] + [deltas[k]];
        OnUploadProgress(deltas[k]);
      }
      assert deltas[..|deltas|] == deltas;
      SumConcat(old(reported), deltas);
    }
  }
}
