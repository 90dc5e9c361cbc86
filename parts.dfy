/**
 * Part planning of the multipart upload: how `uploadMultipart` cuts a file of
 * `fileSize` bytes into parts of `chunkSize` bytes. Parts are byte ranges, not
 * byte contents.
 */
module Parts {
  import opened Wrappers

  /** One planned part: its 1-based part number and the byte range [start, end) it covers. */
  datatype Part = Part(partNumber: nat, start: nat, end: nat)
  {
    function Length(): int { end - start }

    /** Whether byte offset `b` lies in [start, end). */
    predicate Contains(b: int) { start <= b < end }
  }

  /** `Blob.slice(start, end)` on a blob of `size` bytes, for non-negative offsets:
      both ends are clamped to the blob, and an absent end means the end of the blob. */
  function BlobSlice(size: nat, start: nat, end: Option<nat>): (r: (nat, nat))
    ensures r.0 <= r.1 <= size
    ensures start <= size && (end.None? || start <= end.value <= size) ==>
              r == (start, if end.None? then size else end.value)
  {
    var from := if start < size then start else size;
    var to := match end
      case None => size
      case Some(e) => if e < size then e else size;
    (from, if to < from then from else to)
  }

  /** The number of parts, `Math.floor(fileSize / chunkSize) + 1`. */
  function NumChunks(fileSize: nat, chunkSize: nat): (n: nat)
    requires chunkSize > 0
    ensures n >= 1
  {
    fileSize / chunkSize + 1
  }

  /** The part count brackets the file size between the start of the last part and one
      chunk past it, so the last part never starts beyond the end of the file. */
  lemma NumChunksBounds(fileSize: nat, chunkSize: nat)
    requires chunkSize > 0
    ensures var n := NumChunks(fileSize, chunkSize);
            (n - 1) * chunkSize <= fileSize < n * chunkSize
  {
    var n := NumChunks(fileSize, chunkSize);
    assert fileSize == (n - 1) * chunkSize + fileSize % chunkSize;
  }

  /** Part `index` (1-based) as the loop body takes it: `file.slice(start, end)` for every
      part but the last, and `file.slice(start)` for the last one. */
  function SliceOf(fileSize: nat, chunkSize: nat, index: nat): (p: Part)
    requires chunkSize > 0 && 1 <= index <= NumChunks(fileSize, chunkSize)
    ensures p.partNumber == index
    ensures p.start <= p.end <= fileSize
    ensures index == NumChunks(fileSize, chunkSize) ==> p.end == fileSize
  {
    var start := (index - 1) * chunkSize;
    var end := index * chunkSize;
    var r := if index < NumChunks(fileSize, chunkSize)
             then BlobSlice(fileSize, start, Some(end))
             else BlobSlice(fileSize, start, None);
    Part(index, r.0, r.1)
  }

  /** The whole plan: parts 1 .. NumChunks in order. */
  function Plan(fileSize: nat, chunkSize: nat): (plan: seq<Part>)
    requires chunkSize > 0
    ensures |plan| == fileSize / chunkSize + 1
  {
    seq(NumChunks(fileSize, chunkSize),
        i requires 0 <= i < NumChunks(fileSize, chunkSize) => SliceOf(fileSize, chunkSize, i + 1))
  }

  /** Total number of bytes covered by a sequence of parts. */
  function Covered(parts: seq<Part>): int
  {
    if parts == [] then 0 else Covered(parts[..|parts| - 1]) + parts[|parts| - 1].Length()
  }

  lemma MulLe(a: nat, b: nat, c: nat)
    requires a <= b
    ensures a * c <= b * c
  {
  }

  /** `i` is the quotient `b / c` exactly when `b` lies in [i*c, (i+1)*c). */
  lemma DivIndex(b: nat, c: nat, i: nat)
    requires c > 0
    ensures i * c <= b < (i + 1) * c <==> i == b / c
  {
    var q := b / c;
    assert q * c <= b < (q + 1) * c;
    if i < q {
      MulLe(i + 1, q, c);
    } else if i > q {
      MulLe(q + 1, i, c);
    }
  }

  /** Every part but the last is exactly [(i-1)*chunkSize, i*chunkSize): a full chunk
      inside the file. */
  lemma FullPart(fileSize: nat, chunkSize: nat, i: nat)
    requires chunkSize > 0 && 0 <= i < NumChunks(fileSize, chunkSize) - 1
    ensures Plan(fileSize, chunkSize)[i] == Part(i + 1, i * chunkSize, (i + 1) * chunkSize)
    ensures Plan(fileSize, chunkSize)[i].Length() == chunkSize
    ensures Plan(fileSize, chunkSize)[i].end <= fileSize
  {
    var n := NumChunks(fileSize, chunkSize);
    MulLe(i + 1, n - 1, chunkSize);
  }

  /** The last part starts at (N-1)*chunkSize, which is within the file, and runs to the
      end of the file; it is empty exactly when the file size is a multiple of the chunk
      size, and never has negative length. */
  lemma LastPart(fileSize: nat, chunkSize: nat)
    requires chunkSize > 0
    ensures var n := NumChunks(fileSize, chunkSize);
            Plan(fileSize, chunkSize)[n - 1] == Part(n, (n - 1) * chunkSize, fileSize)
    ensures var last := Plan(fileSize, chunkSize)[NumChunks(fileSize, chunkSize) - 1];
            0 <= last.Length() == fileSize % chunkSize &&
            (last.Length() == 0 <==> fileSize % chunkSize == 0)
  {
    var n := NumChunks(fileSize, chunkSize);
    assert (n - 1) * chunkSize == (fileSize / chunkSize) * chunkSize;
  }

  /** Every part starts at (i-1)*chunkSize, whether it is full or the last one. */
  lemma PartStart(fileSize: nat, chunkSize: nat, i: nat)
    requires chunkSize > 0 && 0 <= i < NumChunks(fileSize, chunkSize)
    ensures Plan(fileSize, chunkSize)[i].partNumber == i + 1
    ensures Plan(fileSize, chunkSize)[i].start == i * chunkSize
    ensures Plan(fileSize, chunkSize)[i].start <= Plan(fileSize, chunkSize)[i].end <= fileSize
  {
    if i < NumChunks(fileSize, chunkSize) - 1 {
      FullPart(fileSize, chunkSize, i);
    } else {
      LastPart(fileSize, chunkSize);
    }
  }

  /** Part numbers increase strictly with the start of their ranges. */
  lemma StartsIncrease(fileSize: nat, chunkSize: nat, i: nat, j: nat)
    requires chunkSize > 0 && i < j < NumChunks(fileSize, chunkSize)
    ensures Plan(fileSize, chunkSize)[i].partNumber < Plan(fileSize, chunkSize)[j].partNumber
    ensures Plan(fileSize, chunkSize)[i].start < Plan(fileSize, chunkSize)[j].start
  {
    PartStart(fileSize, chunkSize, i);
    PartStart(fileSize, chunkSize, j);
    MulLe(i + 1, j, chunkSize);
  }

  /** Consecutive parts are contiguous: the first starts at 0, each one ends where the next
      starts, and the last ends at the end of the file. */
  lemma Contiguous(fileSize: nat, chunkSize: nat)
    requires chunkSize > 0
    ensures Plan(fileSize, chunkSize)[0].start == 0
    ensures forall i :: 0 <= i < |Plan(fileSize, chunkSize)| - 1 ==>
              Plan(fileSize, chunkSize)[i].end == Plan(fileSize, chunkSize)[i + 1].start
    ensures Plan(fileSize, chunkSize)[|Plan(fileSize, chunkSize)| - 1].end == fileSize
  {
    var plan := Plan(fileSize, chunkSize);
    PartStart(fileSize, chunkSize, 0);
    forall i | 0 <= i < |plan| - 1
      ensures plan[i].end == plan[i + 1].start
    {
      FullPart(fileSize, chunkSize, i);
      PartStart(fileSize, chunkSize, i + 1);
    }
    LastPart(fileSize, chunkSize);
  }

  /** The parts partition [0, fileSize): byte `b` of the file lies in the part with index
      `b / chunkSize` (part number `b / chunkSize + 1`) and in no other part. */
  lemma Partition(fileSize: nat, chunkSize: nat)
    requires chunkSize > 0
    ensures forall b :: 0 <= b < fileSize ==> b / chunkSize < |Plan(fileSize, chunkSize)|
    ensures forall b, i :: 0 <= b < fileSize && 0 <= i < |Plan(fileSize, chunkSize)| ==>
              (Plan(fileSize, chunkSize)[i].Contains(b) <==> i == b / chunkSize)
  {
    var plan := Plan(fileSize, chunkSize);
    var n := NumChunks(fileSize, chunkSize);
    forall b | 0 <= b < fileSize
      ensures b / chunkSize < n
    {
      DivIndex(b, chunkSize, n - 1);
      if b / chunkSize >= n {
        MulLe(n, b / chunkSize, chunkSize);
        DivIndex(b, chunkSize, b / chunkSize);
      }
    }
    forall b, i | 0 <= b < fileSize && 0 <= i < n
      ensures plan[i].Contains(b) <==> i == b / chunkSize
    {
      DivIndex(b, chunkSize, i);
      if i < n - 1 {
        FullPart(fileSize, chunkSize, i);
      } else {
        LastPart(fileSize, chunkSize);
      }
    }
  }

  /** The first k < N parts cover k full chunks. */
  lemma {:induction false} CoveredFullPrefix(fileSize: nat, chunkSize: nat, k: nat)
    requires chunkSize > 0 && k < NumChunks(fileSize, chunkSize)
    ensures Covered(Plan(fileSize, chunkSize)[..k]) == k * chunkSize
  {
    var plan := Plan(fileSize, chunkSize);
    if k > 0 {
      CoveredFullPrefix(fileSize, chunkSize, k - 1);
      assert plan[..k][..k - 1] == plan[..k - 1];
      FullPart(fileSize, chunkSize, k - 1);
    }
  }

  /** The lengths of all parts add up to the file size. */
  lemma CoveredPlan(fileSize: nat, chunkSize: nat)
    requires chunkSize > 0
    ensures Covered(Plan(fileSize, chunkSize)) == fileSize
  {
    var plan := Plan(fileSize, chunkSize);
    var n := |plan|;
    CoveredFullPrefix(fileSize, chunkSize, n - 1);
    assert plan[..n] == plan;
    LastPart(fileSize, chunkSize);
  }

  const MiB: nat := 1024 * 1024

  /** 250 MiB in chunks of 100 MiB: two full parts and a 50 MiB remainder. */
  lemma PlanWithRemainder()
    ensures Plan(250 * MiB, 100 * MiB) ==
            [Part(1, 0, 100 * MiB), Part(2, 100 * MiB, 200 * MiB), Part(3, 200 * MiB, 250 * MiB)]
  {
    var plan := Plan(250 * MiB, 100 * MiB);
    assert plan[0] == SliceOf(250 * MiB, 100 * MiB, 1);
  }

  /** Boundary policy: an exact multiple of the chunk size gets a trailing empty part,
      and an empty file gets a single empty part. */
  lemma PlanOfExactMultiple(chunkSize: nat)
    requires chunkSize > 0
    ensures Plan(chunkSize, chunkSize) == [Part(1, 0, chunkSize), Part(2, chunkSize, chunkSize)]
    ensures Plan(0, chunkSize) == [Part(1, 0, 0)]
  {
    var plan := Plan(chunkSize, chunkSize);
    assert plan[0] == SliceOf(chunkSize, chunkSize, 1);
    assert plan[1] == SliceOf(chunkSize, chunkSize, 2);
  }
}
