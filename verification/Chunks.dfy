/** Cutting a revision into chunks and putting it together again (packages/core/src/framing.ts, transfers.ts). */
module Chunks {
  import opened Basics
  import opened Framing

  function Min(a: int, b: int): int {
    if a <= b then a else b
  }

  /** One chunk even for an empty revision; otherwise just enough chunks to hold every byte. */
  function ChunkCountFor(sizeBytes: nat, chunkBytes: nat): (n: nat)
    requires chunkBytes > 0
    ensures n >= 1
    ensures sizeBytes <= n * chunkBytes
    ensures n == 1 || (n - 1) * chunkBytes < sizeBytes
  {
    if sizeBytes == 0 then 1 else
      CeilingBounds(sizeBytes, chunkBytes);
      (sizeBytes + chunkBytes - 1) / chunkBytes
  }

  lemma CeilingBounds(sizeBytes: nat, chunkBytes: nat)
    requires chunkBytes > 0 && sizeBytes > 0
    ensures var n := (sizeBytes + chunkBytes - 1) / chunkBytes;
      n >= 1 && (n - 1) * chunkBytes < sizeBytes <= n * chunkBytes
  {
    var n := (sizeBytes + chunkBytes - 1) / chunkBytes;
    var rest := (sizeBytes + chunkBytes - 1) % chunkBytes;
    assert sizeBytes + chunkBytes - 1 == n * chunkBytes + rest;
    assert (n - 1) * chunkBytes == n * chunkBytes - chunkBytes;
    if n <= 0 {
      Monotone(n, 0, chunkBytes);
    }
  }

  lemma ChunkStarts(sizeBytes: nat, chunkBytes: nat, i: nat)
    requires chunkBytes > 0 && i < ChunkCountFor(sizeBytes, chunkBytes)
    ensures 0 <= i * chunkBytes <= sizeBytes
    ensures i + 1 < ChunkCountFor(sizeBytes, chunkBytes) ==> (i + 1) * chunkBytes < sizeBytes
    ensures i + 1 == ChunkCountFor(sizeBytes, chunkBytes) ==> sizeBytes <= (i + 1) * chunkBytes
  {
    var n := ChunkCountFor(sizeBytes, chunkBytes);
    if n > 1 {
      Monotone(i, n - 1, chunkBytes);
      if i + 1 < n {
        Monotone(i + 1, n - 1, chunkBytes);
      }
    }
  }

  lemma Monotone(a: int, b: int, c: nat)
    requires a <= b
    ensures a * c <= b * c
  {
  }

  /** What the sender puts in frame `i`. */
  function Slice(bytes: Bytes, chunkBytes: nat, i: nat): Bytes
    requires chunkBytes > 0 && i < ChunkCountFor(|bytes|, chunkBytes)
  {
    ChunkStarts(|bytes|, chunkBytes, i);
    bytes[i * chunkBytes..Min(i * chunkBytes + chunkBytes, |bytes|)]
  }

  /** The payloads of one transfer, in index order. */
  function SlicesOf(bytes: Bytes, chunkBytes: nat): (s: seq<Bytes>)
    requires chunkBytes > 0
    ensures |s| == ChunkCountFor(|bytes|, chunkBytes)
  {
    seq(ChunkCountFor(|bytes|, chunkBytes), i requires 0 <= i < ChunkCountFor(|bytes|, chunkBytes) =>
      Slice(bytes, chunkBytes, i))
  }

  function Flatten(slices: seq<Bytes>): Bytes {
    if |slices| == 0 then [] else Flatten(slices[..|slices| - 1]) + slices[|slices| - 1]
  }

  /** The concatenation of chunks 0 to `k` exclusive; absent chunks contribute nothing. */
  function Joined(chunks: map<nat, Bytes>, k: nat): Bytes {
    if k == 0 then []
    else Joined(chunks, k - 1) + (if k - 1 in chunks then chunks[k - 1] else [])
  }

  // ---- the plan --------------------------------------------------------

  datatype ChunkPlan = ChunkPlan(chunkIndex: nat, offset: nat, length: nat)

  /** Unlike the sender, the plan has no entry at all for an empty revision. */
  function PlanChunks(sizeBytes: nat, chunkSizeBytes: nat): seq<ChunkPlan>
    requires chunkSizeBytes > 0
  {
    if sizeBytes == 0 then [] else
      seq(ChunkCountFor(sizeBytes, chunkSizeBytes), i requires 0 <= i < ChunkCountFor(sizeBytes, chunkSizeBytes) =>
        ChunkStarts(sizeBytes, chunkSizeBytes, i);
        ChunkPlan(i, i * chunkSizeBytes, Min(chunkSizeBytes, sizeBytes - i * chunkSizeBytes)))
  }

  /** The plan and the sender cut at the same places whenever there is a byte to send. */
  lemma PlanMatchesSlices(bytes: Bytes, chunkBytes: nat)
    requires chunkBytes > 0
    ensures |PlanChunks(|bytes|, chunkBytes)| == if bytes == [] then 0 else ChunkCountFor(|bytes|, chunkBytes)
    ensures forall i :: 0 <= i < |PlanChunks(|bytes|, chunkBytes)| ==>
      var p := PlanChunks(|bytes|, chunkBytes)[i];
      p.chunkIndex == i && p.offset + p.length <= |bytes| && p.length > 0
      && bytes[p.offset..p.offset + p.length] == Slice(bytes, chunkBytes, i)
  {
    forall i | 0 <= i < |PlanChunks(|bytes|, chunkBytes)|
      ensures var p := PlanChunks(|bytes|, chunkBytes)[i];
        p.chunkIndex == i && p.offset + p.length <= |bytes| && p.length > 0
        && bytes[p.offset..p.offset + p.length] == Slice(bytes, chunkBytes, i)
    {
      ChunkStarts(|bytes|, chunkBytes, i);
    }
  }

  // ---- partial collections of genuine slices ----------------------------

  /** Every collected chunk is the slice the sender cut for its index. */
  ghost predicate GenuineChunks(slices: seq<Bytes>, chunks: map<nat, Bytes>) {
    forall i :: i in chunks ==> i < |slices| && chunks[i] == slices[i]
  }

  /** What the first `k` collected chunks weigh. */
  function Weight(chunks: map<nat, Bytes>, k: nat): (w: nat)
    ensures w == |Joined(chunks, k)|
  {
    if k == 0 then 0
    else Weight(chunks, k - 1) + (if k - 1 in chunks then |chunks[k - 1]| else 0)
  }

  lemma {:induction false} WeightAdds(chunks: map<nat, Bytes>, i: nat, payload: Bytes, k: nat)
    requires i !in chunks
    ensures Weight(chunks[i := payload], k) == Weight(chunks, k) + (if i < k then |payload| else 0)
  {
    if k > 0 {
      WeightAdds(chunks, i, payload, k - 1);
    }
  }

  lemma FlattenStep(slices: seq<Bytes>, k: nat)
    requires k < |slices|
    ensures Flatten(slices[..k + 1]) == Flatten(slices[..k]) + slices[k]
  {
    assert slices[..k + 1][..k] == slices[..k];
  }

  /** Genuine chunks never weigh more than the slices they are among. */
  lemma {:induction false} GenuineWeight(slices: seq<Bytes>, chunks: map<nat, Bytes>, k: nat)
    requires GenuineChunks(slices, chunks) && k <= |slices|
    ensures Weight(chunks, k) <= |Flatten(slices[..k])|
  {
    if k > 0 {
      GenuineWeight(slices, chunks, k - 1);
      FlattenStep(slices, k - 1);
    }
  }

  /** Once none of the first `k` is missing they join to the first `k` slices. */
  lemma {:induction false} GenuineJoin(slices: seq<Bytes>, chunks: map<nat, Bytes>, k: nat)
    requires GenuineChunks(slices, chunks) && k <= |slices| && forall i: nat :: i < k ==> i in chunks
    ensures Joined(chunks, k) == Flatten(slices[..k])
  {
    if k > 0 {
      GenuineJoin(slices, chunks, k - 1);
      FlattenStep(slices, k - 1);
    }
  }

  /** The `k`-th slice ends where the first `k + 1` slices end. */
  lemma SliceExtends(bytes: Bytes, chunkBytes: nat, k: nat)
    requires chunkBytes > 0 && k < ChunkCountFor(|bytes|, chunkBytes)
    ensures 0 <= k * chunkBytes <= |bytes|
    ensures bytes[..Min(k * chunkBytes, |bytes|)] + Slice(bytes, chunkBytes, k)
         == bytes[..Min((k + 1) * chunkBytes, |bytes|)]
  {
    ChunkStarts(|bytes|, chunkBytes, k);
    assert (k + 1) * chunkBytes == k * chunkBytes + chunkBytes;
  }

  lemma {:induction false} SlicesTilePrefix(bytes: Bytes, chunkBytes: nat, k: nat)
    requires chunkBytes > 0 && k <= ChunkCountFor(|bytes|, chunkBytes)
    ensures Flatten(SlicesOf(bytes, chunkBytes)[..k]) == bytes[..Min(k * chunkBytes, |bytes|)]
  {
    if k > 0 {
      SlicesTilePrefix(bytes, chunkBytes, k - 1);
      SliceExtends(bytes, chunkBytes, k - 1);
      FlattenStep(SlicesOf(bytes, chunkBytes), k - 1);
    }
  }

  /** The sender's slices tile the revision: nothing lost, nothing twice, for every size and chunk size. */
  lemma SlicesTile(bytes: Bytes, chunkBytes: nat)
    requires chunkBytes > 0
    ensures Flatten(SlicesOf(bytes, chunkBytes)) == bytes
  {
    var slices := SlicesOf(bytes, chunkBytes);
    SlicesTilePrefix(bytes, chunkBytes, |slices|);
    assert slices[..|slices|] == slices && bytes[..|bytes|] == bytes;
  }

  // ---- reassembly ------------------------------------------------------

  datatype Assembly = Assembly(totalChunks: nat, expectedSizeBytes: nat, chunks: map<nat, Bytes>, received: nat) {
    ghost predicate Valid() {
      && totalChunks > 0
      && (forall i :: i in chunks ==> i < totalChunks)
      && received == Weight(chunks, totalChunks) <= expectedSizeBytes
    }

    /** The frame is refused exactly when it is out of range or would overflow the declared size. */
    predicate Refuses(frame: ChunkFrame) {
      || frame.chunkIndex >= totalChunks
      || (frame.chunkIndex !in chunks && received + |frame.payload| > expectedSizeBytes)
    }

    function Accept(frame: ChunkFrame): Assembly {
      if Refuses(frame) || frame.chunkIndex in chunks then this
      else this.(chunks := chunks[frame.chunkIndex := frame.payload], received := received + |frame.payload|)
    }

    predicate IsComplete() {
      |chunks| == totalChunks && received == expectedSizeBytes
    }

    lemma AcceptKeepsValid(frame: ChunkFrame)
      requires Valid()
      ensures Accept(frame).Valid()
    {
      if frame.chunkIndex !in chunks {
        WeightAdds(chunks, frame.chunkIndex, frame.payload, totalChunks);
      }
    }

    /** Complete means every index is there and the pieces add up to the declared size. */
    lemma CompleteMeansAllPresent()
      requires Valid()
      ensures IsComplete() <==> received == expectedSizeBytes && forall i: nat :: i < totalChunks ==> i in chunks
    {
      var all := Indices(totalChunks);
      assert chunks.Keys <= all;
      if |chunks| == totalChunks {
        SubsetOfSameSize(chunks.Keys, all);
      }
      if forall i: nat :: i < totalChunks ==> i in chunks {
        assert chunks.Keys == all;
      }
    }
  }

  /**
   A frame in range that brings a new index and fits is taken, whole; the first chunk of an index stays,
   whatever comes later; a frame out of range or too long changes nothing.
   */
  lemma AcceptMeans(a: Assembly, f: ChunkFrame)
    requires a.Valid()
    ensures var a' := a.Accept(f);
      && a'.totalChunks == a.totalChunks && a'.expectedSizeBytes == a.expectedSizeBytes
      && (forall i :: i in a.chunks ==> i in a'.chunks && a'.chunks[i] == a.chunks[i])
      && (if f.chunkIndex < a.totalChunks && f.chunkIndex !in a.chunks && Weight(a.chunks, a.totalChunks) + |f.payload| <= a.expectedSizeBytes
          then a'.chunks.Keys == a.chunks.Keys + {f.chunkIndex} && a'.chunks[f.chunkIndex] == f.payload
          else a' == a)
      && Weight(a'.chunks, a.totalChunks) == a'.received
    ensures a.Refuses(f) <==>
      f.chunkIndex >= a.totalChunks
      || (f.chunkIndex !in a.chunks && Weight(a.chunks, a.totalChunks) + |f.payload| > a.expectedSizeBytes)
  {
    a.AcceptKeepsValid(f);
  }

  ghost function Indices(n: nat): (r: set<nat>)
    ensures |r| == n && forall i: nat :: i in r <==> i < n
  {
    if n == 0 then {} else Indices(n - 1) + {n - 1}
  }

  lemma SubsetOfSameSize<T>(a: set<T>, b: set<T>)
    requires a <= b && |a| == |b|
    ensures a == b
  {
    assert |b - a| == |b| - |a|;
  }

  /** Reassembles the chunks of one inbound transfer, in whatever order they come. */
  class ChunkAssembler {
    var chunks: map<nat, Bytes>
    var received: nat
    const totalChunks: nat
    const expectedSizeBytes: nat

    ghost function State(): Assembly
      reads this
    {
      Assembly(totalChunks, expectedSizeBytes, chunks, received)
    }

    constructor (totalChunks: nat, expectedSizeBytes: nat)
      requires totalChunks > 0
      ensures State() == Assembly(totalChunks, expectedSizeBytes, map[], 0) && State().Valid()
    {
      this.totalChunks := totalChunks;
      this.expectedSizeBytes := expectedSizeBytes;
      chunks := map[];
      received := 0;
      new;
      EmptyWeight(totalChunks);
    }

    method Accept(frame: ChunkFrame) returns (ok: bool)
      requires State().Valid()
      modifies this
      ensures ok <==> !old(State()).Refuses(frame)
      ensures State() == old(State()).Accept(frame) && State().Valid()
    {
      State().AcceptKeepsValid(frame);
      if frame.chunkIndex >= totalChunks {
        return false;
      }
      if frame.chunkIndex in chunks {
        return true;
      }
      var projected := received + |frame.payload|;
      if projected > expectedSizeBytes {
        return false;
      }
      chunks := chunks[frame.chunkIndex := frame.payload];
      received := projected;
      return true;
    }

    method MissingIndices() returns (missing: seq<nat>)
      requires State().Valid()
      ensures forall i: nat :: i in missing <==> i < totalChunks && i !in chunks
      ensures forall i, j :: 0 <= i < j < |missing| ==> missing[i] < missing[j]
      ensures State().IsComplete() <==> missing == [] && received == expectedSizeBytes
    {
      missing := [];
      for index := 0 to totalChunks
        invariant forall i: nat :: i in missing <==> i < index && i !in chunks
        invariant forall i :: 0 <= i < |missing| ==> missing[i] < index
        invariant forall i, j :: 0 <= i < j < |missing| ==> missing[i] < missing[j]
      {
        if index !in chunks {
          missing := missing + [index];
        }
      }
      State().CompleteMeansAllPresent();
      if missing != [] {
        assert missing[0] in missing;
      }
    }

    /** Fills a buffer of the declared size; the chunks fit it exactly. */
    method Assemble() returns (output: Bytes)
      requires State().Valid() && State().IsComplete()
      ensures output == Joined(chunks, totalChunks) && |output| == expectedSizeBytes
    {
      State().CompleteMeansAllPresent();
      var buffer := new Byte[expectedSizeBytes];
      var offset := 0;
      for index := 0 to totalChunks
        invariant offset == Weight(chunks, index) <= expectedSizeBytes
        invariant buffer[..offset] == Joined(chunks, index)
      {
        var chunk := chunks[index];
        WeightMonotone(chunks, index + 1, totalChunks);
        Blit(buffer, offset, chunk);
        assert buffer[..offset + |chunk|] == buffer[..offset] + chunk;
        offset := offset + |chunk|;
      }
      output := buffer[..];
    }
  }

  lemma {:induction false} EmptyWeight(k: nat)
    ensures Weight(map[], k) == 0
  {
    if k > 0 {
      EmptyWeight(k - 1);
    }
  }

  lemma {:induction false} WeightMonotone(chunks: map<nat, Bytes>, j: nat, k: nat)
    requires j <= k
    ensures Weight(chunks, j) <= Weight(chunks, k)
  {
    if j < k {
      WeightMonotone(chunks, j, k - 1);
    }
  }
}
