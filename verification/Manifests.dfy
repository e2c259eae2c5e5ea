/** Manifest chunks, which stand for lists of chunks stored elsewhere. */
module Manifests {
  import opened Common
  import opened Chunks
  import opened Storage

  /** Every manifest listed inside a manifest is ranked below it: nesting is well founded. */
  ghost predicate Grounded(store: Store, rank: FileId -> nat) {
    forall id, c :: id in store && c in store[id] && c.isManifest ==> rank(c.fileId) < rank(id)
  }

  /** A strict bound of the ranks of the manifests in the list. */
  ghost function Height(chunks: seq<FileChunk>, rank: FileId -> nat): (h: nat)
    ensures forall c :: c in chunks && c.isManifest ==> rank(c.fileId) < h
  {
    if chunks == [] then 0
    else
      var rest, c := Height(chunks[..|chunks|-1], rank), chunks[|chunks|-1];
      assert chunks == chunks[..|chunks|-1] + [c];
      if c.isManifest then Max(rest, rank(c.fileId) + 1) else rest
  }

  lemma {:induction false} HeightLeast(chunks: seq<FileChunk>, rank: FileId -> nat, b: nat)
    requires forall c :: c in chunks && c.isManifest ==> rank(c.fileId) < b
    ensures Height(chunks, rank) <= b
  {
    if chunks != [] {
      HeightLeast(chunks[..|chunks|-1], rank, b);
      assert chunks[|chunks|-1] in chunks;
    }
  }

  /** Opening a manifest, or leaving chunks out, lowers the height. */
  lemma HeightDrops(store: Store, rank: FileId -> nat, chunks: seq<FileChunk>)
    requires Grounded(store, rank) && chunks != []
    ensures Height(chunks[..|chunks|-1], rank) <= Height(chunks, rank)
    ensures forall c :: c in chunks && c.isManifest && c.fileId in store ==>
      Height(store[c.fileId], rank) < Height(chunks, rank)
  {
    forall c | c in chunks && c.isManifest && c.fileId in store
      ensures Height(store[c.fileId], rank) < Height(chunks, rank)
    {
      HeightLeast(store[c.fileId], rank, rank(c.fileId));
    }
    HeightLeast(chunks[..|chunks|-1], rank, Height(chunks, rank));
  }

  datatype Resolved = Failed | Ok(data: seq<FileChunk>, manifests: seq<FileChunk>)

  /** All data chunks behind a list, and the manifests met on the way; fails when one cannot be read. */
  ghost function Resolve(store: Store, rank: FileId -> nat, chunks: seq<FileChunk>): (r: Resolved)
    requires Grounded(store, rank)
    decreases Height(chunks, rank), |chunks|
  {
    if chunks == [] then Ok([], [])
    else
      var init, c := chunks[..|chunks|-1], chunks[|chunks|-1];
      HeightDrops(store, rank, chunks);
      match Resolve(store, rank, init)
      case Failed => Failed
      case Ok(data, manifests) =>
        if !c.isManifest then Ok(data + [c], manifests)
        else if c.fileId !in store then Failed
        else
          assert c in chunks;
          match Resolve(store, rank, store[c.fileId])
          case Failed => Failed
          case Ok(d, m) => Ok(data + d, manifests + [c] + m)
  }

  method ResolveChunkManifest(store: Store, ghost rank: FileId -> nat, chunks: seq<FileChunk>)
    returns (ok: bool, dataChunks: seq<FileChunk>, manifestChunks: seq<FileChunk>)
    requires Grounded(store, rank)
    ensures ok ==> Resolve(store, rank, chunks) == Ok(dataChunks, manifestChunks)
    ensures !ok ==> Resolve(store, rank, chunks) == Failed && dataChunks == chunks && manifestChunks == []
    decreases Height(chunks, rank)
  {
    dataChunks, manifestChunks := [], [];
    for i := 0 to |chunks|
      invariant Resolve(store, rank, chunks[..i]) == Ok(dataChunks, manifestChunks)
    {
      var c := chunks[i];
      assert chunks[..i+1][..i] == chunks[..i];
      if !c.isManifest {
        dataChunks := dataChunks + [c];
        continue;
      }
      if c.fileId !in store {
        ResolveFails(store, rank, chunks, i + 1);
        return false, chunks, [];
      }
      HeightDrops(store, rank, chunks);
      var subOk, d, m := ResolveChunkManifest(store, rank, store[c.fileId]);
      if !subOk {
        ResolveFails(store, rank, chunks, i + 1);
        return false, chunks, [];
      }
      dataChunks, manifestChunks := dataChunks + d, manifestChunks + [c] + m;
    }
    assert chunks[..|chunks|] == chunks;
    ok := true;
  }

  lemma {:induction false} ResolveFails(store: Store, rank: FileId -> nat, chunks: seq<FileChunk>, k: nat)
    requires Grounded(store, rank) && k <= |chunks| && Resolve(store, rank, chunks[..k]) == Failed
    ensures Resolve(store, rank, chunks) == Failed
    decreases |chunks|
  {
    if k == |chunks| {
      assert chunks[..k] == chunks;
    } else {
      assert chunks[..|chunks|-1][..k] == chunks[..k];
      ResolveFails(store, rank, chunks[..|chunks|-1], k);
    }
  }

  lemma {:induction false} ResolveConcat(store: Store, rank: FileId -> nat, a: seq<FileChunk>, b: seq<FileChunk>)
    requires Grounded(store, rank)
    ensures Resolve(store, rank, a + b) ==
      match (Resolve(store, rank, a), Resolve(store, rank, b))
      case (Ok(d, m), Ok(d', m')) => Ok(d + d', m + m')
      case _ => Failed
  {
    if b == [] {
      assert a + b == a;
    } else {
      var k := |b| - 1;
      assert (a + b)[..|a + b|-1] == a + b[..k];
      ResolveConcat(store, rank, a, b[..k]);
    }
  }

  /** A list of data chunks resolves to itself. */
  lemma {:induction false} ResolveData(store: Store, rank: FileId -> nat, chunks: seq<FileChunk>)
    requires Grounded(store, rank) && AllData(chunks)
    ensures Resolve(store, rank, chunks) == Ok(chunks, [])
  {
    if chunks != [] {
      var k := |chunks| - 1;
      ResolveData(store, rank, chunks[..k]);
      assert chunks == chunks[..k] + [chunks[k]];
      assert chunks[k] in chunks;
    }
  }

  /** What resolves keeps resolving to the same chunks when more manifests are stored. */
  lemma {:induction false} ResolveGrow(store: Store, more: Store, rank: FileId -> nat, chunks: seq<FileChunk>)
    requires Grounded(store, rank) && Grounded(more, rank) && Resolve(store, rank, chunks).Ok?
    requires Grew(store, more)
    ensures Resolve(more, rank, chunks) == Resolve(store, rank, chunks)
    decreases Height(chunks, rank), |chunks|
  {
    if chunks != [] {
      var init, c := chunks[..|chunks|-1], chunks[|chunks|-1];
      HeightDrops(store, rank, chunks);
      ResolveGrow(store, more, rank, init);
      if c.isManifest {
        assert c in chunks;
        ResolveGrow(store, more, rank, store[c.fileId]);
      }
    }
  }

  /** Deleting manifests that are not met changes nothing either. */
  lemma {:induction false} ResolveShrink(store: Store, less: Store, rank: FileId -> nat, chunks: seq<FileChunk>)
    requires Grounded(store, rank) && Grounded(less, rank) && Resolve(store, rank, chunks).Ok?
    requires Grew(less, store) && forall m :: m in Resolve(store, rank, chunks).manifests ==> m.fileId in less
    ensures Resolve(less, rank, chunks) == Resolve(store, rank, chunks)
    decreases Height(chunks, rank), |chunks|
  {
    if chunks != [] {
      var init, c := chunks[..|chunks|-1], chunks[|chunks|-1];
      HeightDrops(store, rank, chunks);
      ResolveShrink(store, less, rank, init);
      if c.isManifest {
        assert c in chunks && c in Resolve(store, rank, chunks).manifests;
        ResolveShrink(store, less, rank, store[c.fileId]);
      }
    }
  }

  /** The manifests of a list that resolves are stored. */
  lemma {:induction false} ManifestsStored(store: Store, rank: FileId -> nat, chunks: seq<FileChunk>, m: FileChunk)
    requires Grounded(store, rank) && Resolve(store, rank, chunks).Ok? && m in chunks && m.isManifest
    ensures m.fileId in store
  {
    var k := |chunks| - 1;
    if m in chunks[..k] {
      ManifestsStored(store, rank, chunks[..k], m);
    } else {
      assert m == chunks[k];
    }
  }

  // ----- saving lists of chunks as manifests -----

  /** The size of the file the chunks make up. */
  function TotalSize(chunks: seq<FileChunk>): nat {
    if chunks == [] then 0 else Max(TotalSize(chunks[..|chunks|-1]), chunks[|chunks|-1].Stop())
  }

  lemma {:induction false} TotalSizeConcat(a: seq<FileChunk>, b: seq<FileChunk>)
    ensures TotalSize(a + b) == Max(TotalSize(a), TotalSize(b))
  {
    if b == [] {
      assert a + b == a;
    } else {
      assert (a + b)[..|a + b|-1] == a + b[..|b|-1];
      TotalSizeConcat(a, b[..|b|-1]);
    }
  }

  /** Some chunk reaches `stop` and none reaches further. */
  ghost predicate Reaches(chunks: seq<FileChunk>, stop: int) {
    (exists c :: c in chunks && c.Stop() == stop) && forall c :: c in chunks ==> c.Stop() <= stop
  }

  /** Some chunk starts at `offset` and none before it. */
  ghost predicate StartsAt(chunks: seq<FileChunk>, offset: int) {
    (exists c :: c in chunks && c.offset == offset) && forall c :: c in chunks ==> offset <= c.offset
  }

  function LeastOffset(chunks: seq<FileChunk>): int {
    if chunks == [] then MAX_INT64 else Min(LeastOffset(chunks[..|chunks|-1]), chunks[|chunks|-1].offset)
  }

  function GreatestStop(chunks: seq<FileChunk>): int {
    if chunks == [] then -MAX_INT64 - 1 else Max(GreatestStop(chunks[..|chunks|-1]), chunks[|chunks|-1].Stop())
  }

  /** Offsets and stops are 64-bit numbers. */
  ghost predicate InRange(chunks: seq<FileChunk>) {
    forall c :: c in chunks ==> c.offset <= MAX_INT64 && -MAX_INT64 - 1 <= c.Stop()
  }

  lemma {:induction false} StopIs(chunks: seq<FileChunk>)
    requires chunks != [] && InRange(chunks)
    ensures Reaches(chunks, GreatestStop(chunks))
  {
    var k := |chunks| - 1;
    assert chunks == chunks[..k] + [chunks[k]] && chunks[k] in chunks;
    if k > 0 {
      StopIs(chunks[..k]);
      var c :| c in chunks[..k] && c.Stop() == GreatestStop(chunks[..k]);
      assert c in chunks;
    }
  }

  lemma {:induction false} OffsetIs(chunks: seq<FileChunk>)
    requires chunks != [] && InRange(chunks)
    ensures StartsAt(chunks, LeastOffset(chunks))
  {
    var k := |chunks| - 1;
    assert chunks == chunks[..k] + [chunks[k]] && chunks[k] in chunks;
    if k > 0 {
      OffsetIs(chunks[..k]);
      var c :| c in chunks[..k] && c.offset == LeastOffset(chunks[..k]);
      assert c in chunks;
    }
  }

  lemma {:induction false} StopIsSize(chunks: seq<FileChunk>)
    ensures TotalSize(chunks) == Max(0, GreatestStop(chunks))
  {
    if chunks != [] {
      StopIsSize(chunks[..|chunks|-1]);
    }
  }

  /** Saves a list of data chunks; the manifest spans from the first offset to the last stop. */
  method MergeIntoManifest(volumes: Volumes, dataChunks: seq<FileChunk>) returns (m: Option<FileChunk>)
    requires volumes.Valid()
    modifies volumes`manifests, volumes`nextId, volumes`clock, volumes`savesLeft
    ensures volumes.Valid() && volumes.clock >= old(volumes.clock)
    ensures m.Some? <==> old(volumes.savesLeft) > 0
    ensures m == None ==> volumes.manifests == old(volumes.manifests)
    ensures m.Some? ==> m.value.fileId !in old(volumes.manifests) && volumes.savesLeft == old(volumes.savesLeft) - 1
    ensures m.Some? ==> volumes.manifests == old(volumes.manifests)[m.value.fileId := dataChunks]
    ensures m.Some? ==> m.value.isManifest && TotalSize(dataChunks) == Max(0, m.value.Stop())
    ensures m.Some? && dataChunks != [] && InRange(dataChunks) ==>
      StartsAt(dataChunks, m.value.offset) && Reaches(dataChunks, m.value.Stop())
  {
    var minOffset, maxOffset := MAX_INT64, -MAX_INT64 - 1;
    for i := 0 to |dataChunks|
      invariant minOffset == LeastOffset(dataChunks[..i]) && maxOffset == GreatestStop(dataChunks[..i])
    {
      var c := dataChunks[i];
      assert dataChunks[..i+1][..i] == dataChunks[..i];
      if minOffset > c.offset {
        minOffset := c.offset;
      }
      if maxOffset < c.Stop() {
        maxOffset := c.Stop();
      }
    }
    assert dataChunks[..|dataChunks|] == dataChunks;
    StopIsSize(dataChunks);
    if dataChunks != [] && InRange(dataChunks) {
      StopIs(dataChunks);
      OffsetIs(dataChunks);
    }
    m := volumes.SaveManifest(dataChunks);
    if m.Some? {
      m := Some(m.value.(isManifest := true, offset := minOffset, size := maxOffset - minOffset));
    }
  }

  function DataOf(chunks: seq<FileChunk>): seq<FileChunk> {
    if chunks == [] then []
    else if chunks[|chunks|-1].isManifest then DataOf(chunks[..|chunks|-1])
    else DataOf(chunks[..|chunks|-1]) + [chunks[|chunks|-1]]
  }

  function ManifestsOf(chunks: seq<FileChunk>): seq<FileChunk> {
    if chunks == [] then []
    else if chunks[|chunks|-1].isManifest then ManifestsOf(chunks[..|chunks|-1]) + [chunks[|chunks|-1]]
    else ManifestsOf(chunks[..|chunks|-1])
  }

  lemma {:induction false} DataOfMembers(chunks: seq<FileChunk>, c: FileChunk)
    ensures c in DataOf(chunks) <==> c in chunks && !c.isManifest
    ensures c in ManifestsOf(chunks) <==> c in chunks && c.isManifest
  {
    if chunks != [] {
      assert chunks == chunks[..|chunks|-1] + [chunks[|chunks|-1]];
      DataOfMembers(chunks[..|chunks|-1], c);
    }
  }

  lemma TotalSizeSnoc(chunks: seq<FileChunk>, c: FileChunk)
    ensures TotalSize(chunks + [c]) == Max(TotalSize(chunks), c.Stop())
  {
    assert (chunks + [c])[..|chunks|] == chunks;
  }

  lemma {:induction false} SplitSize(chunks: seq<FileChunk>)
    ensures TotalSize(chunks) == Max(TotalSize(ManifestsOf(chunks)), TotalSize(DataOf(chunks)))
  {
    if chunks != [] {
      var k := |chunks| - 1;
      SplitSize(chunks[..k]);
      if chunks[k].isManifest {
        TotalSizeSnoc(ManifestsOf(chunks[..k]), chunks[k]);
      } else {
        TotalSizeSnoc(DataOf(chunks[..k]), chunks[k]);
      }
    }
  }

  lemma ResolveSnoc(store: Store, rank: FileId -> nat, chunks: seq<FileChunk>, c: FileChunk)
    requires Grounded(store, rank) && Resolve(store, rank, chunks).Ok? && c.isManifest && c.fileId in store
    requires Resolve(store, rank, store[c.fileId]).Ok?
    ensures Resolve(store, rank, chunks + [c]) == Ok(
      Resolve(store, rank, chunks).data + Resolve(store, rank, store[c.fileId]).data,
      Resolve(store, rank, chunks).manifests + [c] + Resolve(store, rank, store[c.fileId]).manifests)
  {
    assert (chunks + [c])[..|chunks|] == chunks;
  }

  /** Resolving the manifests and the data chunks apart yields the same chunks. */
  lemma {:induction false} SplitResolve(store: Store, rank: FileId -> nat, chunks: seq<FileChunk>)
    requires Grounded(store, rank) && Resolve(store, rank, chunks).Ok?
    ensures Resolve(store, rank, ManifestsOf(chunks)).Ok?
    ensures multiset(Resolve(store, rank, chunks).data)
      == multiset(Resolve(store, rank, ManifestsOf(chunks)).data) + multiset(DataOf(chunks))
  {
    if chunks != [] {
      var k := |chunks| - 1;
      SplitResolve(store, rank, chunks[..k]);
      if chunks[k].isManifest {
        ResolveSnoc(store, rank, ManifestsOf(chunks[..k]), chunks[k]);
      }
    }
  }

  lemma {:induction false} AllDataSplit(chunks: seq<FileChunk>)
    requires AllData(chunks)
    ensures DataOf(chunks) == chunks && ManifestsOf(chunks) == []
  {
    if chunks != [] {
      assert chunks == chunks[..|chunks|-1] + [chunks[|chunks|-1]];
      assert chunks[|chunks|-1] in chunks;
      AllDataSplit(chunks[..|chunks|-1]);
    }
  }

  ghost predicate AllData(chunks: seq<FileChunk>) {
    forall c :: c in chunks ==> !c.isManifest
  }

  lemma BatchOf(data: seq<FileChunk>, i: nat, j: nat)
    requires i < j <= |data| && AllData(data)
    ensures AllData(data[i..j]) && data[..i] + data[i..j] == data[..j]
  {
    assert forall c :: c in data[i..j] ==> c in data;
  }

  /** The bundles stand for `data`: they resolve to it and reach as far. */
  ghost predicate Bundles(store: Store, rank: FileId -> nat, bundles: seq<FileChunk>, data: seq<FileChunk>)
    requires Grounded(store, rank)
  {
    Resolve(store, rank, bundles) == Ok(data, bundles) && TotalSize(bundles) == TotalSize(data)
  }

  lemma BundleStep(store: Store, more: Store, rank: FileId -> nat, bundles: seq<FileChunk>, data: seq<FileChunk>,
                   m: FileChunk, batch: seq<FileChunk>)
    requires Grounded(store, rank) && Bundles(store, rank, bundles, data)
    requires m.fileId !in store && more == store[m.fileId := batch] && m.isManifest
    requires TotalSize(batch) == Max(0, m.Stop()) && AllData(batch)
    ensures Grounded(more, rank) && Bundles(more, rank, bundles + [m], data + batch)
  {
    assert Grounded(more, rank);
    ResolveGrow(store, more, rank, bundles);
    ResolveData(more, rank, batch);
    ResolveSnoc(more, rank, bundles, m);
    assert bundles + [m] + [] == bundles + [m];
    hide Grounded;
    hide Resolve;
    hide TotalSize;
    TotalSizeSnoc(bundles, m);
    TotalSizeConcat(data, batch);
  }

  /** Manifests saved since `was`, under new ids. */
  ghost predicate Saved(bundles: seq<FileChunk>, was: Store, now: Store) {
    Grew(was, now) && forall b :: b in bundles ==> b.isManifest && b.fileId !in was && b.fileId in now
  }

  lemma SavedMore(bundles: seq<FileChunk>, was: Store, mid: Store, m: FileChunk, batch: seq<FileChunk>)
    requires Saved(bundles, was, mid) && m.isManifest && m.fileId !in mid
    ensures Saved(bundles + [m], was, mid[m.fileId := batch])
  {}

  /** Saves one batch behind the bundles of the batches before it. */
  method BundleBatch(volumes: Volumes, bundles: seq<FileChunk>, ghost data: seq<FileChunk>, batch: seq<FileChunk>,
                     ghost rank: FileId -> nat, ghost was: Store)
    returns (more: seq<FileChunk>, saved: bool)
    requires volumes.Valid() && Grounded(volumes.manifests, rank) && Bundles(volumes.manifests, rank, bundles, data)
    requires AllData(batch) && Saved(bundles, was, volumes.manifests)
    modifies volumes`manifests, volumes`nextId, volumes`clock, volumes`savesLeft
    ensures volumes.Valid() && Grounded(volumes.manifests, rank) && volumes.clock >= old(volumes.clock)
    ensures saved <==> old(volumes.savesLeft) > 0
    ensures Saved(more, was, volumes.manifests)
    ensures saved ==> Bundles(volumes.manifests, rank, more, data + batch) && |more| == |bundles| + 1
    ensures saved ==> volumes.savesLeft == old(volumes.savesLeft) - 1
    ensures !saved ==> volumes.manifests == old(volumes.manifests)
  {
    ghost var store := volumes.manifests;
    hide *;
    var m := MergeIntoManifest(volumes, batch);
    if m == None {
      return bundles, false;
    }
    BundleStep(store, volumes.manifests, rank, bundles, data, m.value, batch);
    SavedMore(bundles, was, store, m.value, batch);
    more, saved := bundles + [m.value], true;
  }

  lemma MulMore(a: int, b: int, f: int)
    requires f > 0 && a > b
    ensures a * f >= b * f + f
  {
    calc {
      a * f;
      (b + 1 + (a - b - 1)) * f;
      b * f + f + (a - b - 1) * f;
    }
    assert (a - b - 1) * f >= 0;
  }

  /** k full batches are all there are, or there is one more. */
  lemma Quotient(n: nat, f: nat, k: nat)
    requires f > 0
    ensures k * f <= n < k * f + f ==> n / f == k
    ensures k * f + f <= n ==> n / f > k
    ensures (k + 1) * f == k * f + f
  {
    var q, r := n / f, n % f;
    assert n == q * f + r && 0 <= r < f;
    if q > k {
      MulMore(q, k, f);
    } else if q < k {
      MulMore(k, q, f);
    }
  }

  /** The loop that saves every full batch. */
  method BundleBatches(volumes: Volumes, data: seq<FileChunk>, mergeFactor: nat, ghost rank: FileId -> nat)
    returns (bundles: seq<FileChunk>, done: nat, ok: bool)
    requires volumes.Valid() && mergeFactor > 0 && Grounded(volumes.manifests, rank) && AllData(data)
    modifies volumes`manifests, volumes`nextId, volumes`clock, volumes`savesLeft
    ensures volumes.Valid() && Grounded(volumes.manifests, rank) && volumes.clock >= old(volumes.clock)
    ensures Saved(bundles, old(volumes.manifests), volumes.manifests)
    ensures done <= |data| && Bundles(volumes.manifests, rank, bundles, data[..done]) && done == |bundles| * mergeFactor
    ensures ok <==> |data| / mergeFactor <= old(volumes.savesLeft)
    ensures ok ==> |bundles| == |data| / mergeFactor && |data| - done < mergeFactor
  {
    bundles, done := [], 0;
    assert Saved(bundles, volumes.manifests, volumes.manifests) && Bundles(volumes.manifests, rank, [], data[..0]);
    hide Bundles;
    hide Saved;
    hide Grounded;
    while done + mergeFactor <= |data|
      invariant volumes.Valid() && Grounded(volumes.manifests, rank) && volumes.clock >= old(volumes.clock)
      invariant Saved(bundles, old(volumes.manifests), volumes.manifests)
      invariant done <= |data| && Bundles(volumes.manifests, rank, bundles, data[..done])
      invariant done == |bundles| * mergeFactor && volumes.savesLeft == old(volumes.savesLeft) - |bundles|
    {
      BatchOf(data, done, done + mergeFactor);
      var more, saved := BundleBatch(volumes, bundles, data[..done], data[done..done + mergeFactor], rank,
                                     old(volumes.manifests));
      Quotient(|data|, mergeFactor, |bundles|);
      if !saved {
        return bundles, done, false;
      }
      bundles, done := more, done + mergeFactor;
    }
    Quotient(|data|, mergeFactor, |bundles|);
    ok := true;
  }

  /** How many of the data chunks full batches hold. */
  function Batched(n: nat, mergeFactor: nat): (done: nat)
    requires mergeFactor > 0
    ensures done <= n
  {
    assert n == n / mergeFactor * mergeFactor + n % mergeFactor;
    n / mergeFactor * mergeFactor
  }

  lemma BatchedOf(n: nat, mergeFactor: nat)
    requires mergeFactor > 0
    ensures n < mergeFactor ==> n / mergeFactor == 0
    ensures n / mergeFactor == 0 ==> Batched(n, mergeFactor) == 0
    ensures Batched(mergeFactor, mergeFactor) == mergeFactor && mergeFactor / mergeFactor == 1
  {
    Quotient(n, mergeFactor, 0);
    Quotient(mergeFactor, mergeFactor, 1);
  }

  /** The result: the manifests there were, the new ones, and the data chunks left over. */
  ghost predicate Manifestized(input: seq<FileChunk>, mergeFactor: nat, bundles: seq<FileChunk>, chunks: seq<FileChunk>)
    requires mergeFactor > 0
  {
    var data := DataOf(input);
    && |bundles| == |data| / mergeFactor
    && chunks == ManifestsOf(input) + bundles + data[Batched(|data|, mergeFactor)..]
  }

  /**
   Saves the data chunks in full batches as manifests.  It succeeds exactly when there are enough saves; then the new
   list stands for the same chunks and reaches as far.  On failure the manifests of the input are missing from it.
   */
  method DoMaybeManifestize(volumes: Volumes, input: seq<FileChunk>, mergeFactor: nat, ghost rank: FileId -> nat)
    returns (chunks: seq<FileChunk>, ok: bool, ghost bundles: seq<FileChunk>)
    requires volumes.Valid() && mergeFactor > 0 && Grounded(volumes.manifests, rank)
    requires Resolve(volumes.manifests, rank, input).Ok?
    modifies volumes`manifests, volumes`nextId, volumes`clock, volumes`savesLeft
    ensures volumes.Valid() && Grounded(volumes.manifests, rank) && volumes.clock >= old(volumes.clock)
    ensures Saved(bundles, old(volumes.manifests), volumes.manifests)
    ensures ok <==> |DataOf(input)| / mergeFactor <= old(volumes.savesLeft)
    ensures ok ==> Manifestized(input, mergeFactor, bundles, chunks) && TotalSize(chunks) == TotalSize(input)
    ensures ok ==> SameData(volumes.manifests, rank, chunks, old(Resolve(volumes.manifests, rank, input).data))
    ensures ok && AllData(input) ==> Resolve(volumes.manifests, rank, chunks) == Ok(input, bundles)
    ensures !ok ==> chunks == DataOf(input)
  {
    var data, manifests := DataOf(input), ManifestsOf(input);
    forall c | c in data ensures c in input && !c.isManifest { DataOfMembers(input, c); }
    ghost var store := volumes.manifests;
    var more, done;
    more, done, ok := BundleBatches(volumes, data, mergeFactor, rank);
    bundles := more;
    if !ok {
      return data, false, bundles;
    }
    chunks := manifests + more + data[done..];
    ManifestizeResolves(store, volumes.manifests, rank, input, more, done);
    ManifestizeSize(input, more, done);
    if AllData(input) {
      AllDataSplit(input);
      ManifestizeKeepsOrder(volumes.manifests, rank, input, more, done);
      assert [] + more == more;
    }
  }

  /** The list resolves to exactly these chunks, in some order. */
  ghost predicate SameData(store: Store, rank: FileId -> nat, chunks: seq<FileChunk>, data: seq<FileChunk>)
    requires Grounded(store, rank)
  {
    Resolve(store, rank, chunks).Ok? && multiset(Resolve(store, rank, chunks).data) == multiset(data)
  }

  lemma ManifestizeData(store: Store, more: Store, rank: FileId -> nat, manifests: seq<FileChunk>,
                        bundles: seq<FileChunk>, front: seq<FileChunk>, tail: seq<FileChunk>)
    requires Grounded(store, rank) && Grounded(more, rank) && Grew(store, more) && Resolve(store, rank, manifests).Ok?
    requires Resolve(more, rank, bundles) == Ok(front, bundles) && AllData(tail)
    ensures Resolve(more, rank, manifests + bundles + tail).Ok?
    ensures Resolve(more, rank, manifests + bundles + tail).data == Resolve(store, rank, manifests).data + front + tail
  {
    ResolveGrow(store, more, rank, manifests);
    ResolveData(more, rank, tail);
    ResolveConcat(more, rank, manifests, bundles);
    ResolveConcat(more, rank, manifests + bundles, tail);
  }

  lemma ManifestizeResolves(store: Store, more: Store, rank: FileId -> nat, input: seq<FileChunk>,
                            bundles: seq<FileChunk>, done: nat)
    requires Grounded(store, rank) && Grounded(more, rank) && Grew(store, more) && Resolve(store, rank, input).Ok?
    requires done <= |DataOf(input)| && Bundles(more, rank, bundles, DataOf(input)[..done])
    ensures SameData(more, rank, ManifestsOf(input) + bundles + DataOf(input)[done..], Resolve(store, rank, input).data)
  {
    var data, manifests := DataOf(input), ManifestsOf(input);
    var front, tail := data[..done], data[done..];
    assert AllData(tail) by {
      forall c | c in tail ensures !c.isManifest { DataOfMembers(input, c); }
    }
    SplitResolve(store, rank, input);
    ManifestizeData(store, more, rank, manifests, bundles, front, tail);
    ThreeBags(Resolve(store, rank, manifests).data, data, done);
  }

  lemma ThreeBags(m: seq<FileChunk>, data: seq<FileChunk>, done: nat)
    requires done <= |data|
    ensures multiset(m + data[..done] + data[done..]) == multiset(m) + multiset(data)
  {
    assert data == data[..done] + data[done..];
  }

  /** Without manifests in the input even the order of the chunks is kept. */
  lemma ManifestizeKeepsOrder(store: Store, rank: FileId -> nat, input: seq<FileChunk>, bundles: seq<FileChunk>,
                              done: nat)
    requires Grounded(store, rank) && AllData(input) && done <= |input|
    requires Bundles(store, rank, bundles, input[..done])
    ensures Resolve(store, rank, bundles + input[done..]) == Ok(input, bundles)
  {
    assert AllData(input[done..]) by { assert forall c :: c in input[done..] ==> c in input; }
    ResolveData(store, rank, input[done..]);
    ResolveConcat(store, rank, bundles, input[done..]);
    assert input[..done] + input[done..] == input && bundles + [] == bundles;
  }

  lemma ManifestizeSize(input: seq<FileChunk>, bundles: seq<FileChunk>, done: nat)
    requires done <= |DataOf(input)| && TotalSize(bundles) == TotalSize(DataOf(input)[..done])
    ensures TotalSize(ManifestsOf(input) + bundles + DataOf(input)[done..]) == TotalSize(input)
  {
    var data, manifests := DataOf(input), ManifestsOf(input);
    TotalSizeConcat(manifests + bundles, data[done..]);
    TotalSizeConcat(manifests, bundles);
    TotalSizeConcat(data[..done], data[done..]);
    assert data == data[..done] + data[done..];
    SplitSize(input);
  }

  // ----- when a manifest cannot be saved -----

  lemma {:induction false} DirectIsData(store: Store, rank: FileId -> nat, chunks: seq<FileChunk>, c: FileChunk)
    requires Grounded(store, rank) && Resolve(store, rank, chunks).Ok? && c in chunks && !c.isManifest
    ensures c in Resolve(store, rank, chunks).data
  {
    var k := |chunks| - 1;
    if c in chunks[..k] {
      DirectIsData(store, rank, chunks[..k], c);
    } else {
      assert c == chunks[k];
    }
  }

  /** A list cut down to its data chunks shows the same chunk at p exactly when that chunk is listed directly. */
  lemma DataOfKeepsNewest(store: Store, rank: FileId -> nat, input: seq<FileChunk>, p: int)
    requires Grounded(store, rank) && Resolve(store, rank, input).Ok?
    requires DistinctTimes(Resolve(store, rank, input).data)
    ensures
      var shown := Newest(Resolve(store, rank, input).data, p);
      Newest(DataOf(input), p) == shown <==> (shown.Some? ==> shown.value in input)
  {
    var data := Resolve(store, rank, input).data;
    forall c ensures c in DataOf(input) ==> c in input && c in data {
      DataOfMembers(input, c);
      if c in input && !c.isManifest { DirectIsData(store, rank, input, c); }
    }
    if Newest(data, p).Some? && Newest(data, p).value in input {
      var c := Newest(data, p).value;
      ResolvedIsData(store, rank, input);
      DataOfMembers(input, c);
      NewestAmong(DataOf(input), data, p, c);
    }
  }

  /** What a list resolves to has no manifests. */
  lemma {:induction false} ResolvedIsData(store: Store, rank: FileId -> nat, chunks: seq<FileChunk>)
    requires Grounded(store, rank) && Resolve(store, rank, chunks).Ok?
    ensures AllData(Resolve(store, rank, chunks).data)
    decreases Height(chunks, rank), |chunks|
  {
    if chunks != [] {
      var init, c := chunks[..|chunks|-1], chunks[|chunks|-1];
      HeightDrops(store, rank, chunks);
      ResolvedIsData(store, rank, init);
      if c.isManifest {
        assert c in chunks;
        ResolvedIsData(store, rank, store[c.fileId]);
      }
    }
  }

  /** The same rank for every id: enough where manifests list data chunks only. */
  function Flat(id: FileId): nat { 0 }

  lemma OneManifest(data: seq<FileChunk>, m: FileChunk)
    requires AllData(data) && m.isManifest
    ensures Grounded(map[m.fileId := data], Flat) && Resolve(map[m.fileId := data], Flat, [m]) == Ok(data, [m])
  {
    var store: Store := map[m.fileId := data];
    assert Grounded(store, Flat);
    ResolveData(store, Flat, data);
    ResolveSnoc(store, Flat, [], m);
    assert [] + [m] == [m] && [] + data == data && [m] + [] == [m];
  }

  /** Data chunks one behind the other from position 10 on. */
  function Row(n: nat): seq<FileChunk> {
    seq(n, i requires 0 <= i < n => FileChunk(i + 3, i + 10, 1, i + 3, false))
  }

  lemma {:induction false} DataOfConcat(a: seq<FileChunk>, b: seq<FileChunk>)
    ensures DataOf(a + b) == DataOf(a) + DataOf(b)
  {
    if b == [] {
      assert a + b == a;
    } else {
      assert (a + b)[..|a + b|-1] == a + b[..|b|-1];
      DataOfConcat(a, b[..|b|-1]);
    }
  }

  /** One full batch behind a manifest: when it cannot be saved the first byte, shown by the manifest, is lost. */
  lemma FailureLosesManifest(mergeFactor: nat)
    requires mergeFactor > 0
    ensures
      var d, m := FileChunk(1, 0, 1, 1, false), FileChunk(2, 0, 1, 2, true);
      var store, input := map[2 := [d]], [m] + Row(mergeFactor);
      && |DataOf(input)| / mergeFactor > 0 && Grounded(store, Flat)
      && Resolve(store, Flat, input) == Ok([d] + Row(mergeFactor), [m])
      && Newest([d] + Row(mergeFactor), 0) == Some(d) && Newest(DataOf(input), 0) == None
  {
    var d, m := FileChunk(1, 0, 1, 1, false), FileChunk(2, 0, 1, 2, true);
    var store: Store, row := map[2 := [d]], Row(mergeFactor);
    RowShows(d, m, mergeFactor);
    assert |row| == mergeFactor;
    hide *;
    Quotient(mergeFactor, mergeFactor, 0);
    OneManifest([d], m);
    ResolveData(store, Flat, row);
    ResolveConcat(store, Flat, [m], row);
    assert [m] + [] == [m];
  }

  lemma RowShows(d: FileChunk, m: FileChunk, n: nat)
    requires d == FileChunk(1, 0, 1, 1, false) && m.isManifest
    ensures AllData([d]) && AllData(Row(n)) && DataOf([m] + Row(n)) == Row(n)
    ensures Newest([d] + Row(n), 0) == Some(d) && Newest(Row(n), 0) == None
  {
    assert forall c :: c in Row(n) ==> !c.isManifest && c.offset >= 10 && c.mtime >= 3;
    assert Newest([d], 0) == Some(d) && DataOf([m]) == [];
    hide Row;
    hide Newest;
    hide DataOf;
    DataOfConcat([m], Row(n));
    AllDataSplit(Row(n));
    NewestConcat([d], Row(n), 0);
  }
}
