/** Two families of runs that lose what was written: through the filer's deletions and through a dropped manifest. */
module LosingRuns {
  import opened Common
  import opened Chunks
  import opened Runs
  import opened Visibility
  import opened Manifests
  import opened DirtyPages
  import opened FileStates
  import opened FileRuns

  /** One byte at 0, 2, 4, ... */
  function Dots(n: nat): (ops: seq<Op>)
    ensures |ops| == n
  {
    if n == 0 then [] else Dots(n - 1) + [WriteOp(2 * (n - 1), [0])]
  }

  /** The byte at p after n dots in a new file. */
  function Dot(n: nat, p: int): Option<byte> {
    if 0 <= p < 2 * n && p % 2 == 0 then Some(0) else None
  }

  /** n dots, a flush, one more dot and a flush. */
  function LosingRun(n: nat, first: Op, second: Op): seq<Op> {
    Dots(n) + [first, WriteOp(2 * n, [0]), second]
  }

  ghost predicate NewFile(s: State) {
    GoodState(s) && s.runs == [] && s.chunks == [] && s.stored == [] && s.cached == []
  }

  /** The file has n dots, each in a chunk or run of its own, all there and listed. */
  ghost predicate Dotted(s: State, n: nat) {
    && GoodState(s) && AllData(s.chunks) && |s.chunks| + |s.runs| <= n
    && forall p :: s.Written(p) == Dot(n, p) && s.Whole(p) && s.Present(p)
  }

  lemma DottedParts(s: State, n: nat)
    requires Dotted(s, n)
    ensures GoodState(s) && s.mergeFactor > 0 && AllData(s.chunks) && s.data == s.chunks && |s.chunks| + |s.runs| <= n
    ensures forall c :: c in s.cached ==> !c.isManifest
  {}

  lemma DottedAt(s: State, n: nat, p: int)
    requires Dotted(s, n)
    ensures s.Written(p) == Dot(n, p) && s.Whole(p) && s.Present(p)
  {}

  lemma DottedIs(s: State, n: nat)
    requires GoodState(s) && AllData(s.chunks) && |s.chunks| + |s.runs| <= n
    requires forall p :: s.Written(p) == Dot(n, p) && s.Whole(p) && s.Present(p)
    ensures Dotted(s, n)
  {}

  /** The state between the two halves of a flush. */
  lemma Halfway(s: State, saves: nat, filerSaves: nat, t: State) returns (mid: State)
    requires GoodState(s) && s.Dirty() && Flushes(s, saves, filerSaves, t)
    ensures Pages(s, mid) && Stores(mid, saves, filerSaves, t) && mid.mergeFactor == s.mergeFactor && mid.runs == []
  {
    mid :| Pages(s, mid) && Stores(mid, saves, filerSaves, t);
  }

  lemma DotNext(s: State, n: nat, t: State)
    requires Dotted(s, n) && Takes(s, Run(2 * n, [0]), t)
    ensures Dotted(t, n + 1) && t.stored == s.stored && t.mergeFactor == s.mergeFactor && t.Dirty()
  {
    hide *;
    var r := Run(2 * n, [0]);
    DottedParts(s, n);
    TakenParts(s, r, t);
    forall p ensures t.Written(p) == Dot(n + 1, p) && t.Whole(p) && t.Present(p) {
      TakesLaws(s, r, t, p);
      DottedAt(s, n, p);
      OneDotMore(n, p);
    }
    DottedIs(t, n + 1);
  }

  lemma TakenParts(s: State, r: Run, t: State)
    requires Takes(s, r, t) && AllData(s.chunks)
    ensures GoodState(t) && AllData(t.chunks) && t.stored == s.stored && t.mergeFactor == s.mergeFactor
    ensures |t.chunks| + |t.runs| <= |s.chunks| + |s.runs| + (if r.bytes == [] then 0 else 1)
    ensures t.Dirty() <==> s.Dirty() || r.bytes != []
  {
    assert t.chunks == s.chunks + Added(s, t);
    hide GoodState;
    hide SeenAfter;
  }

  lemma OneDotMore(n: nat, p: int)
    ensures
      var r := Run(2 * n, [0]);
      && Dot(n + 1, p) == (if r.Covers(p) then Some(r.At(p)) else Dot(n, p))
      && !Run(0, []).Covers(p)
  {}

  lemma NewDotted(s: State)
    requires NewFile(s)
    ensures Dotted(s, 0)
  {
    assert AllData(s.chunks) && s.data == [];
  }

  lemma {:induction false} DotsTrace(ss: seq<State>, n: nat)
    requires Trace(ss, Dots(n)) && NewFile(ss[0])
    ensures Dotted(ss[n], n) && ss[n].stored == [] && ss[n].mergeFactor == ss[0].mergeFactor
    ensures (n > 0 ==> ss[n].Dirty())
  {
    if n == 0 {
      NewDotted(ss[0]);
    } else {
      var ops := Dots(n);
      TraceInit(ss, ops);
      assert ops[..n-1] == Dots(n - 1);
      hide GoodState;
      hide Dotted;
      hide Trace;
      DotsTrace(ss[..n], n - 1);
      DotNext(ss[n-1], n - 1, ss[n]);
    }
  }

  /** Chunks that cover each of n even positions and none between them are at least n. */
  lemma {:induction false} ManyChunks(chunks: seq<FileChunk>, n: nat) returns (found: set<FileChunk>)
    requires forall i :: 0 <= i < n ==> Newest(chunks, 2 * i).Some? && Newest(chunks, 2 * i + 1) == None
    ensures |found| == n && (forall c :: c in found ==> c in chunks && exists i :: 0 <= i < n && c.Covers(2 * i))
  {
    if n == 0 {
      found := {};
    } else {
      var before := ManyChunks(chunks, n - 1);
      var c := Newest(chunks, 2 * (n - 1)).value;
      forall d | d in before ensures d != c {
        var i :| 0 <= i < n - 1 && d.Covers(2 * i);
        assert Newest(chunks, 2 * i + 1) == None && !d.Covers(2 * i + 1);
      }
      found := before + {c};
      assert c.Covers(2 * (n - 1));
    }
  }

  lemma {:induction false} FewerElements(s: seq<FileChunk>, found: set<FileChunk>)
    requires forall c :: c in found ==> c in s
    ensures |found| <= |s|
  {
    if s == [] {
      assert found == {};
    } else {
      var k := |s| - 1;
      assert s == s[..k] + [s[k]];
      FewerElements(s[..k], found - {s[k]});
    }
  }

  /** The dirty dots are uploaded. */
  lemma DotsUploaded(s: State, n: nat, mid: State)
    requires Dotted(s, n) && Pages(s, mid)
    ensures Dotted(mid, n) && mid.stored == s.stored && mid.mergeFactor == s.mergeFactor
  {
    assert Takes(s, Run(0, []), mid);
    hide *;
    DottedParts(s, n);
    TakenParts(s, Run(0, []), mid);
    forall p ensures mid.Written(p) == Dot(n, p) && mid.Whole(p) && mid.Present(p) {
      TakesLaws(s, Run(0, []), mid, p);
      DottedAt(s, n, p);
      OneDotMore(n, p);
    }
    DottedIs(mid, n);
  }

  /** At each dot the chunk that shows is listed and kept. */
  lemma DotKept(s: State, n: nat, p: int)
    requires Dotted(s, n) && s.runs == []
    ensures Newest(KeptOf(s), p) == Newest(s.data, p) == Newest(s.cached, p)
    ensures Newest(s.data, p).Some? <==> Dot(n, p).Some?
  {
    assert s.Written(p) == Dot(n, p) && s.Whole(p) && Lookup([], p) == None;
    KeptNewest(s, p);
    assert Newest(s.cached, p).Some? ==> Uploaded(Newest(s.cached, p).value, s.blobs);
  }

  lemma DotAt(n: nat)
    ensures forall i :: 0 <= i < n ==> Dot(n, 2 * i).Some? && Dot(n, 2 * i + 1) == None
  {}

  lemma KeptCount(s: State)
    ensures |KeptOf(s)| <= |s.chunks|
  {
    KeepCount(s.chunks, Ids(VisibleOf(s.data)));
  }

  /** Compaction keeps a chunk for every dot. */
  lemma DotsKept(s: State, n: nat)
    requires Dotted(s, n) && s.runs == []
    ensures |KeptOf(s)| == n
  {
    DottedParts(s, n);
    KeptCount(s);
    hide *;
    DotAt(n);
    forall i | 0 <= i < n ensures Newest(KeptOf(s), 2 * i).Some? && Newest(KeptOf(s), 2 * i + 1) == None {
      DotKept(s, n, 2 * i);
      DotKept(s, n, 2 * i + 1);
    }
    var found := ManyChunks(KeptOf(s), n);
    FewerElements(KeptOf(s), found);
  }

  /** The last two states and the one before the write, for a run of n dots. */
  lemma RunParts(ss: seq<State>, n: nat, first: Op, second: Op)
    requires Trace(ss, LosingRun(n, first, second)) && NewFile(ss[0])
    ensures |ss| == n + 4 && Dotted(ss[n], n) && ss[n].stored == [] && (n > 0 ==> ss[n].Dirty())
    ensures ss[n].mergeFactor == ss[0].mergeFactor > 0
    ensures GoodState(ss[n]) && GoodState(ss[n+1]) && GoodState(ss[n+2]) && GoodState(ss[n+3])
    ensures Next(ss[n], first, ss[n+1]) && Takes(ss[n+1], Run(2 * n, [0]), ss[n+2])
    ensures Next(ss[n+2], second, ss[n+3])
  {
    var ops := LosingRun(n, first, second);
    assert ops[n] == first && ops[n+1] == WriteOp(2 * n, [0]) && ops[n+2] == second;
    assert ops[..n] == Dots(n);
    hide *;
    TraceParts(ss, ops);
    WriteNext(ss[n+1], WriteOp(2 * n, [0]), ss[n+2]);
    TraceFront(ss, ops, n);
    DotsTrace(ss[..n+1], n);
  }

  lemma WriteNext(s: State, op: Op, t: State)
    requires s.mergeFactor > 0 && op.WriteOp? && Next(s, op, t)
    ensures Takes(s, Run(op.offset, op.data), t)
  {}

  lemma TraceFront(ss: seq<State>, ops: seq<Op>, n: nat)
    requires Trace(ss, ops) && n <= |ops|
    ensures Trace(ss[..n+1], ops[..n])
  {
    hide GoodState;
    hide Next;
  }

  /** A flush of fewer dots than a batch has chunks: all stay, and the filer's list names them all. */
  lemma FlushFew(s: State, n: nat, saves: nat, filerSaves: nat, t: State)
    requires Dotted(s, n) && s.Dirty() && n < s.mergeFactor && Flushes(s, saves, filerSaves, t)
    ensures Dotted(t, n) && t.runs == [] && t.stored == t.chunks && t.mergeFactor == s.mergeFactor
  {
    hide *;
    DottedParts(s, n);
    var mid := Halfway(s, saves, filerSaves, t);
    DotsUploaded(s, n, mid);
    DottedParts(mid, n);
    DotsKept(mid, n);
    StoresFew(mid, saves, filerSaves, t);
    forall p ensures t.Written(p) == Dot(n, p) && t.Whole(p) && t.Present(p) {
      DottedAt(s, n, p);
      FewSafe(s, saves, filerSaves, p);
      FlushReads(s, saves, filerSaves, t, p);
      FlushContent(s, saves, filerSaves, t, p);
    }
    DottedIs(t, n);
  }

  lemma FewSafe(s: State, saves: nat, filerSaves: nat, p: int)
    requires GoodState(s) && AllData(s.chunks) && |s.chunks| + |s.runs| < s.mergeFactor
    ensures ReadSafe(s, saves, filerSaves, p) && Direct(s, p)
  {
    RoomSafe(s, FlushOp(saves, filerSaves), 0, p);
  }

  lemma StoresFew(s: State, saves: nat, filerSaves: nat, t: State)
    requires GoodState(s) && Stores(s, saves, filerSaves, t) && |KeptOf(s)| < s.mergeFactor
    ensures GoodState(t) && t.runs == [] && t.mergeFactor == s.mergeFactor
    ensures t.chunks == KeptOf(s) && t.stored == t.chunks && AllData(t.chunks)
  {
    BatchedOf(|KeptOf(s)|, s.mergeFactor);
    forall c | c in KeptOf(s) ensures !c.isManifest {
      KeptMembers(s, c);
    }
  }

  /** What a write elsewhere leaves as it is. */
  lemma Elsewhere(s: State, r: Run, t: State, p: int)
    requires GoodState(s) && s.runs == [] && Takes(s, r, t) && !r.Covers(p)
    ensures Newest(t.cached, p) == Newest(s.cached, p) && Newest(t.data, p) == Newest(s.data, p)
    ensures Lookup(t.runs, p) == None && Newest(Added(s, t), p) == None
  {
    TakenAt(s, r, t, p);
    assert Lookup([], p) == None;
  }

  /** The dot's chunk is in the filer's list and, with a full batch of dots, in the batch. */
  lemma DotLoses(s: State, n: nat, saves: nat, filerSaves: nat, mid: State, i: nat)
    requires Dotted(s, n) && s.Dirty() && n == s.mergeFactor && i < n && Pages(s, mid)
    requires saves > 0 || filerSaves > 0
    requires Lookup(s.runs, 2 * i) == None && Newest(s.cached, 2 * i).Some? && Newest(s.cached, 2 * i).value in s.stored
    ensures !ReadSafe(s, saves, filerSaves, 2 * i)
  {
    hide *;
    var c := Newest(s.cached, 2 * i).value;
    DottedParts(s, n);
    DotsUploaded(s, n, mid);
    PagesParts(s, mid);
    DotsKept(mid, n);
    DotKept(mid, n, 2 * i);
    PagesNewest(s, mid, 2 * i);
    BatchedOf(n, n);
    BundledIs(s, mid, c);
    assert KeptOf(mid)[..n] == KeptOf(mid);
    LosesIs(s, saves, filerSaves, 2 * i);
  }

  lemma LosesIs(s: State, saves: nat, filerSaves: nat, p: int)
    requires s.mergeFactor > 0 && Count(s) == s.mergeFactor && (saves > 0 || filerSaves > 0) && s.Dirty()
    requires Lookup(s.runs, p) == None && Newest(s.cached, p).Some?
    requires Newest(s.cached, p).value in s.stored && Newest(s.cached, p).value in Bundled(s)
    ensures !ReadSafe(s, saves, filerSaves, p)
  {
    BatchedOf(s.mergeFactor, s.mergeFactor);
  }

  /**
   One dot less than a batch, a flush, the last dot and a flush: now the dots are bundled, and the filer deletes the
   chunks its old list named and the new one does not.  All dots but the last are lost, from the entry and for reads.
   */
  lemma StoredIsLost(ss: seq<State>, n: nat, first: Op, second: Op, i: nat)
    requires Trace(ss, LosingRun(n, first, second)) && NewFile(ss[0]) && ss[0].mergeFactor == n + 1
    requires first.FlushOp? && second.FlushOp? && (second.saves > 0 || second.filerSaves > 0) && i < n
    ensures After(LosingRun(n, first, second), 2 * i, None) == Some(0)
    ensures ss[n+3].Content(2 * i) == None && ss[n+3].Served(2 * i) == None
  {
    RunParts(ss, n, first, second);
    LosingRunAfter(n, first, second, i);
    FlushFew(ss[n], n, first.saves, first.filerSaves, ss[n+1]);
    LastDotLoses(ss[n+1], n, second.saves, second.filerSaves, ss[n+2], ss[n+3], i);
  }

  lemma LastDotLoses(s: State, n: nat, saves: nat, filerSaves: nat, t: State, u: State, i: nat)
    requires Dotted(s, n) && s.runs == [] && s.stored == s.chunks && s.mergeFactor == n + 1 && i < n
    requires Takes(s, Run(2 * n, [0]), t) && Flushes(t, saves, filerSaves, u) && (saves > 0 || filerSaves > 0)
    ensures u.Content(2 * i) == None && u.Served(2 * i) == None
  {
    hide *;
    var p, r := 2 * i, Run(2 * n, [0]);
    DottedParts(s, n);
    DotNext(s, n, t);
    DottedParts(t, n + 1);
    DottedAt(t, n + 1, p);
    DotCovers(n, i);
    Elsewhere(s, r, t, p);
    DotKept(s, n, p);
    var mid := Halfway(t, saves, filerSaves, u);
    DotLoses(t, n + 1, saves, filerSaves, mid, i);
    AllDirect(t, p);
    FlushReads(t, saves, filerSaves, u, p);
    FlushContent(t, saves, filerSaves, u, p);
    ServedIs(u, p);
  }

  lemma DotCovers(n: nat, i: nat)
    requires i < n
    ensures !Run(2 * n, [0]).Covers(2 * i) && Dot(n, 2 * i) == Some(0)
  {}

  lemma AllDirect(s: State, p: int)
    requires s.data == s.chunks
    ensures Direct(s, p)
  {}

  lemma {:induction false} DotsAfter(n: nat, p: int)
    ensures After(Dots(n), p, None) == Dot(n, p)
  {
    if n > 0 {
      assert Dots(n)[..n-1] == Dots(n - 1);
      DotsAfter(n - 1, p);
    }
  }

  lemma LosingRunAfter(n: nat, first: Op, second: Op, i: nat)
    requires first.FlushOp? && second.FlushOp? && i < n
    ensures After(LosingRun(n, first, second), 2 * i, None) == Some(0)
  {
    var dots, write, p := Dots(n), WriteOp(2 * n, [0]), 2 * i;
    assert LosingRun(n, first, second) == dots + [first] + [write] + [second];
    assert forall before :: (Effect(first, p, before) == before && Effect(write, p, before) == before
                             && Effect(second, p, before) == before);
    assert Dot(n, p) == Some(0);
    hide *;
    DotsAfter(n, p);
    AfterLast(dots, first, p);
    AfterLast(dots + [first], write, p);
    AfterLast(dots + [first] + [write], second, p);
  }

  lemma AfterLast(ops: seq<Op>, op: Op, p: int)
    ensures After(ops + [op], p, None) == Effect(op, p, After(ops, p, None))
  {
    assert (ops + [op])[..|ops|] == ops;
  }

  // ----- the dropped manifest -----

  /** A flush of a full batch of dots that the mount can bundle: the entry and the filer list the manifest only. */
  lemma FlushFull(s: State, n: nat, saves: nat, filerSaves: nat, t: State)
    requires Dotted(s, n) && s.Dirty() && n == s.mergeFactor && s.stored == []
    requires Flushes(s, saves, filerSaves, t) && saves > 0
    ensures GoodState(t) && t.runs == [] && t.stored == t.chunks && t.mergeFactor == n
    ensures forall c :: c in t.chunks ==> c.isManifest
    ensures forall p :: t.Written(p) == Dot(n, p) && t.Present(p)
  {
    var mid: State :| Pages(s, mid) && Stores(mid, saves, filerSaves, t);
    DotsUploaded(s, n, mid);
    DotsKept(mid, n);
    BatchedOf(n, n);
    assert DataOf(t.chunks) == KeptOf(mid)[n..] == [];
    forall c | c in t.chunks ensures c.isManifest {
      DataOfMembers(t.chunks, c);
    }
    assert t.stored == t.chunks && t.runs == [] && GoodState(t) && GoodState(s) && t.mergeFactor == n;
    forall p ensures t.Written(p) == Dot(n, p) && t.Present(p) {
      assert s.Written(p) == Dot(n, p) && s.Present(p) && ReadSafe(s, saves, filerSaves, p);
      hide *;
      FlushReads(s, saves, filerSaves, t, p);
    }
  }

  /** Nothing the entry lists directly covers p, and a flush keeps nothing else. */
  lemma NothingListed(s: State, saves: nat, filerSaves: nat, t: State, p: int)
    requires GoodState(s) && s.Dirty() && Flushes(s, saves, filerSaves, t) && Lookup(s.runs, p) == None
    requires forall c :: c in s.chunks && !c.isManifest ==> !c.Covers(p)
    ensures t.Content(p) == None
  {
    hide *;
    var mid := Halfway(s, saves, filerSaves, t);
    PagesParts(s, mid);
    PagesNewest(s, mid, p);
    forall c | c in KeptOf(mid) ensures !c.Covers(p) {
      KeptMembers(mid, c);
      assert c in s.chunks || c in Added(s, mid);
    }
    NothingKept(mid, saves, filerSaves, t, p);
  }

  lemma NothingKept(s: State, saves: nat, filerSaves: nat, t: State, p: int)
    requires s.mergeFactor > 0 && Stores(s, saves, filerSaves, t) && forall c :: c in KeptOf(s) ==> !c.Covers(p)
    ensures t.Content(p) == None
  {
    assert Newest(KeptOf(s), p) == None && Lookup([], p) == None;
  }

  /**
   A batch of dots, a flush that bundles them, one more dot and a flush: the manifest is dropped from the list.  All
   dots but the last are lost from the entry, though the open file still reads them.
   */
  lemma BundledIsLost(ss: seq<State>, n: nat, first: Op, second: Op, i: nat)
    requires Trace(ss, LosingRun(n, first, second)) && NewFile(ss[0]) && ss[0].mergeFactor == n
    requires first.FlushOp? && second.FlushOp? && first.saves > 0 && i < n
    ensures After(LosingRun(n, first, second), 2 * i, None) == Some(0)
    ensures ss[n+3].Content(2 * i) == None && ss[n+3].Served(2 * i) == Some(0)
  {
    RunParts(ss, n, first, second);
    LosingRunAfter(n, first, second, i);
    FlushFull(ss[n], n, first.saves, first.filerSaves, ss[n+1]);
    ManifestDropped(ss[n+1], n, second.saves, second.filerSaves, ss[n+2], ss[n+3], i);
  }

  lemma ManifestDropped(s: State, n: nat, saves: nat, filerSaves: nat, t: State, u: State, i: nat)
    requires GoodState(s) && s.runs == [] && s.stored == s.chunks && i < n
    requires (forall c :: c in s.chunks ==> c.isManifest)
    requires forall p :: s.Written(p) == Dot(n, p) && s.Present(p)
    requires Takes(s, Run(2 * n, [0]), t) && Flushes(t, saves, filerSaves, u)
    ensures u.Content(2 * i) == None && u.Served(2 * i) == Some(0)
  {
    hide *;
    var p, r := 2 * i, Run(2 * n, [0]);
    DotCovers(n, i);
    Elsewhere(s, r, t, p);
    TakesLaws(s, r, t, p);
    TakenChunks(s, r, t, p);
    NothingListed(t, saves, filerSaves, u, p);
    NotStored(t, saves, filerSaves, p);
    FlushReads(t, saves, filerSaves, u, p);
    ServedIs(u, p);
  }

  lemma TakenChunks(s: State, r: Run, t: State, p: int)
    requires GoodState(s) && Takes(s, r, t) && Newest(Added(s, t), p) == None && r.bytes != []
    requires forall c :: c in s.chunks ==> c.isManifest
    ensures GoodState(t) && t.mergeFactor > 0 && t.Dirty() && t.stored == s.stored
    ensures forall c :: c in t.chunks && !c.isManifest ==> !c.Covers(p)
  {
    var added := Added(s, t);
    assert t.chunks == s.chunks + added;
    assert GoodState(t) && t.mergeFactor > 0 && t.Dirty() && t.stored == s.stored;
    hide *;
    forall c | c in t.chunks && !c.isManifest ensures !c.Covers(p) {
      assert c in added;
    }
  }

  lemma NotStored(s: State, saves: nat, filerSaves: nat, p: int)
    requires GoodState(s) && forall c :: c in s.stored ==> c.isManifest
    ensures ReadSafe(s, saves, filerSaves, p)
  {}
}
