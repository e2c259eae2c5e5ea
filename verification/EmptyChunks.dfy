/**
 Empty chunks among the visible intervals.  An empty interval shows nothing, but the merge looks at it:
 as the last interval it decides the fast path, and it stops the new interval on its way to its place.
 */
module EmptyChunks {
  import opened Common
  import opened Chunks
  import opened Visibles
  import opened Visibility

  predicate Empty(v: VisibleInterval) {
    v.start >= v.stop
  }

  /** No interval ends before it starts, and the non-empty ones are in order, none reaching into the next. */
  ghost predicate InOrder(vs: seq<VisibleInterval>) {
    && (forall v :: v in vs ==> v.start <= v.stop)
    && forall i, j :: 0 <= i < j < |vs| && !Empty(vs[i]) && !Empty(vs[j]) ==> vs[i].stop <= vs[j].start
  }

  /** The chunk shows where it lies, everything else shows as before, and the intervals are in order. */
  ghost predicate Laid(vs: seq<VisibleInterval>, c: FileChunk, out: seq<VisibleInterval>) {
    && InOrder(out)
    && forall p, id: FileId :: Shows(out, p, id) <==> if c.Covers(p) then id == c.fileId else Shows(vs, p, id)
  }

  /** An empty interval at or before the chunk stands behind one that reaches beyond it. */
  ghost predicate Trapped(vs: seq<VisibleInterval>, c: FileChunk) {
    exists i, j :: 0 <= i < j < |vs|
      && !Empty(vs[i]) && c.Stop() < vs[i].stop && Empty(vs[j]) && vs[j].start <= c.offset
  }

  /** The fast path is taken only behind all intervals, and no empty interval is in the way. */
  ghost predicate MayMerge(vs: seq<VisibleInterval>, c: FileChunk) {
    if vs == [] || vs[|vs|-1].stop <= c.offset then forall v :: v in vs && !Empty(v) ==> v.stop <= c.offset
    else !Trapped(vs, c)
  }

  // ----- the sweep -----

  /** A part of an interval, empty only if the whole is. */
  ghost predicate From(n: VisibleInterval, v: VisibleInterval) {
    v.start <= n.start <= n.stop <= v.stop && n.fileId == v.fileId && (Empty(n) <==> Empty(v))
  }

  lemma CutInOrder(v: VisibleInterval, c: FileChunk)
    requires v.start <= v.stop && c.size >= 0
    ensures InOrder(Cut(v, c))
    ensures forall n :: n in Cut(v, c) ==> From(n, v) && (c.size > 0 ==> Outside(n, c))
    ensures Empty(v) ==> Cut(v, c) == [v] || Cut(v, c) == []
  {}

  lemma CutShowsAt(v: VisibleInterval, c: FileChunk, p: int)
    requires v.start <= v.stop && c.size >= 0 && v.Covers(p) && !c.Covers(p)
    ensures Shows(Cut(v, c), p, v.fileId)
  {
    var left, right := v.(stop := c.offset, chunkSize := c.size), v.(start := c.Stop(), chunkSize := c.size);
    if c.Stop() <= v.start || v.stop <= c.offset {
      assert v in Cut(v, c);
    } else if p < c.offset {
      assert left in Cut(v, c) && left.Covers(p);
    } else {
      assert right in Cut(v, c) && right.Covers(p);
    }
  }

  lemma InOrderConcat(a: seq<VisibleInterval>, b: seq<VisibleInterval>)
    requires InOrder(a) && InOrder(b) && forall x, y :: x in a && y in b && !Empty(x) && !Empty(y) ==> x.stop <= y.start
    ensures InOrder(a + b)
  {
    var all := a + b;
    forall i, j | 0 <= i < j < |all| && !Empty(all[i]) && !Empty(all[j]) ensures all[i].stop <= all[j].start {
      assert i < |a| ==> all[i] in a;
      assert j >= |a| ==> all[j] in b;
    }
  }

  lemma {:induction false} SweepFrom(vs: seq<VisibleInterval>, c: FileChunk, n: VisibleInterval)
    requires InOrder(vs) && c.size >= 0 && n in Sweep(vs, c)
    ensures (c.size > 0 ==> Outside(n, c)) && exists v :: v in vs && From(n, v)
  {
    var k := |vs| - 1;
    assert vs[k] in vs;
    if n in Sweep(vs[..k], c) {
      SweepFrom(vs[..k], c, n);
      var v :| v in vs[..k] && From(n, v);
      assert v in vs;
    } else {
      CutInOrder(vs[k], c);
    }
  }

  lemma {:induction false} SweepInOrder(vs: seq<VisibleInterval>, c: FileChunk)
    requires InOrder(vs) && c.size >= 0
    ensures InOrder(Sweep(vs, c))
  {
    if vs != [] {
      var k := |vs| - 1;
      assert vs[k] in vs;
      SweepInOrder(vs[..k], c);
      CutInOrder(vs[k], c);
      forall x, y | x in Sweep(vs[..k], c) && y in Cut(vs[k], c) && !Empty(x) && !Empty(y) ensures x.stop <= y.start {
        SweepFrom(vs[..k], c, x);
        var v :| v in vs[..k] && From(x, v);
        var j :| 0 <= j < k && vs[j] == v;
        assert vs[j].stop <= vs[k].start;
      }
      InOrderConcat(Sweep(vs[..k], c), Cut(vs[k], c));
    }
  }

  lemma {:induction false} SweepShowsAt(vs: seq<VisibleInterval>, c: FileChunk, v: VisibleInterval, p: int)
    requires InOrder(vs) && c.size >= 0 && v in vs && v.Covers(p) && !c.Covers(p)
    ensures Shows(Sweep(vs, c), p, v.fileId)
  {
    var k := |vs| - 1;
    var n;
    if v == vs[k] {
      CutShowsAt(v, c, p);
      n :| n in Cut(v, c) && n.Covers(p) && n.fileId == v.fileId;
    } else {
      SweepShowsAt(vs[..k], c, v, p);
      n :| n in Sweep(vs[..k], c) && n.Covers(p) && n.fileId == v.fileId;
    }
    assert n in Sweep(vs, c);
  }

  // ----- the merge shows the chunk -----

  /** Behind the sweep: the chunk shows where it lies and everything else as before, in whatever order. */
  lemma SweptShows(vs: seq<VisibleInterval>, c: FileChunk, p: int, id: FileId)
    requires InOrder(vs) && c.size >= 0
    ensures Shows(Insert(Sweep(vs, c), NewVisible(c)), p, id)
       <==> if c.Covers(p) then id == c.fileId else Shows(vs, p, id)
  {
    var swept, v, out := Sweep(vs, c), NewVisible(c), Insert(Sweep(vs, c), NewVisible(c));
    if c.Covers(p) {
      InsertMembers(swept, v, v);
      assert v in out && v.Covers(p);
    } else if Shows(vs, p, id) {
      var w :| w in vs && w.Covers(p) && w.fileId == id;
      SweepShowsAt(vs, c, w, p);
      var n :| n in swept && n.Covers(p) && n.fileId == id;
      InsertMembers(swept, v, n);
    }
    if Shows(out, p, id) {
      var n :| n in out && n.Covers(p) && n.fileId == id;
      InsertMembers(swept, v, n);
      if n in swept {
        SweepFrom(vs, c, n);
      }
    }
  }

  /** Where the new interval goes: behind the last one that starts at or before it. */
  lemma {:induction false} InsertAt(vs: seq<VisibleInterval>, v: VisibleInterval) returns (k: nat)
    ensures k <= |vs| && Insert(vs, v) == vs[..k] + [v] + vs[k..]
    ensures k > 0 ==> vs[k-1].start <= v.start
    ensures forall j :: k <= j < |vs| ==> v.start < vs[j].start
  {
    k := |vs|;
    if vs == [] || vs[k-1].start <= v.start {
      assert vs[..k] == vs && vs[k..] == [];
    } else {
      var n := |vs| - 1;
      k := InsertAt(vs[..n], v);
      assert vs[..n][..k] == vs[..k] && vs[..n][k..] + [vs[n]] == vs[k..];
      assert vs[..n][..k] + [v] + vs[..n][k..] + [vs[n]] == vs[..k] + [v] + vs[k..];
    }
  }

  // ----- the merge keeps the order -----

  /** Pieces come in the order of the intervals they are from. */
  lemma {:induction false} PiecesInOrder(vs: seq<VisibleInterval>, c: FileChunk, a: nat, b: nat)
    returns (i: nat, j: nat)
    requires a < b < |Sweep(vs, c)|
    ensures i <= j < |vs| && Sweep(vs, c)[a] in Cut(vs[i], c) && Sweep(vs, c)[b] in Cut(vs[j], c)
  {
    var n := |vs| - 1;
    var front := Sweep(vs[..n], c);
    if b < |front| {
      i, j := PiecesInOrder(vs[..n], c, a, b);
    } else {
      j := n;
      assert Sweep(vs, c)[b] == Cut(vs[n], c)[b - |front|];
      if a < |front| {
        i := PieceFrom(vs[..n], c, a);
      } else {
        i := n;
        assert Sweep(vs, c)[a] == Cut(vs[n], c)[a - |front|];
      }
    }
  }

  lemma {:induction false} PieceFrom(vs: seq<VisibleInterval>, c: FileChunk, a: nat) returns (i: nat)
    requires a < |Sweep(vs, c)|
    ensures i < |vs| && Sweep(vs, c)[a] in Cut(vs[i], c)
  {
    var n := |vs| - 1;
    var front := Sweep(vs[..n], c);
    if a < |front| {
      i := PieceFrom(vs[..n], c, a);
    } else {
      i := n;
      assert Sweep(vs, c)[a] == Cut(vs[n], c)[a - |front|];
    }
  }

  /** Every piece of an interval is there, before those of later intervals. */
  lemma {:induction false} PieceAt(vs: seq<VisibleInterval>, c: FileChunk, i: nat, x: VisibleInterval) returns (a: nat)
    requires i < |vs| && x in Cut(vs[i], c)
    ensures a < |Sweep(vs[..i+1], c)| <= |Sweep(vs, c)| && Sweep(vs, c)[a] == x
    ensures a >= |Sweep(vs[..i], c)|
  {
    var n := |vs| - 1;
    var front := Sweep(vs[..n], c);
    if i == n {
      var k :| 0 <= k < |Cut(vs[n], c)| && Cut(vs[n], c)[k] == x;
      a := |front| + k;
      assert vs[..i+1] == vs;
    } else {
      a := PieceAt(vs[..n], c, i, x);
      assert vs[..n][..i+1] == vs[..i+1] && vs[..n][..i] == vs[..i];
    }
  }

  lemma {:induction false} SweepGrows(vs: seq<VisibleInterval>, c: FileChunk, i: nat, j: nat)
    requires i <= j <= |vs|
    ensures |Sweep(vs[..i], c)| <= |Sweep(vs[..j], c)|
  {
    if i < j {
      assert vs[..j][..j-1] == vs[..j-1];
      SweepGrows(vs, c, i, j - 1);
    }
  }

  /** The swept intervals are in order with the new one exactly when those before it end before it. */
  lemma InsertInOrder(swept: seq<VisibleInterval>, c: FileChunk, k: nat)
    requires InOrder(swept) && c.size > 0 && k <= |swept| && (forall n :: n in swept ==> Outside(n, c))
    requires forall j :: k <= j < |swept| ==> c.offset < swept[j].start
    ensures InOrder(swept[..k] + [NewVisible(c)] + swept[k..])
       <==> forall i :: 0 <= i < k && !Empty(swept[i]) ==> swept[i].stop <= c.offset
  {
    if forall i :: 0 <= i < k && !Empty(swept[i]) ==> swept[i].stop <= c.offset {
      PlacedInOrder(swept, c, k);
    } else {
      var i :| 0 <= i < k && !Empty(swept[i]) && swept[i].stop > c.offset;
      var out := swept[..k] + [NewVisible(c)] + swept[k..];
      assert out[i] == swept[i] && out[k] == NewVisible(c);
    }
  }

  lemma PlacedInOrder(swept: seq<VisibleInterval>, c: FileChunk, k: nat)
    requires InOrder(swept) && c.size > 0 && k <= |swept| && (forall n :: n in swept ==> Outside(n, c))
    requires forall j :: k <= j < |swept| ==> c.offset < swept[j].start
    requires forall i :: 0 <= i < k && !Empty(swept[i]) ==> swept[i].stop <= c.offset
    ensures InOrder(swept[..k] + [NewVisible(c)] + swept[k..])
  {
    var v, a, b := NewVisible(c), swept[..k], swept[k..];
    SplitInOrder(swept, k);
    forall y | y in b && !Empty(y) ensures c.Stop() <= y.start {
      var j :| 0 <= j < |b| && b[j] == y;
      assert y == swept[k + j] && y in swept;
    }
    hide Outside;
    InOrderConcat(a, [v]);
    InOrderConcat(a + [v], b);
  }

  lemma SplitInOrder(vs: seq<VisibleInterval>, k: nat)
    requires InOrder(vs) && k <= |vs|
    ensures InOrder(vs[..k]) && InOrder(vs[k..])
    ensures forall x, y :: x in vs[..k] && y in vs[k..] && !Empty(x) && !Empty(y) ==> x.stop <= y.start
  {
    assert (forall v :: v in vs[..k] ==> v in vs) && forall v :: v in vs[k..] ==> v in vs;
    forall x, y | x in vs[..k] && y in vs[k..] && !Empty(x) && !Empty(y) ensures x.stop <= y.start {
      var i :| 0 <= i < k && vs[i] == x;
      var j :| 0 <= j < |vs| - k && vs[k..][j] == y;
      assert vs[k + j] == y;
    }
  }

  /** Behind the sweep the order is kept exactly when no empty interval stands in the way. */
  lemma SweptInOrder(vs: seq<VisibleInterval>, c: FileChunk)
    requires InOrder(vs) && c.size > 0
    ensures InOrder(Insert(Sweep(vs, c), NewVisible(c))) <==> !Trapped(vs, c)
  {
    var swept := Sweep(vs, c);
    SweepInOrder(vs, c);
    forall n | n in swept ensures Outside(n, c) {
      SweepFrom(vs, c, n);
    }
    var k := InsertAt(swept, NewVisible(c));
    InsertInOrder(swept, c, k);
    if a: int :| 0 <= a < k && !Empty(swept[a]) && swept[a].stop > c.offset {
      TrappedBefore(vs, c, a, k);
    }
    if Trapped(vs, c) {
      var a, b := TrappedAfter(vs, c);
      assert b < k;
    }
  }

  lemma TrappedBefore(vs: seq<VisibleInterval>, c: FileChunk, a: nat, k: nat)
    requires InOrder(vs) && c.size > 0 && InOrder(Sweep(vs, c))
    requires a < k <= |Sweep(vs, c)| && Sweep(vs, c)[k-1].start <= c.offset
    requires !Empty(Sweep(vs, c)[a]) && Sweep(vs, c)[a].stop > c.offset
    ensures Trapped(vs, c)
  {
    hide *;
    var swept, b := Sweep(vs, c), k - 1;
    SweepFrom(vs, c, swept[a]);
    EmptyBehind(swept, c, a, b);
    var i, j := PiecesInOrder(vs, c, a, b);
    TrapFrom(vs, c, i, j, swept[a], swept[b]);
  }

  /** Only an empty interval at or before the chunk can stand behind one after it. */
  lemma EmptyBehind(swept: seq<VisibleInterval>, c: FileChunk, a: nat, b: nat)
    requires InOrder(swept) && c.size > 0 && a <= b < |swept| && swept[b].start <= c.offset
    requires Outside(swept[a], c) && !Empty(swept[a]) && swept[a].stop > c.offset
    ensures a < b && Empty(swept[b]) && c.Stop() <= swept[a].start
  {}

  lemma TrapFrom(vs: seq<VisibleInterval>, c: FileChunk, i: nat, j: nat, n: VisibleInterval, m: VisibleInterval)
    requires InOrder(vs) && c.size > 0 && i <= j < |vs| && n in Cut(vs[i], c) && m in Cut(vs[j], c)
    requires !Empty(n) && c.Stop() <= n.start && Empty(m) && m.start <= c.offset
    ensures Trapped(vs, c)
  {
    assert vs[i] in vs && vs[j] in vs;
    PieceOf(vs[i], c, n);
    PieceOf(vs[j], c, m);
    hide Cut;
  }

  lemma PieceOf(v: VisibleInterval, c: FileChunk, n: VisibleInterval)
    requires v.start <= v.stop && c.size > 0 && n in Cut(v, c)
    ensures From(n, v) && (Empty(v) ==> n == v)
  {}

  lemma TrappedAfter(vs: seq<VisibleInterval>, c: FileChunk) returns (a: nat, b: nat)
    requires InOrder(vs) && c.size > 0 && Trapped(vs, c)
    ensures a < b < |Sweep(vs, c)| && !Empty(Sweep(vs, c)[a]) && Sweep(vs, c)[a].stop > c.offset
    ensures Sweep(vs, c)[b].start <= c.offset
  {
    var i, j :| 0 <= i < j < |vs| && !Empty(vs[i]) && c.Stop() < vs[i].stop && Empty(vs[j]) && vs[j].start <= c.offset;
    assert vs[i] in vs && vs[j] in vs;
    var right := if vs[i].start < c.Stop() then vs[i].(start := c.Stop(), chunkSize := c.size) else vs[i];
    assert right in Cut(vs[i], c) && vs[j] in Cut(vs[j], c);
    a := PieceAt(vs, c, i, right);
    b := PieceAt(vs, c, j, vs[j]);
    SweepGrows(vs, c, i + 1, j);
  }

  // ----- exactly when a merge, and a fold of merges, is right -----

  /**
   A merge is right exactly when the fast path is taken behind all intervals, or the sweep finds no empty
   interval in the way.
   */
  lemma MergeExact(vs: seq<VisibleInterval>, c: FileChunk)
    requires InOrder(vs) && c.size > 0
    ensures Laid(vs, c, Merge(vs, c)) <==> MayMerge(vs, c)
  {
    if vs == [] || vs[|vs|-1].stop <= c.offset {
      FastExact(vs, c);
    } else {
      SweptInOrder(vs, c);
      forall p, id
        ensures Shows(Merge(vs, c), p, id) <==> if c.Covers(p) then id == c.fileId else Shows(vs, p, id)
      {
        SweptShows(vs, c, p, id);
      }
    }
  }

  lemma FastExact(vs: seq<VisibleInterval>, c: FileChunk)
    requires InOrder(vs) && c.size > 0
    ensures Laid(vs, c, vs + [NewVisible(c)]) <==> forall v :: v in vs && !Empty(v) ==> v.stop <= c.offset
  {
    var n, out := NewVisible(c), vs + [NewVisible(c)];
    assert out[|vs|] == n && !Empty(n);
    if forall v :: v in vs && !Empty(v) ==> v.stop <= c.offset {
      InOrderConcat(vs, [n]);
      forall p, id ensures Shows(out, p, id) <==> if c.Covers(p) then id == c.fileId else Shows(vs, p, id) {
        ShowsOneMore(vs, n, p, id);
      }
    } else {
      var v :| v in vs && !Empty(v) && v.stop > c.offset;
      var i :| 0 <= i < |vs| && vs[i] == v;
      assert out[i] == v;
    }
  }

  lemma ShowsOneMore(vs: seq<VisibleInterval>, n: VisibleInterval, p: int, id: FileId)
    ensures Shows(vs + [n], p, id) <==> Shows(vs, p, id) || (n.Covers(p) && n.fileId == id)
  {
    var out := vs + [n];
    if Shows(vs, p, id) {
      var v :| v in vs && v.Covers(p) && v.fileId == id;
      assert v in out;
    }
    assert n in out;
  }

  /** An empty chunk changes nothing that shows, and not the order. */
  lemma MergeEmpty(vs: seq<VisibleInterval>, c: FileChunk)
    requires InOrder(vs) && c.size == 0
    ensures Laid(vs, c, Merge(vs, c))
  {
    var n := NewVisible(c);
    forall p, id ensures Shows(Merge(vs, c), p, id) <==> Shows(vs, p, id) {
      SweptShows(vs, c, p, id);
      ShowsOneMore(vs, n, p, id);
    }
    SweepInOrder(vs, c);
    var k := InsertAt(Sweep(vs, c), n);
    EmptyInOrder(Sweep(vs, c), n, k);
    InOrderConcat(vs, [n]);
  }

  lemma EmptyInOrder(vs: seq<VisibleInterval>, n: VisibleInterval, k: nat)
    requires InOrder(vs) && n.start == n.stop && k <= |vs|
    ensures InOrder(vs[..k] + [n] + vs[k..])
  {
    var out := vs[..k] + [n] + vs[k..];
    assert out[k] == n && (forall i :: 0 <= i < k ==> out[i] == vs[i]);
    assert forall j :: k < j < |out| ==> out[j] == vs[j-1];
    forall v | v in out ensures v.start <= v.stop {
      assert v in vs || v == n;
    }
  }

  /** Every positive chunk is merged where a merge is right. */
  ghost predicate MayMergeAll(vs: seq<VisibleInterval>, chunks: seq<FileChunk>) {
    chunks == [] ||
    var front, c := chunks[..|chunks|-1], chunks[|chunks|-1];
    MayMergeAll(vs, front) && (c.size > 0 ==> MayMerge(MergeAll(vs, front), c))
  }

  /** The newest of the chunks shows where one covers, else what showed before; the intervals are in order. */
  ghost predicate LaidAll(vs: seq<VisibleInterval>, chunks: seq<FileChunk>, out: seq<VisibleInterval>) {
    && InOrder(out)
    && forall p, id: FileId :: Shows(out, p, id) <==>
         if NewestId(chunks, p).Some? then NewestId(chunks, p) == Some(id) else Shows(vs, p, id)
  }

  lemma LaidStep(vs: seq<VisibleInterval>, chunks: seq<FileChunk>, mid: seq<VisibleInterval>, out: seq<VisibleInterval>)
    requires chunks != [] && Increasing(chunks) && LaidAll(vs, chunks[..|chunks|-1], mid)
    ensures LaidAll(vs, chunks, out) <==> Laid(mid, chunks[|chunks|-1], out)
  {
    var c, front := chunks[|chunks|-1], chunks[..|chunks|-1];
    forall p, id: FileId
      ensures (if NewestId(chunks, p).Some? then NewestId(chunks, p) == Some(id) else Shows(vs, p, id))
        <==> if c.Covers(p) then id == c.fileId else Shows(mid, p, id)
    {
      NewestSnoc(chunks, p);
      assert Shows(mid, p, id)
        <==> if NewestId(front, p).Some? then NewestId(front, p) == Some(id) else Shows(vs, p, id);
    }
  }

  /** Right after each of the merges. */
  ghost predicate LaidThroughout(vs: seq<VisibleInterval>, chunks: seq<FileChunk>) {
    LaidAll(vs, chunks, MergeAll(vs, chunks)) && (chunks != [] ==> LaidThroughout(vs, chunks[..|chunks|-1]))
  }

  /** All merges of a fold are right exactly when each positive chunk meets the condition at its turn. */
  lemma {:induction false} MergeAllExact(vs: seq<VisibleInterval>, chunks: seq<FileChunk>)
    requires InOrder(vs) && Increasing(chunks) && forall c :: c in chunks ==> c.size >= 0
    ensures LaidThroughout(vs, chunks) <==> MayMergeAll(vs, chunks)
  {
    if chunks != [] {
      var k := |chunks| - 1;
      var front, c, mid := chunks[..k], chunks[k], MergeAll(vs, chunks[..k]);
      assert (forall d :: d in front ==> d in chunks) && c in chunks;
      MergeAllExact(vs, front);
      hide MayMerge;
      hide Laid;
      if LaidAll(vs, front, mid) {
        LaidStep(vs, chunks, mid, Merge(mid, c));
        if c.size > 0 { MergeExact(mid, c); } else { MergeEmpty(mid, c); }
      }
    }
  }

  /** Without empty chunks the condition always holds. */
  lemma {:induction false} PositiveMayMerge(vs: seq<VisibleInterval>, chunks: seq<FileChunk>)
    requires Ordered(vs) && Increasing(chunks) && Positive(chunks)
    ensures MayMergeAll(vs, chunks)
  {
    if chunks != [] {
      var front := chunks[..|chunks|-1];
      var mid := MergeAll(vs, front);
      assert forall c :: c in front ==> c in chunks;
      PositiveMayMerge(vs, front);
      MergeAllOwner(vs, front, 0);
      hide MayMerge;
      hide Ordered;
      OrderedMayMerge(mid, chunks[|chunks|-1]);
    }
  }

  lemma OrderedMayMerge(vs: seq<VisibleInterval>, c: FileChunk)
    requires Ordered(vs)
    ensures MayMerge(vs, c)
  {
    forall v | v in vs ensures v == vs[|vs|-1] || v.stop <= vs[|vs|-1].start {
      LastIsLast(vs, v);
    }
  }

  /**
   The visible intervals of a chunk list, empty chunks allowed: they are right, and were after each merge,
   exactly when each positive chunk meets the condition at its turn.
   */
  lemma VisibleExact(chunks: seq<FileChunk>)
    requires DistinctTimes(chunks) && forall c :: c in chunks ==> c.size >= 0
    ensures LaidThroughout([], SortByTime(chunks)) <==> MayMergeAll([], SortByTime(chunks))
    ensures MayMergeAll([], SortByTime(chunks)) ==>
      && InOrder(VisibleOf(chunks))
      && forall p, id: FileId :: Shows(VisibleOf(chunks), p, id) <==> NewestId(chunks, p) == Some(id)
  {
    var s := SortByTime(chunks);
    SortIncreasing(chunks);
    SortMembers(chunks);
    MergeAllExact([], s);
    if MayMergeAll([], s) {
      forall p, id: FileId ensures Shows(VisibleOf(chunks), p, id) <==> NewestId(chunks, p) == Some(id) {
        NewestSameSet(s, chunks, p);
      }
    }
  }

  // ----- the two ways it goes wrong -----

  lemma EmptyInside(v: VisibleInterval, c: FileChunk)
    requires c.size == 0 && v.start < c.offset < v.stop
    ensures Merge([v], c)
      == [v.(stop := c.offset, chunkSize := 0), v.(start := c.offset, chunkSize := 0), NewVisible(c)]
  {
    assert Sweep([v], c) == Cut(v, c) by {
      assert [v][..0] == [] && Sweep([], c) == [];
    }
  }

  /**
   An empty chunk inside an interval ends up last, so a newer chunk over the same interval is appended behind it
   without cutting: the old interval still comes first where the newer chunk should show.
   */
  lemma EmptyChunkHidesLater(v: VisibleInterval, c: FileChunk, d: FileChunk)
    requires c.size == 0 && v.start < c.offset < v.stop && c.offset <= d.offset < v.stop && d.size > 0
    ensures !MayMerge(Merge([v], c), d) && !Laid(Merge([v], c), d, Merge(Merge([v], c), d))
  {
    var vs := Merge([v], c);
    EmptyInside(v, c);
    assert vs[1] in vs;
    MergeEmpty([v], c);
    MergeExact(vs, d);
  }

  /**
   With another chunk behind it the sweep is taken, but the empty interval stops the newer chunk behind the rest of the
   old interval: the intervals are no longer in order, and a read ends before its time.
   */
  lemma EmptyChunkBreaksOrder(v: VisibleInterval, c: FileChunk, b: FileChunk, d: FileChunk)
    requires c.size == 0 && v.start < c.offset < v.stop && v.stop <= b.offset && b.size > 0
    requires c.offset <= d.offset && d.Stop() < v.stop && d.size > 0
    ensures var vs := Merge(Merge([v], c), b);
      !MayMerge(vs, d) && !InOrder(Merge(vs, d))
  {
    var vs2 := Merge([v], c);
    var vs := Merge(vs2, b);
    EmptyInside(v, c);
    assert vs == vs2 + [NewVisible(b)];
    MergeEmpty([v], c);
    FastExact(vs2, b);
    assert Trapped(vs, d) by {
      assert !Empty(vs[1]) && d.Stop() < vs[1].stop && Empty(vs[2]) && vs[2].start <= d.offset;
    }
    SweptInOrder(vs, d);
  }
}
