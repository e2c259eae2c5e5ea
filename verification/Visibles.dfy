/** The visible intervals of a file: which chunk shows at each position. */
module Visibles {
  import opened Common
  import opened Chunks

  datatype VisibleInterval = VisibleInterval(start: int, stop: int, modifiedTime: int, fileId: FileId, chunkSize: int) {
    predicate Covers(p: int) {
      start <= p < stop
    }
  }

  function NewVisible(c: FileChunk): VisibleInterval {
    VisibleInterval(c.offset, c.Stop(), c.mtime, c.fileId, c.size)
  }

  /** Non-empty intervals in order, none reaching into the next. */
  ghost predicate Ordered(vs: seq<VisibleInterval>) {
    && (forall i :: 0 <= i < |vs| ==> vs[i].start < vs[i].stop)
    && (forall i, j :: 0 <= i < j < |vs| ==> vs[i].stop <= vs[j].start)
  }

  /** The file id shown at position p. */
  ghost function Owner(vs: seq<VisibleInterval>, p: int): Option<FileId> {
    if i: int :| 0 <= i < |vs| && vs[i].Covers(p) then Some(vs[i].fileId) else None
  }

  lemma OwnerIn(vs: seq<VisibleInterval>, i: int, p: int)
    requires Ordered(vs) && 0 <= i < |vs| && vs[i].Covers(p)
    ensures Owner(vs, p) == Some(vs[i].fileId)
  {
    forall j | 0 <= j < |vs| && vs[j].Covers(p) ensures j == i {
      assert j == i || j < i || i < j;
    }
  }

  // ----- MergeIntoVisibles -----

  /** What stays of one interval when chunk c is laid over it. */
  function Cut(v: VisibleInterval, c: FileChunk): seq<VisibleInterval> {
    (if v.start < c.offset < v.stop then [v.(stop := c.offset, chunkSize := c.size)] else [])
    + (if v.start < c.Stop() < v.stop then [v.(start := c.Stop(), chunkSize := c.size)] else [])
    + (if c.Stop() <= v.start || v.stop <= c.offset then [v] else [])
  }

  function Sweep(vs: seq<VisibleInterval>, c: FileChunk): seq<VisibleInterval> {
    if vs == [] then [] else Sweep(vs[..|vs|-1], c) + Cut(vs[|vs|-1], c)
  }

  /** v put before the intervals at the end that start after it. */
  function Insert(vs: seq<VisibleInterval>, v: VisibleInterval): seq<VisibleInterval> {
    if vs == [] || vs[|vs|-1].start <= v.start then vs + [v]
    else Insert(vs[..|vs|-1], v) + [vs[|vs|-1]]
  }

  function Merge(vs: seq<VisibleInterval>, c: FileChunk): seq<VisibleInterval> {
    if vs == [] || vs[|vs|-1].stop <= c.offset then vs + [NewVisible(c)]
    else Insert(Sweep(vs, c), NewVisible(c))
  }

  /** The loop over the visible intervals. */
  method SweepVisibles(visibles: seq<VisibleInterval>, chunk: FileChunk) returns (newVisibles: seq<VisibleInterval>)
    ensures newVisibles == Sweep(visibles, chunk)
  {
    newVisibles := [];
    for k := 0 to |visibles|
      invariant newVisibles == Sweep(visibles[..k], chunk)
    {
      var v := visibles[k];
      ghost var done := newVisibles;
      if v.start < chunk.offset && chunk.offset < v.stop {
        newVisibles := newVisibles + [v.(stop := chunk.offset, chunkSize := chunk.size)];
      }
      var chunkStop := chunk.offset + chunk.size;
      if v.start < chunkStop && chunkStop < v.stop {
        newVisibles := newVisibles + [v.(start := chunkStop, chunkSize := chunk.size)];
      }
      if chunkStop <= v.start || v.stop <= chunk.offset {
        newVisibles := newVisibles + [v];
      }
      assert newVisibles == done + Cut(v, chunk);
      assert visibles[..k+1][..k] == visibles[..k];
    }
    assert visibles[..|visibles|] == visibles;
  }

  /** `buf` after cell i was freed: the cells before it untouched, those after it shifted right by one. */
  ghost predicate Shifted(buf: seq<VisibleInterval>, swept: seq<VisibleInterval>, v: VisibleInterval, i: int) {
    && 0 <= i < |buf| == |swept| + 1
    && buf[..i] == swept[..i] && buf[i+1..] == swept[i..]
    && Insert(swept, v) == Insert(swept[..i], v) + swept[i..]
  }

  lemma ShiftStep(buf: seq<VisibleInterval>, swept: seq<VisibleInterval>, v: VisibleInterval, i: int)
    requires Shifted(buf, swept, v, i) && i > 0 && v.start < buf[i-1].start
    ensures Shifted(buf[i := buf[i-1]], swept, v, i - 1)
  {
    assert buf[i-1] == buf[..i][i-1] == swept[i-1];
    assert swept[..i][..i-1] == swept[..i-1];
    assert [swept[i-1]] + swept[i..] == swept[i-1..];
    assert buf[i := buf[i-1]][i..] == [buf[i-1]] + buf[i+1..];
  }

  lemma ShiftDone(buf: seq<VisibleInterval>, swept: seq<VisibleInterval>, v: VisibleInterval, i: int)
    requires Shifted(buf, swept, v, i) && (i == 0 || buf[i-1].start <= v.start)
    ensures buf[i := v] == Insert(swept, v)
  {
    assert i > 0 ==> buf[i-1] == buf[..i][i-1] == swept[..i][i-1];
    assert Insert(swept[..i], v) == swept[..i] + [v];
    assert buf[i := v] == buf[..i] + [v] + buf[i+1..];
  }

  /** The loop that moves the new interval, appended last, to its place. */
  method ShiftIntoPlace(swept: seq<VisibleInterval>, newV: VisibleInterval) returns (buf: seq<VisibleInterval>)
    ensures buf == Insert(swept, newV)
  {
    buf := swept + [newV];
    var i := |buf| - 1;
    assert swept[..i] == swept && swept[i..] == [];
    while i >= 0
      invariant Shifted(buf, swept, newV, i)
      decreases i
    {
      if i > 0 && newV.start < buf[i-1].start {
        ShiftStep(buf, swept, newV, i);
        buf := buf[i := buf[i-1]];
        i := i - 1;
      } else {
        ShiftDone(buf, swept, newV, i);
        buf := buf[i := newV];
        break;
      }
    }
  }

  method MergeIntoVisibles(visibles: seq<VisibleInterval>, chunk: FileChunk) returns (newVisibles: seq<VisibleInterval>)
    ensures newVisibles == Merge(visibles, chunk)
  {
    var newV := NewVisible(chunk);
    if |visibles| == 0 {
      return visibles + [newV];
    }
    if visibles[|visibles|-1].stop <= chunk.offset {
      return visibles + [newV];
    }
    newVisibles := SweepVisibles(visibles, chunk);
    newVisibles := ShiftIntoPlace(newVisibles, newV);
  }

  // ----- merging keeps the order and lays the chunk on top -----

  ghost predicate PartOf(n: VisibleInterval, v: VisibleInterval) {
    v.start <= n.start < n.stop <= v.stop && n.fileId == v.fileId
  }

  predicate Outside(n: VisibleInterval, c: FileChunk) {
    n.stop <= c.offset || c.Stop() <= n.start
  }

  ghost predicate Shows(vs: seq<VisibleInterval>, p: int, id: FileId) {
    exists v :: v in vs && v.Covers(p) && v.fileId == id
  }

  lemma CutFacts(v: VisibleInterval, c: FileChunk)
    requires v.start < v.stop && c.size > 0
    ensures Ordered(Cut(v, c))
    ensures forall n :: n in Cut(v, c) ==> PartOf(n, v) && Outside(n, c)
  {}

  lemma CutShows(v: VisibleInterval, c: FileChunk, p: int)
    requires v.start < v.stop && c.size > 0 && v.Covers(p) && !c.Covers(p)
    ensures Shows(Cut(v, c), p, v.fileId)
  {
    var left, right := v.(stop := c.offset, chunkSize := c.size), v.(start := c.Stop(), chunkSize := c.size);
    if c.Stop() <= v.start || v.stop <= c.offset {
      assert v in Cut(v, c);
    } else if p < c.offset {
      assert left in Cut(v, c) && left.Covers(p);
    } else {
      assert right in Cut(v, c) && right.Covers(p);
    }
  }

  lemma {:induction false} SweepFacts(vs: seq<VisibleInterval>, c: FileChunk)
    requires Ordered(vs) && c.size > 0
    ensures Ordered(Sweep(vs, c))
    ensures forall n :: n in Sweep(vs, c) ==> Outside(n, c) && exists v :: v in vs && PartOf(n, v)
  {
    if vs != [] {
      var k := |vs| - 1;
      SweepFacts(vs[..k], c);
      CutFacts(vs[k], c);
      var a, b := Sweep(vs[..k], c), Cut(vs[k], c);
      forall x, y | x in a && y in b ensures x.stop <= y.start {
        var v :| v in vs[..k] && PartOf(x, v);
        var j :| 0 <= j < k && vs[j] == v;
        assert vs[j].stop <= vs[k].start;
      }
      OrderedConcat(a, b);
      forall n | n in a + b ensures Outside(n, c) && exists v :: v in vs && PartOf(n, v) {
        if n in a {
          var v :| v in vs[..k] && PartOf(n, v);
          assert v in vs;
        } else {
          assert vs[k] in vs;
        }
      }
    }
  }

  lemma OrderedConcat(a: seq<VisibleInterval>, b: seq<VisibleInterval>)
    requires Ordered(a) && Ordered(b) && forall x, y :: x in a && y in b ==> x.stop <= y.start
    ensures Ordered(a + b)
  {
    var all := a + b;
    forall i, j | 0 <= i < j < |all| ensures all[i].stop <= all[j].start {
      assert i < |a| ==> all[i] in a;
      assert j >= |a| ==> all[j] in b;
    }
  }

  lemma {:induction false} SweepShows(vs: seq<VisibleInterval>, c: FileChunk, v: VisibleInterval, p: int)
    requires Ordered(vs) && c.size > 0 && v in vs && v.Covers(p) && !c.Covers(p)
    ensures Shows(Sweep(vs, c), p, v.fileId)
  {
    var k := |vs| - 1;
    var n;
    if v == vs[k] {
      CutShows(v, c, p);
      n :| n in Cut(v, c) && n.Covers(p) && n.fileId == v.fileId;
    } else {
      SweepShows(vs[..k], c, v, p);
      n :| n in Sweep(vs[..k], c) && n.Covers(p) && n.fileId == v.fileId;
    }
    assert n in Sweep(vs, c);
  }

  lemma {:induction false} InsertMembers(vs: seq<VisibleInterval>, v: VisibleInterval, n: VisibleInterval)
    ensures n in Insert(vs, v) <==> n in vs || n == v
  {
    if vs != [] && vs[|vs|-1].start > v.start {
      var k := |vs| - 1;
      assert vs == vs[..k] + [vs[k]];
      InsertMembers(vs[..k], v, n);
    }
  }

  lemma LastIsLast(vs: seq<VisibleInterval>, x: VisibleInterval)
    requires Ordered(vs) && x in vs
    ensures x == vs[|vs|-1] || x.stop <= vs[|vs|-1].start
  {
    var i :| 0 <= i < |vs| && vs[i] == x;
  }

  lemma {:induction false} InsertFacts(vs: seq<VisibleInterval>, v: VisibleInterval)
    requires Ordered(vs) && v.start < v.stop
    requires forall n :: n in vs ==> n.stop <= v.start || v.stop <= n.start
    ensures Ordered(Insert(vs, v))
  {
    var k := |vs| - 1;
    if vs == [] || vs[k].start <= v.start {
      forall x | x in vs ensures x.stop <= v.start {
        assert vs[k] in vs;
        LastIsLast(vs, x);
      }
      OrderedConcat(vs, [v]);
    } else {
      InsertFacts(vs[..k], v);
      forall x | x in Insert(vs[..k], v) ensures x.stop <= vs[k].start {
        InsertMembers(vs[..k], v, x);
        assert vs[k] in vs;
        if x in vs[..k] {
          assert x in vs;
          LastIsLast(vs, x);
        }
      }
      OrderedConcat(Insert(vs[..k], v), [vs[k]]);
    }
  }

  lemma OwnerShows(vs: seq<VisibleInterval>, p: int, id: FileId)
    requires Ordered(vs)
    ensures Owner(vs, p) == Some(id) <==> Shows(vs, p, id)
  {
    if Shows(vs, p, id) {
      var v :| v in vs && v.Covers(p) && v.fileId == id;
      var i :| 0 <= i < |vs| && vs[i] == v;
      OwnerIn(vs, i, p);
    }
  }

  lemma MergeShows(vs: seq<VisibleInterval>, c: FileChunk, p: int, id: FileId)
    requires Ordered(vs) && c.size > 0
    ensures Ordered(Merge(vs, c))
    ensures Shows(Merge(vs, c), p, id) <==> if c.Covers(p) then id == c.fileId else Shows(vs, p, id)
  {
    var v, out := NewVisible(c), Merge(vs, c);
    if vs == [] || vs[|vs|-1].stop <= c.offset {
      forall x | x in vs ensures x.stop <= v.start {
        var i :| 0 <= i < |vs| && vs[i] == x;
        assert i < |vs| - 1 ==> vs[i].stop <= vs[|vs|-1].start;
      }
      OrderedConcat(vs, [v]);
      assert v in out;
    } else {
      SweepFacts(vs, c);
      InsertFacts(Sweep(vs, c), v);
      forall n ensures n in Insert(Sweep(vs, c), v) <==> n in Sweep(vs, c) || n == v {
        InsertMembers(Sweep(vs, c), v, n);
      }
      MergeShowsSwept(vs, c, p, id);
    }
  }

  lemma MergeShowsSwept(vs: seq<VisibleInterval>, c: FileChunk, p: int, id: FileId)
    requires Ordered(vs) && c.size > 0
    requires forall n :: n in Sweep(vs, c) ==> Outside(n, c) && exists v :: v in vs && PartOf(n, v)
    requires forall n :: n in Insert(Sweep(vs, c), NewVisible(c)) <==> n in Sweep(vs, c) || n == NewVisible(c)
    ensures Shows(Insert(Sweep(vs, c), NewVisible(c)), p, id)
       <==> if c.Covers(p) then id == c.fileId else Shows(vs, p, id)
  {
    var v, out := NewVisible(c), Insert(Sweep(vs, c), NewVisible(c));
    if c.Covers(p) {
      assert v in out && v.Covers(p);
    } else if Shows(vs, p, id) {
      var n :| n in vs && n.Covers(p) && n.fileId == id;
      SweepShows(vs, c, n, p);
      var m :| m in Sweep(vs, c) && m.Covers(p) && m.fileId == id;
      assert m in out;
    }
  }

  /** Merging a chunk keeps the intervals ordered and changes the owner exactly where the chunk lies. */
  lemma MergeOwner(vs: seq<VisibleInterval>, c: FileChunk, p: int)
    requires Ordered(vs) && c.size > 0
    ensures Ordered(Merge(vs, c))
    ensures Owner(Merge(vs, c), p) == if c.Covers(p) then Some(c.fileId) else Owner(vs, p)
  {
    MergeShows(vs, c, p, c.fileId);
    OwnerShows(Merge(vs, c), p, c.fileId);
    if !c.Covers(p) && Owner(Merge(vs, c), p).Some? {
      var id := Owner(Merge(vs, c), p).value;
      MergeShows(vs, c, p, id);
      OwnerShows(Merge(vs, c), p, id);
      OwnerShows(vs, p, id);
    }
    if !c.Covers(p) && Owner(vs, p).Some? {
      var id := Owner(vs, p).value;
      MergeShows(vs, c, p, id);
      OwnerShows(Merge(vs, c), p, id);
      OwnerShows(vs, p, id);
    }
  }
}
