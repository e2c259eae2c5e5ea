/** The views a read is served from: stretches of visible intervals, one after the other. */
module Views {
  import opened Common
  import opened Chunks
  import opened Visibles
  import opened Addresses

  datatype ChunkView = ChunkView(fileId: FileId, offset: int, size: int, logicOffset: int, chunkSize: int) {
    predicate Covers(p: int) {
      logicOffset <= p < logicOffset + size
    }
  }

  type int64 = x: int | -MAX_INT64 - 1 <= x <= MAX_INT64

  /** 64-bit two's complement addition. */
  function AddWrapped(a: int64, b: int64): int64 {
    var s := a + b;
    if s > MAX_INT64 then s - 0x1_0000_0000_0000_0000
    else if s < -MAX_INT64 - 1 then s + 0x1_0000_0000_0000_0000
    else s
  }

  function ViewStop(offset: int64, size: int64): int64 {
    var sum := AddWrapped(offset, size);
    var stop := if size == MAX_INT64 then MAX_INT64 else sum;
    if stop < offset then MAX_INT64 else stop
  }

  /** For a range with a start and a size the stop is their sum, or the largest number if that is too large. */
  lemma ViewStopSaturates(offset: int64, size: int64)
    requires 0 <= offset && 0 <= size
    ensures ViewStop(offset, size) == Min(offset + size, MAX_INT64)
  {}

  function ViewOf(v: VisibleInterval, offset: int, stop: int): ChunkView {
    ChunkView(v.fileId, offset - v.start, Min(v.stop, stop) - offset, offset, v.chunkSize)
  }

  function ViewsFrom(vs: seq<VisibleInterval>, offset: int, stop: int): seq<ChunkView> {
    if vs == [] then []
    else if vs[0].Covers(offset) && offset < stop then
      [ViewOf(vs[0], offset, stop)] + ViewsFrom(vs[1..], Min(vs[0].stop, stop), stop)
    else ViewsFrom(vs[1..], offset, stop)
  }

  method ViewFromVisibleIntervals(visibles: seq<VisibleInterval>, offset: int64, size: int64)
    returns (views: seq<ChunkView>)
    ensures views == ViewsFrom(visibles, offset, ViewStop(offset, size))
  {
    var stop: int64 := AddWrapped(offset, size);
    if size == MAX_INT64 {
      stop := MAX_INT64;
    }
    if stop < offset {
      stop := MAX_INT64;
    }
    views := [];
    var at: int := offset;
    assert visibles[0..] == visibles;
    for i := 0 to |visibles|
      invariant views + ViewsFrom(visibles[i..], at, stop) == ViewsFrom(visibles, offset, stop)
    {
      var v := visibles[i];
      assert visibles[i..][0] == v && visibles[i..][1..] == visibles[i+1..];
      if v.start <= at && at < v.stop && at < stop {
        assert views + ([ViewOf(v, at, stop)] + ViewsFrom(visibles[i+1..], Min(v.stop, stop), stop))
            == views + [ViewOf(v, at, stop)] + ViewsFrom(visibles[i+1..], Min(v.stop, stop), stop);
        views := views + [ChunkView(v.fileId, at - v.start, Min(v.stop, stop) - at, at, v.chunkSize)];
        at := Min(v.stop, stop);
      }
    }
    assert visibles[|visibles|..] == [];
  }

  // ----- what the views show -----

  /** Non-empty views, the first at `offset`, each starting where the one before ends. */
  ghost predicate Contiguous(views: seq<ChunkView>, offset: int) {
    || views == []
    || (views[0].logicOffset == offset && views[0].size > 0 && Contiguous(views[1..], offset + views[0].size))
  }

  function EndOf(views: seq<ChunkView>, offset: int): int {
    if views == [] then offset else EndOf(views[1..], offset + views[0].size)
  }

  /** The place the views read position p from. */
  function Place(views: seq<ChunkView>, p: int): Option<(FileId, int)> {
    if views == [] then None
    else if views[0].Covers(p) then Some((views[0].fileId, views[0].offset + p - views[0].logicOffset))
    else Place(views[1..], p)
  }

  lemma OrderedTail(vs: seq<VisibleInterval>)
    requires Ordered(vs) && vs != []
    ensures Ordered(vs[1..]) && forall v :: v in vs[1..] ==> vs[0].stop <= v.start
  {
    forall v | v in vs[1..] ensures vs[0].stop <= v.start {
      var i :| 0 <= i < |vs| - 1 && vs[1..][i] == v;
      assert vs[i+1] == v;
    }
  }

  lemma AddressTail(vs: seq<VisibleInterval>, p: int)
    requires Ordered(vs) && vs != []
    ensures Address(vs, p) == if vs[0].Covers(p) then Some((vs[0].fileId, p - vs[0].start)) else Address(vs[1..], p)
  {
    OrderedTail(vs);
    assert forall i :: 0 < i < |vs| ==> vs[i] == vs[1..][i-1];
    AddressUnique(vs, p);
    AddressUnique(vs[1..], p);
  }

  lemma AddressUnique(vs: seq<VisibleInterval>, p: int)
    requires Ordered(vs)
    ensures forall i :: 0 <= i < |vs| && vs[i].Covers(p) ==> Address(vs, p) == Some((vs[i].fileId, p - vs[i].start))
  {
    forall i, j | 0 <= i < |vs| && 0 <= j < |vs| && vs[i].Covers(p) && vs[j].Covers(p) ensures i == j {
      assert i == j || i < j || j < i;
    }
  }

  lemma {:induction false} ViewsContiguous(vs: seq<VisibleInterval>, offset: int, stop: int)
    requires Ordered(vs)
    ensures Contiguous(ViewsFrom(vs, offset, stop), offset)
    ensures offset <= EndOf(ViewsFrom(vs, offset, stop), offset) <= Max(offset, stop)
  {
    if vs != [] {
      OrderedTail(vs);
      if vs[0].Covers(offset) && offset < stop {
        ViewsContiguous(vs[1..], Min(vs[0].stop, stop), stop);
        assert ViewsFrom(vs, offset, stop)[1..] == ViewsFrom(vs[1..], Min(vs[0].stop, stop), stop);
      } else {
        ViewsContiguous(vs[1..], offset, stop);
      }
    }
  }

  /** The views stop at the end of the range or where no interval covers the position. */
  lemma {:induction false} ViewsMaximal(vs: seq<VisibleInterval>, offset: int, stop: int)
    requires Ordered(vs)
    ensures
      var end := EndOf(ViewsFrom(vs, offset, stop), offset);
      stop <= end || Address(vs, end) == None
  {
    if vs != [] {
      OrderedTail(vs);
      ViewsContiguous(vs, offset, stop);
      AddressTail(vs, EndOf(ViewsFrom(vs, offset, stop), offset));
      if vs[0].Covers(offset) && offset < stop {
        var next := Min(vs[0].stop, stop);
        ViewsMaximal(vs[1..], next, stop);
        ViewsContiguous(vs[1..], next, stop);
        assert ViewsFrom(vs, offset, stop)[1..] == ViewsFrom(vs[1..], next, stop);
      } else {
        ViewsMaximal(vs[1..], offset, stop);
        if offset < vs[0].start {
          NothingBefore(vs[1..], offset, stop);
        } else {
          ViewsContiguous(vs[1..], offset, stop);
        }
      }
    }
  }

  lemma {:induction false} NothingBefore(vs: seq<VisibleInterval>, offset: int, stop: int)
    requires forall v :: v in vs ==> offset < v.start
    ensures ViewsFrom(vs, offset, stop) == []
  {
    if vs != [] {
      assert vs[0] in vs;
      NothingBefore(vs[1..], offset, stop);
    }
  }

  /** Within their stretch the views read every position from where its interval reads it. */
  lemma {:induction false} ViewsPlace(vs: seq<VisibleInterval>, offset: int, stop: int, p: int)
    requires Ordered(vs) && offset <= p < EndOf(ViewsFrom(vs, offset, stop), offset)
    ensures Address(vs, p).Some? && Place(ViewsFrom(vs, offset, stop), p) == Address(vs, p)
  {
    OrderedTail(vs);
    AddressTail(vs, p);
    if vs[0].Covers(offset) && offset < stop {
      var next := Min(vs[0].stop, stop);
      assert ViewsFrom(vs, offset, stop)[1..] == ViewsFrom(vs[1..], next, stop);
      if p >= next {
        ViewsContiguous(vs[1..], next, stop);
        ViewsPlace(vs[1..], next, stop, p);
      }
    } else {
      if offset < vs[0].start {
        NothingBefore(vs[1..], offset, stop);
      }
      ViewsPlace(vs[1..], offset, stop, p);
    }
  }

  /** The views cover exactly the longest covered prefix of [offset, stop), from the right places. */
  lemma ViewsCoverPrefix(vs: seq<VisibleInterval>, offset: int, stop: int)
    requires Ordered(vs)
    ensures
      var views := ViewsFrom(vs, offset, stop);
      var end := EndOf(views, offset);
      && Contiguous(views, offset) && offset <= end <= Max(offset, stop)
      && (forall p :: offset <= p < end ==> Address(vs, p).Some? && Place(views, p) == Address(vs, p))
      && (stop <= end || Address(vs, end) == None)
  {
    var views := ViewsFrom(vs, offset, stop);
    ViewsContiguous(vs, offset, stop);
    ViewsMaximal(vs, offset, stop);
    forall p | offset <= p < EndOf(views, offset) ensures Address(vs, p).Some? && Place(views, p) == Address(vs, p) {
      ViewsPlace(vs, offset, stop, p);
    }
  }

  /** Every view is a stretch of one of the intervals. */
  lemma {:induction false} ViewsWithin(vs: seq<VisibleInterval>, offset: int, stop: int, w: ChunkView)
    requires w in ViewsFrom(vs, offset, stop)
    ensures exists v :: v in vs && v.fileId == w.fileId && 0 <= w.offset && w.offset + w.size <= v.stop - v.start
  {
    if vs[0].Covers(offset) && offset < stop && w == ViewOf(vs[0], offset, stop) {
      assert vs[0] in vs;
    } else {
      var at := if vs[0].Covers(offset) && offset < stop then Min(vs[0].stop, stop) else offset;
      ViewsWithin(vs[1..], at, stop, w);
      var v :| v in vs[1..] && v.fileId == w.fileId && 0 <= w.offset && w.offset + w.size <= v.stop - v.start;
      assert v in vs;
    }
  }
}
