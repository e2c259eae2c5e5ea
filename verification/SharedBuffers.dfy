/**
 The two interval buffers are slices that are swapped after each merge.  When a merge appends in place, both are slices
 of one array from then on, and a later sweep writes the cells it is still reading.
 */
module SharedBuffers {
  import opened Common
  import opened Chunks
  import opened Visibles
  import opened Visibility

  // ----- slices -----

  /** Arrays by number; their lengths never change. */
  type Memory = seq<seq<VisibleInterval>>

  /** The first `len` cells of an array. */
  datatype Slice = Slice(arr: nat, len: nat)

  predicate Has(mem: Memory, s: Slice) {
    s.arr < |mem| && s.len <= |mem[s.arr]|
  }

  function Cap(mem: Memory, s: Slice): nat
    requires Has(mem, s)
  {
    |mem[s.arr]|
  }

  function Content(mem: Memory, s: Slice): seq<VisibleInterval>
    requires Has(mem, s)
  {
    mem[s.arr][..s.len]
  }

  /** The capacity of a new array grows. */
  ghost predicate Growing(grow: nat -> nat) {
    forall n: nat :: grow(n) > n
  }

  /** The capacity after appending to a slice of capacity `cap` until it has `len` cells. */
  ghost function GrowTo(cap: nat, len: nat, grow: nat -> nat): nat
    requires Growing(grow)
    decreases len - cap
  {
    if len <= cap then cap else GrowTo(grow(cap), len, grow)
  }

  function Repeat(v: VisibleInterval, n: nat): seq<VisibleInterval> {
    seq(n, _ => v)
  }

  /** Appends in place while there is room, else in a new array. */
  function Append(mem: Memory, s: Slice, v: VisibleInterval, grow: nat -> nat): (Memory, Slice)
    requires Has(mem, s) && grow(Cap(mem, s)) > Cap(mem, s)
  {
    if s.len < |mem[s.arr]| then (mem[s.arr := mem[s.arr][s.len := v]], Slice(s.arr, s.len + 1))
    else (mem + [mem[s.arr] + Repeat(v, grow(Cap(mem, s)) - s.len)], Slice(|mem|, s.len + 1))
  }

  /** The cells with others written from cell w on, as far as there are cells, and beyond. */
  ghost function Write(cells: seq<VisibleInterval>, w: nat, ps: seq<VisibleInterval>): seq<VisibleInterval>
    requires w <= |cells|
  {
    cells[..w] + ps + if w + |ps| < |cells| then cells[w + |ps|..] else []
  }

  /** What appending some intervals does to a slice and to the arrays there were. */
  ghost predicate Appended(mem: Memory, s: Slice, ps: seq<VisibleInterval>, mem2: Memory, t: Slice, grow: nat -> nat)
    requires Growing(grow)
  {
    && Has(mem, s) && Has(mem2, t) && |mem| <= |mem2|
    && Content(mem2, t) == Content(mem, s) + ps && Cap(mem2, t) == GrowTo(Cap(mem, s), t.len, grow)
    && (if t.len <= Cap(mem, s) then t.arr == s.arr else t.arr >= |mem|)
    && (forall a :: 0 <= a < |mem| && a != s.arr ==> mem2[a] == mem[a])
    && mem2[s.arr] == Write(mem[s.arr], s.len, ps)[..|mem[s.arr]|]
  }

  lemma AppendOne(mem: Memory, s: Slice, v: VisibleInterval, grow: nat -> nat)
    requires Has(mem, s) && Growing(grow)
    ensures Appended(mem, s, [v], Append(mem, s, v, grow).0, Append(mem, s, v, grow).1, grow)
  {
    var (mem2, t) := Append(mem, s, v, grow);
    if s.len < |mem[s.arr]| {
      assert Write(mem[s.arr], s.len, [v]) == mem[s.arr][s.len := v];
    } else {
      assert mem[s.arr][..s.len] == mem[s.arr];
    }
  }

  lemma AppendNone(mem: Memory, s: Slice, grow: nat -> nat)
    requires Has(mem, s) && Growing(grow)
    ensures Appended(mem, s, [], mem, s, grow)
  {
    assert Write(mem[s.arr], s.len, []) == mem[s.arr];
  }

  lemma {:induction false} GrowMore(cap: nat, len: nat, more: nat, grow: nat -> nat)
    requires Growing(grow) && len <= more
    ensures GrowTo(GrowTo(cap, len, grow), more, grow) == GrowTo(cap, more, grow) && len <= GrowTo(cap, len, grow)
    ensures cap <= GrowTo(cap, len, grow) && (len > cap ==> GrowTo(cap, len, grow) > cap)
    decreases len - cap
  {
    if len > cap {
      GrowMore(grow(cap), len, more, grow);
    }
  }

  lemma AppendMore(mem: Memory, s: Slice, ps: seq<VisibleInterval>, mem2: Memory, t: Slice,
                   qs: seq<VisibleInterval>, mem3: Memory, u: Slice, grow: nat -> nat)
    requires Growing(grow) && Appended(mem, s, ps, mem2, t, grow) && Appended(mem2, t, qs, mem3, u, grow)
    ensures Appended(mem, s, ps + qs, mem3, u, grow)
  {
    GrowMore(Cap(mem, s), t.len, u.len, grow);
    assert t.len == s.len + |ps| && u.len == t.len + |qs|;
    assert Content(mem3, u) == Content(mem, s) + (ps + qs);
    WriteMore(mem[s.arr], s.len, ps, qs);
  }

  /** Cell i after the write. */
  lemma WriteAt(cells: seq<VisibleInterval>, w: nat, ps: seq<VisibleInterval>, i: nat)
    requires w <= |cells| && i < |cells|
    ensures |cells| <= |Write(cells, w, ps)|
    ensures Write(cells, w, ps)[i] == if w <= i < w + |ps| then ps[i - w] else cells[i]
  {}

  lemma WriteMore(cells: seq<VisibleInterval>, w: nat, ps: seq<VisibleInterval>, qs: seq<VisibleInterval>)
    requires w <= |cells|
    ensures |cells| <= |Write(cells, w, ps + qs)| && |cells| <= |Write(cells, w, ps)|
    ensures w + |ps| <= |cells| ==> |cells| <= |Write(Write(cells, w, ps)[..|cells|], w + |ps|, qs)|
    ensures Write(cells, w, ps + qs)[..|cells|] ==
      if w + |ps| <= |cells| then Write(Write(cells, w, ps)[..|cells|], w + |ps|, qs)[..|cells|]
      else Write(cells, w, ps)[..|cells|]
  {
    var n, mid := |cells|, Write(cells, w, ps)[..|cells|];
    assert w + |ps| <= n ==> |Write(mid, w + |ps|, qs)| >= n;
    forall i | 0 <= i < n
      ensures Write(cells, w, ps + qs)[i] == if w + |ps| <= n then Write(mid, w + |ps|, qs)[i] else mid[i]
    {
      hide *;
      WriteAt(cells, w, ps + qs, i);
      WriteAt(cells, w, ps, i);
      if w + |ps| <= n {
        WriteAt(mid, w + |ps|, qs, i);
      }
    }
  }

  /** Appends what stays of one interval. */
  method AppendPieces(mem0: Memory, s0: Slice, v: VisibleInterval, chunk: FileChunk, grow: nat -> nat)
    returns (mem: Memory, s: Slice)
    requires Has(mem0, s0) && Growing(grow)
    ensures Appended(mem0, s0, Cut(v, chunk), mem, s, grow)
  {
    mem, s := mem0, s0;
    AppendNone(mem, s, grow);
    ghost var ps: seq<VisibleInterval> := [];
    hide Appended;
    if v.start < chunk.offset && chunk.offset < v.stop {
      var left := v.(stop := chunk.offset, chunkSize := chunk.size);
      mem, s := AppendTo(mem0, s0, ps, mem, s, left, grow);
      ps := ps + [left];
    }
    if v.start < chunk.Stop() && chunk.Stop() < v.stop {
      var right := v.(start := chunk.Stop(), chunkSize := chunk.size);
      mem, s := AppendTo(mem0, s0, ps, mem, s, right, grow);
      ps := ps + [right];
    }
    if chunk.Stop() <= v.start || v.stop <= chunk.offset {
      mem, s := AppendTo(mem0, s0, ps, mem, s, v, grow);
      ps := ps + [v];
    }
    assert ps == Cut(v, chunk);
  }

  method AppendTo(ghost mem0: Memory, ghost s0: Slice, ghost ps: seq<VisibleInterval>,
                  mem1: Memory, s1: Slice, v: VisibleInterval, grow: nat -> nat) returns (mem: Memory, s: Slice)
    requires Growing(grow) && Appended(mem0, s0, ps, mem1, s1, grow)
    ensures Appended(mem0, s0, ps + [v], mem, s, grow)
  {
    var (m, t) := Append(mem1, s1, v, grow);
    mem, s := m, t;
    AppendOne(mem1, s1, v, grow);
    AppendMore(mem0, s0, ps, mem1, s1, [v], mem, s, grow);
  }

  // ----- the sweep -----

  /** What a sweep of the first n intervals leaves when it writes the cells it reads. */
  ghost function SweepOver(vs: seq<VisibleInterval>, c: FileChunk, n: nat): seq<VisibleInterval>
    requires n <= |vs|
  {
    if n == 0 then [] else
      var ps := SweepOver(vs, c, n - 1);
      ps + Cut(if n - 1 < |ps| then ps[n-1] else vs[n-1], c)
  }

  ghost function SweepInto(vs: seq<VisibleInterval>, c: FileChunk, n: nat, shared: bool): seq<VisibleInterval>
    requires n <= |vs|
  {
    if shared then SweepOver(vs, c, n) else Sweep(vs[..n], c)
  }

  /** The interval that round n of the sweep reads. */
  lemma SweepReads(mem0: Memory, visibles: Slice, dest0: Slice, c: FileChunk, n: nat, mem: Memory, dest: Slice,
                   grow: nat -> nat)
    requires Growing(grow) && Has(mem0, visibles) && n < visibles.len && dest0.len == 0
    requires Appended(mem0, dest0, SweepInto(Content(mem0, visibles), c, n, visibles.arr == dest0.arr), mem, dest, grow)
    ensures visibles.arr < |mem| && n < |mem[visibles.arr]| && Has(mem, dest)
    ensures
      var vs, shared := Content(mem0, visibles), visibles.arr == dest0.arr;
      SweepInto(vs, c, n + 1, shared) == SweepInto(vs, c, n, shared) + Cut(mem[visibles.arr][n], c)
  {
    var vs := Content(mem0, visibles);
    if visibles.arr != dest0.arr {
      assert vs[..n+1][..n] == vs[..n];
    }
  }

  /** The loop over the visible intervals, one array or two. */
  method SweepSlices(mem0: Memory, visibles: Slice, dest0: Slice, chunk: FileChunk, grow: nat -> nat)
    returns (mem: Memory, dest: Slice)
    requires Has(mem0, visibles) && Has(mem0, dest0) && dest0.len == 0 && Growing(grow)
    ensures
      var swept := SweepInto(Content(mem0, visibles), chunk, visibles.len, visibles.arr == dest0.arr);
      Appended(mem0, dest0, swept, mem, dest, grow)
  {
    mem, dest := mem0, dest0;
    AppendNone(mem, dest, grow);
    ghost var vs, shared := Content(mem0, visibles), visibles.arr == dest0.arr;
    assert SweepInto(vs, chunk, 0, shared) == [];
    hide Appended;
    hide SweepInto;
    for i := 0 to visibles.len
      invariant Appended(mem0, dest0, SweepInto(vs, chunk, i, shared), mem, dest, grow)
    {
      SweepReads(mem0, visibles, dest0, chunk, i, mem, dest, grow);
      ghost var mem1, dest1 := mem, dest;
      var v := mem[visibles.arr][i];
      mem, dest := AppendPieces(mem, dest, v, chunk, grow);
      AppendMore(mem0, dest0, SweepInto(vs, chunk, i, shared), mem1, dest1, Cut(v, chunk), mem, dest, grow);
    }
  }

  // ----- one merge -----

  predicate Behind(vs: seq<VisibleInterval>, c: FileChunk) {
    vs == [] || vs[|vs|-1].stop <= c.offset
  }

  /** The intervals after a merge that sweeps one array or two. */
  ghost function MergeInto(vs: seq<VisibleInterval>, c: FileChunk, shared: bool): seq<VisibleInterval> {
    if Behind(vs, c) then vs + [NewVisible(c)] else Insert(SweepInto(vs, c, |vs|, shared), NewVisible(c))
  }

  /** The slice that a merge appends to. */
  function Target(vs: seq<VisibleInterval>, c: FileChunk, visibles: Slice, newVisibles: Slice): Slice {
    if Behind(vs, c) then visibles else newVisibles
  }

  /** What a merge leaves: the intervals, in the target's array while they fit.  No array changes its length. */
  ghost predicate Merged(mem0: Memory, s: Slice, out: seq<VisibleInterval>, mem: Memory, t: Slice, grow: nat -> nat)
    requires Growing(grow)
  {
    && Has(mem0, s) && Has(mem, t) && Content(mem, t) == out
    && Cap(mem, t) == GrowTo(Cap(mem0, s), |out|, grow)
    && (if |out| <= Cap(mem0, s) then t.arr == s.arr else t.arr >= |mem0|)
    && |mem0| <= |mem| && forall a :: 0 <= a < |mem0| ==> |mem[a]| == |mem0[a]|
  }

  lemma AppendedLengths(mem0: Memory, s: Slice, ps: seq<VisibleInterval>, mem: Memory, t: Slice, grow: nat -> nat)
    requires Growing(grow) && Appended(mem0, s, ps, mem, t, grow)
    ensures Merged(mem0, s, Content(mem0, s) + ps, mem, t, grow)
  {
    assert |Write(mem0[s.arr], s.len, ps)| >= |mem0[s.arr]|;
  }

  lemma Rearranged(mem0: Memory, s: Slice, out: seq<VisibleInterval>, mem: Memory, t: Slice, buf: seq<VisibleInterval>,
                   grow: nat -> nat)
    requires Growing(grow) && Merged(mem0, s, out, mem, t, grow) && |buf| == |out|
    ensures Merged(mem0, s, buf, mem[t.arr := buf + mem[t.arr][t.len..]], t, grow)
  {}

  lemma {:induction false} InsertLength(vs: seq<VisibleInterval>, v: VisibleInterval)
    ensures |Insert(vs, v)| == |vs| + 1
  {
    if vs != [] && vs[|vs|-1].start > v.start {
      InsertLength(vs[..|vs|-1], v);
    }
  }

  lemma AppendedLast(mem0: Memory, s: Slice, swept: seq<VisibleInterval>, v: VisibleInterval, mem: Memory, t: Slice,
                     grow: nat -> nat)
    requires Growing(grow) && Appended(mem0, s, swept + [v], mem, t, grow) && s.len == 0
    ensures Merged(mem0, s, swept + [v], mem, t, grow) && Has(mem, t)
    ensures t.len == |swept| + 1 && mem[t.arr][..t.len-1] == swept
  {
    AppendedLengths(mem0, s, swept + [v], mem, t, grow);
    assert Content(mem0, s) + (swept + [v]) == swept + [v];
    assert mem[t.arr][..t.len-1] == Content(mem, t)[..t.len-1];
  }

  /** The merge that sweeps, appends the new interval last and moves it to its place. */
  method SweepAndInsert(mem0: Memory, visibles: Slice, newVisibles: Slice, chunk: FileChunk, grow: nat -> nat)
    returns (mem: Memory, out: Slice)
    requires Has(mem0, visibles) && Has(mem0, newVisibles) && newVisibles.len == 0 && Growing(grow)
    ensures
      var swept := SweepInto(Content(mem0, visibles), chunk, visibles.len, visibles.arr == newVisibles.arr);
      Merged(mem0, newVisibles, Insert(swept, NewVisible(chunk)), mem, out, grow)
  {
    var newV := NewVisible(chunk);
    ghost var swept := SweepInto(Content(mem0, visibles), chunk, visibles.len, visibles.arr == newVisibles.arr);
    hide *;
    mem, out := SweepSlices(mem0, visibles, newVisibles, chunk, grow);
    mem, out := AppendTo(mem0, newVisibles, swept, mem, out, newV, grow);
    AppendedLast(mem0, newVisibles, swept, newV, mem, out, grow);
    var buf := ShiftIntoPlace(mem[out.arr][..out.len-1], newV);
    InsertLength(swept, newV);
    Rearranged(mem0, newVisibles, swept + [newV], mem, out, buf, grow);
    mem := mem[out.arr := buf + mem[out.arr][out.len..]];
  }

  method MergeSlices(mem0: Memory, visibles: Slice, newVisibles: Slice, chunk: FileChunk, grow: nat -> nat)
    returns (mem: Memory, out: Slice)
    requires Has(mem0, visibles) && Has(mem0, newVisibles) && newVisibles.len == 0 && Growing(grow)
    ensures
      var vs := Content(mem0, visibles);
      var merged := MergeInto(vs, chunk, visibles.arr == newVisibles.arr);
      Merged(mem0, Target(vs, chunk, visibles, newVisibles), merged, mem, out, grow)
  {
    var newV := NewVisible(chunk);
    var length := visibles.len;
    ghost var vs := Content(mem0, visibles);
    if length == 0 || mem0[visibles.arr][length-1].stop <= chunk.offset {
      AppendOne(mem0, visibles, newV, grow);
      var (m, t) := Append(mem0, visibles, newV, grow);
      mem, out := m, t;
      AppendedLengths(mem0, visibles, [newV], mem, out, grow);
    } else {
      mem, out := SweepAndInsert(mem0, visibles, newVisibles, chunk, grow);
    }
  }

  // ----- one array or two: when the merge is right -----

  /** The chunk lies within the interval and leaves a piece on both sides. */
  predicate Splits(v: VisibleInterval, c: FileChunk) {
    v.start < c.offset && c.Stop() < v.stop
  }

  /** The chunk splits an interval that has others after it. */
  ghost predicate SplitsInside(vs: seq<VisibleInterval>, c: FileChunk) {
    exists k :: 0 <= k < |vs| - 1 && Splits(vs[k], c)
  }

  /** Intervals the chunk does not reach stay as they are. */
  lemma {:induction false} SweepBefore(vs: seq<VisibleInterval>, c: FileChunk)
    requires c.size > 0 && forall v :: v in vs ==> v.start < v.stop <= c.offset
    ensures Sweep(vs, c) == vs
  {
    if vs != [] {
      var k := |vs| - 1;
      assert vs[k] in vs && vs == vs[..k] + [vs[k]];
      SweepBefore(vs[..k], c);
    }
  }

  lemma BeforeSplit(vs: seq<VisibleInterval>, c: FileChunk, k: nat, i: nat)
    requires Ordered(vs) && c.size > 0 && k < |vs| && Splits(vs[k], c) && i <= k
    ensures Sweep(vs[..i], c) == vs[..i]
  {
    forall v | v in vs[..i] ensures v.start < v.stop <= c.offset {
      var j :| 0 <= j < i && vs[j] == v;
    }
    SweepBefore(vs[..i], c);
  }

  /** While no interval was split the sweep reads only cells it has not written. */
  lemma {:induction false} SweepOverRight(vs: seq<VisibleInterval>, c: FileChunk, n: nat)
    requires Ordered(vs) && c.size > 0 && n <= |vs|
    requires forall k :: 0 <= k < Min(n, |vs| - 1) ==> !Splits(vs[k], c)
    ensures SweepOver(vs, c, n) == Sweep(vs[..n], c) && (n < |vs| ==> |Sweep(vs[..n], c)| <= n)
  {
    if n > 0 {
      SweepOverRight(vs, c, n - 1);
      assert vs[..n][..n-1] == vs[..n-1];
    }
  }

  /** Once interval k was split the sweep reads back its own last piece ever after. */
  lemma {:induction false} SweepOverSplit(vs: seq<VisibleInterval>, c: FileChunk, k: nat, n: nat)
    requires Ordered(vs) && c.size > 0 && k < |vs| - 1 && Splits(vs[k], c) && k < n <= |vs|
    ensures SweepOver(vs, c, n) == vs[..k] + Cut(vs[k], c) + Repeat(Cut(vs[k], c)[1], n - k - 1)
  {
    var right := Cut(vs[k], c)[1];
    if n == k + 1 {
      forall j | 0 <= j < k ensures !Splits(vs[j], c) {}
      SweepOverRight(vs, c, k);
      BeforeSplit(vs, c, k, k);
      assert Repeat(right, 0) == [];
    } else {
      SweepOverSplit(vs, c, k, n - 1);
      assert SweepOver(vs, c, n - 1)[n-1] == right && Cut(right, c) == [right];
      assert Repeat(right, n - k - 1) == Repeat(right, n - k - 2) + [right];
    }
  }

  /** The right result ends with the last interval, which the chunk does not reach. */
  lemma SweepKeepsLast(vs: seq<VisibleInterval>, c: FileChunk, k: nat)
    requires Ordered(vs) && c.size > 0 && k < |vs| - 1 && Splits(vs[k], c)
    ensures Sweep(vs, c) != [] && Sweep(vs, c)[|Sweep(vs, c)|-1] == vs[|vs|-1] && vs[|vs|-1] != Cut(vs[k], c)[1]
  {
    assert Cut(vs[|vs|-1], c) == [vs[|vs|-1]];
  }

  lemma {:induction false} InsertKeepsLast(vs: seq<VisibleInterval>, v: VisibleInterval)
    requires vs != [] && vs[|vs|-1].start > v.start
    ensures Insert(vs, v)[|Insert(vs, v)|-1] == vs[|vs|-1]
  {}

  /** A merge on one array is right exactly when the chunk splits no interval but perhaps the last. */
  lemma MergeIntoExact(vs: seq<VisibleInterval>, c: FileChunk, shared: bool)
    requires Ordered(vs) && c.size > 0
    ensures MergeInto(vs, c, shared) == Merge(vs, c) <==> !(shared && SplitsInside(vs, c))
  {
    assert vs[..|vs|] == vs;
    if shared && !Behind(vs, c) {
      if SplitsInside(vs, c) {
        var k :| 0 <= k < |vs| - 1 && Splits(vs[k], c);
        var right, bad, good := Cut(vs[k], c)[1], SweepOver(vs, c, |vs|), Sweep(vs, c);
        SweepOverSplit(vs, c, k, |vs|);
        SweepKeepsLast(vs, c, k);
        assert bad[|bad|-1] == right;
        InsertKeepsLast(bad, NewVisible(c));
        InsertKeepsLast(good, NewVisible(c));
      } else {
        SweepOverRight(vs, c, |vs|);
      }
    }
  }

  /** When it is wrong, every position behind the split interval is lost. */
  lemma SharedMergeLoses(vs: seq<VisibleInterval>, c: FileChunk, k: nat, p: int)
    requires Ordered(vs) && c.size > 0 && k < |vs| - 1 && Splits(vs[k], c) && vs[k].stop <= p
    ensures !exists v :: v in MergeInto(vs, c, true) && v.Covers(p)
  {
    SweepOverSplit(vs, c, k, |vs|);
    assert !Behind(vs, c);
    var swept := SweepOver(vs, c, |vs|);
    forall v | v in swept ensures v.stop <= vs[k].stop {
      SplitMembers(vs, c, k, v);
    }
    forall v | v in MergeInto(vs, c, true) ensures !v.Covers(p) {
      hide SweepOver;
      InsertMembers(swept, NewVisible(c), v);
    }
  }

  /** All that is left lies before the end of the split interval. */
  lemma SplitMembers(vs: seq<VisibleInterval>, c: FileChunk, k: nat, v: VisibleInterval)
    requires Ordered(vs) && c.size > 0 && k < |vs| - 1 && Splits(vs[k], c)
    requires v in vs[..k] + Cut(vs[k], c) + Repeat(Cut(vs[k], c)[1], |vs| - k - 1)
    ensures v.stop <= vs[k].stop
  {
    if v in vs[..k] {
      var j :| 0 <= j < k && vs[j] == v;
    } else {
      assert v in Cut(vs[k], c) by {
        assert v in Repeat(Cut(vs[k], c)[1], |vs| - k - 1) ==> v == Cut(vs[k], c)[1];
      }
      CutFacts(vs[k], c);
    }
  }

  // ----- whole runs -----

  /** The intervals and the capacity of their array, whether the other slice has the same array, and its capacity. */
  datatype Buffers = Buffers(vs: seq<VisibleInterval>, cap: nat, shared: bool, other: nat)

  /** One merge and the swap of the two slices. */
  ghost function Next(b: Buffers, c: FileChunk, grow: nat -> nat): Buffers
    requires Growing(grow)
  {
    var out, room := MergeInto(b.vs, c, b.shared), if Behind(b.vs, c) then b.cap else b.other;
    Buffers(out, GrowTo(room, |out|, grow), |out| <= room && (b.shared || Behind(b.vs, c)), b.cap)
  }

  /** Two nil slices. */
  const NIL := Buffers([], 0, false, 0)

  /** The buffers after all chunks. */
  ghost function Run(start: Buffers, chunks: seq<FileChunk>, grow: nat -> nat): Buffers
    requires Growing(grow)
  {
    if chunks == [] then start else Next(Run(start, chunks[..|chunks|-1], grow), chunks[|chunks|-1], grow)
  }

  ghost predicate Holds(mem: Memory, visibles: Slice, newVisibles: Slice, b: Buffers) {
    && Has(mem, visibles) && Has(mem, newVisibles) && newVisibles.len == 0
    && Content(mem, visibles) == b.vs && Cap(mem, visibles) == b.cap
    && (visibles.arr == newVisibles.arr <==> b.shared) && Cap(mem, newVisibles) == b.other
  }

  lemma Swapped(mem0: Memory, visibles: Slice, newVisibles: Slice, b: Buffers, c: FileChunk, mem: Memory, out: Slice,
                grow: nat -> nat)
    requires Growing(grow) && Holds(mem0, visibles, newVisibles, b)
    requires Merged(mem0, Target(b.vs, c, visibles, newVisibles), MergeInto(b.vs, c, b.shared), mem, out, grow)
    ensures Holds(mem, out, visibles.(len := 0), Next(b, c, grow))
  {}

  /** The loop with the swap of the two slices. */
  method MergeLoop(mem0: Memory, visibles0: Slice, newVisibles0: Slice, ghost start: Buffers, chunks: seq<FileChunk>,
                   grow: nat -> nat)
    returns (intervals: seq<VisibleInterval>)
    requires Growing(grow) && Holds(mem0, visibles0, newVisibles0, start)
    ensures intervals == Run(start, chunks, grow).vs
  {
    var mem, visibles, newVisibles := mem0, visibles0, newVisibles0;
    assert chunks[..0] == [];
    hide Holds;
    for i := 0 to |chunks|
      invariant Holds(mem, visibles, newVisibles, Run(start, chunks[..i], grow))
    {
      assert chunks[..i+1][..i] == chunks[..i];
      var mem1, out := MergeStep(mem, visibles, newVisibles, Run(start, chunks[..i], grow), chunks[i], grow);
      newVisibles := visibles.(len := 0);
      mem, visibles := mem1, out;
    }
    assert chunks[..|chunks|] == chunks;
    HoldsContent(mem, visibles, newVisibles, Run(start, chunks, grow));
    intervals := mem[visibles.arr][..visibles.len];
  }

  lemma HoldsContent(mem: Memory, visibles: Slice, newVisibles: Slice, b: Buffers)
    requires Holds(mem, visibles, newVisibles, b)
    ensures Has(mem, visibles) && Content(mem, visibles) == b.vs
  {}

  /** Merges the chunks in order of time, with the slices as they are. */
  method MergeAllSlices(chunks: seq<FileChunk>, grow: nat -> nat) returns (intervals: seq<VisibleInterval>)
    requires Growing(grow)
    ensures intervals == Run(NIL, SortByTime(chunks), grow).vs
  {
    intervals := MergeLoop([[], []], Slice(0, 0), Slice(1, 0), NIL, SortByTime(chunks), grow);
  }

  /** The cached intervals of an open file, in an array with room for more, and the chunks that a flush adds. */
  method AddChunksSlices(cells: seq<VisibleInterval>, len: nat, chunks: seq<FileChunk>, grow: nat -> nat)
    returns (intervals: seq<VisibleInterval>)
    requires Growing(grow) && len <= |cells|
    ensures intervals == Run(Buffers(cells[..len], |cells|, false, 0), SortByTime(chunks), grow).vs
  {
    intervals := MergeLoop([cells, []], Slice(0, len), Slice(1, 0), Buffers(cells[..len], |cells|, false, 0),
                           SortByTime(chunks), grow);
  }

  /** Compaction by the intervals that the slices give. */
  method CompactSlices(chunks: seq<FileChunk>, dataChunks: seq<FileChunk>, grow: nat -> nat)
    returns (compacted: seq<FileChunk>, garbage: seq<FileChunk>)
    requires Growing(grow)
    ensures compacted == Keep(chunks, Ids(Run(NIL, SortByTime(dataChunks), grow).vs))
    ensures garbage == Drop(chunks, Ids(Run(NIL, SortByTime(dataChunks), grow).vs))
  {
    var visibles := MergeAllSlices(dataChunks, grow);
    compacted, garbage := SplitChunks(chunks, visibles);
  }

  method MergeStep(mem0: Memory, visibles: Slice, newVisibles: Slice, ghost b: Buffers, chunk: FileChunk,
                   grow: nat -> nat)
    returns (mem: Memory, out: Slice)
    requires Growing(grow) && Holds(mem0, visibles, newVisibles, b)
    ensures Has(mem, out) && Has(mem, visibles.(len := 0)) && Holds(mem, out, visibles.(len := 0), Next(b, chunk, grow))
  {
    mem, out := MergeSlices(mem0, visibles, newVisibles, chunk, grow);
    Swapped(mem0, visibles, newVisibles, b, chunk, mem, out, grow);
  }

  /** After every chunk the intervals are those that two separate buffers give. */
  ghost predicate RightThroughout(start: Buffers, chunks: seq<FileChunk>, grow: nat -> nat)
    requires Growing(grow)
  {
    chunks == [] ||
    (RightThroughout(start, chunks[..|chunks|-1], grow) && Run(start, chunks, grow).vs == MergeAll(start.vs, chunks))
  }

  /** No chunk falls inside an interval with others after it while both slices have one array. */
  ghost predicate NeverSplitsShared(start: Buffers, chunks: seq<FileChunk>, grow: nat -> nat)
    requires Growing(grow)
  {
    chunks == [] ||
    var front := chunks[..|chunks|-1];
    && NeverSplitsShared(start, front, grow)
    && !(Run(start, front, grow).shared && SplitsInside(MergeAll(start.vs, front), chunks[|chunks|-1]))
  }

  lemma {:induction false} MergeAllInOrder(vs: seq<VisibleInterval>, chunks: seq<FileChunk>)
    requires Ordered(vs) && Positive(chunks)
    ensures Ordered(MergeAll(vs, chunks))
  {
    if chunks != [] {
      var k := |chunks| - 1;
      assert chunks[k] in chunks && forall c :: c in chunks[..k] ==> c in chunks;
      MergeAllInOrder(vs, chunks[..k]);
      MergeOwner(MergeAll(vs, chunks[..k]), chunks[k], 0);
    }
  }

  /** However arrays grow, a run is right exactly while no chunk splits inside a shared array. */
  lemma {:induction false} SlicesExact(start: Buffers, chunks: seq<FileChunk>, grow: nat -> nat)
    requires Growing(grow) && Ordered(start.vs) && Positive(chunks)
    ensures RightThroughout(start, chunks, grow) <==> NeverSplitsShared(start, chunks, grow)
    ensures RightThroughout(start, chunks, grow) ==> Run(start, chunks, grow).vs == MergeAll(start.vs, chunks)
  {
    if chunks != [] {
      var k := |chunks| - 1;
      var front := chunks[..k];
      assert chunks[k] in chunks && forall c :: c in front ==> c in chunks;
      SlicesExact(start, front, grow);
      MergeAllInOrder(start.vs, front);
      MergeIntoExact(MergeAll(start.vs, front), chunks[k], Run(start, front, grow).shared);
    }
  }

  lemma SortPositive(chunks: seq<FileChunk>)
    requires Positive(chunks)
    ensures Positive(SortByTime(chunks))
  {
    SortBag(chunks);
    forall c | c in SortByTime(chunks) ensures c.size > 0 {
      assert c in multiset(chunks);
    }
  }

  /** While no chunk splits inside a shared array, compaction keeps what shows at every position. */
  lemma SlicesCompact(chunks: seq<FileChunk>, grow: nat -> nat, p: int)
    requires Growing(grow) && DistinctTimes(chunks) && Positive(chunks)
    requires NeverSplitsShared(NIL, SortByTime(chunks), grow)
    ensures
      var kept := Keep(chunks, Ids(Run(NIL, SortByTime(chunks), grow).vs));
      && kept == Keep(chunks, Ids(VisibleOf(chunks)))
      && Newest(kept, p) == Newest(chunks, p) && Owner(VisibleOf(kept), p) == Owner(VisibleOf(chunks), p)
  {
    SortPositive(chunks);
    SlicesExact(NIL, SortByTime(chunks), grow);
    CompactKeepsNewest(chunks, p);
    CompactKeepsOwners(chunks, p);
  }

  /** When a chunk splits interval k of a shared array, no interval behind it lends its file id any more. */
  lemma SharedMergeForgets(vs: seq<VisibleInterval>, c: FileChunk, k: nat, id: FileId)
    requires Ordered(vs) && c.size > 0 && k < |vs| - 1 && Splits(vs[k], c)
    requires id != c.fileId && forall j :: 0 <= j <= k ==> vs[j].fileId != id
    ensures id !in Ids(MergeInto(vs, c, true))
  {
    SweepOverSplit(vs, c, k, |vs|);
    assert !Behind(vs, c);
    var swept := SweepOver(vs, c, |vs|);
    forall v | v in swept ensures v.fileId != id {
      SplitIds(vs, c, k, v, id);
    }
    forall v | v in MergeInto(vs, c, true) ensures v.fileId != id {
      hide SweepOver;
      InsertMembers(swept, NewVisible(c), v);
    }
  }

  lemma SplitIds(vs: seq<VisibleInterval>, c: FileChunk, k: nat, v: VisibleInterval, id: FileId)
    requires Ordered(vs) && c.size > 0 && k < |vs| - 1 && Splits(vs[k], c)
    requires v in vs[..k] + Cut(vs[k], c) + Repeat(Cut(vs[k], c)[1], |vs| - k - 1)
    requires forall j :: 0 <= j <= k ==> vs[j].fileId != id
    ensures v.fileId != id
  {
    if v !in vs[..k] {
      assert v in Cut(vs[k], c) by {
        assert v in Repeat(Cut(vs[k], c)[1], |vs| - k - 1) ==> v == Cut(vs[k], c)[1];
      }
      CutFacts(vs[k], c);
    }
  }

  /** The first n pages of a file, written one after the other. */
  function Pages(n: nat): seq<FileChunk> {
    seq(n, i requires 0 <= i < n => FileChunk(i + 1, 10 * i, 10, i + 1, false))
  }

  function PageIntervals(n: nat): seq<VisibleInterval> {
    seq(n, i requires 0 <= i < n => VisibleInterval(10 * i, 10 * i + 10, i + 1, i + 1, 10))
  }

  lemma OnePageMore(n: nat, grow: nat -> nat)
    requires Growing(grow) && Run(NIL, Pages(n), grow).vs == PageIntervals(n)
    ensures
      var cap := Run(NIL, Pages(n), grow).cap;
      Run(NIL, Pages(n + 1), grow) == Buffers(PageIntervals(n + 1), GrowTo(cap, n + 1, grow), n + 1 <= cap, cap)
  {
    var c := FileChunk(n + 1, 10 * n, 10, n + 1, false);
    assert Pages(n + 1) == Pages(n) + [c];
    NextPage(n, c);
    hide Pages;
    hide PageIntervals;
    assert (Pages(n) + [c])[..n] == Pages(n);
  }

  lemma NextPage(n: nat, c: FileChunk)
    requires c == FileChunk(n + 1, 10 * n, 10, n + 1, false)
    ensures Behind(PageIntervals(n), c) && PageIntervals(n + 1) == PageIntervals(n) + [NewVisible(c)]
    ensures |Pages(n)| == n && |PageIntervals(n)| == n
  {}

  /** Four pages written in order fill an array of four cells, the last of them in place. */
  lemma FourPages(grow: nat -> nat)
    requires Growing(grow) && grow(0) == 1 && grow(1) == 2 && grow(2) == 4
    ensures Run(NIL, Pages(4), grow) == Buffers(PageIntervals(4), 4, true, 4)
  {
    assert Pages(0) == [] && PageIntervals(0) == [];
    assert Run(NIL, Pages(0), grow) == Buffers([], 0, false, 0);
    assert GrowTo(0, 1, grow) == 1 && GrowTo(1, 2, grow) == 2 && GrowTo(2, 3, grow) == 4 && GrowTo(4, 4, grow) == 4;
    hide *;
    OnePageMore(0, grow);
    OnePageMore(1, grow);
    OnePageMore(2, grow);
    OnePageMore(3, grow);
  }

  /**
   A fifth write into the middle of the second page then loses the third and the fourth page, and a compaction counts
   their chunks as garbage.
   */
  lemma SharedBufferReached(grow: nat -> nat, p: int)
    requires Growing(grow) && grow(0) == 1 && grow(1) == 2 && grow(2) == 4
    requires 20 <= p < 40
    ensures
      var chunks := Pages(4) + [FileChunk(5, 12, 2, 5, false)];
      && Increasing(chunks) && !NeverSplitsShared(NIL, chunks, grow)
      && (!exists v :: v in Run(NIL, chunks, grow).vs && v.Covers(p))
      && chunks[2] in Drop(chunks, Ids(Run(NIL, chunks, grow).vs))
      && chunks[3] in Drop(chunks, Ids(Run(NIL, chunks, grow).vs))
  {
    hide *;
    var c := FileChunk(5, 12, 2, 5, false);
    var chunks := Pages(4) + [c];
    FourPages(grow);
    FifthWrite(c);
    RunsOn(NIL, Pages(4), c, grow);
    SplitShared(chunks, grow);
    SharedMergeLoses(PageIntervals(4), c, 1, p);
    SharedMergeForgets(PageIntervals(4), c, 1, 3);
    SharedMergeForgets(PageIntervals(4), c, 1, 4);
    KeepMembers(chunks, Ids(Run(NIL, chunks, grow).vs), chunks[2]);
    KeepMembers(chunks, Ids(Run(NIL, chunks, grow).vs), chunks[3]);
  }

  lemma FifthWrite(c: FileChunk)
    requires c == FileChunk(5, 12, 2, 5, false)
    ensures |Pages(4)| == |PageIntervals(4)| == 4 && Increasing(Pages(4) + [c])
    ensures Pages(4)[2].fileId == 3 && Pages(4)[3].fileId == 4
    ensures Ordered(PageIntervals(4)) && Splits(PageIntervals(4)[1], c)
    ensures PageIntervals(4)[0].fileId == 1 && PageIntervals(4)[1].fileId == 2 && PageIntervals(4)[1].stop == 20
  {}

  lemma RunsOn(start: Buffers, chunks: seq<FileChunk>, c: FileChunk, grow: nat -> nat)
    requires Growing(grow)
    ensures
      var b := Run(start, chunks, grow);
      Run(start, chunks + [c], grow).vs == MergeInto(b.vs, c, b.shared) && (chunks + [c])[..|chunks|] == chunks
  {
    assert (chunks + [c])[..|chunks|] == chunks;
  }

  lemma SplitShared(chunks: seq<FileChunk>, grow: nat -> nat)
    requires Growing(grow) && |chunks| == 5 && chunks[..4] == Pages(4)
    requires Run(NIL, Pages(4), grow) == Buffers(PageIntervals(4), 4, true, 4)
    requires Splits(PageIntervals(4)[1], chunks[4])
    ensures !NeverSplitsShared(NIL, chunks, grow)
  {
    assert SplitsInside(PageIntervals(4), chunks[4]);
    SlicesExact(NIL, Pages(4), grow);
  }

  /**
   The same with a file that was opened with three pages: the fourth page and the write into the second, taken in by one
   flush, lose the third and the fourth page for reads.
   */
  lemma SharedCacheReached(grow: nat -> nat, p: int)
    requires Growing(grow) && 20 <= p < 40
    ensures
      var start, added := Buffers(PageIntervals(3), 4, false, 0), [Pages(4)[3], FileChunk(5, 12, 2, 5, false)];
      && Increasing(added) && Ordered(start.vs) && !NeverSplitsShared(start, added, grow)
      && !exists v :: v in Run(start, added, grow).vs && v.Covers(p)
  {
    var start, d, c := Buffers(PageIntervals(3), 4, false, 0), Pages(4)[3], FileChunk(5, 12, 2, 5, false);
    NextPage(3, d);
    assert [d, c][..1] == [d] && [d][..0] == [];
    assert Run(start, [], grow) == start && MergeAll(start.vs, []) == start.vs;
    var b := Run(start, [d], grow);
    assert b == Buffers(PageIntervals(4), 4, true, 4) && MergeAll(start.vs, [d]) == PageIntervals(4);
    assert Splits(b.vs[1], c) && Ordered(b.vs);
    SharedMergeLoses(b.vs, c, 1, p);
  }
}
