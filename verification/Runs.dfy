/**
 The value of the dirty buffer: a set of runs of bytes.  A run is what one linked list of nodes
 stands for; looking a position up in a set of runs is the buffer's meaning.
 */
module Runs {
  import opened Common

  datatype Run = Run(start: int, bytes: seq<byte>) {
    function Stop(): int {
      start + |bytes|
    }

    predicate Covers(p: int) {
      start <= p < Stop()
    }

    function At(p: int): byte
      requires Covers(p)
    {
      bytes[p - start]
    }

    function Slice(from: int, to: int): (s: Run)
      requires start <= from <= to <= Stop()
      ensures s.start == from && s.Stop() == to
      ensures forall p :: s.Covers(p) ==> Covers(p) && s.At(p) == At(p)
    {
      Run(from, bytes[from - start..to - start])
    }
  }

  /** `a` is a stretch of `b`. */
  ghost predicate Inside(a: Run, b: Run) {
    && b.start <= a.start && a.Stop() <= b.Stop()
    && forall p :: a.Covers(p) ==> a.At(p) == b.At(p)
  }

  lemma InsideTrans(a: Run, b: Run, c: Run)
    requires Inside(a, b) && Inside(b, c)
    ensures Inside(a, c)
  {
    assert forall p :: a.Covers(p) ==> b.Covers(p) && b.At(p) == c.At(p);
  }

  /** Two adjacent runs as one. */
  function Concat(a: Run, b: Run): (c: Run)
    requires a.Stop() == b.start
    ensures c.start == a.start && c.Stop() == b.Stop()
    ensures Inside(a, c) && Inside(b, c)
    ensures forall p :: c.Covers(p) ==> a.Covers(p) || b.Covers(p)
  {
    Run(a.start, a.bytes + b.bytes)
  }

  /** The runs neither overlap nor touch. */
  predicate Apart(a: Run, b: Run) {
    a.Stop() < b.start || b.Stop() < a.start
  }

  ghost predicate WellFormed(runs: seq<Run>) {
    && (forall i :: 0 <= i < |runs| ==> |runs[i].bytes| > 0)
    && (forall i, j :: 0 <= i < |runs| && 0 <= j < |runs| && i != j ==> Apart(runs[i], runs[j]))
  }

  /** The dirty byte at a file position, if there is one. */
  ghost function Lookup(runs: seq<Run>, p: int): Option<byte> {
    if i: int :| 0 <= i < |runs| && runs[i].Covers(p) then Some(runs[i].At(p)) else None
  }

  lemma LookupIn(runs: seq<Run>, i: int, p: int)
    requires WellFormed(runs) && 0 <= i < |runs| && runs[i].Covers(p)
    ensures Lookup(runs, p) == Some(runs[i].At(p))
  {
    forall j | 0 <= j < |runs| && runs[j].Covers(p) ensures j == i {
      assert j == i || Apart(runs[j], runs[i]);
    }
  }

  /** Appending a run that stands clear of the others. */
  lemma Append(runs: seq<Run>, r: Run)
    requires WellFormed(runs) && |r.bytes| > 0
    requires forall i :: 0 <= i < |runs| ==> Apart(runs[i], r)
    ensures WellFormed(runs + [r])
    ensures forall p :: Lookup(runs + [r], p) == if r.Covers(p) then Some(r.At(p)) else Lookup(runs, p)
  {
    var more := runs + [r];
    assert WellFormed(more);
    forall p ensures Lookup(more, p) == if r.Covers(p) then Some(r.At(p)) else Lookup(runs, p) {
      if r.Covers(p) {
        LookupIn(more, |runs|, p);
      } else if i: int :| 0 <= i < |runs| && runs[i].Covers(p) {
        assert more[i] == runs[i];
        LookupIn(more, i, p);
        LookupIn(runs, i, p);
      }
    }
  }

  /** Run `i` and the run `r` next to it become one run `g`. */
  lemma Extend(runs: seq<Run>, i: nat, r: Run, g: Run)
    requires WellFormed(runs) && i < |runs| && Inside(runs[i], g) && Inside(r, g)
    requires forall p :: g.Covers(p) ==> runs[i].Covers(p) || r.Covers(p)
    requires forall k :: 0 <= k < |runs| && k != i ==> Apart(runs[k], g)
    ensures WellFormed(runs[i := g])
    ensures forall p :: Lookup(runs[i := g], p) == if r.Covers(p) then Some(r.At(p)) else Lookup(runs, p)
  {
    var out := runs[i := g];
    assert WellFormed(out);
    forall p ensures Lookup(out, p) == if r.Covers(p) then Some(r.At(p)) else Lookup(runs, p) {
      if r.Covers(p) {
        LookupIn(out, i, p);
      } else if k: int :| 0 <= k < |runs| && runs[k].Covers(p) {
        LookupIn(runs, k, p);
        LookupIn(out, k, p);
      }
    }
  }

  lemma Remove(runs: seq<Run>, k: nat)
    requires WellFormed(runs) && k < |runs|
    ensures WellFormed(RemoveAt(runs, k))
    ensures forall p :: Lookup(RemoveAt(runs, k), p) == if runs[k].Covers(p) then None else Lookup(runs, p)
    ensures forall p :: runs[k].Covers(p) ==> Lookup(runs, p) == Some(runs[k].At(p))
  {
    var out := RemoveAt(runs, k);
    RemoveWellFormed(runs, k);
    assert forall i :: 0 <= i < |runs| && i != k ==> runs[i] in out by {
      assert forall i :: 0 <= i < k ==> out[i] == runs[i];
      assert forall i :: k < i < |runs| ==> out[i-1] == runs[i];
    }
    forall p ensures Lookup(out, p) == if runs[k].Covers(p) then None else Lookup(runs, p) {
      if i: int :| 0 <= i < |out| && out[i].Covers(p) {
        LookupIn(out, i, p);
        LookupIn(runs, Kept(k, i), p);
        assert Apart(runs[Kept(k, i)], runs[k]);
      }
    }
    forall p | runs[k].Covers(p) ensures Lookup(runs, p) == Some(runs[k].At(p)) {
      LookupIn(runs, k, p);
    }
  }

  /** Where element i of RemoveAt(s, k) stood in s. */
  function Kept(k: nat, i: int): int {
    if i < k then i else i + 1
  }

  lemma RemoveWellFormed(runs: seq<Run>, k: nat)
    requires WellFormed(runs) && k < |runs|
    ensures WellFormed(RemoveAt(runs, k))
    ensures forall i :: 0 <= i < |runs| - 1 ==> RemoveAt(runs, k)[i] == runs[Kept(k, i)]
  {
    var out := RemoveAt(runs, k);
    forall i | 0 <= i < |out| ensures out[i] == runs[Kept(k, i)] {}
    forall i, j | 0 <= i < |out| && 0 <= j < |out| && i != j ensures Apart(out[i], out[j]) {
      assert Apart(runs[Kept(k, i)], runs[Kept(k, j)]);
    }
  }

  // ----- writing over runs -----

  predicate Outside(r: Run, cut: Run) {
    r.Stop() <= cut.start || cut.Stop() <= r.start
  }

  /** What stays of run `r` when `cut` is written over it. */
  function Pieces(r: Run, cut: Run): seq<Run> {
    if Outside(r, cut) then [r]
    else
      (if r.start < cut.start then [r.Slice(r.start, cut.start)] else [])
      + (if cut.Stop() < r.Stop() then [r.Slice(cut.Stop(), r.Stop())] else [])
  }

  /** The pieces by the ends of the two. */
  lemma PiecesAre(r: Run, cut: Run)
    requires r.start < r.Stop() && cut.start < cut.Stop()
    ensures
      if r.Stop() <= cut.start || cut.Stop() <= r.start then Pieces(r, cut) == [r]
      else if r.start < cut.start && cut.Stop() < r.Stop() then
        Pieces(r, cut) == [r.Slice(r.start, cut.start), r.Slice(cut.Stop(), r.Stop())]
      else if r.start < cut.start then Pieces(r, cut) == [r.Slice(r.start, cut.start)]
      else if cut.Stop() < r.Stop() then Pieces(r, cut) == [r.Slice(cut.Stop(), r.Stop())]
      else Pieces(r, cut) == []
  {}

  /** `out` is what stays of `runs` when `cut` is written over them. */
  ghost predicate CutTo(runs: seq<Run>, cut: Run, out: seq<Run>) {
    && WellFormed(out)
    && (forall n :: n in out ==> Outside(n, cut))
    && (forall n :: n in out ==> exists r :: r in runs && Inside(n, r))
    && (forall r, p :: r in runs && r.Covers(p) && !cut.Covers(p) ==> exists n :: n in out && n.Covers(p))
  }

  lemma PiecesInside(r: Run, cut: Run)
    requires |r.bytes| > 0 && |cut.bytes| > 0
    ensures WellFormed(Pieces(r, cut))
    ensures forall n :: n in Pieces(r, cut) ==> Outside(n, cut) && Inside(n, r)
  {}

  lemma PiecesCover(r: Run, cut: Run, p: int)
    requires |cut.bytes| > 0 && r.Covers(p) && !cut.Covers(p)
    ensures exists n :: n in Pieces(r, cut) && n.Covers(p)
  {
    if Outside(r, cut) {
      assert r in Pieces(r, cut);
    } else if p < cut.start {
      assert r.Slice(r.start, cut.start) in Pieces(r, cut);
    } else {
      assert r.Slice(cut.Stop(), r.Stop()) in Pieces(r, cut);
    }
  }

  lemma WellFormedConcat(a: seq<Run>, b: seq<Run>)
    requires WellFormed(a) && WellFormed(b)
    requires forall x, y :: x in a && y in b ==> Apart(x, y)
    ensures WellFormed(a + b)
  {
    var c := a + b;
    forall i, j | 0 <= i < |c| && 0 <= j < |c| && i != j ensures Apart(c[i], c[j]) {
      assert i < |a| ==> c[i] == a[i] && a[i] in a;
      assert j < |a| ==> c[j] == a[j] && a[j] in a;
      assert i >= |a| ==> c[i] == b[i - |a|] && c[i] in b;
      assert j >= |a| ==> c[j] == b[j - |a|] && c[j] in b;
    }
  }

  lemma CutStep(runs: seq<Run>, out: seq<Run>, r: Run, cut: Run)
    requires CutTo(runs, cut, out) && |r.bytes| > 0 && |cut.bytes| > 0
    requires forall a :: a in runs ==> Apart(a, r)
    ensures CutTo(runs + [r], cut, out + Pieces(r, cut))
  {
    PiecesInside(r, cut);
    var more := Pieces(r, cut);
    forall n, q | n in out && q in more ensures Apart(n, q) {
      var a :| a in runs && Inside(n, a);
      assert Apart(a, r);
    }
    WellFormedConcat(out, more);
    CutStepInside(runs, out, r, cut);
    CutStepCovers(runs, out, r, cut);
  }

  lemma CutStepInside(runs: seq<Run>, out: seq<Run>, r: Run, cut: Run)
    requires forall n :: n in out ==> exists a :: a in runs && Inside(n, a)
    requires forall n :: n in Pieces(r, cut) ==> Inside(n, r)
    ensures forall n :: n in out + Pieces(r, cut) ==> exists a :: a in runs + [r] && Inside(n, a)
  {
    forall n | n in out + Pieces(r, cut) ensures exists a :: a in runs + [r] && Inside(n, a) {
      if n in out {
        var a :| a in runs && Inside(n, a);
        assert a in runs + [r];
      } else {
        assert r in runs + [r];
      }
    }
  }

  lemma CutStepCovers(runs: seq<Run>, out: seq<Run>, r: Run, cut: Run)
    requires forall a, p :: a in runs && a.Covers(p) && !cut.Covers(p) ==> exists n :: n in out && n.Covers(p)
    requires |cut.bytes| > 0
    ensures forall a, p :: a in runs + [r] && a.Covers(p) && !cut.Covers(p)
              ==> exists n :: n in out + Pieces(r, cut) && n.Covers(p)
  {
    forall a, p | a in runs + [r] && a.Covers(p) && !cut.Covers(p)
      ensures exists n :: n in out + Pieces(r, cut) && n.Covers(p)
    {
      if a in runs {
        var n :| n in out && n.Covers(p);
        assert n in out + Pieces(r, cut);
      } else {
        PiecesCover(r, cut, p);
        var n :| n in Pieces(r, cut) && n.Covers(p);
        assert n in out + Pieces(r, cut);
      }
    }
  }

  lemma CutLookup(runs: seq<Run>, out: seq<Run>, cut: Run, p: int)
    requires WellFormed(runs) && CutTo(runs, cut, out)
    ensures Lookup(out, p) == if cut.Covers(p) then None else Lookup(runs, p)
  {
    if i: int :| 0 <= i < |out| && out[i].Covers(p) {
      LookupIn(out, i, p);
      assert out[i] in out;
      var r :| r in runs && Inside(out[i], r);
      var j :| 0 <= j < |runs| && runs[j] == r;
      LookupIn(runs, j, p);
    } else if j: int :| 0 <= j < |runs| && runs[j].Covers(p) {
      assert runs[j] in runs;
    }
  }

  // ----- gluing a new run to its neighbours -----

  /** `out` holds the bytes of `r` where it lies and those of `runs` elsewhere. */
  ghost predicate Overlays(runs: seq<Run>, r: Run, out: seq<Run>) {
    forall p :: Lookup(out, p) == if r.Covers(p) then Some(r.At(p)) else Lookup(runs, p)
  }

  /** Non-empty, disjoint and not touching runs that leave the place of `r` free. */
  ghost predicate Free(runs: seq<Run>, r: Run) {
    && WellFormed(runs) && |r.bytes| > 0
    && forall n :: n in runs ==> Outside(n, r)
  }

  lemma CutFree(runs: seq<Run>, out: seq<Run>, cut: Run)
    requires CutTo(runs, cut, out) && |cut.bytes| > 0
    ensures Free(out, cut)
  {}

  /** Laid over what the cut left, it is laid over the whole. */
  lemma CutOverlays(runs: seq<Run>, out: seq<Run>, r: Run, now: seq<Run>)
    requires WellFormed(runs) && CutTo(runs, r, out) && Overlays(out, r, now)
    ensures Overlays(runs, r, now)
  {
    forall p ensures Lookup(now, p) == if r.Covers(p) then Some(r.At(p)) else Lookup(runs, p) {
      CutLookup(runs, out, r, p);
    }
  }

  /** Only the runs that stop or start at its ends touch `r`. */
  lemma FreeApart(runs: seq<Run>, r: Run, k: int)
    requires Free(runs, r) && 0 <= k < |runs| && runs[k].Stop() != r.start && runs[k].start != r.Stop()
    ensures Apart(runs[k], r)
  {
    assert runs[k] in runs;
  }

  /** At most one run stops, and at most one starts, at a position. */
  lemma OneAtEnd(runs: seq<Run>, i: int, k: int)
    requires WellFormed(runs) && 0 <= i < |runs| && 0 <= k < |runs| && i != k
    ensures runs[i].Stop() != runs[k].Stop() && runs[i].start != runs[k].start
  {
    assert Apart(runs[i], runs[k]);
  }

  lemma JoinBefore(runs: seq<Run>, r: Run, a: nat)
    requires Free(runs, r) && a < |runs| && runs[a].Stop() == r.start
    requires forall k :: 0 <= k < |runs| ==> runs[k].start != r.Stop()
    ensures WellFormed(runs[a := Concat(runs[a], r)]) && Overlays(runs, r, runs[a := Concat(runs[a], r)])
  {
    var g := Concat(runs[a], r);
    forall k | 0 <= k < |runs| && k != a ensures Apart(runs[k], g) {
      OneAtEnd(runs, k, a);
      FreeApart(runs, r, k);
      assert Apart(runs[k], runs[a]);
    }
    Extend(runs, a, r, g);
  }

  lemma JoinAfter(runs: seq<Run>, r: Run, b: nat)
    requires Free(runs, r) && b < |runs| && runs[b].start == r.Stop()
    requires forall k :: 0 <= k < |runs| ==> runs[k].Stop() != r.start
    ensures WellFormed(runs[b := Concat(r, runs[b])]) && Overlays(runs, r, runs[b := Concat(r, runs[b])])
  {
    var g := Concat(r, runs[b]);
    forall k | 0 <= k < |runs| && k != b ensures Apart(runs[k], g) {
      OneAtEnd(runs, k, b);
      FreeApart(runs, r, k);
      assert Apart(runs[k], runs[b]);
    }
    Extend(runs, b, r, g);
  }

  lemma JoinNone(runs: seq<Run>, r: Run)
    requires Free(runs, r)
    requires forall k :: 0 <= k < |runs| ==> runs[k].Stop() != r.start && runs[k].start != r.Stop()
    ensures WellFormed(runs + [r]) && Overlays(runs, r, runs + [r])
  {
    forall k | 0 <= k < |runs| ensures Apart(runs[k], r) {
      FreeApart(runs, r, k);
    }
    Append(runs, r);
  }

  /** Seen as taking run b out and gluing `r` and run b to run a. */
  lemma JoinBoth(runs: seq<Run>, r: Run, a: nat, b: nat)
    requires Free(runs, r) && a < |runs| && b < |runs| && runs[a].Stop() == r.start && runs[b].start == r.Stop()
    ensures a != b
    ensures WellFormed(RemoveAt(runs[a := Concat(Concat(runs[a], r), runs[b])], b))
    ensures Overlays(runs, r, RemoveAt(runs[a := Concat(Concat(runs[a], r), runs[b])], b))
  {
    var g, tail := Concat(Concat(runs[a], r), runs[b]), Concat(r, runs[b]);
    var rest, at := RemoveAt(runs, b), if a < b then a else a - 1;
    Remove(runs, b);
    RemoveWellFormed(runs, b);
    assert rest[at] == runs[a] by { assert Kept(b, at) == a; }
    forall k | 0 <= k < |rest| && k != at ensures Apart(rest[k], g) {
      JoinBothApart(runs, r, a, b, Kept(b, k));
    }
    assert RemoveAt(runs[a := g], b) == rest[at := g];
    InsideTrans(runs[a], Concat(runs[a], r), g);
    InsideTrans(r, Concat(runs[a], r), g);
    GlueTail(runs[a], r, runs[b]);
    hide WellFormed;
    hide RemoveAt;
    Extend(rest, at, tail, g);
  }

  lemma JoinBothApart(runs: seq<Run>, r: Run, a: nat, b: nat, k: int)
    requires Free(runs, r) && a < |runs| && b < |runs| && runs[a].Stop() == r.start && runs[b].start == r.Stop()
    requires 0 <= k < |runs| && k != a && k != b
    ensures Apart(runs[k], Concat(Concat(runs[a], r), runs[b]))
  {
    OneAtEnd(runs, k, a);
    OneAtEnd(runs, k, b);
    FreeApart(runs, r, k);
    assert Apart(runs[k], runs[a]) && Apart(runs[k], runs[b]);
  }

  lemma GlueTail(x: Run, r: Run, y: Run)
    requires x.Stop() == r.start && r.Stop() == y.start
    ensures Inside(Concat(r, y), Concat(Concat(x, r), y))
    ensures forall p :: Concat(Concat(x, r), y).Covers(p) ==> x.Covers(p) || Concat(r, y).Covers(p)
  {
    assert Concat(Concat(x, r), y) == Concat(x, Concat(r, y)) by {
      assert x.bytes + r.bytes + y.bytes == x.bytes + (r.bytes + y.bytes);
    }
  }

  // ----- the number of dirty positions -----

  function TotalSize(runs: seq<Run>): nat {
    if runs == [] then 0 else TotalSize(runs[..|runs|-1]) + |runs[|runs|-1].bytes|
  }

  ghost function Range(lo: int, size: nat): (s: set<int>)
    ensures forall p :: p in s <==> lo <= p < lo + size
    ensures |s| == size
  {
    if size == 0 then {} else Range(lo, size - 1) + {lo + size - 1}
  }

  /** `dirty` is the set of positions the runs hold a byte for. */
  ghost predicate IsDirtySet(runs: seq<Run>, dirty: set<int>) {
    forall p :: p in dirty <==> Lookup(runs, p).Some?
  }

  lemma AppendDirty(runs: seq<Run>, r: Run, dirty: set<int>)
    requires WellFormed(runs) && |r.bytes| > 0 && IsDirtySet(runs, dirty)
    requires forall i :: 0 <= i < |runs| ==> Apart(runs[i], r)
    ensures IsDirtySet(runs + [r], dirty + Range(r.start, |r.bytes|))
    ensures dirty !! Range(r.start, |r.bytes|)
  {
    Append(runs, r);
    forall p | p in Range(r.start, |r.bytes|) ensures p !in dirty {
      assert forall i :: 0 <= i < |runs| ==> Apart(runs[i], r) && !runs[i].Covers(p);
    }
    assert forall p :: r.Covers(p) <==> p in Range(r.start, |r.bytes|);
  }

  /** The buffered size is the number of distinct dirty positions. */
  lemma {:induction false} TotalSizeCountsPositions(runs: seq<Run>) returns (dirty: set<int>)
    requires WellFormed(runs)
    ensures IsDirtySet(runs, dirty) && |dirty| == TotalSize(runs)
  {
    if runs == [] {
      dirty := {};
    } else {
      var init, r := runs[..|runs|-1], runs[|runs|-1];
      var some := TotalSizeCountsPositions(init);
      assert init + [r] == runs;
      AppendDirty(init, r, some);
      dirty := some + Range(r.start, |r.bytes|);
    }
  }

  /** Writing `r` adds at most its own length to the buffered size. */
  lemma OverlaySize(runs: seq<Run>, r: Run, out: seq<Run>)
    requires WellFormed(runs) && WellFormed(out) && Overlays(runs, r, out)
    ensures TotalSize(out) <= TotalSize(runs) + |r.bytes|
  {
    var before := TotalSizeCountsPositions(runs);
    var after := TotalSizeCountsPositions(out);
    var more := Range(r.start, |r.bytes|);
    forall p | p in after ensures p in before + more {
      assert r.Covers(p) <==> p in more;
    }
    SubsetSize(after, before + more);
  }

  /** A position that is dirty while the one before it is not starts a run. */
  lemma StartOf(runs: seq<Run>, k: nat)
    requires WellFormed(runs) && k < |runs|
    ensures Lookup(runs, runs[k].start).Some? && Lookup(runs, runs[k].start - 1) == None
  {
    var p := runs[k].start;
    assert runs[k].Covers(p);
    forall j | 0 <= j < |runs| ensures !runs[j].Covers(p - 1) {
      assert j == k || Apart(runs[j], runs[k]);
    }
  }

  ghost function Starts(runs: seq<Run>): set<int> {
    set k | 0 <= k < |runs| :: runs[k].start
  }

  lemma {:induction false} StartsCount(runs: seq<Run>)
    requires WellFormed(runs)
    ensures |Starts(runs)| == |runs|
  {
    if runs != [] {
      var n := |runs| - 1;
      StartsCount(runs[..n]);
      assert Starts(runs) == Starts(runs[..n]) + {runs[n].start} by {
        assert forall k :: 0 <= k < n ==> runs[k] == runs[..n][k];
      }
      forall k | 0 <= k < n ensures runs[k].start != runs[n].start {
        OneAtEnd(runs, k, n);
      }
    }
  }

  /** A write adds at most one run. */
  lemma OverlayCount(runs: seq<Run>, r: Run, out: seq<Run>)
    requires WellFormed(runs) && WellFormed(out) && Overlays(runs, r, out)
    ensures |out| <= |runs| + 1
  {
    forall p | p in Starts(out) ensures p in Starts(runs) + {r.start} {
      var k :| 0 <= k < |out| && out[k].start == p;
      StartOf(out, k);
      if p != r.start {
        var j :| 0 <= j < |runs| && runs[j].Covers(p);
        assert Lookup(runs, p - 1) == None && !runs[j].Covers(p - 1);
      }
    }
    StartsCount(runs);
    StartsCount(out);
    SubsetSize(Starts(out), Starts(runs) + {r.start});
  }

  /** Some run of the result holds all of `r`, so it is at least as long. */
  lemma OverlayLargest(runs: seq<Run>, r: Run, out: seq<Run>) returns (k: nat)
    requires WellFormed(out) && |r.bytes| > 0 && Overlays(runs, r, out)
    ensures k < |out| && out[k].start <= r.start && r.Stop() <= out[k].Stop() && |r.bytes| <= |out[k].bytes|
  {
    assert r.Covers(r.start) && Lookup(out, r.start).Some?;
    k :| 0 <= k < |out| && out[k].Covers(r.start);
    var p := r.start;
    while p < r.Stop() - 1
      invariant r.start <= p < r.Stop() && out[k].Covers(p)
    {
      assert r.Covers(p + 1) && Lookup(out, p + 1).Some?;
      var j :| 0 <= j < |out| && out[j].Covers(p + 1);
      p := p + 1;
    }
  }

  lemma {:induction false} RemoveSize(runs: seq<Run>, k: nat)
    requires k < |runs|
    ensures TotalSize(RemoveAt(runs, k)) == TotalSize(runs) - |runs[k].bytes|
  {
    var n := |runs| - 1;
    if k == n {
      assert RemoveAt(runs, k) == runs[..n];
    } else {
      RemoveSize(runs[..n], k);
      assert RemoveAt(runs, k)[..n-1] == RemoveAt(runs[..n], k);
      assert RemoveAt(runs, k)[n-1] == runs[n];
    }
  }
}
