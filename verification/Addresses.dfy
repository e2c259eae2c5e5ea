/**
 Where in a chunk a visible interval reads from.  A view reads at `p - v.start`, but an interval that
 lost its front to a newer chunk no longer starts where its chunk starts.
 */
module Addresses {
  import opened Common
  import opened Chunks
  import opened Visibles
  import opened Visibility

  /** The place a view of the interval at p reads: file id and offset within the blob. */
  ghost function Address(vs: seq<VisibleInterval>, p: int): Option<(FileId, int)> {
    if i: int :| 0 <= i < |vs| && vs[i].Covers(p) then Some((vs[i].fileId, p - vs[i].start)) else None
  }

  /** The place the byte at p was written to. */
  function WrittenAt(chunks: seq<FileChunk>, p: int): Option<(FileId, int)> {
    match Newest(chunks, p)
    case None => None
    case Some(c) => Some((c.fileId, p - c.offset))
  }

  ghost predicate DistinctIds(chunks: seq<FileChunk>) {
    forall c, d :: c in chunks && d in chunks && c.fileId == d.fileId ==> c == d
  }

  /** Two intervals of one chunk always have a gap between them. */
  ghost predicate Gapped(vs: seq<VisibleInterval>) {
    forall a, b :: a in vs && b in vs && a != b && a.fileId == b.fileId ==> a.stop < b.start || b.stop < a.start
  }

  lemma {:induction false} SweepFrom(vs: seq<VisibleInterval>, c: FileChunk, n: VisibleInterval)
    requires n in Sweep(vs, c)
    ensures exists v :: v in vs && n in Cut(v, c)
  {
    var k := |vs| - 1;
    if n in Sweep(vs[..k], c) {
      SweepFrom(vs[..k], c, n);
      var v :| v in vs[..k] && n in Cut(v, c);
      assert v in vs;
    } else {
      assert vs[k] in vs;
    }
  }

  lemma CutGapped(v: VisibleInterval, c: FileChunk, a: VisibleInterval, b: VisibleInterval)
    requires v.start < v.stop && c.size > 0 && a in Cut(v, c) && b in Cut(v, c) && a != b
    ensures a.stop < b.start || b.stop < a.start
  {}

  lemma PartsGapped(v: VisibleInterval, w: VisibleInterval, a: VisibleInterval, b: VisibleInterval)
    requires PartOf(a, v) && PartOf(b, w) && (v.stop < w.start || w.stop < v.start)
    ensures a.stop < b.start || b.stop < a.start
  {}

  lemma SweepGapped(vs: seq<VisibleInterval>, c: FileChunk)
    requires Ordered(vs) && Gapped(vs) && c.size > 0
    ensures Gapped(Sweep(vs, c))
  {
    forall a, b | a in Sweep(vs, c) && b in Sweep(vs, c) && a != b && a.fileId == b.fileId
      ensures a.stop < b.start || b.stop < a.start
    {
      SweepFrom(vs, c, a);
      SweepFrom(vs, c, b);
      var v :| v in vs && a in Cut(v, c);
      var w :| w in vs && b in Cut(w, c);
      if v == w {
        CutGapped(v, c, a, b);
      } else {
        CutFacts(v, c);
        CutFacts(w, c);
        PartsGapped(v, w, a, b);
      }
    }
  }

  lemma MergeMembers(vs: seq<VisibleInterval>, c: FileChunk, n: VisibleInterval)
    ensures n in Merge(vs, c) ==> n == NewVisible(c) || n in vs || n in Sweep(vs, c)
    ensures !(vs == [] || vs[|vs|-1].stop <= c.offset) && n in Merge(vs, c) ==> n == NewVisible(c) || n in Sweep(vs, c)
  {
    InsertMembers(Sweep(vs, c), NewVisible(c), n);
  }

  lemma MergeGapped(vs: seq<VisibleInterval>, c: FileChunk)
    requires Ordered(vs) && Gapped(vs) && c.size > 0
    requires forall v :: v in vs ==> v.fileId != c.fileId
    ensures Gapped(Merge(vs, c))
  {
    SweepGapped(vs, c);
    SweepFacts(vs, c);
    forall n | n in Sweep(vs, c) ensures n.fileId != c.fileId {
      var v :| v in vs && PartOf(n, v);
    }
    forall a, b | a in Merge(vs, c) && b in Merge(vs, c) && a != b && a.fileId == b.fileId
      ensures a.stop < b.start || b.stop < a.start
    {
      MergeMembers(vs, c, a);
      MergeMembers(vs, c, b);
    }
  }

  /** Merging brings in no id but the chunk's. */
  lemma MergeFrom(vs: seq<VisibleInterval>, c: FileChunk)
    requires Ordered(vs) && c.size > 0
    ensures Ids(Merge(vs, c)) <= Ids(vs) + {c.fileId}
  {
    SweepFacts(vs, c);
    forall n | n in Merge(vs, c) ensures n.fileId in Ids(vs) + {c.fileId} {
      MergeMembers(vs, c, n);
      if n in Sweep(vs, c) {
        var v :| v in vs && PartOf(n, v);
      }
    }
  }

  lemma LastIdNew(chunks: seq<FileChunk>)
    requires chunks != [] && Increasing(chunks) && DistinctIds(chunks)
    ensures chunks[|chunks|-1].fileId !in IdsOf(chunks[..|chunks|-1])
    ensures DistinctIds(chunks[..|chunks|-1])
    ensures IdsOf(chunks) == IdsOf(chunks[..|chunks|-1]) + {chunks[|chunks|-1].fileId}
  {
    var k := |chunks| - 1;
    assert chunks == chunks[..k] + [chunks[k]];
    forall d | d in chunks[..k] ensures d.fileId != chunks[k].fileId {
      var j :| 0 <= j < k && chunks[j] == d;
      assert chunks[j].mtime < chunks[k].mtime && d in chunks && chunks[k] in chunks;
    }
  }

  lemma {:induction false} MergeAllGapped(vs: seq<VisibleInterval>, chunks: seq<FileChunk>)
    requires Ordered(vs) && Gapped(vs) && Positive(chunks) && DistinctIds(chunks) && Increasing(chunks)
    requires Ids(vs) !! IdsOf(chunks)
    ensures Ordered(MergeAll(vs, chunks)) && Gapped(MergeAll(vs, chunks))
    ensures Ids(MergeAll(vs, chunks)) <= Ids(vs) + IdsOf(chunks)
  {
    if chunks != [] {
      var k := |chunks| - 1;
      var c, ws := chunks[k], MergeAll(vs, chunks[..k]);
      assert c in chunks && forall d :: d in chunks[..k] ==> d in chunks;
      LastIdNew(chunks);
      MergeAllGapped(vs, chunks[..k]);
      assert forall n :: n in ws ==> n.fileId in Ids(ws);
      MergeOwner(ws, c, 0);
      MergeGapped(ws, c);
      MergeFrom(ws, c);
    }
  }

  /** The whole front of the chunk that shows at p, up to p, shows. */
  ghost predicate FrontShows(chunks: seq<FileChunk>, p: int) {
    var c := Newest(chunks, p);
    c.Some? ==> forall q :: c.value.offset <= q <= p ==> Newest(chunks, q) == c
  }

  /** Intervals that show the newest chunk everywhere, as merging leaves them. */
  ghost predicate Shown(vs: seq<VisibleInterval>, chunks: seq<FileChunk>) {
    Ordered(vs) && Gapped(vs) && forall p :: Owner(vs, p) == NewestId(chunks, p)
  }

  /** A view reads the right place exactly when no newer chunk hides the front of the chunk shown at p. */
  lemma AddressRight(vs: seq<VisibleInterval>, chunks: seq<FileChunk>, p: int)
    requires Shown(vs, chunks) && DistinctIds(chunks)
    ensures Address(vs, p) == WrittenAt(chunks, p) <==> FrontShows(chunks, p)
  {
    assert Owner(vs, p) == NewestId(chunks, p);
    if Newest(chunks, p).Some? {
      var c := Newest(chunks, p).value;
      var i :| 0 <= i < |vs| && vs[i].Covers(p) && Address(vs, p) == Some((vs[i].fileId, p - vs[i].start));
      OwnerIn(vs, i, p);
      InChunk(vs, chunks, i, c);
      if vs[i].start == c.offset {
        forall q | c.offset <= q <= p ensures Newest(chunks, q) == Some(c) {
          ShownIs(vs, chunks, i, q, c);
        }
      } else {
        FrontGone(vs, chunks, i, c);
      }
    }
  }

  /** Every position of an interval shows the chunk with its id. */
  lemma ShownIs(vs: seq<VisibleInterval>, chunks: seq<FileChunk>, i: int, q: int, c: FileChunk)
    requires Shown(vs, chunks) && DistinctIds(chunks) && c in chunks
    requires 0 <= i < |vs| && vs[i].Covers(q) && vs[i].fileId == c.fileId
    ensures Newest(chunks, q) == Some(c)
  {
    assert Owner(vs, q) == NewestId(chunks, q);
    OwnerIn(vs, i, q);
  }

  /** An interval lies within its chunk. */
  lemma InChunk(vs: seq<VisibleInterval>, chunks: seq<FileChunk>, i: int, c: FileChunk)
    requires Shown(vs, chunks) && DistinctIds(chunks) && c in chunks
    requires 0 <= i < |vs| && vs[i].fileId == c.fileId
    ensures c.offset <= vs[i].start && vs[i].stop <= c.Stop()
  {
    ShownIs(vs, chunks, i, vs[i].start, c);
    ShownIs(vs, chunks, i, vs[i].stop - 1, c);
  }

  /** No interval of the same chunk ends right where another one starts. */
  lemma GapBefore(vs: seq<VisibleInterval>, i: int, q: int)
    requires Ordered(vs) && Gapped(vs) && 0 <= i < |vs| && q == vs[i].start - 1
    ensures Owner(vs, q) != Some(vs[i].fileId)
  {
    forall j | 0 <= j < |vs| && vs[j].Covers(q) ensures vs[j].fileId != vs[i].fileId {
      assert vs[j] in vs && vs[i] in vs && vs[j] != vs[i];
    }
  }

  /** The position before an interval does not show its chunk. */
  lemma FrontGone(vs: seq<VisibleInterval>, chunks: seq<FileChunk>, i: int, c: FileChunk)
    requires Shown(vs, chunks) && 0 <= i < |vs| && vs[i].fileId == c.fileId
    ensures Newest(chunks, vs[i].start - 1) != Some(c)
  {
    var q := vs[i].start - 1;
    assert Owner(vs, q) == NewestId(chunks, q);
    GapBefore(vs, i, q);
  }

  lemma VisibleOfShown(chunks: seq<FileChunk>)
    requires DistinctTimes(chunks) && Positive(chunks) && DistinctIds(chunks)
    ensures Shown(VisibleOf(chunks), chunks)
  {
    SortedGapped(chunks);
    VisibleOwner(chunks, 0);
    forall p ensures Owner(VisibleOf(chunks), p) == NewestId(chunks, p) {
      VisibleOwner(chunks, p);
    }
  }

  lemma SortedGapped(chunks: seq<FileChunk>)
    requires DistinctTimes(chunks) && Positive(chunks) && DistinctIds(chunks)
    ensures Gapped(VisibleOf(chunks))
  {
    SortIncreasing(chunks);
    SortMembers(chunks);
    MergeAllGapped([], SortByTime(chunks));
  }

  /** A chunk overwritten at its front is read from the wrong place behind the overwritten part. */
  lemma FrontOverwritten()
    ensures
      var chunks := [FileChunk(1, 0, 10, 1, false), FileChunk(2, 0, 5, 2, false)];
      Address(VisibleOf(chunks), 7) != WrittenAt(chunks, 7)
  {
    var a, b := FileChunk(1, 0, 10, 1, false), FileChunk(2, 0, 5, 2, false);
    var chunks := [a, b];
    NewestIs(chunks, 7, a);
    NewestIs(chunks, 0, b);
    VisibleOfShown(chunks);
    AddressRight(VisibleOf(chunks), chunks, 7);
  }

  lemma ShownIds(vs: seq<VisibleInterval>, chunks: seq<FileChunk>)
    requires Shown(vs, chunks)
    ensures Ids(vs) <= IdsOf(chunks)
  {
    forall v | v in vs ensures v.fileId in IdsOf(chunks) {
      var i :| 0 <= i < |vs| && vs[i] == v;
      OwnerIn(vs, i, v.start);
      assert Owner(vs, v.start) == NewestId(chunks, v.start);
    }
  }

  /** Laying newer chunks with new ids over intervals that show a list shows the longer list. */
  lemma MergeAllShown(vs: seq<VisibleInterval>, chunks: seq<FileChunk>, added: seq<FileChunk>)
    requires Shown(vs, chunks) && Older(chunks, added) && Increasing(added) && Positive(added) && DistinctIds(added)
    requires IdsOf(chunks) !! IdsOf(added)
    ensures Shown(MergeAll(vs, added), chunks + added)
  {
    ShownIds(vs, chunks);
    MergeAllGapped(vs, added);
    forall p ensures Owner(MergeAll(vs, added), p) == NewestId(chunks + added, p) {
      MergeAllOwner(vs, added, p);
      NewestConcat(chunks, added, p);
      assert Owner(vs, p) == NewestId(chunks, p);
    }
  }
}
