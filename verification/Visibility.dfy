/** The visible intervals of a whole chunk list, their incremental update, and compaction. */
module Visibility {
  import opened Common
  import opened Chunks
  import opened Visibles

  // ----- sorting by modification time -----

  function InsertByTime(s: seq<FileChunk>, c: FileChunk): seq<FileChunk> {
    if s == [] || s[|s|-1].mtime <= c.mtime then s + [c]
    else InsertByTime(s[..|s|-1], c) + [s[|s|-1]]
  }

  function SortByTime(s: seq<FileChunk>): seq<FileChunk> {
    if s == [] then [] else InsertByTime(SortByTime(s[..|s|-1]), s[|s|-1])
  }

  ghost predicate Increasing(s: seq<FileChunk>) {
    forall i, j :: 0 <= i < j < |s| ==> s[i].mtime < s[j].mtime
  }

  ghost predicate Positive(s: seq<FileChunk>) {
    forall c :: c in s ==> c.size > 0
  }

  lemma {:induction false} InsertByTimeBag(s: seq<FileChunk>, c: FileChunk)
    ensures multiset(InsertByTime(s, c)) == multiset(s) + multiset{c}
  {
    if s != [] && s[|s|-1].mtime > c.mtime {
      InsertByTimeBag(s[..|s|-1], c);
      assert s == s[..|s|-1] + [s[|s|-1]];
    }
  }

  lemma {:induction false} SortBag(s: seq<FileChunk>)
    ensures multiset(SortByTime(s)) == multiset(s)
  {
    if s != [] {
      var init, c := s[..|s|-1], s[|s|-1];
      assert SortByTime(s) == InsertByTime(SortByTime(init), c) && s == init + [c];
      hide *;
      SortBag(init);
      InsertByTimeBag(SortByTime(init), c);
    }
  }

  lemma SortMembers(s: seq<FileChunk>)
    ensures forall c :: c in SortByTime(s) <==> c in s
  {
    SortBag(s);
    forall c ensures c in SortByTime(s) <==> c in s {
      assert c in s <==> c in multiset(s);
      assert c in SortByTime(s) <==> c in multiset(SortByTime(s));
    }
  }

  lemma {:induction false} InsertByTimeIncreasing(s: seq<FileChunk>, c: FileChunk)
    requires Increasing(s) && forall d :: d in s ==> d.mtime != c.mtime
    ensures Increasing(InsertByTime(s, c))
    ensures forall d :: d in InsertByTime(s, c) ==> d in s || d == c
  {
    var k := |s| - 1;
    if s == [] || s[k].mtime <= c.mtime {
      forall i | 0 <= i < |s| ensures s[i].mtime < c.mtime {
        assert s[k] in s && (i < k ==> s[i].mtime < s[k].mtime);
      }
    } else {
      InsertByTimeIncreasing(s[..k], c);
      var t := InsertByTime(s[..k], c);
      forall i | 0 <= i < |t| ensures t[i].mtime < s[k].mtime {
        assert t[i] in t;
        if t[i] in s[..k] {
          var j :| 0 <= j < k && s[j] == t[i];
        }
      }
    }
  }

  lemma {:induction false} SortIncreasing(s: seq<FileChunk>)
    requires DistinctTimes(s)
    ensures Increasing(SortByTime(s))
  {
    if s != [] {
      var k := |s| - 1;
      SortIncreasing(s[..k]);
      SortMembers(s[..k]);
      forall d | d in SortByTime(s[..k]) ensures d.mtime != s[k].mtime {
        var j :| 0 <= j < k && s[j] == d;
      }
      InsertByTimeIncreasing(SortByTime(s[..k]), s[k]);
    }
  }

  lemma LastSame(a: seq<FileChunk>, b: seq<FileChunk>)
    requires Increasing(a) && Increasing(b) && multiset(a) == multiset(b) && a != []
    ensures |a| == |b| && a[|a|-1] == b[|b|-1]
  {
    assert |a| == |multiset(a)| == |multiset(b)| == |b|;
    var x, y := a[|a|-1], b[|b|-1];
    assert x in multiset(b) && y in multiset(a);
    var i :| 0 <= i < |b| && b[i] == x;
    var j :| 0 <= j < |a| && a[j] == y;
    assert i < |b| - 1 ==> x.mtime < y.mtime;
    assert j < |a| - 1 ==> y.mtime < x.mtime;
  }

  lemma InitBag(a: seq<FileChunk>)
    requires a != []
    ensures multiset(a) == multiset(a[..|a|-1]) + multiset{a[|a|-1]}
  {
    assert a == a[..|a|-1] + [a[|a|-1]];
  }

  lemma InitsSame(a: seq<FileChunk>, b: seq<FileChunk>)
    requires a != [] && |a| == |b| && multiset(a) == multiset(b) && a[|a|-1] == b[|b|-1]
    ensures multiset(a[..|a|-1]) == multiset(b[..|b|-1])
  {
    InitBag(a);
    InitBag(b);
    var x := multiset{a[|a|-1]};
    assert multiset(a[..|a|-1]) == multiset(a) - x && multiset(b[..|b|-1]) == multiset(b) - x;
  }

  lemma SameByParts(a: seq<FileChunk>, b: seq<FileChunk>)
    requires a != [] && |a| == |b| && a[|a|-1] == b[|b|-1] && a[..|a|-1] == b[..|b|-1]
    ensures a == b
  {
    assert a == a[..|a|-1] + [a[|a|-1]] && b == b[..|b|-1] + [b[|b|-1]];
  }

  /** Only one arrangement is in order of time, so it does not matter how the sort works. */
  lemma {:induction false} SortUnique(a: seq<FileChunk>, b: seq<FileChunk>)
    requires Increasing(a) && Increasing(b) && multiset(a) == multiset(b)
    ensures a == b
  {
    if a == [] {
      assert |b| == |multiset(b)| == |multiset(a)| == 0;
    } else {
      LastSame(a, b);
      InitsSame(a, b);
      SortUnique(a[..|a|-1], b[..|b|-1]);
      SameByParts(a, b);
    }
  }

  lemma {:induction false} InsertAfterOlder(a: seq<FileChunk>, s: seq<FileChunk>, c: FileChunk)
    requires forall d :: d in a ==> d.mtime < c.mtime
    ensures InsertByTime(a + s, c) == a + InsertByTime(s, c)
  {
    if s == [] {
      assert a + s == a;
      assert a != [] ==> a[|a|-1] in a;
    } else if s[|s|-1].mtime > c.mtime {
      var k := |s| - 1;
      assert (a + s)[..|a + s|-1] == a + s[..k];
      InsertAfterOlder(a, s[..k], c);
      assert a + InsertByTime(s[..k], c) + [s[k]] == a + (InsertByTime(s[..k], c) + [s[k]]);
    } else {
      assert a + s + [c] == a + (s + [c]);
    }
  }

  lemma {:induction false} SortConcat(a: seq<FileChunk>, b: seq<FileChunk>)
    requires Older(a, b)
    ensures SortByTime(a + b) == SortByTime(a) + SortByTime(b)
  {
    if b == [] {
      assert a + b == a;
    } else {
      var k := |b| - 1;
      assert (a + b)[..|a + b|-1] == a + b[..k];
      assert forall y :: y in b[..k] ==> y in b;
      SortConcat(a, b[..k]);
      SortMembers(a);
      InsertAfterOlder(SortByTime(a), SortByTime(b[..k]), b[k]);
    }
  }

  // ----- the visible intervals of a chunk list -----

  /** The chunks laid one after the other over vs. */
  function MergeAll(vs: seq<VisibleInterval>, chunks: seq<FileChunk>): seq<VisibleInterval> {
    if chunks == [] then vs else Merge(MergeAll(vs, chunks[..|chunks|-1]), chunks[|chunks|-1])
  }

  function VisibleOf(chunks: seq<FileChunk>): seq<VisibleInterval> {
    MergeAll([], SortByTime(chunks))
  }

  method NonOverlappingVisibleIntervals(dataChunks: seq<FileChunk>) returns (visibles: seq<VisibleInterval>)
    ensures visibles == VisibleOf(dataChunks)
  {
    visibles := MergeChunks([], dataChunks);
  }

  /** Sorts the chunks and merges them one by one, swapping the two buffers. */
  method MergeChunks(vs: seq<VisibleInterval>, chunks: seq<FileChunk>) returns (visibles: seq<VisibleInterval>)
    ensures visibles == MergeAll(vs, SortByTime(chunks))
  {
    var sorted := SortByTime(chunks);
    visibles := vs;
    for i := 0 to |sorted|
      invariant visibles == MergeAll(vs, sorted[..i])
    {
      assert sorted[..i+1][..i] == sorted[..i];
      visibles := MergeIntoVisibles(visibles, sorted[i]);
    }
    assert sorted[..|sorted|] == sorted;
  }

  function NewestId(chunks: seq<FileChunk>, p: int): Option<FileId> {
    match Newest(chunks, p)
    case None => None
    case Some(c) => Some(c.fileId)
  }

  lemma NewestSnoc(chunks: seq<FileChunk>, p: int)
    requires Increasing(chunks) && chunks != []
    ensures
      var k := |chunks| - 1;
      Newest(chunks, p) == if chunks[k].Covers(p) then Some(chunks[k]) else Newest(chunks[..k], p)
  {
    var k := |chunks| - 1;
    var rest := Newest(chunks[..k], p);
    if rest.Some? {
      var j :| 0 <= j < k && chunks[j] == rest.value;
      assert chunks[j].mtime < chunks[k].mtime;
    }
  }

  lemma {:induction false} MergeAllOwner(vs: seq<VisibleInterval>, chunks: seq<FileChunk>, p: int)
    requires Ordered(vs) && Increasing(chunks) && Positive(chunks)
    ensures Ordered(MergeAll(vs, chunks))
    ensures Owner(MergeAll(vs, chunks), p) == if NewestId(chunks, p).Some? then NewestId(chunks, p) else Owner(vs, p)
  {
    if chunks != [] {
      var k := |chunks| - 1;
      assert forall c :: c in chunks[..k] ==> c in chunks;
      MergeAllOwner(vs, chunks[..k], p);
      assert chunks[k] in chunks;
      MergeOwner(MergeAll(vs, chunks[..k]), chunks[k], p);
      NewestSnoc(chunks, p);
    }
  }

  /** The visible intervals are ordered, and at every position the owner is the newest chunk covering it. */
  lemma VisibleOwner(chunks: seq<FileChunk>, p: int)
    requires DistinctTimes(chunks) && Positive(chunks)
    ensures Ordered(VisibleOf(chunks))
    ensures Owner(VisibleOf(chunks), p) == NewestId(chunks, p)
  {
    var s := SortByTime(chunks);
    SortIncreasing(chunks);
    SortMembers(chunks);
    MergeAllOwner([], s, p);
    NewestSameSet(s, chunks, p);
  }

  // ----- the cached intervals of an open file -----

  lemma {:induction false} MergeAllConcat(vs: seq<VisibleInterval>, a: seq<FileChunk>, b: seq<FileChunk>)
    ensures MergeAll(vs, a + b) == MergeAll(MergeAll(vs, a), b)
  {
    if b == [] {
      assert a + b == a;
    } else {
      assert (a + b)[..|a + b|-1] == a + b[..|b|-1];
      MergeAllConcat(vs, a, b[..|b|-1]);
    }
  }

  /** Merging newer chunks into the cached intervals is recomputing them over the longer list. */
  lemma IncrementalIsRecomputed(chunks: seq<FileChunk>, added: seq<FileChunk>)
    requires Older(chunks, added)
    ensures MergeAll(VisibleOf(chunks), SortByTime(added)) == VisibleOf(chunks + added)
  {
    SortConcat(chunks, added);
    MergeAllConcat([], SortByTime(chunks), SortByTime(added));
  }

  /** Merging into an empty cache instead shows the right owner at p unless only an old chunk covers p. */
  lemma EmptyCacheOwner(chunks: seq<FileChunk>, added: seq<FileChunk>, p: int)
    requires Older(chunks, added) && DistinctTimes(chunks + added) && Positive(chunks + added)
    ensures Owner(MergeAll([], SortByTime(added)), p) == Owner(VisibleOf(chunks + added), p)
       <==> (Newest(chunks, p).Some? ==> Newest(added, p).Some?)
  {
    assert forall i :: 0 <= i < |added| ==> added[i] == (chunks + added)[|chunks| + i];
    assert forall c :: c in added ==> c in chunks + added;
    VisibleOwner(added, p);
    VisibleOwner(chunks + added, p);
    NewestConcat(chunks, added, p);
  }

  // ----- compaction -----

  function Ids(vs: seq<VisibleInterval>): set<FileId> {
    set v | v in vs :: v.fileId
  }

  function Keep(chunks: seq<FileChunk>, ids: set<FileId>): seq<FileChunk> {
    if chunks == [] then []
    else if chunks[|chunks|-1].fileId in ids then Keep(chunks[..|chunks|-1], ids) + [chunks[|chunks|-1]]
    else Keep(chunks[..|chunks|-1], ids)
  }

  function Drop(chunks: seq<FileChunk>, ids: set<FileId>): seq<FileChunk> {
    if chunks == [] then []
    else if chunks[|chunks|-1].fileId in ids then Drop(chunks[..|chunks|-1], ids)
    else Drop(chunks[..|chunks|-1], ids) + [chunks[|chunks|-1]]
  }

  /** Splits the chunks by whether one of the intervals has their file id. */
  method SplitChunks(chunks: seq<FileChunk>, visibles: seq<VisibleInterval>)
    returns (compacted: seq<FileChunk>, garbage: seq<FileChunk>)
    ensures compacted == Keep(chunks, Ids(visibles)) && garbage == Drop(chunks, Ids(visibles))
  {
    var fileIds: set<FileId> := {};
    for i := 0 to |visibles|
      invariant fileIds == Ids(visibles[..i])
    {
      assert visibles[..i+1] == visibles[..i] + [visibles[i]];
      fileIds := fileIds + {visibles[i].fileId};
    }
    assert visibles[..|visibles|] == visibles;
    compacted, garbage := [], [];
    for i := 0 to |chunks|
      invariant compacted == Keep(chunks[..i], fileIds) && garbage == Drop(chunks[..i], fileIds)
    {
      assert chunks[..i+1][..i] == chunks[..i];
      if chunks[i].fileId in fileIds {
        compacted := compacted + [chunks[i]];
      } else {
        garbage := garbage + [chunks[i]];
      }
    }
    assert chunks[..|chunks|] == chunks;
  }

  /** Splits the chunks by whether their file id shows anywhere among `dataChunks`' intervals. */
  method CompactFileChunks(chunks: seq<FileChunk>, dataChunks: seq<FileChunk>)
    returns (compacted: seq<FileChunk>, garbage: seq<FileChunk>)
    ensures compacted == Keep(chunks, Ids(VisibleOf(dataChunks)))
    ensures garbage == Drop(chunks, Ids(VisibleOf(dataChunks)))
  {
    var visibles := NonOverlappingVisibleIntervals(dataChunks);
    compacted, garbage := SplitChunks(chunks, visibles);
  }

  lemma {:induction false} KeepMembers(chunks: seq<FileChunk>, ids: set<FileId>, c: FileChunk)
    ensures c in Keep(chunks, ids) <==> c in chunks && c.fileId in ids
    ensures c in Drop(chunks, ids) <==> c in chunks && c.fileId !in ids
  {
    if chunks != [] {
      var k := |chunks| - 1;
      assert chunks == chunks[..k] + [chunks[k]];
      KeepMembers(chunks[..k], ids, c);
    }
  }

  lemma {:induction false} KeepCount(chunks: seq<FileChunk>, ids: set<FileId>)
    ensures |Keep(chunks, ids)| <= |chunks|
  {
    if chunks != [] {
      KeepCount(chunks[..|chunks|-1], ids);
    }
  }

  lemma {:induction false} KeepAll(chunks: seq<FileChunk>, ids: set<FileId>)
    requires forall c :: c in chunks ==> c.fileId in ids
    ensures Keep(chunks, ids) == chunks
  {
    if chunks != [] {
      assert chunks[|chunks|-1] in chunks;
      KeepAll(chunks[..|chunks|-1], ids);
    }
  }

  /** Nothing is lost or doubled. */
  lemma {:induction false} CompactPartition(chunks: seq<FileChunk>, ids: set<FileId>)
    ensures multiset(Keep(chunks, ids)) + multiset(Drop(chunks, ids)) == multiset(chunks)
  {
    if chunks != [] {
      InitBag(chunks);
      CompactPartition(chunks[..|chunks|-1], ids);
    }
  }

  /** Each half keeps the order of the list. */
  lemma {:induction false} CompactInOrder(a: seq<FileChunk>, b: seq<FileChunk>, ids: set<FileId>)
    ensures Keep(a + b, ids) == Keep(a, ids) + Keep(b, ids)
    ensures Drop(a + b, ids) == Drop(a, ids) + Drop(b, ids)
  {
    if b == [] {
      assert a + b == a;
    } else {
      assert (a + b)[..|a + b|-1] == a + b[..|b|-1];
      CompactInOrder(a, b[..|b|-1], ids);
    }
  }

  /** A file id is among the intervals exactly when it owns a position. */
  lemma IdsOwn(vs: seq<VisibleInterval>, id: FileId)
    requires Ordered(vs)
    ensures id in Ids(vs) <==> exists p :: Owner(vs, p) == Some(id)
  {
    if id in Ids(vs) {
      var v :| v in vs && v.fileId == id;
      assert v.Covers(v.start);
      OwnerShows(vs, v.start, id);
    }
    if p :| Owner(vs, p) == Some(id) {
      OwnerShows(vs, p, id);
    }
  }

  /** The newest chunk at every position survives compaction, and garbage owns no position. */
  lemma CompactKeepsNewest(chunks: seq<FileChunk>, p: int)
    requires DistinctTimes(chunks) && Positive(chunks)
    ensures Newest(Keep(chunks, Ids(VisibleOf(chunks))), p) == Newest(chunks, p)
    ensures forall g :: g in Drop(chunks, Ids(VisibleOf(chunks))) ==> NewestId(chunks, p) != Some(g.fileId)
  {
    var vs := VisibleOf(chunks);
    var kept := Keep(chunks, Ids(vs));
    VisibleOwner(chunks, p);
    forall c ensures c in kept <==> c in chunks && c.fileId in Ids(vs) {
      KeepMembers(chunks, Ids(vs), c);
    }
    if Newest(chunks, p).Some? {
      var c := Newest(chunks, p).value;
      IdsOwn(vs, c.fileId);
      KeptDistinct(chunks, Ids(vs));
      NewestIs(kept, p, c);
    }
    forall g | g in Drop(chunks, Ids(vs)) ensures NewestId(chunks, p) != Some(g.fileId) {
      KeepMembers(chunks, Ids(vs), g);
      IdsOwn(vs, g.fileId);
    }
  }

  lemma {:induction false} KeptDistinct(chunks: seq<FileChunk>, ids: set<FileId>)
    requires DistinctTimes(chunks)
    ensures DistinctTimes(Keep(chunks, ids))
  {
    if chunks != [] {
      var k := |chunks| - 1;
      KeptDistinct(chunks[..k], ids);
      var a := Keep(chunks[..k], ids);
      forall i | 0 <= i < |a| ensures a[i].mtime != chunks[k].mtime {
        KeepMembers(chunks[..k], ids, a[i]);
        var j :| 0 <= j < k && chunks[j] == a[i];
      }
    }
  }

  /** Recomputing the visible intervals from the compacted list gives the same owner everywhere. */
  lemma CompactKeepsOwners(chunks: seq<FileChunk>, p: int)
    requires DistinctTimes(chunks) && Positive(chunks)
    ensures Owner(VisibleOf(Keep(chunks, Ids(VisibleOf(chunks)))), p) == Owner(VisibleOf(chunks), p)
  {
    var kept := Keep(chunks, Ids(VisibleOf(chunks)));
    KeptDistinct(chunks, Ids(VisibleOf(chunks)));
    forall c | c in kept ensures c.size > 0 {
      KeepMembers(chunks, Ids(VisibleOf(chunks)), c);
    }
    CompactKeepsNewest(chunks, p);
    VisibleOwner(kept, p);
    VisibleOwner(chunks, p);
  }
}
