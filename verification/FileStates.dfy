/**
 The states of an open file as values, and what each operation does to them.  The file handle's methods are proved to
 take these steps; what a step keeps and loses is stated here for every position.
 */
module FileStates {
  import opened Common
  import opened Chunks
  import opened Runs
  import opened Visibles
  import opened Visibility
  import opened Addresses
  import opened Manifests
  import opened DirtyPages

  /** The blobs that are not deleted or are held in a cache. */
  function Available(blobs: Blobs, deleted: set<FileId>, inCache: set<FileId>): (have: Blobs)
    ensures Grew(have, blobs)
  {
    blobs - (deleted - inCache)
  }

  /**
   The dirty runs, the entry's list, the list the filer has, the data chunks behind the entry's list, the chunks the
   cached intervals were made of, all blobs ever written and the ids of those that are deleted.
   */
  datatype State = State(runs: seq<Run>, chunks: seq<FileChunk>, stored: seq<FileChunk>, data: seq<FileChunk>,
                         cached: seq<FileChunk>, blobs: Blobs, deleted: set<FileId>, dirty: bool, mergeFactor: nat)
  {
    function Live(): Blobs {
      blobs - deleted
    }

    /** The blobs that reads can have when the chunk cache holds some. */
    function Within(inCache: set<FileId>): Blobs {
      Available(blobs, deleted, inCache)
    }

    /** The byte last written at p, whether or not its blob is still there. */
    ghost function Written(p: int): Option<byte> {
      Seen(runs, cached, blobs, p)
    }

    /** The byte at p that reads are served from: the dirty one, else the one of the newest cached chunk. */
    ghost function Served(p: int): Option<byte> {
      Seen(runs, cached, Live(), p)
    }

    /** The file's content at p: the dirty byte, else the one of the newest chunk behind the entry's list. */
    ghost function Content(p: int): Option<byte> {
      Seen(runs, data, Live(), p)
    }

    /** There is something to store. */
    predicate Dirty() {
      dirty || runs != []
    }

    /** The blob of the chunk that reads show at p is there. */
    ghost predicate Present(p: int) {
      Lookup(runs, p).Some? || (Newest(cached, p).Some? ==> Newest(cached, p).value.fileId !in deleted)
    }

    /** Entry and cached chunks agree on what shows at p. */
    ghost predicate Whole(p: int) {
      Lookup(runs, p).Some? || Newest(data, p) == Newest(cached, p)
    }
  }

  ghost predicate GoodState(s: State) {
    && s.mergeFactor > 0 && s.deleted <= s.blobs.Keys
    && AllUploaded(s.cached, s.blobs) && DistinctTimes(s.cached) && DistinctIds(s.cached) && AllData(s.cached)
    && DistinctTimes(s.data) && (forall c :: c in s.data ==> c in s.cached)
    && (forall c :: c in s.chunks && !c.isManifest ==> c in s.data) && (AllData(s.chunks) ==> s.data == s.chunks)
    && (forall c :: c in s.stored && !c.isManifest ==> c in s.cached)
    && (forall m, c :: (m in s.chunks || m in s.stored) && m.isManifest && c in s.cached ==> m.fileId != c.fileId)
    && (forall c, p :: c in s.stored && Newest(s.cached, p) == Some(c) ==> c in s.chunks)
  }

  /** Reads are served the byte last written where its blob is there, and nothing elsewhere. */
  lemma ServedIs(s: State, p: int)
    requires GoodState(s)
    ensures s.Served(p) == if s.Present(p) then s.Written(p) else None
    ensures s.Whole(p) ==> s.Content(p) == s.Served(p)
  {
    if Newest(s.cached, p).Some? {
      assert Uploaded(Newest(s.cached, p).value, s.blobs);
    }
  }

  // ----- taking in a write -----

  ghost function Added(s: State, t: State): seq<FileChunk>
    requires s.chunks <= t.chunks
  {
    t.chunks[|s.chunks|..]
  }

  /** The run is written over the buffer; what does not fit, or all of it, is uploaded and taken into the entry. */
  ghost predicate Takes(s: State, r: Run, t: State) {
    && s.chunks <= t.chunks && GoodState(t)
    && var added := Added(s, t);
       && t == s.(runs := t.runs, chunks := t.chunks, data := s.data + added, cached := s.cached + added,
                  blobs := t.blobs, dirty := t.dirty)
       && Grew(s.blobs, t.blobs) && t.blobs.Keys == s.blobs.Keys + IdsOf(added)
       && AllUploaded(added, t.blobs) && AllData(added)
       && (forall c :: c in added ==> c.fileId !in s.blobs) && Older(s.cached, added)
       && SeenAfter(s.runs, r, t.runs, added, t.blobs)
       && |added| + |t.runs| <= |s.runs| + (if r.bytes == [] then 0 else 1)
       && (t.Dirty() <==> s.Dirty() || r.bytes != [])
  }

  /** A new chunk or dirty byte is where the run or dirty bytes lie; elsewhere the old newest chunks stay the newest. */
  lemma TakenAt(s: State, r: Run, t: State, p: int)
    requires GoodState(s) && Takes(s, r, t)
    ensures
      var added := Added(s, t);
      && (Lookup(t.runs, p).Some? || Newest(added, p).Some? <==> r.Covers(p) || Lookup(s.runs, p).Some?)
      && Newest(t.cached, p) == (if Newest(added, p).Some? then Newest(added, p) else Newest(s.cached, p))
      && Newest(t.data, p) == (if Newest(added, p).Some? then Newest(added, p) else Newest(s.data, p))
      && (Newest(added, p).Some? ==> Newest(added, p).value.fileId !in s.deleted
                                     && Uploaded(Newest(added, p).value, t.blobs))
  {
    var added := Added(s, t);
    NewestConcat(s.cached, added, p);
    NewestConcat(s.data, added, p);
    assert Newest(added, p).Some? ==> Newest(added, p).value in added && Uploaded(Newest(added, p).value, t.blobs);
    assert Seen(t.runs, added, t.blobs, p) == if r.Covers(p) then Some(r.At(p)) else Lookup(s.runs, p);
  }

  /** The byte of an old chunk is where it was. */
  lemma SameByte(s: State, t: State, c: FileChunk, p: int)
    requires GoodState(s) && Grew(s.blobs, t.blobs) && t.deleted == s.deleted && c in s.cached
    ensures ChunkByte(t.blobs, c, p) == ChunkByte(s.blobs, c, p)
    ensures ChunkByte(t.Live(), c, p) == ChunkByte(s.Live(), c, p)
  {
    assert Uploaded(c, s.blobs);
  }

  /** What the run covers holds its bytes everywhere; elsewhere nothing changes. */
  lemma TakesLaws(s: State, r: Run, t: State, p: int)
    requires GoodState(s) && Takes(s, r, t)
    ensures t.Written(p) == if r.Covers(p) then Some(r.At(p)) else s.Written(p)
    ensures t.Served(p) == if r.Covers(p) then Some(r.At(p)) else s.Served(p)
    ensures t.Content(p) == if r.Covers(p) then Some(r.At(p)) else s.Content(p)
    ensures t.Present(p) <==> r.Covers(p) || s.Present(p)
    ensures t.Whole(p) <==> r.Covers(p) || s.Whole(p)
  {
    var added := Added(s, t);
    TakenAt(s, r, t, p);
    assert Seen(t.runs, added, t.blobs, p) == if r.Covers(p) then Some(r.At(p)) else Lookup(s.runs, p);
    if Newest(s.cached, p).Some? {
      SameByte(s, t, Newest(s.cached, p).value, p);
    }
    if Newest(s.data, p).Some? {
      SameByte(s, t, Newest(s.data, p).value, p);
    }
  }

  /** All dirty runs are uploaded, each as a chunk of its own. */
  ghost predicate Pages(s: State, t: State) {
    Takes(s, Run(0, []), t) && t.runs == [] && |Added(s, t)| == |s.runs| && Disjoint(Added(s, t))
  }

  // ----- storing the entry -----

  /** The listed chunks that show: what compaction keeps. */
  ghost function KeptOf(s: State): seq<FileChunk> {
    Keep(s.chunks, Ids(VisibleOf(s.data)))
  }

  /** Neither the mount nor the filer can save a manifest for every full batch of n chunks, and the filer refuses. */
  predicate Fails(n: nat, mergeFactor: nat, saves: nat, filerSaves: nat)
    requires mergeFactor > 0
  {
    n / mergeFactor > saves && n / mergeFactor > filerSaves
  }

  /**
   The entry is compacted, bundled by the mount or else by the filer, and stored.  What the filer's list named before
   and does not name any more is deleted, and so are the listed chunks that were dropped.  When the filer refuses, only
   the entry's own list changes.
   */
  ghost predicate Stores(s: State, saves: nat, filerSaves: nat, t: State)
    requires s.mergeFactor > 0
  {
    var kept, n, f := KeptOf(s), |KeptOf(s)|, s.mergeFactor;
    var rest := kept[Batched(n, f)..];
    && s.runs == [] && s.dirty && GoodState(t)
    && t == s.(chunks := t.chunks, stored := t.stored, data := kept, deleted := t.deleted, dirty := t.dirty)
    && DataOf(t.chunks) == (if n / f <= saves then rest else kept) && (n < f ==> t.chunks == kept)
    && if Fails(n, f, saves, filerSaves) then t.stored == s.stored && t.deleted == s.deleted && t.dirty
       else
         && !t.dirty && DataOf(t.stored) == rest && (n / f <= saves ==> t.stored == t.chunks)
         && forall c :: c in s.cached ==>
              (c.fileId in t.deleted
               <==> c.fileId in s.deleted || (c in s.chunks && c !in kept) || (c in s.stored && c !in rest))
  }

  lemma GoodData(s: State)
    requires GoodState(s)
    ensures Positive(s.data) && DistinctIds(s.data) && AllUploaded(s.data, s.blobs)
  {}

  /** A listed chunk is kept exactly when it is the newest somewhere. */
  lemma KeptIs(s: State, c: FileChunk)
    requires GoodState(s) && c in s.cached
    ensures c in KeptOf(s) <==> c in s.chunks && exists p :: Newest(s.data, p) == Some(c)
  {
    var vs := VisibleOf(s.data);
    GoodData(s);
    KeepMembers(s.chunks, Ids(vs), c);
    VisibleOwner(s.data, 0);
    IdsOwn(vs, c.fileId);
    if c in s.chunks && c.fileId in Ids(vs) {
      var p :| Owner(vs, p) == Some(c.fileId);
      VisibleOwner(s.data, p);
      assert Newest(s.data, p) == Some(c);
    }
    if p :| Newest(s.data, p) == Some(c) {
      VisibleOwner(s.data, p);
    }
  }

  lemma KeptMembers(s: State, c: FileChunk)
    requires GoodState(s) && c in KeptOf(s)
    ensures c in s.chunks && c in s.data && !c.isManifest
  {
    var vs := VisibleOf(s.data);
    GoodData(s);
    KeepMembers(s.chunks, Ids(vs), c);
    VisibleOwner(s.data, 0);
    IdsOwn(vs, c.fileId);
    var p :| Owner(vs, p) == Some(c.fileId);
    VisibleOwner(s.data, p);
    assert Newest(s.data, p).value.fileId == c.fileId;
  }

  /** The newest data chunk at p stays the newest exactly when it is listed. */
  lemma KeptNewest(s: State, p: int)
    requires GoodState(s)
    ensures
      var shown := Newest(s.data, p);
      Newest(KeptOf(s), p) == shown <==> (shown.Some? ==> shown.value in s.chunks)
  {
    forall c | c in KeptOf(s) ensures c in s.chunks && c in s.data {
      KeptMembers(s, c);
    }
    if Newest(s.data, p).Some? && Newest(s.data, p).value in s.chunks {
      var c := Newest(s.data, p).value;
      KeptIs(s, c);
      NewestAmong(KeptOf(s), s.data, p, c);
    }
  }

  /** The newest cached chunk at p, if it is data, is the newest there too. */
  lemma CachedNewest(s: State, p: int)
    requires GoodState(s) && Newest(s.cached, p).Some? && Newest(s.cached, p).value in s.data
    ensures Newest(s.data, p) == Newest(s.cached, p)
  {
    NewestAmong(s.data, s.cached, p, Newest(s.cached, p).value);
  }

  /** Which chunks that show anywhere are deleted: those in the filer's list that are bundled now. */
  lemma StoreDeletes(s: State, saves: nat, filerSaves: nat, t: State, c: FileChunk)
    requires GoodState(s) && Stores(s, saves, filerSaves, t) && c in s.cached
    requires (exists p :: Newest(s.cached, p) == Some(c)) || c in KeptOf(s)
    ensures
      var kept, f := KeptOf(s), s.mergeFactor;
      c.fileId in t.deleted <==>
        || c.fileId in s.deleted
        || (!Fails(|kept|, f, saves, filerSaves) && c in s.stored && c in kept[..Batched(|kept|, f)])
  {
    var kept, done := KeptOf(s), Batched(|KeptOf(s)|, s.mergeFactor);
    if c !in kept {
      var p :| Newest(s.cached, p) == Some(c);
      if c in s.chunks {
        assert !c.isManifest && c in s.data;
        CachedNewest(s, p);
      }
      KeptIs(s, c);
      assert c !in s.chunks && c !in s.stored;
    }
    SplitOnce(kept, done, c);
  }

  /** Storing the entry, position by position. */
  lemma StoreLaws(s: State, saves: nat, filerSaves: nat, t: State, p: int)
    requires GoodState(s) && Stores(s, saves, filerSaves, t)
    ensures t.Written(p) == s.Written(p)
    ensures t.Whole(p) <==> s.Whole(p) && (Newest(s.data, p).Some? ==> Newest(s.data, p).value in s.chunks)
    ensures Newest(t.data, p) == Newest(s.data, p)
       <==> (Newest(s.data, p).Some? ==> Newest(s.data, p).value in s.chunks)
  {
    KeptNewest(s, p);
    if Newest(t.data, p) == Newest(s.cached, p) && Newest(s.cached, p).Some? {
      KeptMembers(s, Newest(s.cached, p).value);
      CachedNewest(s, p);
    }
  }

  // ----- a whole flush, seen from the state before it -----

  /** The ids of the data chunks that show somewhere no dirty byte lies. */
  ghost function Exposed(s: State): set<FileId> {
    set c | c in s.data && (exists p :: Newest(s.data, p) == Some(c) && Lookup(s.runs, p) == None) :: c.fileId
  }

  /** The listed chunks that still show once the dirty bytes are uploaded. */
  ghost function Remaining(s: State): seq<FileChunk> {
    Keep(s.chunks, Exposed(s))
  }

  /** How many chunks a flush will keep. */
  ghost function Count(s: State): nat {
    |Remaining(s)| + |s.runs|
  }

  /** The listed chunks that end up in the full batches. */
  ghost function Bundled(s: State): seq<FileChunk>
    requires s.mergeFactor > 0
  {
    Remaining(s)[..Min(Batched(Count(s), s.mergeFactor), |Remaining(s)|)]
  }

  /** A flush deletes the chunk though it shows: the filer's list names it and after the flush only a manifest does. */
  ghost predicate Loses(s: State, saves: nat, filerSaves: nat, c: FileChunk)
    requires s.mergeFactor > 0
  {
    s.Dirty() && !Fails(Count(s), s.mergeFactor, saves, filerSaves) && c in s.stored && c in Bundled(s)
  }

  ghost predicate Flushes(s: State, saves: nat, filerSaves: nat, t: State)
    requires s.mergeFactor > 0
  {
    if s.Dirty() then exists mid: State :: Pages(s, mid) && Stores(mid, saves, filerSaves, t)
    else t == s
  }

  /** What uploading the pages leaves alone. */
  lemma PagesParts(s: State, mid: State)
    requires GoodState(s) && Pages(s, mid)
    ensures GoodState(mid) && mid.runs == [] && mid.mergeFactor == s.mergeFactor
    ensures mid.chunks == s.chunks + Added(s, mid)
    ensures mid.stored == s.stored && mid.deleted == s.deleted && (mid.dirty <==> s.Dirty())
    ensures |Added(s, mid)| == |s.runs|
    ensures forall c :: c in s.cached ==> c in mid.cached && c !in Added(s, mid) && !c.isManifest
    ensures forall c :: c in Added(s, mid) ==> c in mid.cached && c !in s.stored && c.fileId !in s.deleted
  {
    assert forall c :: c in s.cached ==> Uploaded(c, s.blobs);
  }

  /** After the pages are uploaded an old chunk is the newest exactly where it was and nothing was dirty. */
  lemma PagesNewest(s: State, mid: State, p: int)
    requires GoodState(s) && Pages(s, mid)
    ensures Newest(Added(s, mid), p).Some? <==> Lookup(s.runs, p).Some?
    ensures Newest(mid.data, p) == (if Lookup(s.runs, p).Some? then Newest(Added(s, mid), p) else Newest(s.data, p))
    ensures Newest(mid.cached, p) == (if Lookup(s.runs, p).Some? then Newest(Added(s, mid), p) else Newest(s.cached, p))
  {
    TakenAt(s, Run(0, []), mid, p);
    assert Lookup([], p) == None;
  }

  /** Every uploaded page shows at its first byte. */
  lemma PageShows(s: State, mid: State, c: FileChunk)
    requires GoodState(s) && Pages(s, mid) && c in Added(s, mid)
    ensures c in mid.data && Newest(mid.data, c.offset) == Some(c)
  {
    hide IdsOf;
    hide GoodState;
    var added, p := Added(s, mid), c.offset;
    assert Uploaded(c, mid.blobs) && c.Covers(p);
    var n := Newest(added, p).value;
    var i :| 0 <= i < |added| && added[i] == c;
    var j :| 0 <= j < |added| && added[j] == n;
    assert i == j || i < j || j < i;
    TakenAt(s, Run(0, []), mid, p);
  }

  /** The ids that show after the upload, among the old chunks. */
  lemma ExposedIs(s: State, mid: State, c: FileChunk)
    requires GoodState(s) && Pages(s, mid) && c in s.chunks
    ensures c.fileId in Ids(VisibleOf(mid.data)) <==> c.fileId in Exposed(s)
  {
    var vs := VisibleOf(mid.data);
    GoodData(mid);
    VisibleOwner(mid.data, 0);
    IdsOwn(vs, c.fileId);
    if c.fileId in Ids(vs) {
      var p :| Owner(vs, p) == Some(c.fileId);
      VisibleOwner(mid.data, p);
      PagesNewest(s, mid, p);
      var n := Newest(mid.data, p).value;
      assert n in mid.cached;
      OldId(s, mid, c, n);
      assert n in s.data && Newest(s.data, p) == Some(n) && Lookup(s.runs, p) == None;
    }
    if c.fileId in Exposed(s) {
      var d, p :| d in s.data && Newest(s.data, p) == Some(d) && Lookup(s.runs, p) == None && d.fileId == c.fileId;
      PagesNewest(s, mid, p);
      VisibleOwner(mid.data, p);
    }
  }

  /** A new page does not have the id of a listed chunk. */
  lemma OldId(s: State, mid: State, c: FileChunk, n: FileChunk)
    requires GoodState(s) && Pages(s, mid) && c in s.chunks && n in mid.data && n.fileId == c.fileId
    ensures n in s.data && n !in Added(s, mid)
  {
    assert c in mid.chunks && n in mid.cached;
    assert !c.isManifest;
    assert c in s.cached && Uploaded(c, s.blobs);
  }

  /** The chunks a flush keeps: the listed ones that still show, then the new pages. */
  lemma PagesKept(s: State, mid: State)
    requires GoodState(s) && Pages(s, mid)
    ensures KeptOf(mid) == Remaining(s) + Added(s, mid)
  {
    PagesParts(s, mid);
    hide GoodState;
    hide Pages;
    var added, ids := Added(s, mid), Ids(VisibleOf(mid.data));
    assert KeptOf(mid) == Keep(s.chunks + added, ids) && Remaining(s) == Keep(s.chunks, Exposed(s));
    hide *;
    CompactInOrder(s.chunks, added, ids);
    forall c | c in s.chunks ensures c.fileId in ids <==> c.fileId in Exposed(s) {
      ExposedIs(s, mid, c);
    }
    KeepSame(s.chunks, ids, Exposed(s));
    forall c | c in added ensures c.fileId in ids {
      PageVisible(s, mid, c);
    }
    KeepAll(added, ids);
  }

  lemma PageVisible(s: State, mid: State, c: FileChunk)
    requires GoodState(s) && Pages(s, mid) && c in Added(s, mid)
    ensures c.fileId in Ids(VisibleOf(mid.data))
  {
    GoodData(mid);
    PageShows(s, mid, c);
    VisibleOwner(mid.data, c.offset);
    IdsOwn(VisibleOf(mid.data), c.fileId);
  }

  lemma {:induction false} KeepSame(chunks: seq<FileChunk>, a: set<FileId>, b: set<FileId>)
    requires forall c :: c in chunks ==> (c.fileId in a <==> c.fileId in b)
    ensures Keep(chunks, a) == Keep(chunks, b)
  {
    if chunks != [] {
      assert chunks[|chunks|-1] in chunks;
      KeepSame(chunks[..|chunks|-1], a, b);
    }
  }

  /** Among the old chunks the batches are the ones told from the state before. */
  lemma BundledIs(s: State, mid: State, c: FileChunk)
    requires GoodState(s) && Pages(s, mid) && c in s.stored && !c.isManifest
    ensures |KeptOf(mid)| == Count(s)
    ensures c in KeptOf(mid)[..Batched(Count(s), s.mergeFactor)] <==> c in Bundled(s)
  {
    PagesKept(s, mid);
    PagesParts(s, mid);
    assert c in s.cached;
    PrefixMember(Remaining(s), Added(s, mid), Batched(Count(s), s.mergeFactor), c);
  }

  lemma PrefixMember(a: seq<FileChunk>, b: seq<FileChunk>, k: nat, c: FileChunk)
    requires k <= |a + b| && c !in b
    ensures c in (a + b)[..k] <==> c in a[..Min(k, |a|)]
  {
    if k <= |a| {
      assert (a + b)[..k] == a[..k];
    } else {
      assert (a + b)[..k] == a + b[..k - |a|] && a[..|a|] == a;
      assert forall x :: x in b[..k - |a|] ==> x in b;
    }
  }

  /** A flush keeps the content at p: nothing is stored, or a dirty byte or a listed chunk that stays shows there. */
  ghost predicate Safe(s: State, saves: nat, filerSaves: nat, p: int)
    requires s.mergeFactor > 0
  {
    || !s.Dirty() || Lookup(s.runs, p).Some? || Newest(s.data, p) == None
    || (Newest(s.data, p).value in s.chunks && !Loses(s, saves, filerSaves, Newest(s.data, p).value))
  }

  /** What reads show at p is kept by a flush: a dirty byte, or a chunk that is not deleted. */
  ghost predicate ReadSafe(s: State, saves: nat, filerSaves: nat, p: int)
    requires s.mergeFactor > 0
  {
    Lookup(s.runs, p).Some? || (Newest(s.cached, p).Some? ==> !Loses(s, saves, filerSaves, Newest(s.cached, p).value))
  }

  /** The chunk that shows at p is listed, or nothing is stored. */
  ghost predicate Direct(s: State, p: int) {
    !s.Dirty() || Lookup(s.runs, p).Some? || (Newest(s.data, p).Some? ==> Newest(s.data, p).value in s.chunks)
  }

  /** The chunk of the entry that shows at p, when its blob is there. */
  ghost function ChunkAt(s: State, p: int): Option<FileChunk> {
    var c := Newest(s.data, p);
    if c.Some? && c.value.fileId in s.deleted then None else c
  }

  /** Old chunks that show: which of them a flush deletes. */
  lemma FlushDeletes(s: State, saves: nat, filerSaves: nat, mid: State, t: State, c: FileChunk)
    requires GoodState(s) && s.Dirty() && Pages(s, mid) && Stores(mid, saves, filerSaves, t) && c in s.cached
    requires (exists p :: Newest(mid.cached, p) == Some(c)) || c in KeptOf(mid)
    ensures c.fileId in t.deleted <==> c.fileId in s.deleted || Loses(s, saves, filerSaves, c)
  {
    assert c in mid.cached && !c.isManifest;
    StoreDeletes(mid, saves, filerSaves, t, c);
    if c in s.stored {
      BundledIs(s, mid, c);
    }
  }

  /** New pages are never deleted. */
  lemma PageStays(s: State, saves: nat, filerSaves: nat, mid: State, t: State, c: FileChunk)
    requires GoodState(s) && Pages(s, mid) && Stores(mid, saves, filerSaves, t) && c in Added(s, mid)
    ensures c in KeptOf(mid) && c.fileId !in t.deleted
  {
    PagesParts(s, mid);
    PageShows(s, mid, c);
    KeptIs(mid, c);
    StoreDeletes(mid, saves, filerSaves, t, c);
  }

  /** The steps of a flush at one position. */
  lemma FlushVia(s: State, saves: nat, filerSaves: nat, mid: State, t: State, p: int)
    requires GoodState(s) && s.Dirty() && Pages(s, mid) && Stores(mid, saves, filerSaves, t)
    ensures GoodState(t) && Lookup(t.runs, p) == None && t.Written(p) == s.Written(p)
    ensures Newest(t.cached, p) == Newest(mid.cached, p) && t.blobs == mid.blobs
    ensures Newest(t.data, p) == Newest(mid.data, p) <==> Direct(s, p)
    ensures t.Whole(p) <==> s.Whole(p) && Direct(s, p)
  {
    TakesLaws(s, Run(0, []), mid, p);
    StoreLaws(mid, saves, filerSaves, t, p);
    PagesNewest(s, mid, p);
    PagesParts(s, mid);
    assert Lookup([], p) == None;
    DirectIs(s, mid, p);
  }

  lemma DirectIs(s: State, mid: State, p: int)
    requires GoodState(s) && s.Dirty() && Pages(s, mid)
    ensures Direct(s, p) <==> (Newest(mid.data, p).Some? ==> Newest(mid.data, p).value in mid.chunks)
  {
    PagesNewest(s, mid, p);
    PagesParts(s, mid);
    assert Newest(s.data, p).Some? ==> Newest(s.data, p).value in s.cached;
    hide GoodState;
    hide Pages;
  }

  /** A flush and what reads are served from, position by position. */
  lemma FlushReads(s: State, saves: nat, filerSaves: nat, t: State, p: int)
    requires GoodState(s) && Flushes(s, saves, filerSaves, t)
    ensures GoodState(t) && t.Written(p) == s.Written(p)
    ensures t.Present(p) <==> s.Present(p) && ReadSafe(s, saves, filerSaves, p)
  {
    if s.Dirty() {
      var mid: State :| Pages(s, mid) && Stores(mid, saves, filerSaves, t);
      FlushVia(s, saves, filerSaves, mid, t, p);
      PagesNewest(s, mid, p);
      assert Newest(s.cached, p).Some? ==> Newest(s.cached, p).value in s.cached;
      hide GoodState;
      hide Pages;
      hide Stores;
      hide Loses;
      if Lookup(s.runs, p).Some? {
        PageStays(s, saves, filerSaves, mid, t, Newest(Added(s, mid), p).value);
      } else if Newest(s.cached, p).Some? {
        FlushDeletes(s, saves, filerSaves, mid, t, Newest(s.cached, p).value);
      }
    }
  }

  /** A flush and the content of the entry, position by position. */
  lemma FlushContent(s: State, saves: nat, filerSaves: nat, t: State, p: int)
    requires GoodState(s) && Flushes(s, saves, filerSaves, t)
    ensures t.Whole(p) <==> s.Whole(p) && Direct(s, p)
    ensures Safe(s, saves, filerSaves, p) ==> t.Content(p) == s.Content(p)
    ensures !Safe(s, saves, filerSaves, p) && s.Content(p).Some? ==> ChunkAt(t, p) != ChunkAt(s, p)
  {
    if s.Dirty() {
      var mid: State :| Pages(s, mid) && Stores(mid, saves, filerSaves, t);
      FlushContentVia(s, saves, filerSaves, mid, t, p);
    }
  }

  lemma FlushContentVia(s: State, saves: nat, filerSaves: nat, mid: State, t: State, p: int)
    requires GoodState(s) && s.Dirty() && Pages(s, mid) && Stores(mid, saves, filerSaves, t)
    ensures t.Whole(p) <==> s.Whole(p) && Direct(s, p)
    ensures Safe(s, saves, filerSaves, p) ==> t.Content(p) == s.Content(p)
    ensures !Safe(s, saves, filerSaves, p) && s.Content(p).Some? ==> ChunkAt(t, p) != ChunkAt(s, p)
  {
    FlushVia(s, saves, filerSaves, mid, t, p);
    PagesNewest(s, mid, p);
    PagesParts(s, mid);
    TakesLaws(s, Run(0, []), mid, p);
    assert Newest(s.data, p).Some? ==> Newest(s.data, p).value in s.cached;
    hide GoodState;
    hide Pages;
    hide Stores;
    hide Loses;
    if Lookup(s.runs, p).Some? {
      PageStays(s, saves, filerSaves, mid, t, Newest(Added(s, mid), p).value);
      SameContent(mid, t, p);
    } else if Newest(s.data, p).Some? {
      var c := Newest(s.data, p).value;
      if c in s.chunks {
        KeptIs(mid, c);
        FlushDeletes(s, saves, filerSaves, mid, t, c);
        if !Loses(s, saves, filerSaves, c) {
          SameContent(mid, t, p);
        }
      }
    } else {
      SameContent(mid, t, p);
    }
    ChunkAtContent(s, p);
  }

  /** The same chunk, there or gone as before, has the same byte. */
  lemma SameContent(mid: State, t: State, p: int)
    requires Lookup(mid.runs, p) == None && Lookup(t.runs, p) == None && t.blobs == mid.blobs
    requires Newest(t.data, p) == Newest(mid.data, p)
    requires Newest(mid.data, p).Some? ==>
      (Newest(mid.data, p).value.fileId in t.deleted <==> Newest(mid.data, p).value.fileId in mid.deleted)
    ensures t.Content(p) == mid.Content(p)
  {}

  lemma ChunkAtContent(s: State, p: int)
    ensures s.Content(p).Some? && Lookup(s.runs, p) == None ==> ChunkAt(s, p).Some?
  {}
}
