/** An open file of the mount: writes go to the dirty pages, reads overlay them on the stored chunks. */
module MountFile {
  import opened Common
  import opened Chunks
  import opened Storage
  import opened Runs
  import opened Visibles
  import opened Visibility
  import opened Addresses
  import opened Manifests
  import opened Cleanup
  import opened OpenEntry
  import opened FileStates
  import opened FileReads
  import opened DirtyPages
  import opened DirtyIntervals
  import opened Views
  import opened ReaderAt

  lemma SortOfSorted(s: seq<FileChunk>)
    requires Increasing(s)
    ensures SortByTime(s) == s
  {
    assert DistinctTimes(s);
    SortBag(s);
    SortIncreasing(s);
    SortUnique(SortByTime(s), s);
  }

  lemma Covering(r: Run)
    ensures forall p :: r.Covers(p) <==> r.start <= p < r.start + |r.bytes|
    ensures forall p :: r.Covers(p) ==> r.At(p) == r.bytes[p - r.start]
  {}

  lemma NewestListedMore(chunks: seq<FileChunk>, cached: seq<FileChunk>, added: seq<FileChunk>)
    requires Older(cached, added) && Increasing(added) && AllData(added)
    ensures added != [] || NewestListed(chunks, cached) ==> NewestListed(chunks + added, cached + added)
  {
    if added != [] {
      var c := added[|added|-1];
      assert c in added && c in chunks + added;
      forall d | d in cached + added ensures d.mtime <= c.mtime {
        if d in added {
          var j :| 0 <= j < |added| && added[j] == d;
        }
      }
    } else {
      assert chunks + added == chunks && cached + added == cached;
    }
  }

  lemma OldManifests(store: Store, rank: FileId -> nat, list: seq<FileChunk>, cached: seq<FileChunk>, blobs: Blobs)
    requires Grounded(store, rank) && Resolve(store, rank, list).Ok? && AllUploaded(cached, blobs)
    requires forall id :: id in store ==> id !in blobs
    ensures forall m, c :: m in list && m.isManifest && c in cached ==> m.fileId != c.fileId
  {
    forall m | m in list && m.isManifest ensures m.fileId in store {
      ManifestsStored(store, rank, list, m);
    }
    forall m, c | m in list && m.isManifest && c in cached ensures m.fileId != c.fileId {
      assert Uploaded(c, blobs);
    }
  }

  /** Sound lists and chunks make a good state. */
  lemma StateGood(store: Store, rank: FileId -> nat, now: int, s: State)
    requires Sound(store, rank, s.chunks, s.cached, s.blobs, now) && StoredOk(store, rank, s.stored, s.chunks, s.cached)
    requires s.mergeFactor > 0 && s.deleted <= s.blobs.Keys && (forall id :: id in store ==> id !in s.blobs)
    requires s.data == Resolve(store, rank, s.chunks).data
    ensures GoodState(s)
  {
    OldManifests(store, rank, s.chunks, s.cached, s.blobs);
    OldManifests(store, rank, s.stored, s.cached, s.blobs);
    forall c | c in s.chunks && !c.isManifest ensures c in s.data {
      DirectIsData(store, rank, s.chunks, c);
    }
    if AllData(s.chunks) {
      ResolveData(store, rank, s.chunks);
    }
    hide Resolve;
    hide Grounded;
    hide Newest;
  }

  /** Uploaded chunks at the end of the lists, and the dirty runs left, are the state after a write. */
  lemma TakesIs(s: State, r: Run, t: State, since: int, now: int)
    requires GoodState(t) && s.chunks <= t.chunks && Grew(s.blobs, t.blobs)
    requires t == s.(runs := t.runs, chunks := t.chunks, data := s.data + Added(s, t), cached := s.cached + Added(s, t),
                     blobs := t.blobs, dirty := t.dirty)
    requires UploadedSince(Added(s, t), s.blobs, t.blobs, since, now) && Older(s.cached, Added(s, t))
    requires SeenAfter(s.runs, r, t.runs, Added(s, t), t.blobs)
    requires |Added(s, t)| + |t.runs| <= |s.runs| + (if r.bytes == [] then 0 else 1)
    requires t.Dirty() <==> s.Dirty() || r.bytes != []
    ensures Takes(s, r, t)
  {
    hide GoodState;
    hide SeenAfter;
  }

  /** Flushing all pages is a write of nothing. */
  lemma FlushedSeen(was: seq<Run>, added: seq<FileChunk>, blobs: Blobs)
    requires forall p :: Stored(added, blobs, p) == Lookup(was, p)
    ensures SeenAfter(was, Run(0, []), [], added, blobs)
  {}

  /** What newer chunks at the end of the lists leave as it is. */
  lemma MoreChunks(store: Store, rank: FileId -> nat, chunks: seq<FileChunk>, stored: seq<FileChunk>,
                   cached: seq<FileChunk>, was: Blobs, blobs: Blobs, since: int, now: int, added: seq<FileChunk>)
    requires Sound(store, rank, chunks, cached, was, since) && StoredOk(store, rank, stored, chunks, cached)
    requires Grew(was, blobs) && UploadedSince(added, was, blobs, since, now)
    ensures Older(cached, added) && IdsOf(cached) !! IdsOf(added)
    ensures Increasing(added) && Positive(added) && DistinctIds(added)
    ensures DataBehind(store, rank, chunks + added) == DataBehind(store, rank, chunks) + added
    ensures Sound(store, rank, chunks + added, cached + added, blobs, now)
    ensures StoredOk(store, rank, stored, chunks + added, cached + added)
    ensures added != [] || NewestListed(chunks, cached) ==> NewestListed(chunks + added, cached + added)
  {
    UploadsGood(cached, was, blobs, since, now, added);
    SoundAppend(store, rank, chunks, cached, was, blobs, since, now, added);
    StoredAppend(store, rank, stored, chunks, cached, added);
    NewestListedMore(chunks, cached, added);
  }

  lemma PagesIs(s: State, t: State)
    requires Takes(s, Run(0, []), t) && t.runs == [] && |Added(s, t)| == |s.runs| && Disjoint(Added(s, t))
    ensures Pages(s, t)
  {}

  lemma AddedIs(s: State, t: State, added: seq<FileChunk>)
    requires t.chunks == s.chunks + added
    ensures s.chunks <= t.chunks && Added(s, t) == added
  {}

  lemma DirtyIs(s: State)
    ensures s.Dirty() <==> s.dirty || s.runs != []
  {}

  lemma SavedBoth(a: seq<FileChunk>, b: seq<FileChunk>, was: Store, mid: Store, now: Store)
    requires Saved(a, was, mid) && Saved(b, mid, now)
    ensures Saved(a, was, now) && Saved(b, was, now) && Grew(was, now)
  {}

  lemma DeletedBoth(more: Store, deleted: set<FileId>, blobs: Blobs, a: set<FileId>, b: set<FileId>)
    ensures more - a - b == more - (a + b)
    ensures deleted + (a * blobs.Keys) + (b * blobs.Keys) == deleted + ((a + b) * blobs.Keys)
  {}

  lemma KeptOfIs(store: Store, rank: FileId -> nat, s: State)
    requires Grounded(store, rank) && Resolve(store, rank, s.chunks).Ok?
    requires s.data == Resolve(store, rank, s.chunks).data
    ensures KeptOf(s) == FlushKeeps(store, rank, s.chunks)
  {}

  lemma StoresRefused(s: State, saves: nat, filerSaves: nat, t: State)
    requires GoodState(t) && s.runs == [] && s.dirty && s.mergeFactor > 0 && AllData(KeptOf(s))
    requires Fails(|KeptOf(s)|, s.mergeFactor, saves, filerSaves)
    requires t == s.(chunks := KeptOf(s), data := KeptOf(s))
    ensures Stores(s, saves, filerSaves, t)
  {
    AllDataSplit(KeptOf(s));
  }

  lemma StoresDone(s: State, saves: nat, filerSaves: nat, t: State, bundles: seq<FileChunk>, gone: set<FileId>)
    requires GoodState(t) && s.runs == [] && s.dirty && s.mergeFactor > 0 && AllData(KeptOf(s))
    requires !Fails(|KeptOf(s)|, s.mergeFactor, saves, filerSaves)
    requires Listed(KeptOf(s), s.mergeFactor, bundles, t.stored)
    requires t.chunks == if |KeptOf(s)| / s.mergeFactor <= saves then t.stored else KeptOf(s)
    requires t == s.(chunks := t.chunks, stored := t.stored, data := KeptOf(s),
                     deleted := s.deleted + (gone * s.blobs.Keys), dirty := false)
    requires forall c :: c in s.cached ==>
      (c.fileId in gone * s.blobs.Keys <==>
       (c in s.chunks && c !in KeptOf(s))
       || (c in s.stored && c !in KeptOf(s)[Batched(|KeptOf(s)|, s.mergeFactor)..]))
    ensures Stores(s, saves, filerSaves, t)
  {
    var kept := KeptOf(s);
    AllDataSplit(kept);
    ListedParts(kept, s.mergeFactor, bundles, t.stored);
    hide KeptOf;
    hide GoodState;
    hide Batched;
  }

  lemma FailsIs(n: nat, mergeFactor: nat, saves: nat, filerSaves: nat)
    requires mergeFactor > 0
    ensures Fails(n, mergeFactor, saves, filerSaves) <==> n / mergeFactor > saves && n / mergeFactor > filerSaves
  {}

  /** What the mount sends the filer. */
  lemma MountPhase(store: Store, rank: FileId -> nat, chunks: seq<FileChunk>, cached: seq<FileChunk>, blobs: Blobs,
                   now: int, kept: seq<FileChunk>, mergeFactor: nat, saves: nat, mid: Store, bundles: seq<FileChunk>,
                   sent: seq<FileChunk>, ok: bool)
    requires Sound(store, rank, chunks, cached, blobs, now) && (forall id :: id in store ==> id !in blobs)
    requires Grounded(store, rank) && Resolve(store, rank, chunks).Ok?
    requires kept == FlushKeeps(store, rank, chunks) && mergeFactor > 0 && AllData(kept)
    requires Saved(bundles, store, mid) && Grounded(mid, rank) && (ok <==> |DataOf(kept)| / mergeFactor <= saves)
    requires ok ==> Manifestized(kept, mergeFactor, bundles, sent) && Resolve(mid, rank, sent) == Ok(kept, bundles)
    requires !ok ==> sent == DataOf(kept)
    ensures (ok <==> |kept| / mergeFactor <= saves) && Sent(kept, mergeFactor, bundles, sent, ok)
    ensures Resolve(mid, rank, sent) == Ok(kept, if ok then bundles else []) && (!ok ==> sent == kept)
    ensures Compacted(sent) == sent && |DataOf(sent)| / mergeFactor == if ok then 0 else |kept| / mergeFactor
    ensures forall stored, list :: Replaced(stored, sent, list) == IdsOf(stored) - IdsOf(list)
  {
    hide *;
    MountSends(kept, mergeFactor, saves, store, mid, rank, bundles, sent, ok);
    KeptAgain(store, rank, chunks, cached, blobs, now);
    FilerKeeps(kept, mergeFactor, bundles, sent, ok);
    SentKept(kept, mergeFactor, bundles, sent, ok);
  }

  lemma SentKept(kept: seq<FileChunk>, mergeFactor: nat, bundles: seq<FileChunk>, sent: seq<FileChunk>, ok: bool)
    requires mergeFactor > 0 && Sent(kept, mergeFactor, bundles, sent, ok)
    ensures !ok ==> sent == kept
  {}

  /** What the filer stores, and which cached chunks are deleted. */
  lemma FilerPhase(store: Store, rank: FileId -> nat, s: State, now: int, kept: seq<FileChunk>,
                   bundles: seq<FileChunk>, sent: seq<FileChunk>, ok: bool, mid: Store, more: Store, later: int,
                   filerBundles: seq<FileChunk>, list: seq<FileChunk>)
    requires Sound(store, rank, s.chunks, s.cached, s.blobs, now) && (forall id :: id in store ==> id !in s.blobs)
    requires Grounded(store, rank) && Resolve(store, rank, s.chunks).Ok?
    requires StoredOk(store, rank, s.stored, s.chunks, s.cached) && now <= later
    requires kept == FlushKeeps(store, rank, s.chunks) && s.mergeFactor > 0 && AllData(kept) && kept != []
    requires Grounded(mid, rank) && Grounded(more, rank) && (forall id :: id in more ==> id !in s.blobs)
    requires Saved(bundles, store, mid) && Saved(filerBundles, mid, more)
    requires Sent(kept, s.mergeFactor, bundles, sent, ok) && (!ok ==> sent == kept)
    requires Resolve(mid, rank, sent) == Ok(kept, if ok then bundles else [])
    requires Manifestized(sent, s.mergeFactor, filerBundles, list)
    requires AllData(sent) ==> Resolve(more, rank, list) == Ok(sent, filerBundles)
    ensures Listed(kept, s.mergeFactor, if ok then bundles else filerBundles, list) && (ok ==> list == sent)
    ensures
      var gone := (IdsOf(s.stored) - IdsOf(list)) + GarbageIds(store, rank, s.chunks);
      && Sound(more - gone, rank, sent, s.cached, s.blobs, later)
      && Grounded(more - gone, rank) && Resolve(more - gone, rank, sent).Ok?
      && Resolve(more - gone, rank, sent).data == kept
      && StoredOk(more - gone, rank, list, sent, s.cached)
      && forall c :: c in s.cached ==>
           (c.fileId in gone * s.blobs.Keys <==>
            (c in s.chunks && c !in kept) || (c in s.stored && c !in kept[Batched(|kept|, s.mergeFactor)..]))
  {
    hide *;
    SavedBoth(bundles, filerBundles, store, mid, more);
    FilerStores(kept, s.mergeFactor, bundles, sent, ok, mid, more, rank, filerBundles, list);
    var b := if ok then bundles else filerBundles;
    StoredSound(store, rank, s.chunks, s.cached, s.blobs, now, s.stored, s.mergeFactor, more, later, b, list, sent);
    forall c | c in s.cached
      ensures
        var gone := (IdsOf(s.stored) - IdsOf(list)) + GarbageIds(store, rank, s.chunks);
        (c.fileId in gone * s.blobs.Keys <==>
         (c in s.chunks && c !in kept) || (c in s.stored && c !in kept[Batched(|kept|, s.mergeFactor)..]))
    {
      StoredDeletes(store, rank, s.chunks, s.cached, s.blobs, now, s.stored, s.mergeFactor, more, b, list, c);
    }
  }

  lemma FlushesIs(s: State, saves: nat, filerSaves: nat, mid: State, t: State)
    requires GoodState(s) && Pages(s, mid) && Stores(mid, saves, filerSaves, t)
    ensures Flushes(s, saves, filerSaves, t) && (t.Dirty() <==> t.dirty)
  {}

  lemma NothingDirty(s: State, saves: nat, filerSaves: nat, mid: State)
    requires GoodState(s) && Pages(s, mid) && !mid.dirty
    ensures Flushes(s, saves, filerSaves, mid) && !mid.Dirty()
  {
    assert Added(s, mid) == [] && s.blobs.Keys == mid.blobs.Keys && mid.blobs == s.blobs;
  }

  lemma NewStored(store: Store, rank: FileId -> nat, chunks: seq<FileChunk>)
    requires Grounded(store, rank) && Resolve(store, rank, chunks).Ok?
    ensures StoredOk(store, rank, chunks, chunks, Resolve(store, rank, chunks).data)
  {
    forall c | c in chunks && !c.isManifest ensures c in Resolve(store, rank, chunks).data {
      DirectIsData(store, rank, chunks, c);
    }
  }

  class FileHandle {
    const dirtyPages: ContinuousDirtyPages
    const mergeFactor: nat
    var chunks: seq<FileChunk>
    /** The list the filer has for the entry. */
    var stored: seq<FileChunk>
    var entryViewCache: seq<VisibleInterval>
    var fileSize: int
    var dirtyMetadata: bool
    ghost const rank: FileId -> nat
    ghost var cached: seq<FileChunk>

    ghost predicate Valid()
      reads this, dirtyPages.intervals, dirtyPages.intervals.repr, dirtyPages.volumes
    {
      && dirtyPages.Valid() && 0 <= dirtyPages.chunkSizeLimit && 0 < mergeFactor
      && this !in dirtyPages.intervals.repr
      && Sound(dirtyPages.volumes.manifests, rank, chunks, cached, dirtyPages.volumes.blobs, dirtyPages.volumes.clock)
      && StoredOk(dirtyPages.volumes.manifests, rank, stored, chunks, cached)
      && Shown(entryViewCache, cached)
      && (dirtyMetadata ==> dirtyPages.intervals.runs != [] || NewestListed(chunks, cached))
    }

    /** The data chunks of the entry. */
    ghost function Data(): seq<FileChunk>
      reads this`chunks, dirtyPages.volumes`manifests
    {
      DataBehind(dirtyPages.volumes.manifests, rank, chunks)
    }

    lemma Behind()
      ensures Data() == DataBehind(dirtyPages.volumes.manifests, rank, chunks)
    {}

    ghost function State(): State
      reads this, dirtyPages.intervals, dirtyPages.volumes
    {
      FileStates.State(dirtyPages.intervals.runs, chunks, stored, Data(), cached,
                       dirtyPages.volumes.blobs, dirtyPages.volumes.deleted, dirtyMetadata, mergeFactor)
    }

    lemma StateIs()
      ensures
        State() == FileStates.State(dirtyPages.intervals.runs, chunks, stored, Data(), cached,
                                    dirtyPages.volumes.blobs, dirtyPages.volumes.deleted, dirtyMetadata, mergeFactor)
    {}

    lemma Goodness()
      requires Valid()
      ensures GoodState(State())
    {
      DataIs();
      dirtyPages.volumes.Apart();
      StateGood(dirtyPages.volumes.manifests, rank, dirtyPages.volumes.clock, State());
    }

    /** What Valid() says. */
    lemma Parts()
      requires Valid()
      ensures dirtyPages.Valid() && 0 <= dirtyPages.chunkSizeLimit && 0 < mergeFactor
      ensures this !in dirtyPages.intervals.repr && dirtyPages.volumes !in dirtyPages.intervals.repr
      ensures Sound(dirtyPages.volumes.manifests, rank, chunks, cached,
                    dirtyPages.volumes.blobs, dirtyPages.volumes.clock)
      ensures StoredOk(dirtyPages.volumes.manifests, rank, stored, chunks, cached)
      ensures Shown(entryViewCache, cached)
      ensures dirtyMetadata ==> dirtyPages.intervals.runs != [] || NewestListed(chunks, cached)
      ensures AllUploaded(cached, dirtyPages.volumes.blobs) && AllUploaded(Data(), dirtyPages.volumes.blobs)
    {
      SoundData(dirtyPages.volumes.manifests, rank, chunks, cached, dirtyPages.volumes.blobs, dirtyPages.volumes.clock);
    }

    lemma Assemble()
      requires dirtyPages.Valid() && 0 <= dirtyPages.chunkSizeLimit && 0 < mergeFactor
      requires this !in dirtyPages.intervals.repr
      requires Sound(dirtyPages.volumes.manifests, rank, chunks, cached,
                     dirtyPages.volumes.blobs, dirtyPages.volumes.clock)
      requires StoredOk(dirtyPages.volumes.manifests, rank, stored, chunks, cached)
      requires Shown(entryViewCache, cached)
      requires dirtyMetadata ==> dirtyPages.intervals.runs != [] || NewestListed(chunks, cached)
      ensures Valid()
    {}

    /** The data behind the list, where it is known to resolve. */
    lemma DataIs()
      requires Sound(dirtyPages.volumes.manifests, rank, chunks, cached,
                     dirtyPages.volumes.blobs, dirtyPages.volumes.clock)
      ensures Grounded(dirtyPages.volumes.manifests, rank)
      ensures Resolve(dirtyPages.volumes.manifests, rank, chunks).Ok?
      ensures Data() == Resolve(dirtyPages.volumes.manifests, rank, chunks).data
      ensures AllUploaded(Data(), dirtyPages.volumes.blobs)
    {
      SoundData(dirtyPages.volumes.manifests, rank, chunks, cached, dirtyPages.volumes.blobs, dirtyPages.volumes.clock);
    }

    /** Opens a file with the chunks of its entry; the cached intervals are computed from them. */
    constructor (volumes: Volumes, chunks: seq<FileChunk>, chunkSizeLimit: int, mergeFactor: nat,
                 ghost rank: FileId -> nat)
      requires volumes.Valid() && 0 <= chunkSizeLimit && 0 < mergeFactor
      requires Grounded(volumes.manifests, rank) && Resolve(volumes.manifests, rank, chunks).Ok?
      requires GoodChunks(Resolve(volumes.manifests, rank, chunks).data, volumes.blobs, volumes.clock)
      ensures Valid() && dirtyPages.volumes == volumes && this.mergeFactor == mergeFactor && this.rank == rank
      ensures
        var data := Resolve(volumes.manifests, rank, chunks).data;
        State() == FileStates.State([], chunks, chunks, data, data, volumes.blobs, volumes.deleted, false, mergeFactor)
      ensures fresh(dirtyPages) && fresh(dirtyPages.intervals) && fresh(dirtyPages.intervals.repr)
    {
      dirtyPages := new ContinuousDirtyPages(volumes, chunkSizeLimit);
      this.chunks, this.stored, this.mergeFactor, this.rank := chunks, chunks, mergeFactor, rank;
      var ok, data, manifests := ResolveChunkManifest(volumes.manifests, rank, chunks);
      var visibles := NonOverlappingVisibleIntervals(data);
      entryViewCache, cached := visibles, data;
      fileSize, dirtyMetadata := Manifests.TotalSize(chunks), false;
      VisibleOfShown(data);
      NewStored(volumes.manifests, rank, chunks);
    }

    /** Merges newer chunks into the cached intervals and appends them to the entry. */
    method AddChunks(added: seq<FileChunk>)
      requires Shown(entryViewCache, cached) && Older(cached, added) && IdsOf(cached) !! IdsOf(added)
      requires Increasing(added) && Positive(added) && DistinctIds(added)
      modifies this`chunks, this`entryViewCache, this`cached
      ensures chunks == old(chunks) + added && entryViewCache == MergeAll(old(entryViewCache), added)
      ensures cached == old(cached) + added && Shown(entryViewCache, cached)
    {
      SortOfSorted(added);
      MergeAllShown(entryViewCache, cached, added);
      entryViewCache := MergeChunks(entryViewCache, added);
      chunks, cached := chunks + SortByTime(added), cached + added;
    }

    /** Takes uploaded chunks into the entry, if there are any. */
    method TakeIn(added: seq<FileChunk>, ghost was: Blobs, ghost since: int)
      requires Sound(dirtyPages.volumes.manifests, rank, chunks, cached, was, since) && Shown(entryViewCache, cached)
      requires StoredOk(dirtyPages.volumes.manifests, rank, stored, chunks, cached)
      requires Grew(was, dirtyPages.volumes.blobs)
      requires UploadedSince(added, was, dirtyPages.volumes.blobs, since, dirtyPages.volumes.clock)
      modifies this`chunks, this`entryViewCache, this`cached, this`dirtyMetadata
      ensures chunks == old(chunks) + added && cached == old(cached) + added && Data() == old(Data()) + added
      ensures Older(old(cached), added)
      ensures Sound(dirtyPages.volumes.manifests, rank, chunks, cached,
                    dirtyPages.volumes.blobs, dirtyPages.volumes.clock)
      ensures StoredOk(dirtyPages.volumes.manifests, rank, stored, chunks, cached)
      ensures Shown(entryViewCache, cached)
      ensures dirtyMetadata <==> old(dirtyMetadata) || added != []
      ensures added != [] || old(NewestListed(chunks, cached)) ==> NewestListed(chunks, cached)
    {
      hide *;
      Behind();
      MoreChunks(dirtyPages.volumes.manifests, rank, chunks, stored, cached, was, dirtyPages.volumes.blobs,
                 since, dirtyPages.volumes.clock, added);
      if |added| > 0 {
        AddChunks(added);
        dirtyMetadata := true;
      } else {
        assert chunks + added == chunks && cached + added == cached;
      }
      Behind();
    }

    /** Writes `data` at `offset`: that is the content there and nothing else changes. */
    method Write(offset: int, data: seq<byte>)
      requires Valid() && |data| > 0
      modifies this, dirtyPages.intervals, dirtyPages.intervals.repr
      modifies dirtyPages.volumes`blobs, dirtyPages.volumes`nextId, dirtyPages.volumes`clock
      ensures Valid() && fresh(dirtyPages.intervals.repr - old(dirtyPages.intervals.repr))
      ensures Takes(old(State()), Run(offset, data), State())
      ensures forall p :: offset <= p < offset + |data| ==>
        State().Content(p) == State().Served(p) == Some(data[p - offset]) && State().Whole(p)
      ensures forall p :: !(offset <= p < offset + |data|) ==>
        State().Content(p) == old(State()).Content(p) && State().Served(p) == old(State()).Served(p)
        && (State().Whole(p) <==> old(State()).Whole(p))
      ensures fileSize == Max(offset + |data|, old(fileSize))
    {
      hide *;
      Parts();
      Goodness();
      StateIs();
      ghost var s, r, since := State(), Run(offset, data), dirtyPages.volumes.clock;
      var size := Max(offset + |data|, fileSize);
      fileSize := size;
      if offset == 0 {
        dirtyMetadata := true;
      }
      var added := dirtyPages.AddPage(offset, data);
      TakeIn(added, s.blobs, since);
      StateIs();
      AddedIs(s, State(), added);
      Assemble();
      Goodness();
      DirtyIs(s);
      DirtyIs(State());
      TakesIs(s, r, State(), since, dirtyPages.volumes.clock);
      Covering(r);
      ghost var t := State();
      forall p
        ensures t.Content(p) == if r.Covers(p) then Some(r.At(p)) else s.Content(p)
        ensures t.Served(p) == if r.Covers(p) then Some(r.At(p)) else s.Served(p)
        ensures t.Whole(p) <==> r.Covers(p) || s.Whole(p)
      {
        TakesLaws(s, r, t, p);
      }
    }

    /** Uploads the dirty pages; no content changes, and no page stays dirty. */
    method FlushPages()
      requires Valid()
      modifies this`chunks, this`entryViewCache, this`cached, this`dirtyMetadata, dirtyPages.intervals
      modifies dirtyPages.volumes`blobs, dirtyPages.volumes`nextId, dirtyPages.volumes`clock
      ensures Valid() && dirtyPages.intervals.repr == old(dirtyPages.intervals.repr) && dirtyPages.intervals.lists == []
      ensures Pages(old(State()), State()) && State().runs == [] && State().dirty == old(State().Dirty())
      ensures forall p :: (State().Content(p) == old(State()).Content(p) && State().Served(p) == old(State()).Served(p)
                           && (State().Whole(p) <==> old(State()).Whole(p)))
    {
      hide *;
      Parts();
      Goodness();
      StateIs();
      ghost var s, since := State(), dirtyPages.volumes.clock;
      var added := dirtyPages.FlushToStorage();
      TakeIn(added, s.blobs, since);
      StateIs();
      AddedIs(s, State(), added);
      Assemble();
      Goodness();
      DirtyIs(s);
      DirtyIs(State());
      FlushedSeen(s.runs, added, State().blobs);
      TakesIs(s, Run(0, []), State(), since, dirtyPages.volumes.clock);
      PagesIs(s, State());
      PagesParts(s, State());
      Covering(Run(0, []));
      ghost var t := State();
      forall p ensures t.Content(p) == s.Content(p) && t.Served(p) == s.Served(p) && (t.Whole(p) <==> s.Whole(p)) {
        TakesLaws(s, Run(0, []), t, p);
      }
    }

    /** Compacts the entry's list and bundles what is kept, with that many saves. */
    method CompactEntry(saves: nat) returns (kept: seq<FileChunk>, garbage: seq<FileChunk>, ok: bool,
                                             ghost bundles: seq<FileChunk>)
      requires dirtyPages.volumes.Valid() && 0 < mergeFactor && NewestListed(chunks, cached)
      requires Sound(dirtyPages.volumes.manifests, rank, chunks, cached,
                     dirtyPages.volumes.blobs, dirtyPages.volumes.clock)
      requires Grounded(dirtyPages.volumes.manifests, rank) && Resolve(dirtyPages.volumes.manifests, rank, chunks).Ok?
      requires forall id :: id in dirtyPages.volumes.manifests ==> id !in dirtyPages.volumes.blobs
      modifies this`chunks, dirtyPages.volumes`manifests
      modifies dirtyPages.volumes`nextId, dirtyPages.volumes`clock, dirtyPages.volumes`savesLeft
      ensures dirtyPages.volumes.Valid() && dirtyPages.volumes.clock >= old(dirtyPages.volumes.clock)
      ensures Grounded(dirtyPages.volumes.manifests, rank) && kept != [] && AllData(kept)
      ensures kept == old(FlushKeeps(dirtyPages.volumes.manifests, rank, chunks))
      ensures IdsOf(garbage) == old(GarbageIds(dirtyPages.volumes.manifests, rank, chunks))
      ensures Saved(bundles, old(dirtyPages.volumes.manifests), dirtyPages.volumes.manifests)
      ensures (ok <==> |kept| / mergeFactor <= saves) && Sent(kept, mergeFactor, bundles, chunks, ok)
      ensures Resolve(dirtyPages.volumes.manifests, rank, chunks) == Ok(kept, if ok then bundles else [])
      ensures !ok ==> chunks == kept
      ensures Compacted(chunks) == chunks && |DataOf(chunks)| / mergeFactor == if ok then 0 else |kept| / mergeFactor
      ensures forall stored, list :: Replaced(stored, chunks, list) == IdsOf(stored) - IdsOf(list)
    {
      hide *;
      ghost var store, before := dirtyPages.volumes.manifests, chunks;
      ghost var blobs, now := dirtyPages.volumes.blobs, dirtyPages.volumes.clock;
      dirtyPages.volumes.Restock(saves);
      var data, manifests;
      ok, data, manifests := ResolveChunkManifest(dirtyPages.volumes.manifests, rank, chunks);
      kept, garbage := CompactFileChunks(chunks, data);
      Keeping(store, rank, chunks, cached, blobs, now, data, kept, garbage);
      chunks, ok, bundles := DoMaybeManifestize(dirtyPages.volumes, kept, mergeFactor, rank);
      MountPhase(store, rank, before, cached, blobs, now, kept, mergeFactor, saves,
                 dirtyPages.volumes.manifests, bundles, chunks, ok);
    }

    /**
     Compacts the entry's list, bundles it and has the filer store it; what the compaction dropped is deleted.  It fails
     when the filer cannot save its manifests: the mount and the filer can save so many.
     */
    method StoreEntry(saves: nat, filerSaves: nat) returns (err: bool)
      requires Valid() && dirtyPages.intervals.runs == [] && dirtyMetadata
      modifies this`chunks, this`stored, this`dirtyMetadata, dirtyPages.volumes`deleted, dirtyPages.volumes`manifests
      modifies dirtyPages.volumes`nextId, dirtyPages.volumes`clock, dirtyPages.volumes`savesLeft
      ensures Valid() && (err <==> dirtyMetadata)
      ensures Stores(old(State()), saves, filerSaves, State())
    {
      hide *;
      Parts();
      StateIs();
      DataIs();
      dirtyPages.Parts();
      dirtyPages.volumes.Apart();
      ghost var s, store, now := State(), dirtyPages.volumes.manifests, dirtyPages.volumes.clock;
      var kept, garbage, ok;
      ghost var bundles, filerBundles, more;
      kept, garbage, ok, bundles := CompactEntry(saves);
      ghost var mid := dirtyPages.volumes.manifests;
      KeptOfIs(store, rank, s);
      FailsIs(|kept|, mergeFactor, saves, filerSaves);
      dirtyPages.volumes.Restock(filerSaves);
      var created, list;
      created, list, filerBundles, more := CreateEntry(dirtyPages.volumes, stored, chunks, mergeFactor, rank);
      SavedBoth(bundles, filerBundles, store, mid, more);
      if !created {
        RefusedSound(store, rank, s.chunks, cached, s.blobs, now, stored, more, dirtyPages.volumes.clock);
        dirtyPages.Assemble();
        Assemble();
        Goodness();
        DataIs();
        StateIs();
        StoresRefused(s, saves, filerSaves, State());
        return true;
      }
      ghost var gone := (IdsOf(stored) - IdsOf(list)) + GarbageIds(store, rank, s.chunks);
      FilerPhase(store, rank, s, now, kept, bundles, chunks, ok, mid, more, dirtyPages.volumes.clock,
                 filerBundles, list);
      dirtyPages.volumes.DeleteFileChunks(IdsOf(garbage));
      DeletedBoth(more, s.deleted, s.blobs, IdsOf(s.stored) - IdsOf(list), IdsOf(garbage));
      stored, dirtyMetadata := list, false;
      err := false;
      dirtyPages.Assemble();
      Assemble();
      Goodness();
      DataIs();
      StateIs();
      StoresDone(s, saves, filerSaves, State(), if ok then bundles else filerBundles, gone);
    }

    /** The flush of a file handle: uploads the pages and stores the entry if there is anything to store. */
    method Flush(saves: nat, filerSaves: nat) returns (err: bool)
      requires Valid()
      modifies this`chunks, this`stored, this`entryViewCache, this`cached, this`dirtyMetadata
      modifies dirtyPages.intervals, dirtyPages.volumes
      ensures Valid() && dirtyPages.intervals.repr == old(dirtyPages.intervals.repr)
      ensures dirtyPages.intervals.lists == [] && (err <==> State().Dirty()) && old(State()).mergeFactor > 0
      ensures Flushes(old(State()), saves, filerSaves, State())
      ensures forall p :: (State().Present(p)
                           <==> old(State()).Present(p) && ReadSafe(old(State()), saves, filerSaves, p))
      ensures forall p :: State().Whole(p) <==> old(State()).Whole(p) && Direct(old(State()), p)
      ensures forall p :: (if Safe(old(State()), saves, filerSaves, p)
                           then State().Content(p) == old(State()).Content(p)
                           else old(State()).Content(p).Some? ==> ChunkAt(State(), p) != ChunkAt(old(State()), p))
    {
      hide *;
      Parts();
      Goodness();
      StateIs();
      ghost var s := State();
      FlushPages();
      Parts();
      Goodness();
      StateIs();
      ghost var mid := State();
      PagesParts(s, mid);
      err := false;
      if dirtyMetadata {
        err := StoreEntry(saves, filerSaves);
        StateIs();
        FlushesIs(s, saves, filerSaves, mid, State());
      } else {
        NothingDirty(s, saves, filerSaves, mid);
      }
      ghost var t := State();
      forall p
        ensures t.Present(p) <==> s.Present(p) && ReadSafe(s, saves, filerSaves, p)
        ensures t.Whole(p) <==> s.Whole(p) && Direct(s, p)
        ensures if Safe(s, saves, filerSaves, p) then t.Content(p) == s.Content(p)
                else s.Content(p).Some? ==> ChunkAt(t, p) != ChunkAt(s, p)
      {
        FlushReads(s, saves, filerSaves, t, p);
        FlushContent(s, saves, filerSaves, t, p);
      }
    }

    /** Reads from the chunks into the zeroed buffer; the count of bytes read. */
    method ReadFromChunks(buff: array<byte>, offset: int, inCache: set<FileId>) returns (totalRead: nat)
      requires Valid() && 0 <= offset && forall j :: 0 <= j < buff.Length ==> buff[j] == 0
      modifies buff
      ensures FromChunks(entryViewCache, Available(dirtyPages.volumes.blobs, dirtyPages.volumes.deleted, inCache),
                         offset, buff[..], totalRead)
    {
      ghost var vs := entryViewCache;
      var blobs := Available(dirtyPages.volumes.blobs, dirtyPages.volumes.deleted, inCache);
      if |chunks| == 0 {
        NoChunksNoViews(vs, blobs, offset, buff.Length);
        return 0;
      }
      var chunkViews := ViewFromVisibleIntervals(entryViewCache, 0, MAX_INT32);
      ReaderViews(vs, cached, dirtyPages.volumes.blobs);
      var chunkCache := map id | id in blobs && id in inCache :: blobs[id];
      var reader := new ChunkReadAt(chunkViews, blobs, chunkCache, 0);
      var eof, panicked;
      hide Valid;
      hide ReadSoFar;
      totalRead, eof, panicked := reader.ReadAt(buff, offset);
      ReadAll(vs, blobs, offset, buff[..], totalRead);
    }

    /** Lays the dirty bytes over the buffer; the count of bytes to return. */
    method ReadFromDirtyPages(buff: array<byte>, offset: int, totalRead: nat, ghost have: Blobs) returns (total: nat)
      requires Valid() && 0 <= offset && offset + buff.Length <= MAX_INT64
      requires FromChunks(entryViewCache, have, offset, buff[..], totalRead)
      modifies buff
      ensures total == ReadCount(dirtyPages.intervals.runs, entryViewCache, have,
                                 offset, buff.Length) <= buff.Length
      ensures ReadShows(dirtyPages.intervals.runs, entryViewCache, have,
                        offset, buff.Length, buff[..][..total])
    {
      hide Filled;
      hide ReadShows;
      hide Shown;
      hide Sound;
      hide StoredOk;
      ghost var mid := buff[..];
      ExtentHolds(dirtyPages.intervals.runs, offset, offset + buff.Length);
      var dirtyOffset, dirtySize := dirtyPages.intervals.ReadData(buff, offset);
      total := totalRead;
      if totalRead + offset < dirtyOffset + dirtySize {
        total := dirtyOffset + dirtySize - offset;
      }
      Overlaid(dirtyPages.intervals.runs, entryViewCache, have, offset,
               mid, totalRead, buff[..], total);
    }

    /** Reads a window: the chunks' bytes with the dirty bytes over them.  The chunk cache holds some of the blobs. */
    method Read(offset: int, size: nat, inCache: set<FileId>) returns (data: seq<byte>)
      requires Valid() && 0 <= offset && offset + size <= MAX_INT64
      ensures ReadShows(State().runs, entryViewCache, State().Within(inCache), offset, size, data)
      ensures |data| == ReadCount(State().runs, entryViewCache, State().Within(inCache), offset, size)
    {
      var buff := new byte[size](_ => 0);
      var fromChunks := ReadFromChunks(buff, offset, inCache);
      var totalRead := ReadFromDirtyPages(buff, offset, fromChunks, State().Within(inCache));
      data := buff[..][..totalRead];
    }
  }
}
