/** The chunk list of an open file's entry: flushes append to it, compact it and bundle it into manifests. */
module OpenEntry {
  import opened Common
  import opened Chunks
  import opened Storage
  import opened Visibles
  import opened Visibility
  import opened Addresses
  import opened Manifests
  import opened Cleanup
  import opened DirtyPages

  /** Chunks uploaded by `now`, each at its own time and under its own id. */
  ghost predicate GoodChunks(chunks: seq<FileChunk>, blobs: Blobs, now: int) {
    && AllUploaded(chunks, blobs) && DistinctTimes(chunks) && DistinctIds(chunks)
    && forall c :: c in chunks ==> c.mtime <= now && !c.isManifest
  }

  lemma UploadsGood(chunks: seq<FileChunk>, was: Blobs, blobs: Blobs, since: int, now: int, added: seq<FileChunk>)
    requires AllUploaded(chunks, was) && UploadedSince(added, was, blobs, since, now)
    ensures Increasing(added) && Positive(added) && DistinctIds(added) && IdsOf(chunks) !! IdsOf(added)
  {
    forall c, d | c in added && d in added && c.fileId == d.fileId ensures c == d {
      var i :| 0 <= i < |added| && added[i] == c;
      var j :| 0 <= j < |added| && added[j] == d;
      assert i == j || i < j || j < i;
    }
  }

  lemma GoodAppend(chunks: seq<FileChunk>, was: Blobs, blobs: Blobs, since: int, now: int, added: seq<FileChunk>)
    requires GoodChunks(chunks, was, since) && Grew(was, blobs) && UploadedSince(added, was, blobs, since, now)
    ensures Older(chunks, added) && GoodChunks(chunks + added, blobs, now)
  {
    UploadsGood(chunks, was, blobs, since, now, added);
    var all := chunks + added;
    forall i, j | 0 <= i < j < |all| ensures all[i].mtime != all[j].mtime {
      assert i < |chunks| ==> all[i] in chunks;
      assert j >= |chunks| ==> all[j] in added;
    }
    DistinctIdsConcat(chunks, added);
  }

  lemma DistinctIdsConcat(a: seq<FileChunk>, b: seq<FileChunk>)
    requires DistinctIds(a) && DistinctIds(b) && IdsOf(a) !! IdsOf(b)
    ensures DistinctIds(a + b)
  {
    forall c, d | c in a + b && d in a + b && c.fileId == d.fileId ensures c == d {
      assert c in a ==> c.fileId in IdsOf(a);
      assert d in a ==> d.fileId in IdsOf(a);
      assert c in b ==> c.fileId in IdsOf(b);
      assert d in b ==> d.fileId in IdsOf(b);
    }
  }

  /**
   The list resolves to chunks that are all among `cached`, the chunks the cached intervals were made of.  Those were
   uploaded, each at its own time and under its own id.
   */
  ghost predicate Sound(store: Store, rank: FileId -> nat, chunks: seq<FileChunk>, cached: seq<FileChunk>,
                        blobs: Blobs, now: int)
  {
    && Grounded(store, rank) && Resolve(store, rank, chunks).Ok?
    && GoodChunks(cached, blobs, now) && DistinctTimes(Resolve(store, rank, chunks).data)
    && (forall c :: c in Resolve(store, rank, chunks).data ==> c in cached)
    && (chunks == [] ==> cached == [])
  }

  lemma SoundData(store: Store, rank: FileId -> nat, chunks: seq<FileChunk>, cached: seq<FileChunk>, blobs: Blobs,
                  now: int)
    requires Sound(store, rank, chunks, cached, blobs, now)
    ensures GoodChunks(Resolve(store, rank, chunks).data, blobs, now)
  {}

  /** The data chunks and the manifests have different ids. */
  lemma ManifestIdsApart(store: Store, rank: FileId -> nat, chunks: seq<FileChunk>, cached: seq<FileChunk>,
                         blobs: Blobs, now: int, m: FileChunk)
    requires Sound(store, rank, chunks, cached, blobs, now) && (forall id :: id in store ==> id !in blobs)
    requires m in chunks && m.isManifest
    ensures m.fileId !in IdsOf(cached)
  {
    ManifestsStored(store, rank, chunks, m);
  }

  lemma DistinctTimesConcat(a: seq<FileChunk>, b: seq<FileChunk>)
    requires DistinctTimes(a) && Increasing(b) && Older(a, b)
    ensures DistinctTimes(a + b)
  {
    var all := a + b;
    forall i, j | 0 <= i < j < |all| ensures all[i].mtime != all[j].mtime {
      assert i < |a| ==> all[i] in a;
      assert j >= |a| ==> all[j] in b;
    }
  }

  /** Uploaded chunks go to the end of the list and of what is cached. */
  lemma SoundAppend(store: Store, rank: FileId -> nat, chunks: seq<FileChunk>, cached: seq<FileChunk>,
                    was: Blobs, blobs: Blobs, since: int, now: int, added: seq<FileChunk>)
    requires Sound(store, rank, chunks, cached, was, since) && Grew(was, blobs)
    requires UploadedSince(added, was, blobs, since, now)
    ensures Sound(store, rank, chunks + added, cached + added, blobs, now)
    ensures Resolve(store, rank, chunks + added) ==
      Ok(Resolve(store, rank, chunks).data + added, Resolve(store, rank, chunks).manifests)
    ensures Older(cached, added) && Older(Resolve(store, rank, chunks).data, added)
  {
    var data := Resolve(store, rank, chunks).data;
    GoodAppend(cached, was, blobs, since, now, added);
    UploadsGood(cached, was, blobs, since, now, added);
    AppendResolves(store, rank, chunks, added);
    DistinctTimesConcat(data, added);
  }

  lemma AppendResolves(store: Store, rank: FileId -> nat, chunks: seq<FileChunk>, added: seq<FileChunk>)
    requires Grounded(store, rank) && Resolve(store, rank, chunks).Ok? && AllData(added)
    ensures Resolve(store, rank, chunks + added) ==
      Ok(Resolve(store, rank, chunks).data + added, Resolve(store, rank, chunks).manifests)
  {
    ResolveData(store, rank, added);
    ResolveConcat(store, rank, chunks, added);
    var m := Resolve(store, rank, chunks).manifests;
    assert m + [] == m;
  }

  // ----- storing the entry -----

  /** The newest chunk of all is listed directly. */
  ghost predicate NewestListed(chunks: seq<FileChunk>, cached: seq<FileChunk>) {
    exists c :: c in chunks && !c.isManifest && forall d :: d in cached ==> d.mtime <= c.mtime
  }

  /** A flush keeps the chunk shown at p exactly when it is listed directly. */
  lemma ListedContent(store: Store, rank: FileId -> nat, chunks: seq<FileChunk>, cached: seq<FileChunk>,
                     blobs: Blobs, now: int, p: int)
    requires Sound(store, rank, chunks, cached, blobs, now) && (forall id :: id in store ==> id !in blobs)
    ensures AllData(FlushKeeps(store, rank, chunks))
    ensures
      var shown := Newest(Resolve(store, rank, chunks).data, p);
      Newest(FlushKeeps(store, rank, chunks), p) == shown <==> (shown.Some? ==> shown.value in chunks)
  {
    SoundData(store, rank, chunks, cached, blobs, now);
    forall m, d | m in chunks && m.isManifest && d in Resolve(store, rank, chunks).data ensures m.fileId != d.fileId {
      ManifestIdsApart(store, rank, chunks, cached, blobs, now, m);
      assert d in cached && d.fileId in IdsOf(cached);
    }
    FlushKeepsContent(store, rank, chunks, p);
  }

  lemma {:induction false} KeptTimes(store: Store, rank: FileId -> nat, chunks: seq<FileChunk>, ids: set<FileId>)
    requires Grounded(store, rank) && Resolve(store, rank, chunks).Ok?
    requires DistinctTimes(Resolve(store, rank, chunks).data) && AllData(Keep(chunks, ids))
    ensures DistinctTimes(Keep(chunks, ids))
  {
    if chunks != [] {
      var init, c := chunks[..|chunks|-1], chunks[|chunks|-1];
      var data, before, a := Resolve(store, rank, chunks).data, Resolve(store, rank, init).data, Keep(init, ids);
      assert before <= data;
      KeptTimes(store, rank, init, ids);
      if c.fileId in ids {
        assert Keep(chunks, ids) == a + [c] && data == before + [c];
        forall i | 0 <= i < |a| ensures a[i].mtime != c.mtime {
          KeepMembers(init, ids, a[i]);
          DirectIsData(store, rank, init, a[i]);
          var j :| 0 <= j < |before| && before[j] == a[i];
          assert data[j] == before[j] && data[|before|] == c;
        }
      }
    }
  }

  /** The chunks a flush keeps are data chunks of the entry, and not empty when the newest chunk is listed. */
  lemma KeptFacts(store: Store, rank: FileId -> nat, chunks: seq<FileChunk>, cached: seq<FileChunk>, blobs: Blobs,
                  now: int)
    requires Sound(store, rank, chunks, cached, blobs, now) && (forall id :: id in store ==> id !in blobs)
    ensures
      var data, kept := Resolve(store, rank, chunks).data, FlushKeeps(store, rank, chunks);
      && AllData(kept) && DistinctTimes(kept)
      && (forall c :: c in kept ==> c in chunks && c in data && c.fileId in Ids(VisibleOf(data)))
      && (NewestListed(chunks, cached) ==> kept != [])
      && Resolve(store, rank, kept) == Ok(kept, [])
  {
    var data, kept := Resolve(store, rank, chunks).data, FlushKeeps(store, rank, chunks);
    ListedContent(store, rank, chunks, cached, blobs, now, 0);
    forall c | c in kept ensures c in chunks && c in data && c.fileId in Ids(VisibleOf(data)) {
      KeepMembers(chunks, Ids(VisibleOf(data)), c);
      DirectIsData(store, rank, chunks, c);
    }
    KeptTimes(store, rank, chunks, Ids(VisibleOf(data)));
    if c :| c in chunks && !c.isManifest && forall d :: d in cached ==> d.mtime <= c.mtime {
      NewestKept(store, rank, chunks, cached, blobs, now, c);
    }
    ResolveData(store, rank, kept);
  }

  lemma NewestKept(store: Store, rank: FileId -> nat, chunks: seq<FileChunk>, cached: seq<FileChunk>, blobs: Blobs,
                   now: int, c: FileChunk)
    requires Sound(store, rank, chunks, cached, blobs, now)
    requires c in chunks && !c.isManifest && forall d :: d in cached ==> d.mtime <= c.mtime
    ensures c in FlushKeeps(store, rank, chunks)
  {
    var data := Resolve(store, rank, chunks).data;
    SoundData(store, rank, chunks, cached, blobs, now);
    DirectIsData(store, rank, chunks, c);
    assert Uploaded(c, blobs);
    NewestIs(data, c.offset, c);
    VisibleOwner(data, c.offset);
    IdsOwn(VisibleOf(data), c.fileId);
    KeepMembers(chunks, Ids(VisibleOf(data)), c);
  }

  /** The ids of the chunks a flush deletes. */
  ghost function GarbageIds(store: Store, rank: FileId -> nat, chunks: seq<FileChunk>): set<FileId>
    requires Grounded(store, rank) && Resolve(store, rank, chunks).Ok?
  {
    IdsOf(Drop(chunks, Ids(VisibleOf(Resolve(store, rank, chunks).data))))
  }

  /** The garbage was stored before, as a blob or a manifest, and nothing that is kept is garbage. */
  lemma GarbageStored(store: Store, rank: FileId -> nat, chunks: seq<FileChunk>, cached: seq<FileChunk>,
                      blobs: Blobs, now: int)
    requires Sound(store, rank, chunks, cached, blobs, now)
    ensures forall id :: id in GarbageIds(store, rank, chunks) ==> id in store || id in blobs
    ensures GarbageIds(store, rank, chunks) !! Ids(VisibleOf(Resolve(store, rank, chunks).data))
  {
    var ids := Ids(VisibleOf(Resolve(store, rank, chunks).data));
    forall g | g in Drop(chunks, ids) ensures g.fileId !in ids && (g.fileId in store || g.fileId in blobs) {
      KeepMembers(chunks, ids, g);
      if g.isManifest {
        ManifestsStored(store, rank, chunks, g);
      } else {
        DirectIsData(store, rank, chunks, g);
        assert Uploaded(g, blobs);
      }
    }
  }

  /** The data chunks behind the list of an entry. */
  ghost function DataBehind(store: Store, rank: FileId -> nat, chunks: seq<FileChunk>): seq<FileChunk> {
    if Grounded(store, rank) && Resolve(store, rank, chunks).Ok? then Resolve(store, rank, chunks).data else []
  }

  lemma {:induction false} NoDataOf(chunks: seq<FileChunk>)
    requires forall c :: c in chunks ==> c.isManifest
    ensures DataOf(chunks) == []
  {
    if chunks != [] {
      assert chunks[|chunks|-1] in chunks;
      NoDataOf(chunks[..|chunks|-1]);
    }
  }

  lemma Keeping(store: Store, rank: FileId -> nat, chunks: seq<FileChunk>, cached: seq<FileChunk>, blobs: Blobs,
                now: int, data: seq<FileChunk>, kept: seq<FileChunk>, garbage: seq<FileChunk>)
    requires Sound(store, rank, chunks, cached, blobs, now) && (forall id :: id in store ==> id !in blobs)
    requires NewestListed(chunks, cached) && data == Resolve(store, rank, chunks).data
    requires kept == Keep(chunks, Ids(VisibleOf(data))) && garbage == Drop(chunks, Ids(VisibleOf(data)))
    ensures kept == FlushKeeps(store, rank, chunks) && IdsOf(garbage) == GarbageIds(store, rank, chunks)
    ensures kept != [] && AllData(kept) && Resolve(store, rank, kept).Ok?
  {
    KeptFacts(store, rank, chunks, cached, blobs, now);
  }

  /** The filer's list: it resolves, its data chunks are cached, and those of them that show are in the entry's list. */
  ghost predicate StoredOk(store: Store, rank: FileId -> nat, stored: seq<FileChunk>, chunks: seq<FileChunk>,
                           cached: seq<FileChunk>)
  {
    && Grounded(store, rank) && Resolve(store, rank, stored).Ok?
    && (forall c :: c in stored && !c.isManifest ==> c in cached)
    && (forall c, p :: c in stored && Newest(cached, p) == Some(c) ==> c in chunks)
  }

  lemma StoredAppend(store: Store, rank: FileId -> nat, stored: seq<FileChunk>, chunks: seq<FileChunk>,
                     cached: seq<FileChunk>, added: seq<FileChunk>)
    requires StoredOk(store, rank, stored, chunks, cached) && Older(cached, added) && AllData(cached)
    requires AllData(added)
    ensures StoredOk(store, rank, stored, chunks + added, cached + added)
  {
    forall c, p | c in stored && Newest(cached + added, p) == Some(c) ensures c in chunks + added {
      NewestConcat(cached, added, p);
    }
  }

  /** A chunk that shows among the cached ones and is listed is kept. */
  lemma ShownIsKept(store: Store, rank: FileId -> nat, chunks: seq<FileChunk>, cached: seq<FileChunk>,
                    blobs: Blobs, now: int, c: FileChunk, p: int)
    requires Sound(store, rank, chunks, cached, blobs, now) && c in chunks && Newest(cached, p) == Some(c)
    ensures c in FlushKeeps(store, rank, chunks)
  {
    var data := Resolve(store, rank, chunks).data;
    SoundData(store, rank, chunks, cached, blobs, now);
    DirectIsData(store, rank, chunks, c);
    NewestAmong(data, cached, p, c);
    VisibleOwner(data, p);
    IdsOwn(VisibleOf(data), c.fileId);
    KeepMembers(chunks, Ids(VisibleOf(data)), c);
  }

  /** Compacting the kept chunks again changes nothing. */
  lemma KeptAgain(store: Store, rank: FileId -> nat, chunks: seq<FileChunk>, cached: seq<FileChunk>, blobs: Blobs,
                  now: int)
    requires Sound(store, rank, chunks, cached, blobs, now) && (forall id :: id in store ==> id !in blobs)
    ensures
      var kept := FlushKeeps(store, rank, chunks);
      Keep(kept, Ids(VisibleOf(kept))) == kept && IdsOf(kept) <= Ids(VisibleOf(kept)) && !HasChunkManifest(kept)
  {
    var data, kept := Resolve(store, rank, chunks).data, FlushKeeps(store, rank, chunks);
    KeptFacts(store, rank, chunks, cached, blobs, now);
    SoundData(store, rank, chunks, cached, blobs, now);
    forall c | c in kept ensures c.fileId in Ids(VisibleOf(kept)) {
      VisibleOwner(data, 0);
      IdsOwn(VisibleOf(data), c.fileId);
      var p :| Owner(VisibleOf(data), p) == Some(c.fileId);
      VisibleOwner(data, p);
      assert Newest(data, p) == Some(c);
      NewestAmong(kept, data, p, c);
      VisibleOwner(kept, p);
      IdsOwn(VisibleOf(kept), c.fileId);
    }
    KeepAll(kept, Ids(VisibleOf(kept)));
  }

  /** A list made of the kept chunks: full batches as new manifests, the rest directly. */
  ghost predicate Listed(kept: seq<FileChunk>, mergeFactor: nat, bundles: seq<FileChunk>, list: seq<FileChunk>)
    requires mergeFactor > 0
  {
    && |bundles| == |kept| / mergeFactor && (forall b :: b in bundles ==> b.isManifest)
    && list == bundles + kept[Batched(|kept|, mergeFactor)..]
  }

  lemma ListedParts(kept: seq<FileChunk>, mergeFactor: nat, bundles: seq<FileChunk>, list: seq<FileChunk>)
    requires mergeFactor > 0 && AllData(kept) && Listed(kept, mergeFactor, bundles, list)
    ensures DataOf(list) == kept[Batched(|kept|, mergeFactor)..] && ManifestsOf(list) == bundles
    ensures |DataOf(list)| / mergeFactor == 0 && Batched(|DataOf(list)|, mergeFactor) == 0
    ensures |kept| < mergeFactor ==> list == kept
    ensures HasChunkManifest(list) <==> bundles != []
    ensures bundles == [] ==> list == kept
    ensures kept != [] ==> list != []
  {
    var rest := kept[Batched(|kept|, mergeFactor)..];
    assert forall c :: c in rest ==> c in kept;
    assert AllData(rest) && (bundles != [] ==> bundles[0] in list) && forall c :: c in list ==>
      c in bundles || c in rest;
    assert |kept| == |kept| / mergeFactor * mergeFactor + |kept| % mergeFactor;
    assert |rest| < mergeFactor;
    hide Batched;
    BatchedOf(|kept|, mergeFactor);
    BatchedOf(|rest|, mergeFactor);
    AllDataSplit(rest);
    NoDataOf(bundles);
    DataOfConcat(bundles, rest);
    ManifestsOfConcat(bundles, rest);
    ManifestsOnly(bundles);
  }

  lemma {:induction false} ManifestsOfConcat(a: seq<FileChunk>, b: seq<FileChunk>)
    ensures ManifestsOf(a + b) == ManifestsOf(a) + ManifestsOf(b)
  {
    if b == [] {
      assert a + b == a;
    } else {
      assert (a + b)[..|a + b|-1] == a + b[..|b|-1];
      ManifestsOfConcat(a, b[..|b|-1]);
    }
  }

  lemma {:induction false} ManifestsOnly(chunks: seq<FileChunk>)
    requires forall c :: c in chunks ==> c.isManifest
    ensures ManifestsOf(chunks) == chunks
  {
    if chunks != [] {
      assert chunks[|chunks|-1] in chunks;
      ManifestsOnly(chunks[..|chunks|-1]);
    }
  }

  /** What the mount sends: the kept chunks with full batches in manifests, or all of them listed when a save failed. */
  ghost predicate Sent(kept: seq<FileChunk>, mergeFactor: nat, bundles: seq<FileChunk>, sent: seq<FileChunk>, ok: bool)
    requires mergeFactor > 0
  {
    if ok then Listed(kept, mergeFactor, bundles, sent) else sent == kept
  }

  lemma MountSends(kept: seq<FileChunk>, mergeFactor: nat, saves: nat, was: Store, now: Store, rank: FileId -> nat,
                   bundles: seq<FileChunk>, sent: seq<FileChunk>, ok: bool)
    requires mergeFactor > 0 && AllData(kept) && Saved(bundles, was, now) && Grounded(now, rank)
    requires ok <==> |DataOf(kept)| / mergeFactor <= saves
    requires ok ==> Manifestized(kept, mergeFactor, bundles, sent) && Resolve(now, rank, sent) == Ok(kept, bundles)
    requires !ok ==> sent == DataOf(kept)
    ensures ok <==> |kept| / mergeFactor <= saves
    ensures Sent(kept, mergeFactor, bundles, sent, ok)
    ensures Resolve(now, rank, sent) == Ok(kept, if ok then bundles else [])
  {
    AllDataSplit(kept);
    ResolveData(now, rank, kept);
    if ok {
      assert [] + bundles == bundles;
    }
  }

  /** The filer compacts nothing away from what is sent, and bundles only when the mount could not. */
  lemma FilerKeeps(kept: seq<FileChunk>, mergeFactor: nat, bundles: seq<FileChunk>, sent: seq<FileChunk>, ok: bool)
    requires mergeFactor > 0 && AllData(kept) && Sent(kept, mergeFactor, bundles, sent, ok)
    requires Keep(kept, Ids(VisibleOf(kept))) == kept && IdsOf(kept) <= Ids(VisibleOf(kept)) && !HasChunkManifest(kept)
    ensures Compacted(sent) == sent
    ensures |DataOf(sent)| / mergeFactor == if ok then 0 else |kept| / mergeFactor
    ensures forall stored, list :: Replaced(stored, sent, list) == IdsOf(stored) - IdsOf(list)
  {
    if ok {
      ListedParts(kept, mergeFactor, bundles, sent);
    } else {
      AllDataSplit(kept);
    }
  }

  /** The list the filer stores. */
  lemma FilerStores(kept: seq<FileChunk>, mergeFactor: nat, bundles: seq<FileChunk>, sent: seq<FileChunk>, ok: bool,
                    was: Store, now: Store, rank: FileId -> nat, filerBundles: seq<FileChunk>, list: seq<FileChunk>)
    requires mergeFactor > 0 && AllData(kept) && Sent(kept, mergeFactor, bundles, sent, ok)
    requires Grounded(was, rank) && Grounded(now, rank) && Saved(filerBundles, was, now)
    requires Resolve(was, rank, sent) == Ok(kept, if ok then bundles else [])
    requires Manifestized(sent, mergeFactor, filerBundles, list)
    requires AllData(sent) ==> Resolve(now, rank, list) == Ok(sent, filerBundles)
    ensures
      var b := if ok then bundles else filerBundles;
      Listed(kept, mergeFactor, b, list) && Resolve(now, rank, list) == Ok(kept, b) && (ok ==> list == sent)
  {
    if ok {
      ListedParts(kept, mergeFactor, bundles, sent);
      ResolveGrow(was, now, rank, sent);
      assert filerBundles == [] && DataOf(sent)[0..] == DataOf(sent);
      assert list == bundles + [] + DataOf(sent) == sent;
    } else {
      AllDataSplit(kept);
      assert [] + filerBundles == filerBundles;
    }
  }

  /** The entry after it was stored and the ids in `gone` were deleted. */
  lemma StoredSound(store: Store, rank: FileId -> nat, chunks: seq<FileChunk>, cached: seq<FileChunk>, blobs: Blobs,
                    now: int, stored: seq<FileChunk>, mergeFactor: nat, more: Store, later: int,
                    bundles: seq<FileChunk>, list: seq<FileChunk>, sent: seq<FileChunk>)
    requires Sound(store, rank, chunks, cached, blobs, now) && now <= later && mergeFactor > 0
    requires (forall id :: id in store ==> id !in blobs) && (forall id :: id in more ==> id !in blobs)
    requires Saved(bundles, store, more) && Grounded(more, rank) && FlushKeeps(store, rank, chunks) != []
    requires Listed(FlushKeeps(store, rank, chunks), mergeFactor, bundles, list)
    requires Resolve(more, rank, list) == Ok(FlushKeeps(store, rank, chunks), bundles)
    requires sent == list || sent == FlushKeeps(store, rank, chunks)
    ensures
      var gone := (IdsOf(stored) - IdsOf(list)) + GarbageIds(store, rank, chunks);
      && Sound(more - gone, rank, sent, cached, blobs, later)
      && Grounded(more - gone, rank) && Resolve(more - gone, rank, sent).Ok?
      && Resolve(more - gone, rank, sent).data == FlushKeeps(store, rank, chunks)
      && StoredOk(more - gone, rank, list, sent, cached)
  {
    assert Grounded(store, rank) && Resolve(store, rank, chunks).Ok?;
    hide *;
    var kept, gone := FlushKeeps(store, rank, chunks), (IdsOf(stored) - IdsOf(list)) + GarbageIds(store, rank, chunks);
    KeptFacts(store, rank, chunks, cached, blobs, now);
    ListedParts(kept, mergeFactor, bundles, list);
    BundlesStay(store, rank, chunks, cached, blobs, now, stored, mergeFactor, more, bundles, list);
    ListedStays(store, rank, kept, more, bundles, list, gone);
    ListedMembers(kept, mergeFactor, bundles, list);
    SoundNow(store, rank, chunks, cached, blobs, now, more - gone, later, sent);
    StoredNow(more - gone, rank, list, kept, sent, cached, blobs, later);
  }

  /** The new manifests are not among what is deleted. */
  lemma BundlesStay(store: Store, rank: FileId -> nat, chunks: seq<FileChunk>, cached: seq<FileChunk>, blobs: Blobs,
                    now: int, stored: seq<FileChunk>, mergeFactor: nat, more: Store, bundles: seq<FileChunk>,
                    list: seq<FileChunk>)
    requires Sound(store, rank, chunks, cached, blobs, now) && mergeFactor > 0
    requires forall id :: id in more ==> id !in blobs
    requires Saved(bundles, store, more) && Listed(FlushKeeps(store, rank, chunks), mergeFactor, bundles, list)
    ensures forall b :: b in bundles ==> b.fileId !in (IdsOf(stored) - IdsOf(list)) + GarbageIds(store, rank, chunks)
  {
    GarbageStored(store, rank, chunks, cached, blobs, now);
    hide GarbageIds;
    hide FlushKeeps;
    forall b | b in bundles ensures b.fileId in IdsOf(list) {
      assert b in list;
    }
  }

  lemma ListedMembers(kept: seq<FileChunk>, mergeFactor: nat, bundles: seq<FileChunk>, list: seq<FileChunk>)
    requires mergeFactor > 0 && Listed(kept, mergeFactor, bundles, list)
    ensures forall c :: c in list && !c.isManifest ==> c in kept
  {
    var rest := kept[Batched(|kept|, mergeFactor)..];
    assert forall c :: c in rest ==> c in kept;
    assert forall c :: c in list ==> c in bundles || c in rest;
  }

  lemma SoundNow(store: Store, rank: FileId -> nat, chunks: seq<FileChunk>, cached: seq<FileChunk>, blobs: Blobs,
                 now: int, less: Store, later: int, sent: seq<FileChunk>)
    requires Sound(store, rank, chunks, cached, blobs, now) && now <= later && Grounded(less, rank) && sent != []
    requires var data, kept := Resolve(store, rank, chunks).data, FlushKeeps(store, rank, chunks);
             DistinctTimes(kept) && (forall c :: c in kept ==> c in data) && Resolve(less, rank, sent).Ok?
             && Resolve(less, rank, sent).data == kept
    ensures Sound(less, rank, sent, cached, blobs, later)
  {
    hide FlushKeeps;
    hide Resolve;
  }

  lemma StoredNow(less: Store, rank: FileId -> nat, list: seq<FileChunk>, kept: seq<FileChunk>, sent: seq<FileChunk>,
                  cached: seq<FileChunk>, blobs: Blobs, later: int)
    requires Grounded(less, rank) && Resolve(less, rank, list).Ok? && (sent == list || sent == kept)
    requires Sound(less, rank, sent, cached, blobs, later) && Resolve(less, rank, sent).data == kept
    requires forall c :: c in list && !c.isManifest ==> c in kept
    ensures StoredOk(less, rank, list, sent, cached)
  {
    hide Resolve;
    forall c, p | c in list && Newest(cached, p) == Some(c) ensures c in sent {
      assert c in cached && !c.isManifest;
    }
  }

  /** Deleting neither the saved manifests nor what is listed leaves the list as it is. */
  lemma ListedStays(store: Store, rank: FileId -> nat, kept: seq<FileChunk>, more: Store,
                    bundles: seq<FileChunk>, list: seq<FileChunk>, gone: set<FileId>)
    requires Saved(bundles, store, more) && Grounded(more, rank) && AllData(kept)
    requires Resolve(more, rank, list) == Ok(kept, bundles)
    requires forall b :: b in bundles ==> b.fileId !in gone
    ensures Grounded(more - gone, rank)
    ensures Resolve(more - gone, rank, list) == Ok(kept, bundles) && Resolve(more - gone, rank, kept) == Ok(kept, [])
  {
    assert Grounded(more - gone, rank);
    assert forall b :: b in bundles ==> b.fileId in more;
    ResolveShrink(more, more - gone, rank, list);
    ResolveData(more - gone, rank, kept);
  }

  /** The entry when the filer refused: the entry's list is the kept chunks, the filer's list is as it was. */
  lemma RefusedSound(store: Store, rank: FileId -> nat, chunks: seq<FileChunk>, cached: seq<FileChunk>, blobs: Blobs,
                     now: int, stored: seq<FileChunk>, more: Store, later: int)
    requires Sound(store, rank, chunks, cached, blobs, now) && now <= later
    requires (forall id :: id in store ==> id !in blobs)
    requires StoredOk(store, rank, stored, chunks, cached) && Grounded(more, rank) && Grew(store, more)
    requires NewestListed(chunks, cached)
    ensures
      var kept := FlushKeeps(store, rank, chunks);
      && Sound(more, rank, kept, cached, blobs, later) && Resolve(more, rank, kept) == Ok(kept, [])
      && StoredOk(more, rank, stored, kept, cached) && NewestListed(kept, cached)
  {
    var kept := FlushKeeps(store, rank, chunks);
    KeptFacts(store, rank, chunks, cached, blobs, now);
    ResolveData(more, rank, kept);
    ResolveGrow(store, more, rank, stored);
    forall c, p | c in stored && Newest(cached, p) == Some(c) ensures c in kept {
      ShownIsKept(store, rank, chunks, cached, blobs, now, c, p);
    }
    var c :| c in chunks && !c.isManifest && forall d :: d in cached ==> d.mtime <= c.mtime;
    NewestKept(store, rank, chunks, cached, blobs, now, c);
  }

  /** Which cached chunks are deleted when the entry is stored. */
  lemma StoredDeletes(store: Store, rank: FileId -> nat, chunks: seq<FileChunk>, cached: seq<FileChunk>, blobs: Blobs,
                      now: int, stored: seq<FileChunk>, mergeFactor: nat, more: Store, bundles: seq<FileChunk>,
                      list: seq<FileChunk>, c: FileChunk)
    requires Sound(store, rank, chunks, cached, blobs, now) && mergeFactor > 0 && c in cached
    requires (forall id :: id in store ==> id !in blobs) && (forall id :: id in more ==> id !in blobs)
    requires StoredOk(store, rank, stored, chunks, cached) && Saved(bundles, store, more)
    requires Listed(FlushKeeps(store, rank, chunks), mergeFactor, bundles, list)
    ensures
      var kept := FlushKeeps(store, rank, chunks);
      c.fileId in ((IdsOf(stored) - IdsOf(list)) + GarbageIds(store, rank, chunks)) * blobs.Keys
      <==> (c in chunks && c !in kept) || (c in stored && c !in kept[Batched(|kept|, mergeFactor)..])
  {
    var kept := FlushKeeps(store, rank, chunks);
    KeptFacts(store, rank, chunks, cached, blobs, now);
    assert Uploaded(c, blobs);
    SameId(store, rank, stored, cached, blobs, c);
    var rest := kept[Batched(|kept|, mergeFactor)..];
    assert forall x :: x in rest ==> x in kept;
    assert c.fileId in IdsOf(list) <==> c in rest by {
      assert forall x :: x in list <==> x in bundles || x in rest;
      assert forall x :: x in rest ==> x in cached;
    }
    GarbageHas(store, rank, chunks, cached, blobs, now, c);
  }

  /** In a list that resolves, only the chunk itself has its id. */
  lemma SameId(store: Store, rank: FileId -> nat, list: seq<FileChunk>, cached: seq<FileChunk>, blobs: Blobs,
               c: FileChunk)
    requires Grounded(store, rank) && Resolve(store, rank, list).Ok? && (forall id :: id in store ==> id !in blobs)
    requires AllUploaded(cached, blobs) && DistinctIds(cached) && c in cached
    requires forall x :: x in list && !x.isManifest ==> x in cached
    ensures c.fileId in IdsOf(list) <==> c in list
    ensures forall x :: x in list && x.fileId == c.fileId ==> x == c
  {
    assert Uploaded(c, blobs);
    forall x | x in list && x.fileId == c.fileId ensures x == c {
      if x.isManifest {
        ManifestsStored(store, rank, list, x);
      }
    }
  }

  lemma GarbageHas(store: Store, rank: FileId -> nat, chunks: seq<FileChunk>, cached: seq<FileChunk>, blobs: Blobs,
                   now: int, c: FileChunk)
    requires Sound(store, rank, chunks, cached, blobs, now) && (forall id :: id in store ==> id !in blobs)
    requires c in cached
    ensures c.fileId in GarbageIds(store, rank, chunks) <==> c in chunks && c !in FlushKeeps(store, rank, chunks)
  {
    var data := Resolve(store, rank, chunks).data;
    forall x | x in chunks && !x.isManifest ensures x in cached {
      DirectIsData(store, rank, chunks, x);
    }
    SameId(store, rank, chunks, cached, blobs, c);
    DroppedIds(chunks, Ids(VisibleOf(data)));
    KeepMembers(chunks, Ids(VisibleOf(data)), c);
  }
}
