/** Which chunks of an entry are kept and which are handed over for deletion. */
module Cleanup {
  import opened Common
  import opened Chunks
  import opened Storage
  import opened Visibility
  import opened Manifests

  predicate HasChunkManifest(chunks: seq<FileChunk>) {
    exists c :: c in chunks && c.isManifest
  }

  method DoMinusChunks(as_: seq<FileChunk>, bs: seq<FileChunk>) returns (delta: seq<FileChunk>)
    ensures delta == Drop(as_, IdsOf(bs))
  {
    var fileIds: set<FileId> := {};
    for i := 0 to |bs|
      invariant fileIds == IdsOf(bs[..i])
    {
      assert bs[..i+1] == bs[..i] + [bs[i]];
      fileIds := fileIds + {bs[i].fileId};
    }
    assert bs[..|bs|] == bs;
    delta := [];
    for i := 0 to |as_|
      invariant delta == Drop(as_[..i], fileIds)
    {
      assert as_[..i+1][..i] == as_[..i];
      if as_[i].fileId !in fileIds {
        delta := delta + [as_[i]];
      }
    }
    assert as_[..|as_|] == as_;
  }

  /** The data chunks and the manifests of the old list whose file ids the new list does not use. */
  method MinusChunks(store: Store, ghost rank: FileId -> nat, as_: seq<FileChunk>, bs: seq<FileChunk>)
    returns (ok: bool, delta: seq<FileChunk>)
    requires Grounded(store, rank)
    ensures ok <==> Resolve(store, rank, as_).Ok? && Resolve(store, rank, bs).Ok?
    ensures ok ==> delta == Drop(Resolve(store, rank, as_).data, IdsOf(Resolve(store, rank, bs).data))
                          + Drop(Resolve(store, rank, as_).manifests, IdsOf(Resolve(store, rank, bs).manifests))
  {
    delta := [];
    var aOk, aData, aMeta := ResolveChunkManifest(store, rank, as_);
    if !aOk {
      return false, [];
    }
    var bOk, bData, bMeta := ResolveChunkManifest(store, rank, bs);
    if !bOk {
      return false, [];
    }
    var dataDelta := DoMinusChunks(aData, bData);
    var metaDelta := DoMinusChunks(aMeta, bMeta);
    ok, delta := true, dataDelta + metaDelta;
  }

  /** Everything the list stands for: data chunks and manifests. */
  ghost function All(r: Resolved): seq<FileChunk>
    requires r.Ok?
  {
    r.data + r.manifests
  }

  /** The list of the entry before data chunks are bundled. */
  ghost function Compacted(chunks: seq<FileChunk>): seq<FileChunk> {
    if HasChunkManifest(chunks) then chunks else Keep(chunks, Ids(VisibleOf(chunks)))
  }

  /**
   The chunks to store for an entry that replaces an existing one, and the chunks to delete.  Lists
   with manifests are not compacted.
   */
  method CleanupChunks(volumes: Volumes, existing: seq<FileChunk>, newChunks: seq<FileChunk>, mergeFactor: nat,
                       ghost rank: FileId -> nat)
    returns (ok: bool, chunks: seq<FileChunk>, garbage: seq<FileChunk>, ghost bundles: seq<FileChunk>)
    requires volumes.Valid() && mergeFactor > 0 && Grounded(volumes.manifests, rank)
    requires Resolve(volumes.manifests, rank, newChunks).Ok? && Resolve(volumes.manifests, rank, existing).Ok?
    modifies volumes`manifests, volumes`nextId, volumes`clock, volumes`savesLeft
    ensures volumes.Valid() && Grounded(volumes.manifests, rank) && volumes.clock >= old(volumes.clock)
    ensures Saved(bundles, old(volumes.manifests), volumes.manifests)
    ensures ok <==> |DataOf(Compacted(newChunks))| / mergeFactor <= old(volumes.savesLeft)
    ensures ok ==> Manifestized(Compacted(newChunks), mergeFactor, bundles, chunks)
    ensures ok ==> SameData(volumes.manifests, rank, chunks, old(Kept(volumes.manifests, rank, newChunks)))
    ensures ok && AllData(newChunks) ==> Resolve(volumes.manifests, rank, chunks) == Ok(Compacted(newChunks), bundles)
    ensures !ok ==> chunks == DataOf(Compacted(newChunks))
    ensures garbage == old(Garbage(volumes.manifests, rank, existing, newChunks))
  {
    var minusOk;
    minusOk, garbage := MinusChunks(volumes.manifests, rank, existing, newChunks);
    chunks := newChunks;
    ResolveWhenData(volumes.manifests, rank, newChunks);
    if !HasChunkManifest(newChunks) {
      var covered;
      chunks, covered := CompactFileChunks(newChunks, newChunks);
      garbage := garbage + covered;
      KeepStaysData(volumes.manifests, rank, newChunks);
    }
    chunks, ok, bundles := DoMaybeManifestize(volumes, chunks, mergeFactor, rank);
  }

  /** The data chunks that stay: those that show, or all of them when the list has manifests. */
  ghost function Kept(store: Store, rank: FileId -> nat, chunks: seq<FileChunk>): seq<FileChunk>
    requires Grounded(store, rank) && Resolve(store, rank, chunks).Ok?
  {
    if HasChunkManifest(chunks) then Resolve(store, rank, chunks).data
    else Keep(chunks, Ids(VisibleOf(chunks)))
  }

  ghost function Garbage(store: Store, rank: FileId -> nat, existing: seq<FileChunk>,
                         chunks: seq<FileChunk>): seq<FileChunk>
    requires Grounded(store, rank) && Resolve(store, rank, chunks).Ok? && Resolve(store, rank, existing).Ok?
  {
    var old_, new_ := Resolve(store, rank, existing), Resolve(store, rank, chunks);
    Drop(old_.data, IdsOf(new_.data)) + Drop(old_.manifests, IdsOf(new_.manifests))
    + if HasChunkManifest(chunks) then [] else Drop(chunks, Ids(VisibleOf(chunks)))
  }

  lemma ResolveWhenData(store: Store, rank: FileId -> nat, chunks: seq<FileChunk>)
    requires Grounded(store, rank)
    ensures !HasChunkManifest(chunks) ==> Resolve(store, rank, chunks) == Ok(chunks, [])
  {
    if !HasChunkManifest(chunks) {
      ResolveData(store, rank, chunks);
    }
  }

  lemma KeepStaysData(store: Store, rank: FileId -> nat, chunks: seq<FileChunk>)
    requires Grounded(store, rank) && AllData(chunks)
    ensures Resolve(store, rank, Keep(chunks, Ids(VisibleOf(chunks)))) == Ok(Keep(chunks, Ids(VisibleOf(chunks))), [])
    ensures AllData(Keep(chunks, Ids(VisibleOf(chunks))))
  {
    var kept := Keep(chunks, Ids(VisibleOf(chunks)));
    forall c | c in kept ensures c in chunks {
      KeepMembers(chunks, Ids(VisibleOf(chunks)), c);
    }
    ResolveData(store, rank, kept);
  }

  // ----- storing the list -----

  /** Deletes what the old entry lists and the new one does not name; nobody looks into manifests here. */
  method DeleteChunksIfNotNew(volumes: Volumes, oldChunks: seq<FileChunk>, newChunks: seq<FileChunk>)
    requires volumes.Valid()
    modifies volumes`deleted, volumes`manifests
    ensures volumes.Valid()
    ensures
      var gone := IdsOf(oldChunks) - IdsOf(newChunks);
      && volumes.deleted == old(volumes.deleted) + (gone * volumes.blobs.Keys)
      && volumes.manifests == old(volumes.manifests) - gone
  {
    var toDelete := DoMinusChunks(oldChunks, newChunks);
    DroppedIds(oldChunks, IdsOf(newChunks));
    volumes.DeleteFileChunks(IdsOf(toDelete));
  }

  lemma DroppedIds(chunks: seq<FileChunk>, ids: set<FileId>)
    ensures IdsOf(Drop(chunks, ids)) == IdsOf(chunks) - ids
  {
    forall id ensures id in IdsOf(Drop(chunks, ids)) <==> id in IdsOf(chunks) - ids {
      if id in IdsOf(Drop(chunks, ids)) {
        var c :| c in Drop(chunks, ids) && c.fileId == id;
        KeepMembers(chunks, ids, c);
      }
      if id in IdsOf(chunks) - ids {
        var c :| c in chunks && c.fileId == id;
        KeepMembers(chunks, ids, c);
      }
    }
  }

  /** What is deleted when `chunks`, made of the list that was sent, takes the place of the stored list. */
  ghost function Replaced(stored: seq<FileChunk>, sent: seq<FileChunk>, chunks: seq<FileChunk>): set<FileId> {
    (IdsOf(stored) - IdsOf(chunks)) + if HasChunkManifest(sent) then {} else IdsOf(sent) - Ids(VisibleOf(sent))
  }

  /** The filer's call that stores a list in place of the old one: cleaned up, bundled, replaced chunks deleted. */
  method CreateEntry(volumes: Volumes, stored: seq<FileChunk>, sent: seq<FileChunk>, mergeFactor: nat,
                     ghost rank: FileId -> nat)
    returns (ok: bool, chunks: seq<FileChunk>, ghost bundles: seq<FileChunk>, ghost more: Store)
    requires volumes.Valid() && mergeFactor > 0 && Grounded(volumes.manifests, rank)
    requires Resolve(volumes.manifests, rank, sent).Ok?
    modifies volumes`deleted, volumes`manifests, volumes`nextId, volumes`clock, volumes`savesLeft
    ensures volumes.Valid() && volumes.clock >= old(volumes.clock)
    ensures Grounded(more, rank) && Saved(bundles, old(volumes.manifests), more)
    ensures forall id :: id in more ==> id !in volumes.blobs
    ensures ok <==> |DataOf(Compacted(sent))| / mergeFactor <= old(volumes.savesLeft)
    ensures !ok ==> volumes.manifests == more && volumes.deleted == old(volumes.deleted)
    ensures ok ==> Manifestized(Compacted(sent), mergeFactor, bundles, chunks)
    ensures ok ==> SameData(more, rank, chunks, old(Kept(volumes.manifests, rank, sent)))
    ensures ok && AllData(sent) ==> Resolve(more, rank, chunks) == Ok(Compacted(sent), bundles)
    ensures ok ==> volumes.manifests == more - Replaced(stored, sent, chunks)
    ensures ok ==> volumes.deleted == old(volumes.deleted) + (Replaced(stored, sent, chunks) * volumes.blobs.Keys)
  {
    hide *;
    var garbage;
    NothingExists(volumes.manifests, rank, sent);
    ok, chunks, garbage, bundles := CleanupChunks(volumes, [], sent, mergeFactor, rank);
    more := volumes.manifests;
    volumes.Apart();
    if ok {
      DeleteBoth(volumes, stored, chunks, garbage);
      ReplacedIs(stored, sent, chunks, garbage);
    }
  }

  method DeleteBoth(volumes: Volumes, stored: seq<FileChunk>, chunks: seq<FileChunk>, garbage: seq<FileChunk>)
    requires volumes.Valid()
    modifies volumes`deleted, volumes`manifests
    ensures volumes.Valid()
    ensures
      var gone := (IdsOf(stored) - IdsOf(chunks)) + IdsOf(garbage);
      && volumes.deleted == old(volumes.deleted) + (gone * volumes.blobs.Keys)
      && volumes.manifests == old(volumes.manifests) - gone
  {
    hide *;
    DeleteChunksIfNotNew(volumes, stored, chunks);
    volumes.DeleteFileChunks(IdsOf(garbage));
  }

  lemma NothingExists(store: Store, rank: FileId -> nat, sent: seq<FileChunk>)
    requires Grounded(store, rank) && Resolve(store, rank, sent).Ok?
    ensures Resolve(store, rank, []).Ok?
    ensures Garbage(store, rank, [], sent) == if HasChunkManifest(sent) then [] else Drop(sent, Ids(VisibleOf(sent)))
  {}

  lemma ReplacedIs(stored: seq<FileChunk>, sent: seq<FileChunk>, chunks: seq<FileChunk>, garbage: seq<FileChunk>)
    requires garbage == if HasChunkManifest(sent) then [] else Drop(sent, Ids(VisibleOf(sent)))
    ensures Replaced(stored, sent, chunks) == (IdsOf(stored) - IdsOf(chunks)) + IdsOf(garbage)
  {
    DroppedIds(sent, Ids(VisibleOf(sent)));
  }

  /** The stored list shows the same chunk at every position as the list that was sent. */
  lemma CleanupKeepsContent(store: Store, more: Store, rank: FileId -> nat, newChunks: seq<FileChunk>,
                            result: seq<FileChunk>, p: int)
    requires Grounded(store, rank) && Grounded(more, rank) && Resolve(store, rank, newChunks).Ok?
    requires SameData(more, rank, result, Kept(store, rank, newChunks))
    requires DistinctTimes(Resolve(store, rank, newChunks).data) && Positive(Resolve(store, rank, newChunks).data)
    ensures Newest(Resolve(more, rank, result).data, p) == Newest(Resolve(store, rank, newChunks).data, p)
  {
    var kept := Kept(store, rank, newChunks);
    ResolveWhenData(store, rank, newChunks);
    if !HasChunkManifest(newChunks) {
      CompactKeepsNewest(newChunks, p);
      KeptDistinct(newChunks, Ids(VisibleOf(newChunks)));
    }
    BagNewest(Resolve(more, rank, result).data, kept, p);
  }

  lemma BagNewest(a: seq<FileChunk>, b: seq<FileChunk>, p: int)
    requires multiset(a) == multiset(b) && DistinctTimes(b)
    ensures Newest(a, p) == Newest(b, p)
  {
    forall c ensures c in a <==> c in b {
      assert c in a <==> c in multiset(a);
      assert c in b <==> c in multiset(b);
    }
    NewestSameSet(a, b, p);
  }

  /** No id is that of a data chunk in one list and of a manifest in the other. */
  ghost predicate KindsApart(old_: Resolved, new_: Resolved)
    requires old_.Ok? && new_.Ok?
  {
    IdsOf(old_.manifests) !! IdsOf(new_.data) && IdsOf(old_.data) !! IdsOf(new_.manifests)
  }

  lemma KeptNotGarbage(store: Store, rank: FileId -> nat, existing: seq<FileChunk>, newChunks: seq<FileChunk>,
                       c: FileChunk, g: FileChunk)
    requires Grounded(store, rank) && Resolve(store, rank, newChunks).Ok? && Resolve(store, rank, existing).Ok?
    requires KindsApart(Resolve(store, rank, existing), Resolve(store, rank, newChunks))
    requires c in Kept(store, rank, newChunks) || c in Resolve(store, rank, newChunks).manifests
    requires g in Garbage(store, rank, existing, newChunks)
    ensures c.fileId != g.fileId
  {
    ResolveWhenData(store, rank, newChunks);
    var old_, new_ := Resolve(store, rank, existing), Resolve(store, rank, newChunks);
    var ids := Ids(VisibleOf(newChunks));
    KeepMembers(newChunks, ids, c);
    assert c in new_.manifests ==> c.fileId in IdsOf(new_.manifests);
    assert c !in new_.manifests ==> c in new_.data && c.fileId in IdsOf(new_.data);
    if g in Drop(old_.data, IdsOf(new_.data)) {
      KeepMembers(old_.data, IdsOf(new_.data), g);
      assert g.fileId in IdsOf(old_.data);
    } else if g in Drop(old_.manifests, IdsOf(new_.manifests)) {
      KeepMembers(old_.manifests, IdsOf(new_.manifests), g);
      assert g.fileId in IdsOf(old_.manifests);
    } else {
      KeepMembers(newChunks, ids, g);
    }
  }

  /** Neither data nor a manifest that stays is deleted with the garbage. */
  lemma GarbageIsUnused(store: Store, rank: FileId -> nat, existing: seq<FileChunk>, newChunks: seq<FileChunk>)
    requires Grounded(store, rank) && Resolve(store, rank, newChunks).Ok? && Resolve(store, rank, existing).Ok?
    requires KindsApart(Resolve(store, rank, existing), Resolve(store, rank, newChunks))
    ensures IdsOf(Kept(store, rank, newChunks)) + IdsOf(Resolve(store, rank, newChunks).manifests)
            !! IdsOf(Garbage(store, rank, existing, newChunks))
  {
    forall c, g | (c in Kept(store, rank, newChunks) || c in Resolve(store, rank, newChunks).manifests)
                  && g in Garbage(store, rank, existing, newChunks)
      ensures c.fileId != g.fileId
    {
      KeptNotGarbage(store, rank, existing, newChunks, c, g);
    }
  }

  /** Every data chunk and every manifest of the old or the new list stays or is deleted. */
  lemma NothingLeaks(store: Store, rank: FileId -> nat, existing: seq<FileChunk>, newChunks: seq<FileChunk>,
                     c: FileChunk)
    requires Grounded(store, rank) && Resolve(store, rank, newChunks).Ok? && Resolve(store, rank, existing).Ok?
    requires c in All(Resolve(store, rank, existing)) + All(Resolve(store, rank, newChunks))
    ensures c.fileId in IdsOf(Kept(store, rank, newChunks)) + IdsOf(Resolve(store, rank, newChunks).manifests)
                        + IdsOf(Garbage(store, rank, existing, newChunks))
  {
    ResolveWhenData(store, rank, newChunks);
    var old_, new_ := Resolve(store, rank, existing), Resolve(store, rank, newChunks);
    var ids := Ids(VisibleOf(newChunks));
    KeepMembers(old_.data, IdsOf(new_.data), c);
    KeepMembers(old_.manifests, IdsOf(new_.manifests), c);
    if c.fileId in IdsOf(new_.data) {
      var d :| d in new_.data && d.fileId == c.fileId;
      KeepMembers(newChunks, ids, d);
    } else if c.fileId !in IdsOf(new_.manifests) {
      assert c in old_.data || c in old_.manifests;
      assert c in Garbage(store, rank, existing, newChunks);
    }
  }

  // ----- appending to an entry -----

  /** The chunks laid one behind the other from `offset` on. */
  function Placed(chunks: seq<FileChunk>, offset: int): seq<FileChunk> {
    if chunks == [] then [] else [chunks[0].(offset := offset)] + Placed(chunks[1..], offset + chunks[0].size)
  }

  function Sizes(chunks: seq<FileChunk>): int {
    if chunks == [] then 0 else chunks[0].size + Sizes(chunks[1..])
  }

  /** Chunks of positive size placed at the end of a file cover exactly the positions from there on. */
  lemma {:induction false} PlacedCovers(chunks: seq<FileChunk>, offset: int, p: int)
    requires Positive(chunks)
    ensures Newest(Placed(chunks, offset), p).Some? <==> offset <= p < offset + Sizes(chunks)
    ensures 0 <= Sizes(chunks)
  {
    if chunks != [] {
      var c, rest := chunks[0].(offset := offset), Placed(chunks[1..], offset + chunks[0].size);
      assert chunks[0] in chunks && forall d :: d in chunks[1..] ==> d in chunks;
      PlacedCovers(chunks[1..], offset + chunks[0].size, p);
      assert Placed(chunks, offset) == [c] + rest;
      var n := Newest(Placed(chunks, offset), p);
      assert c in Placed(chunks, offset) && forall d :: d in rest ==> d in Placed(chunks, offset);
      assert n.Some? ==> n.value == c || n.value in rest;
      assert Newest(rest, p).Some? ==> Newest(rest, p).value in rest;
    }
  }

  /** The entry's list with more chunks at its end. */
  function Extended(entry: seq<FileChunk>, added: seq<FileChunk>): seq<FileChunk> {
    entry + Placed(added, TotalSize(entry))
  }

  /** Appended data chunks come behind the data of the entry. */
  lemma ExtendedResolves(store: Store, rank: FileId -> nat, entry: seq<FileChunk>, added: seq<FileChunk>)
    requires Grounded(store, rank) && Resolve(store, rank, entry).Ok? && AllData(added)
    ensures Resolve(store, rank, Extended(entry, added)) ==
      Ok(Resolve(store, rank, entry).data + Placed(added, TotalSize(entry)), Resolve(store, rank, entry).manifests)
  {
    PlacedData(added, TotalSize(entry));
    ResolveData(store, rank, Placed(added, TotalSize(entry)));
    ResolveConcat(store, rank, entry, Placed(added, TotalSize(entry)));
  }

  lemma {:induction false} PlacedData(chunks: seq<FileChunk>, offset: int)
    requires AllData(chunks)
    ensures AllData(Placed(chunks, offset))
  {
    if chunks != [] {
      assert chunks[0] in chunks;
      PlacedData(chunks[1..], offset + chunks[0].size);
    }
  }

  /**
   The list that is stored after chunks were appended to an entry, whether or not manifests could be saved: it stands
   for the whole list, or has lost the manifests.  What the entry listed and the new list does not name is deleted.
   */
  method AppendToEntry(volumes: Volumes, entry: seq<FileChunk>, added: seq<FileChunk>, mergeFactor: nat,
                       ghost rank: FileId -> nat)
    returns (chunks: seq<FileChunk>, ghost saved: bool, ghost bundles: seq<FileChunk>, ghost more: Store)
    requires volumes.Valid() && mergeFactor > 0 && Grounded(volumes.manifests, rank)
    requires Resolve(volumes.manifests, rank, Extended(entry, added)).Ok?
    modifies volumes`deleted, volumes`manifests, volumes`nextId, volumes`clock, volumes`savesLeft
    ensures volumes.Valid() && Grounded(more, rank) && Saved(bundles, old(volumes.manifests), more)
    ensures saved <==> |DataOf(Extended(entry, added))| / mergeFactor <= old(volumes.savesLeft)
    ensures saved ==> Manifestized(Extended(entry, added), mergeFactor, bundles, chunks)
    ensures saved ==> TotalSize(chunks) == TotalSize(Extended(entry, added))
    ensures saved ==> SameData(more, rank, chunks, old(Resolve(volumes.manifests, rank, Extended(entry, added)).data))
    ensures !saved ==> chunks == DataOf(Extended(entry, added))
    ensures
      var gone := IdsOf(entry) - IdsOf(chunks);
      && volumes.deleted == old(volumes.deleted) + (gone * volumes.blobs.Keys) && volumes.manifests == more - gone
  {
    var offset := Size(entry);
    var placed := PlaceChunks(added, offset);
    var ok;
    chunks, ok, bundles := DoMaybeManifestize(volumes, entry + placed, mergeFactor, rank);
    saved, more := ok, volumes.manifests;
    hide *;
    DeleteChunksIfNotNew(volumes, entry, chunks);
  }

  /**
   Which chunks of the entry an append deletes: the data chunks in the full batches, which only the new manifests name,
   or, when a save failed, the manifests.
   */
  lemma AppendDeletes(entry: seq<FileChunk>, all: seq<FileChunk>, mergeFactor: nat, bundles: seq<FileChunk>,
                      chunks: seq<FileChunk>, saved: bool, c: FileChunk)
    requires mergeFactor > 0 && c in entry && entry <= all && DistinctTimes(DataOf(all))
    requires forall x, y :: x in all && y in all && x.fileId == y.fileId ==> x == y
    requires forall b, x :: b in bundles && x in all ==> b.fileId != x.fileId
    requires if saved then Manifestized(all, mergeFactor, bundles, chunks) else chunks == DataOf(all)
    ensures c.fileId in IdsOf(entry) - IdsOf(chunks) <==>
      if saved then c in DataOf(all)[..Batched(|DataOf(all)|, mergeFactor)] else c.isManifest
  {
    var data, done := DataOf(all), Batched(|DataOf(all)|, mergeFactor);
    assert c in all && c.fileId in IdsOf(entry);
    forall x
      ensures (x in data <==> x in all && !x.isManifest) && (x in ManifestsOf(all) <==> x in all && x.isManifest)
    {
      DataOfMembers(all, x);
    }
    hide DataOf;
    hide ManifestsOf;
    hide Batched;
    if saved {
      SplitOnce(data, done, c);
      assert forall x :: x in chunks <==> x in ManifestsOf(all) || x in bundles || x in data[done..];
      assert forall x :: x in data[done..] ==> x in data;
    }
    assert c.fileId in IdsOf(chunks) <==> c in chunks;
  }

  method PlaceChunks(chunks: seq<FileChunk>, start: int) returns (placed: seq<FileChunk>)
    ensures placed == Placed(chunks, start)
  {
    var offset := start;
    placed := [];
    assert chunks[0..] == chunks;
    for i := 0 to |chunks|
      invariant placed + Placed(chunks[i..], offset) == Placed(chunks, start)
    {
      assert chunks[i..][0] == chunks[i] && chunks[i..][1..] == chunks[i+1..];
      placed := placed + [chunks[i].(offset := offset)];
      offset := offset + chunks[i].size;
    }
    assert chunks[|chunks|..] == [];
  }

  /** The loop over the stops. */
  method Size(chunks: seq<FileChunk>) returns (size: int)
    ensures size == TotalSize(chunks)
  {
    size := 0;
    for i := 0 to |chunks|
      invariant size == TotalSize(chunks[..i])
    {
      assert chunks[..i+1][..i] == chunks[..i];
      if size < chunks[i].Stop() {
        size := chunks[i].Stop();
      }
    }
    assert chunks[..|chunks|] == chunks;
  }

  // ----- compaction of a list with manifests, as the file handle's flush does it -----

  /** The list a flush keeps: the intervals come from the data chunks, the split is made on the list itself. */
  ghost function FlushKeeps(store: Store, rank: FileId -> nat, chunks: seq<FileChunk>): seq<FileChunk>
    requires Grounded(store, rank) && Resolve(store, rank, chunks).Ok?
  {
    Keep(chunks, Ids(VisibleOf(Resolve(store, rank, chunks).data)))
  }

  /**
   A flush drops every manifest, so the content at p survives exactly when the chunk shown there, if
   there is one, is listed directly.
   */
  lemma FlushKeepsContent(store: Store, rank: FileId -> nat, chunks: seq<FileChunk>, p: int)
    requires Grounded(store, rank) && Resolve(store, rank, chunks).Ok?
    requires DistinctTimes(Resolve(store, rank, chunks).data) && Positive(Resolve(store, rank, chunks).data)
    requires forall m, d :: m in chunks && m.isManifest && d in Resolve(store, rank, chunks).data ==>
      m.fileId != d.fileId
    ensures AllData(FlushKeeps(store, rank, chunks))
    ensures
      var shown := Newest(Resolve(store, rank, chunks).data, p);
      Newest(FlushKeeps(store, rank, chunks), p) == shown <==> (shown.Some? ==> shown.value in chunks)
  {
    var data := Resolve(store, rank, chunks).data;
    var ids := Ids(VisibleOf(data));
    var kept := FlushKeeps(store, rank, chunks);
    forall c | c in kept ensures c in chunks && c in data && !c.isManifest {
      KeepMembers(chunks, ids, c);
      VisibleFromData(data, c.fileId);
      if !c.isManifest { DirectIsData(store, rank, chunks, c); }
    }
    if Newest(data, p).Some? && Newest(data, p).value in chunks {
      var c := Newest(data, p).value;
      VisibleOwner(data, p);
      IdsOwn(VisibleOf(data), c.fileId);
      KeepMembers(chunks, ids, c);
      NewestAmong(kept, data, p, c);
    }
  }

  lemma VisibleFromData(data: seq<FileChunk>, id: FileId)
    requires DistinctTimes(data) && Positive(data) && id in Ids(VisibleOf(data))
    ensures exists d :: d in data && d.fileId == id
  {
    VisibleOwner(data, 0);
    IdsOwn(VisibleOf(data), id);
    var p :| Visibles.Owner(VisibleOf(data), p) == Some(id);
    VisibleOwner(data, p);
  }

  /** A file whose chunks were all put into a manifest loses its first byte with the next flush. */
  lemma FlushLosesManifest()
    ensures
      var data, m := [FileChunk(1, 0, 10, 1, false)], FileChunk(2, 0, 10, 2, true);
      && Grounded(map[2 := data], Flat) && Resolve(map[2 := data], Flat, [m]).Ok?
      && Newest(FlushKeeps(map[2 := data], Flat, [m]), 0) != Newest(Resolve(map[2 := data], Flat, [m]).data, 0)
  {
    var data, m := [FileChunk(1, 0, 10, 1, false)], FileChunk(2, 0, 10, 2, true);
    OneManifest(data, m);
    NewestIs(data, 0, data[0]);
    FlushKeepsContent(map[2 := data], Flat, [m], 0);
  }
}
