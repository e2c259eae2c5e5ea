/** The filer's service calls: updating and renaming entries, and streaming listings. */
module FilerServer {
  import opened Common
  import opened Filer
  import opened Listing
  import opened Names
  import opened Namespace
  import opened Paths
  import opened Renames

  const MOVE_PAGE := 1024

  class FilerServer {
    const filer: Filer
    const dirListingLimit: int

    constructor (filer: Filer, dirListingLimit: int)
      ensures this.filer == filer && this.dirListingLimit == dirListingLimit
    {
      this.filer, this.dirListingLimit := filer, dirListingLimit;
    }

    /** Sends the matching entries of a page until enough are sent. */
    method SendPage(sent0: seq<Item>, limit: nat, prefix: string, entries: seq<Item>,
                    ghost s: Store, ghost dir: Path, ghost live: set<string>, ghost seen: set<string>, ghost page: nat)
      returns (sent: seq<Item>, left: nat, ghost now: set<string>)
      requires SentOf(sent0, s, dir, seen, prefix) && Ahead(seen, live) && limit > 0
      requires FirstOf(NamesOf(entries), live - seen, page) && AsStored(entries, s, dir)
      ensures |sent| + left == |sent0| + limit
      ensures SentOf(sent, s, dir, now, prefix) && Ahead(now, live)
      ensures left > 0 ==> now == seen + ToSet(NamesOf(entries))
    {
      ghost var r := NamesOf(entries);
      sent, left, now := sent0, limit, seen;
      PageStart(r, seen);
      for i := 0 to |entries|
        invariant |sent| + left == |sent0| + limit && left > 0
        invariant now == seen + ToSet(r[..i]) && SentOf(sent, s, dir, now, prefix) && Ahead(now, live)
      {
        AheadPage(r, i, seen, live, page);
        AheadPage(r, i + 1, seen, live, page);
        SentStep(sent, s, dir, now, prefix, entries[i]);
        now := now + {r[i]};
        if prefix <= entries[i].name {
          sent, left := sent + [entries[i]], left - 1;
          if left == 0 {
            return;
          }
        }
      }
    }

    /** Streams the first unexpired entries after the cursor whose names have the prefix, across pages. */
    method ListEntries(dir: Path, startFrom: string, inclusive: bool, prefix: string, reqLimit: nat)
      returns (sent: seq<Item>)
      modifies filer`store
      ensures AsStored(sent, old(filer.store), dir)
      ensures var all := After(ChildNames(old(filer.store), dir), startFrom, inclusive);
        var limit := if reqLimit == 0 then dirListingLimit else reqLimit;
        FirstOf(NamesOf(sent), Matching(Live(old(filer.store), dir, all, filer.now), prefix), Max(limit, 0))
    {
      var limit := if reqLimit == 0 then dirListingLimit else reqLimit;
      sent := [];
      if limit <= 0 {
        return;
      }
      sent := Stream(dir, startFrom, inclusive, prefix, limit);
    }

    method Stream(dir: Path, startFrom: string, inclusive: bool, prefix: string, wanted: nat) returns (sent: seq<Item>)
      requires wanted > 0
      modifies filer`store
      ensures AsStored(sent, old(filer.store), dir)
      ensures var all := After(ChildNames(old(filer.store), dir), startFrom, inclusive);
        FirstOf(NamesOf(sent), Matching(Live(old(filer.store), dir, all, filer.now), prefix), wanted)
    {
      ghost var s := filer.store;
      ghost var live := Live(s, dir, After(ChildNames(s, dir), startFrom, inclusive), filer.now);
      ghost var seen: set<string> := {};
      var limit, last, includeLast := wanted, startFrom, inclusive;
      var page := if limit < PAGINATION_SIZE then limit else PAGINATION_SIZE;
      sent := [];
      StreamStart(s, dir, startFrom, inclusive, prefix, filer.now);
      assert page > 0;
      hide SentOf;
      hide Streaming;
      hide AsStored;
      hide Live;
      hide LiveOf;
      hide FirstOf;
      hide After;
      hide Reaped;
      hide Matching;
      while limit > 0
        invariant |sent| + limit == wanted && limit >= 0 && SentOf(sent, s, dir, seen, prefix) && Ahead(seen, live)
        invariant limit > 0 ==> Streaming(s, filer.store, dir, last, includeLast, live, seen, filer.now)
        decreases if limit > 0 then |live - seen| + 1 else 0
      {
        ghost var t := filer.store;
        var entries;
        ghost var visited;
        entries, visited := filer.ListDirectoryEntries(dir, last, includeLast, page);
        StreamNext(s, t, dir, last, includeLast, live, seen, entries, visited, page, filer.now);
        if entries == [] {
          break;
        }
        includeLast, last := false, entries[|entries|-1].name;
        sent, limit, seen := SendPage(sent, limit, prefix, entries, s, dir, live, seen, page);
        if limit > 0 && |entries| < page {
          break;
        }
      }
      SentDone(sent, s, dir, seen, prefix, live, wanted);
      SentStored(sent, s, dir, seen, prefix);
    }

    /** Moves one child of the old directory. */
    method MoveSub(oldPath: Path, newPath: Path, sub: Item, ghost s: Store, ghost names: set<string>)
      requires filer.Valid() && MoveReady(s, oldPath, newPath, filer.now)
      requires filer.store == Moving(s, oldPath, newPath, names)
      requires sub.name !in names && Child(oldPath, sub.name) in s && sub.entry == s[Child(oldPath, sub.name)]
      modifies filer`store, filer`cache, filer`log
      ensures filer.Valid() && filer.store == Moving(s, oldPath, newPath, names + {sub.name})
      ensures old(filer.Mirrored()) ==> filer.Mirrored()
      decreases |Under(s, oldPath)|, 0
    {
      assert Housed(filer.store);
      hide *;
      SubMove(s, oldPath, newPath, names, sub.name, filer.now, ParentEntry(filer.now, sub.entry));
      var _ := MoveEntry(Child(oldPath, sub.name), sub.entry, Child(newPath, sub.name));
    }

    /** Moves a page of children one after the other. */
    method MovePage(oldPath: Path, newPath: Path, entries: seq<Item>, ghost s: Store, ghost names: set<string>)
      returns (last: string)
      requires filer.Valid() && MoveReady(s, oldPath, newPath, filer.now)
      requires filer.store == Moving(s, oldPath, newPath, names)
      requires entries != [] && Increasing(NamesOf(entries)) && ToSet(NamesOf(entries)) !! names
      requires AsStored(entries, s, oldPath)
      modifies filer`store, filer`cache, filer`log
      ensures filer.Valid() && filer.store == Moving(s, oldPath, newPath, names + ToSet(NamesOf(entries)))
      ensures old(filer.Mirrored()) ==> filer.Mirrored()
      ensures last == entries[|entries|-1].name
      decreases |Under(s, oldPath)|, 1
    {
      hide *;
      last := "";
      ghost var r := NamesOf(entries);
      PageStart(r, names);
      for i := 0 to |entries|
        invariant filer.Valid() && filer.store == Moving(s, oldPath, newPath, names + ToSet(r[..i]))
        invariant old(filer.Mirrored()) ==> filer.Mirrored()
        invariant i > 0 ==> last == entries[i-1].name
      {
        last := entries[i].name;
        PageItem(entries, s, oldPath, names, i);
        MoveSub(oldPath, newPath, entries[i], s, names + ToSet(r[..i]));
      }
    }

    /** Lists the next page of children while they are being moved away. */
    method ListNext(oldPath: Path, newPath: Path, last: string, ghost s: Store, ghost names: set<string>)
      returns (entries: seq<Item>)
      requires MoveReady(s, oldPath, newPath, filer.now) && filer.store == Moving(s, oldPath, newPath, names)
      requires Passed(ChildNames(s, oldPath), names, last)
      modifies filer`store
      ensures filer.store == old(filer.store) && AsStored(entries, s, oldPath)
      ensures FirstOf(NamesOf(entries), ChildNames(s, oldPath) - names, MOVE_PAGE) && MOVE_PAGE > 0
    {
      MovingPage(s, oldPath, newPath, names, last, filer.now);
      hide Moving;
      entries := filer.ListUnexpired(oldPath, last, MOVE_PAGE);
      assert forall i :: 0 <= i < |entries| ==> NamesOf(entries)[i] in NamesOf(entries);
    }

    /** Moves the next page of children; there may be more when it was full. */
    method MoveNextPage(oldPath: Path, newPath: Path, last: string, ghost s: Store, ghost names: set<string>)
      returns (next: string, more: bool, ghost taken: set<string>)
      requires filer.Valid() && MoveReady(s, oldPath, newPath, filer.now)
      requires filer.store == Moving(s, oldPath, newPath, names)
      requires Passed(ChildNames(s, oldPath), names, last)
      modifies filer`store, filer`cache, filer`log
      ensures filer.Valid() && filer.store == Moving(s, oldPath, newPath, names + taken)
      ensures old(filer.Mirrored()) ==> filer.Mirrored()
      ensures PageDone(ChildNames(s, oldPath), names, taken, next, more)
      decreases |Under(s, oldPath)|, 2
    {
      hide *;
      var entries := ListNext(oldPath, newPath, last, s, names);
      PageTaken(ChildNames(s, oldPath), names, last, entries, MOVE_PAGE);
      next, more, taken := last, |entries| == MOVE_PAGE, ToSet(NamesOf(entries));
      if entries != [] {
        next := MovePage(oldPath, newPath, entries, s, names);
      }
    }

    /** Moves all children of a directory, page by page. */
    method MoveFolderSubEntries(oldPath: Path, newPath: Path, ghost s: Store)
      requires filer.Valid() && MoveReady(s, oldPath, newPath, filer.now) && filer.store == s
      modifies filer`store, filer`cache, filer`log
      ensures filer.Valid() && filer.store == Moving(s, oldPath, newPath, ChildNames(s, oldPath))
      ensures old(filer.Mirrored()) ==> filer.Mirrored()
      decreases |Under(s, oldPath)|, 3
    {
      ghost var all, names: set<string> := ChildNames(s, oldPath), {};
      NamedChildren(s, oldPath);
      NonePassed(all);
      NoneMoved(s, oldPath, newPath);
      hide Moving;
      hide MoveReady;
      hide Passed;
      hide Housed;
      hide CacheOk;
      hide Follows;
      var last, more := "", true;
      while more
        invariant filer.Valid() && filer.store == Moving(s, oldPath, newPath, names)
        invariant old(filer.Mirrored()) ==> filer.Mirrored()
        invariant Passed(all, names, last) && (!more ==> names == all)
        decreases |all - names|, more
      {
        ghost var taken;
        last, more, taken := MoveNextPage(oldPath, newPath, last, s, names);
        names := names + taken;
      }
    }

    /** Moves an entry with all below it to a path where nothing is, or changes nothing when a file is in the way. */
    method MoveEntry(oldPath: Path, entry: Entry, newPath: Path) returns (err: Error)
      requires filer.Valid() && Unexpired(filer.store, filer.now)
      requires oldPath in filer.store && entry == filer.store[oldPath]
      requires newPath != [] && "" !in newPath && newPath !in filer.store && !(oldPath <= newPath)
      modifies filer`store, filer`cache, filer`log
      ensures filer.Valid() && (old(filer.Mirrored()) ==> filer.Mirrored())
      ensures err == Fine <==> !Blocked(old(filer.store), newPath)
      ensures err == Fine ==> filer.store == Renamed(old(filer.store), oldPath, newPath, ParentEntry(filer.now, entry))
      ensures err != Fine ==> filer.store == old(filer.store) && filer.log == old(filer.log)
      decreases |Under(filer.store, oldPath)|, 5
    {
      ghost var s, dir := filer.store, ParentEntry(filer.now, entry);
      hide *;
      CopyEntry(s, oldPath, filer.now);
      CopyMade(s, oldPath, newPath, filer.now);
      err := filer.CreateEntry(newPath, FromPb(entry), false);
      MayCreateCopy(s, newPath, FromPb(entry));
      if err != Fine {
        return;
      }
      err := FinishMove(oldPath, entry, newPath, s, dir);
    }

    /** Moves the children and deletes the old entry, the new one being there. */
    method FinishMove(oldPath: Path, entry: Entry, newPath: Path, ghost s: Store, ghost dir: Entry) returns (err: Error)
      requires filer.Valid() && Housed(filer.store) && Unexpired(filer.store, filer.now) && Housed(s) && oldPath in s
      requires entry == s[oldPath]
      requires newPath != [] && newPath !in s && !(oldPath <= newPath)
      requires filer.store == Created(s, newPath, FromPb(entry), dir) && Ready(filer.store, oldPath, newPath)
      requires |Under(filer.store, oldPath)| == |Under(s, oldPath)|
      modifies filer`store, filer`cache, filer`log
      ensures filer.Valid() && (old(filer.Mirrored()) ==> filer.Mirrored())
      ensures err == Fine && filer.store == Renamed(s, oldPath, newPath, dir)
      decreases |Under(s, oldPath)|, 4
    {
      ghost var s1 := filer.store;
      hide *;
      OldEntryThere(s, oldPath, newPath, entry, dir, filer.now);
      AllMoved(s1, oldPath, newPath, filer.now);
      if entry.isDir {
        MoveFolderSubEntries(oldPath, newPath, s1);
      } else {
        NoneInFile(s1, oldPath, newPath);
      }
      var chunks;
      err, chunks := filer.DeleteEntryMetaAndData(oldPath, false);
      RenameDone(s, oldPath, newPath, dir);
    }

    /** Renames an entry to a path where nothing is and that is not inside it. */
    method AtomicRenameEntry(oldPath: Path, newPath: Path) returns (err: Error)
      requires filer.Valid() && Unexpired(filer.store, filer.now) && oldPath != []
      requires MayRename(filer.store, oldPath, newPath)
      modifies filer`store, filer`cache, filer`log
      ensures filer.Valid() && (old(filer.Mirrored()) ==> filer.Mirrored())
      ensures err == Fine
         <==> oldPath in old(filer.store) && (oldPath == newPath || !Blocked(old(filer.store), newPath))
      ensures err == Fine && oldPath != newPath ==>
        filer.store == Renamed(old(filer.store), oldPath, newPath, ParentEntry(filer.now, old(filer.store)[oldPath]))
      ensures err != Fine || oldPath == newPath ==> filer.store == old(filer.store) && filer.log == old(filer.log)
    {
      var entry := filer.FindEntry(oldPath);
      if entry.None? {
        return NotFound;
      }
      if oldPath == newPath {
        return Fine;
      }
      err := MoveEntry(oldPath, entry.value, newPath);
    }

    /**
     * Updates an entry that is there. The event goes out even when the update is refused because it would turn a file
     * into a directory or back; then the follower no longer agrees, and only then.
     */
    method UpdateEntry(path: Path, newEntry: Entry) returns (err: Error)
      requires filer.Valid() && path != []
      modifies filer`store, filer`log
      ensures filer.Valid() && SameKinds(old(filer.store), filer.store)
      ensures err == Fine <==> path in old(filer.store) && old(filer.store)[path].isDir == newEntry.isDir
      ensures filer.store == if err == Fine then old(filer.store)[path := newEntry] else old(filer.store)
      ensures filer.log == if path in old(filer.store) && old(filer.store)[path] != newEntry
        then Notify(old(filer.log), path, true, Some(newEntry)) else old(filer.log)
      ensures old(filer.Mirrored()) ==>
        (filer.Mirrored() <==> path !in filer.store || old(filer.store)[path].isDir == newEntry.isDir || !Logged(path))
    {
      var entry := filer.FindEntry(path);
      if entry.None? {
        return NotFound;
      }
      if entry.value == newEntry {
        return Fine;
      }
      ghost var s, log := filer.store, filer.log;
      UpdateFollows(s, filer.start, log, path, newEntry);
      UpdateReady(s, path);
      err := filer.UpdateEntry(path, entry, newEntry);
      filer.NotifyUpdateEvent(path, true, Some(newEntry));
    }
  }

  /** Nothing is at the new path, which is not inside the old one; or they are the same. */
  predicate MayRename(s: Store, oldPath: Path, newPath: Path) {
    newPath == oldPath || (newPath != [] && "" !in newPath && newPath !in s && !(oldPath <= newPath))
  }

  lemma UpdateReady(s: Store, path: Path)
    requires Housed(s) && path in s
    ensures "" !in path && (|path| > 1 ==> Parent(path) in s && s[Parent(path)].isDir)
  {}

  lemma UpdateFollows(s: Store, start: Store, log: seq<Event>, path: Path, e: Entry)
    requires path in s
    ensures var log2 := Notify(log, path, true, Some(e));
      Follows(s, ReplayAll(start, log)) ==>
        && Follows(s[path := e], ReplayAll(start, log2))
        && (s[path].isDir != e.isDir ==> (Follows(s, ReplayAll(start, log2)) <==> !Logged(path)))
  {
    NotifyFollowsIf(s, start, log, path, true, Some(e));
    var f := ReplayAll(start, Notify(log, path, true, Some(e)));
    if Follows(s, ReplayAll(start, log)) && Logged(path) && s[path].isDir != e.isDir {
      assert SameAt(s[path := e], f, path);
      assert !SameAt(s, f, path);
    }
  }

  lemma NoneMoved(s: Store, oldPath: Path, newPath: Path)
    ensures Moving(s, oldPath, newPath, {}) == s
  {
    assert UnderNames(s, oldPath, {}) == {};
  }

  /** Children not moved yet are still to be listed, the others are gone. */
  lemma MovingPage(s: Store, oldPath: Path, newPath: Path, names: set<string>, last: string, now: int)
    requires MoveReady(s, oldPath, newPath, now) && Passed(ChildNames(s, oldPath), names, last)
    ensures var t := Moving(s, oldPath, newPath, names);
      && Unexpired(t, now)
      && After(ChildNames(t, oldPath), last, false) == ChildNames(s, oldPath) - names
      && forall name :: Child(oldPath, name) in t && name !in names ==>
           Child(oldPath, name) in s && t[Child(oldPath, name)] == s[Child(oldPath, name)]
  {
    var t := Moving(s, oldPath, newPath, names);
    RenameUnexpired(s, oldPath, newPath, names, now);
    forall name
      ensures Child(oldPath, name) in t <==> Child(oldPath, name) in s && name !in names
      ensures Child(oldPath, name) in t ==> t[Child(oldPath, name)] == s[Child(oldPath, name)]
    {
      if newPath < Child(oldPath, name) {
        Comparable(oldPath, newPath, Child(oldPath, name));
      }
      MovingAt(s, oldPath, newPath, names, Child(oldPath, name));
    }
    PassedRest(ChildNames(s, oldPath), names, last, ChildNames(t, oldPath));
  }

  lemma CopyMade(s: Store, oldPath: Path, newPath: Path, now: int)
    requires Housed(s) && Unexpired(s, now) && oldPath in s && newPath != [] && newPath !in s && !(oldPath <= newPath)
    ensures var s1 := Created(s, newPath, FromPb(s[oldPath]), ParentEntry(now, s[oldPath]));
      && Unexpired(s1, now) && Ready(s1, oldPath, newPath)
      && oldPath in s1 && newPath in s1 && s1[newPath] == FromPb(s[oldPath])
      && s1[oldPath] == s[oldPath] && |Under(s1, oldPath)| == |Under(s, oldPath)|
  {
    hide *;
    var e := s[oldPath];
    CopyEntry(s, oldPath, now);
    CreateUnexpired(s, newPath, FromPb(e), now);
    CreatedReady(s, oldPath, newPath, FromPb(e), ParentEntry(now, e));
    CreatedHas(s, newPath, FromPb(e), ParentEntry(now, e));
    assert oldPath <= oldPath;
  }

  lemma CopyEntry(s: Store, p: Path, now: int)
    requires Unexpired(s, now) && p in s
    ensures !FromPb(s[p]).Expired(now) && ParentEntry(now, FromPb(s[p])) == ParentEntry(now, s[p])
  {}

  lemma CreatedHas(s: Store, path: Path, e: Entry, dir: Entry)
    ensures path in Created(s, path, e, dir) && Created(s, path, e, dir)[path] == e
  {}

  lemma MayCreateCopy(s: Store, path: Path, e: Entry)
    requires path !in s
    ensures MayCreate(s, path, e, false) <==> !Blocked(s, path)
  {}

  /** The old entry is unchanged by the making of the new one, which is of its kind. */
  lemma OldEntryThere(s: Store, oldPath: Path, newPath: Path, entry: Entry, dir: Entry, now: int)
    requires Housed(s) && oldPath in s && entry == s[oldPath] && newPath != [] && newPath !in s && !(oldPath <= newPath)
    requires var s1 := Created(s, newPath, FromPb(entry), dir); Unexpired(s1, now) && Housed(s1)
    ensures var s1 := Created(s, newPath, FromPb(entry), dir);
      oldPath in s1 && s1[oldPath] == entry && (entry.isDir ==> MoveReady(s1, oldPath, newPath, now))
  {
    CreatedReady(s, oldPath, newPath, FromPb(entry), dir);
    CreatedHas(s, newPath, FromPb(entry), dir);
    assert oldPath <= oldPath;
    hide Created;
    hide Housed;
  }

  /** A directory whose children were all moved can be deleted. */
  lemma AllMoved(s: Store, oldPath: Path, newPath: Path, now: int)
    requires Ready(s, oldPath, newPath) && Unexpired(s, now) && oldPath in s && oldPath != []
    ensures var t := Moving(s, oldPath, newPath, ChildNames(s, oldPath));
      Unexpired(t, now) && oldPath != [] && MayDelete(t, oldPath, false)
  {
    var all := ChildNames(s, oldPath);
    RenameUnexpired(s, oldPath, newPath, all, now);
    MovingAt(s, oldPath, newPath, all, oldPath);
    forall name
      ensures Child(oldPath, name) !in Moving(s, oldPath, newPath, all)
    {
      if newPath < Child(oldPath, name) {
        Comparable(oldPath, newPath, Child(oldPath, name));
      }
      MovingAt(s, oldPath, newPath, all, Child(oldPath, name));
    }
  }

  lemma NoneInFile(s: Store, oldPath: Path, newPath: Path)
    requires Housed(s) && oldPath in s && !s[oldPath].isDir
    ensures Moving(s, oldPath, newPath, ChildNames(s, oldPath)) == s
  {
    forall name
      ensures Child(oldPath, name) !in s
    {
      NothingBelow(s, oldPath, Child(oldPath, name));
    }
    assert ChildNames(s, oldPath) == {};
    NoneMoved(s, oldPath, newPath);
  }

  lemma RenameDone(s: Store, oldPath: Path, newPath: Path, dir: Entry)
    requires Housed(s) && oldPath in s && newPath != [] && newPath !in s && !(oldPath <= newPath)
    requires Housed(Created(s, newPath, FromPb(s[oldPath]), dir))
    ensures var s1 := Created(s, newPath, FromPb(s[oldPath]), dir);
      Without(Moving(s1, oldPath, newPath, ChildNames(s1, oldPath)), oldPath) == Renamed(s, oldPath, newPath, dir)
  {
    hide *;
    var s1 := Created(s, newPath, FromPb(s[oldPath]), dir);
    var r := Without(Moving(s1, oldPath, newPath, ChildNames(s1, oldPath)), oldPath);
    var u := Renamed(s, oldPath, newPath, dir);
    forall p
      ensures (p in r <==> p in u) && (p in r ==> r[p] == u[p])
    {
      RenameDoneAt(s, oldPath, newPath, dir, ChildNames(s1, oldPath), p);
    }
  }
}
