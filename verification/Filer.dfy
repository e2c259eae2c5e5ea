/** The filer: creating, listing, deleting and moving entries, with a directory cache and an event log. */
module Filer {
  import opened Chunks
  import opened Common
  import opened Listing
  import opened Names
  import opened Namespace
  import opened Paths

  const PAGINATION_SIZE := 1024 * 256

  datatype Error = Fine | NotFound | IsAFile | Exists | IsADirectory | NotEmpty

  /** Whether an entry may be created: no file in the way, and nothing there, or something of its kind to replace. */
  ghost predicate MayCreate(s: Store, path: Path, entry: Entry, oExcl: bool) {
    !Blocked(s, path) && (path in s ==> !oExcl && s[path].isDir == entry.isDir)
  }

  /** The log once an entry was created: the missing parents first, then the entry. */
  ghost function CreateLog(log: seq<Event>, s: Store, path: Path, entry: Entry, dir: Entry): seq<Event> {
    Notify(ParentsLog(log, s, path, |path|, dir), path, path in s, Some(entry))
  }

  class Filer {
    var store: Store
    var cache: map<Path, Entry>
    var log: seq<Event>
    const now: int
    ghost const start: Store

    ghost predicate Valid()
      reads this
    {
      Housed(store) && CacheOk(cache, store)
    }

    lemma Parts()
      requires Valid()
      ensures Housed(store) && CacheOk(cache, store)
    {}

    lemma Whole()
      requires Housed(store) && CacheOk(cache, store)
      ensures Valid()
    {}

    /** A follower that began with the same entries and replays the log has what the store has. */
    ghost predicate Mirrored()
      reads this
    {
      Follows(store, ReplayAll(start, log))
    }

    constructor (store: Store, now: int)
      requires Housed(store)
      ensures Valid() && Mirrored() && this.store == store && this.now == now && start == store && log == []
      ensures cache == map[]
    {
      this.store, this.now, this.start, this.log, this.cache := store, now, store, [], map[];
    }

    /** The root is a directory that is not stored. */
    method FindEntry(p: Path) returns (entry: Option<Entry>)
      ensures p == [] ==> entry.Some? && entry.value.isDir
      ensures p != [] ==> entry == if p in store then Some(store[p]) else None
    {
      if p == [] {
        return Some(Entry(true, Attr(now, now, {0, 2, 3, 5, 6, 7, 8}, 0, 0, 0, "", "", ""), [], map[]));
      }
      entry := if p in store then Some(store[p]) else None;
    }

    method NotifyUpdateEvent(path: Path, hadOld: bool, newEntry: Option<Entry>)
      modifies this`log
      ensures log == Notify(old(log), path, hadOld, newEntry)
    {
      if Logged(path) {
        log := log + [Event(path, hadOld, newEntry)];
      }
    }

    /** The cache may drop a directory at any time. */
    method Evict(p: Path)
      requires Valid()
      modifies this`cache
      ensures Valid() && cache == old(cache) - {p}
    {
      cache := cache - {p};
    }

    /** Finds or makes one directory on the way to an entry. */
    method EnsureDirectory(dirPath: Path, dir: Entry) returns (err: Error)
      requires Valid() && dir.isDir && "" !in dirPath
      requires |dirPath| > 1 ==> Parent(dirPath) in store && store[Parent(dirPath)].isDir
      modifies this`store, this`cache, this`log
      ensures Valid() && (old(Mirrored()) ==> Mirrored())
      ensures err == if dirPath != [] && dirPath in old(store) && !old(store)[dirPath].isDir then IsAFile else Fine
      ensures store == if dirPath == [] || dirPath in old(store) then old(store) else old(store)[dirPath := dir]
      ensures log
        == if dirPath == [] || dirPath in old(store) then old(log) else Notify(old(log), dirPath, false, Some(dir))
      ensures err == Fine ==> dirPath in cache && old(cache.Keys) <= cache.Keys
    {
      hide Housed;
      hide Follows;
      hide Notify;
      var found := if dirPath in cache then Some(cache[dirPath]) else None;
      if found.None? {
        found := FindEntry(dirPath);
      }
      if found.None? {
        found := Some(dir);
        MakeDirectory(dirPath, dir);
      } else if !found.value.isDir {
        return IsAFile;
      }
      cache := cache[dirPath := found.value];
      err := Fine;
    }

    /** Makes a directory in one that is there. */
    method MakeDirectory(dirPath: Path, dir: Entry)
      requires Valid() && dir.isDir && dirPath != [] && "" !in dirPath && dirPath !in store
      requires |dirPath| > 1 ==> Parent(dirPath) in store && store[Parent(dirPath)].isDir
      modifies this`store, this`log
      ensures Valid() && (old(Mirrored()) ==> Mirrored())
      ensures store == old(store)[dirPath := dir] && log == Notify(old(log), dirPath, false, Some(dir))
    {
      PutHoused(store, dirPath, dir);
      NotifyFollowsIf(store, start, log, dirPath, false, Some(dir));
      hide Housed;
      hide Follows;
      hide Notify;
      store := store[dirPath := dir];
      NotifyUpdateEvent(dirPath, false, Some(dir));
    }

    /** Makes the missing directories on the way to an entry; when a file is in the way, nothing changes. */
    method EnsureParents(path: Path, dir: Entry) returns (err: Error)
      requires Valid() && dir.isDir && path != [] && "" !in path
      modifies this`store, this`cache, this`log
      ensures Valid() && (old(Mirrored()) ==> Mirrored())
      ensures err == if Blocked(old(store), path) then IsAFile else Fine
      ensures store == if Blocked(old(store), path) then old(store) else WithParents(old(store), path, |path|, dir)
      ensures log == if Blocked(old(store), path) then old(log) else ParentsLog(old(log), old(store), path, |path|, dir)
      ensures err == Fine ==> forall k :: 0 <= k < |path| ==> path[..k] in cache
    {
      assert WithParents(store, path, 0, dir) == store && ParentsLog(log, store, path, 0, dir) == log;
      hide Housed;
      hide Follows;
      hide WithParents;
      hide ParentsLog;
      hide Notify;
      for i := 0 to |path|
        invariant Valid() && (old(Mirrored()) ==> Mirrored()) && Open(old(store), path, i)
        invariant store == WithParents(old(store), path, i, dir)
        invariant log == ParentsLog(old(log), old(store), path, i, dir)
        invariant forall k :: 0 <= k < i ==> path[..k] in cache
      {
        ParentStep(old(store), path, i, dir);
        LogStep(old(log), old(store), path, i, dir);
        err := EnsureDirectory(path[..i], dir);
        if err != Fine {
          ParentsThere(old(store), path, i, dir);
          NoneLogged(old(log), old(store), path, i, dir);
          return;
        }
      }
      err := Fine;
    }

    /** Creates or replaces an entry, making missing parents; when that fails nothing changes. */
    method CreateEntry(path: Path, entry: Entry, oExcl: bool) returns (err: Error)
      requires Valid() && "" !in path
      modifies this`store, this`cache, this`log
      ensures Valid() && (old(Mirrored()) ==> Mirrored()) && SameKinds(old(store), store)
      ensures err == Fine <==> path == [] || MayCreate(old(store), path, entry, oExcl)
      ensures path == [] || err != Fine ==> store == old(store) && log == old(log)
      ensures path != [] && err == Fine ==> store == Created(old(store), path, entry, ParentEntry(now, entry))
      ensures path != [] && err == Fine ==>
        log == CreateLog(old(log), old(store), path, entry, ParentEntry(now, entry))
    {
      if path == [] {
        return Fine;
      }
      err := EnsureParents(path, ParentEntry(now, entry));
      if err != Fine {
        return;
      }
      if path in old(store) {
        assert path[..|path|] == path;
        NoneLogged(log, old(store), path, |path|, ParentEntry(now, entry));
        NoneLogged(old(log), old(store), path, |path|, ParentEntry(now, entry));
      }
      err := PutEntry(path, entry, oExcl, old(store));
    }

    /** The last step of creating an entry, its parents being there; inserting is updating where nothing is. */
    method PutEntry(path: Path, entry: Entry, oExcl: bool, ghost s: Store) returns (err: Error)
      requires Valid() && path != [] && "" !in path && Housed(s) && !Blocked(s, path)
      requires store == WithParents(s, path, |path|, ParentEntry(now, entry))
      modifies this`store, this`log
      ensures Valid() && (old(Mirrored()) ==> Mirrored()) && SameKinds(s, store)
      ensures err == Fine <==> MayCreate(s, path, entry, oExcl)
      ensures store == if err == Fine then Created(s, path, entry, ParentEntry(now, entry)) else s
      ensures log == if err == Fine then Notify(old(log), path, path in s, Some(entry)) else old(log)
      ensures err != Fine ==> path in s
    {
      ParentsFacts(s, path, ParentEntry(now, entry));
      var oldEntry := FindEntry(path);
      if oldEntry.Some? && oExcl {
        return Exists;
      }
      err := UpdateEntry(path, oldEntry, entry);
      if err == Fine {
        NotifyFollowsIf(old(store), start, log, path, oldEntry.Some?, Some(entry));
        NotifyUpdateEvent(path, oldEntry.Some?, Some(entry));
      }
    }

    /** Stores an entry; a directory is never replaced by a file nor a file by a directory. */
    method UpdateEntry(path: Path, oldEntry: Option<Entry>, entry: Entry) returns (err: Error)
      requires Valid() && path != [] && "" !in path && oldEntry == (if path in store then Some(store[path]) else None)
      requires |path| > 1 ==> Parent(path) in store && store[Parent(path)].isDir
      modifies this`store
      ensures Valid() && SameKinds(old(store), store)
      ensures err == Fine <==> oldEntry.None? || oldEntry.value.isDir == entry.isDir
      ensures store == if err == Fine then old(store)[path := entry] else old(store)
    {
      if oldEntry.Some? {
        if oldEntry.value.isDir && !entry.isDir {
          return IsADirectory;
        }
        if !oldEntry.value.isDir && entry.isDir {
          return IsAFile;
        }
      }
      PutHoused(store, path, entry);
      store := store[path := entry];
      err := Fine;
    }

    /** One page of the store, its expired entries deleted and left out. */
    method DoListDirectoryEntries(dir: Path, start: string, inclusive: bool, limit: nat)
      returns (entries: seq<Item>, expired: nat, last: string, ghost page: seq<string>)
      modifies this`store
      ensures FirstOf(page, After(ChildNames(old(store), dir), start, inclusive), limit)
      ensures LiveOf(entries, old(store), dir, ToSet(page), now) && |entries| + expired == |page|
      ensures store == Reaped(old(store), dir, ToSet(page), now)
      ensures page != [] ==> last == page[|page|-1]
    {
      var names := FirstNames(After(ChildNames(store, dir), start, inclusive), limit);
      page := names;
      entries, expired, last := [], 0, "";
      PageBegin(store, dir, names, now);
      ghost var s := store;
      assert forall i :: 0 <= i < |names| ==> names[i] in names;
      hide Reaped;
      hide LiveOf;
      hide FirstOf;
      hide ToSet;
      for i := 0 to |names|
        invariant LiveOf(entries, s, dir, ToSet(names[..i]), now) && |entries| + expired == i
        invariant store == Reaped(s, dir, ToSet(names[..i]), now)
        invariant i > 0 ==> last == names[i-1]
      {
        PageStep(names, i);
        ReapStep(s, dir, ToSet(names[..i]), names[i], now);
        LiveStep(entries, s, dir, ToSet(names[..i]), names[i], now);
        last := names[i];
        var entry := store[Child(dir, last)];
        if entry.Expired(now) {
          store := store - {Child(dir, last)};
          expired := expired + 1;
        } else {
          entries := entries + [Item(last, entry)];
        }
      }
    }

    /** The first unexpired entries after the cursor, however many expired ones lie between them. */
    method ListDirectoryEntries(dir: Path, start: string, inclusive: bool, limit: nat)
      returns (entries: seq<Item>, ghost visited: set<string>)
      modifies this`store
      ensures var all := After(ChildNames(old(store), dir), start, inclusive);
        && FirstOf(NamesOf(entries), Live(old(store), dir, all, now), limit)
        && Ahead(visited, all) && LiveOf(entries, old(store), dir, visited, now)
      ensures store == Reaped(old(store), dir, visited, now)
      ensures old(Mirrored()) ==>
        (Mirrored() <==> forall name :: name in visited && ExpiredIn(old(store), dir, name, now) ==>
                           !Logged(Child(dir, name)))
      ensures old(Valid()) ==>
        (Valid() <==> forall name :: name in visited && ExpiredIn(old(store), dir, name, now) ==>
                        ChildNames(old(store), Child(dir, name)) == {} && Child(dir, name) !in cache)
    {
      entries, visited := ListLive(dir, start, inclusive, limit);
      if old(Mirrored()) {
        ReapedFollows(old(store), ReplayAll(this.start, log), dir, visited, now);
      }
      if old(Valid()) {
        ReapedHoused(old(store), dir, visited, now);
        ReapedCache(old(store), cache, dir, visited, now);
      }
    }

    /** The loop over the pages. */
    method ListLive(dir: Path, start: string, inclusive: bool, limit: nat)
      returns (entries: seq<Item>, ghost visited: set<string>)
      modifies this`store
      ensures var all := After(ChildNames(old(store), dir), start, inclusive);
        && FirstOf(NamesOf(entries), Live(old(store), dir, all, now), limit)
        && Ahead(visited, all) && LiveOf(entries, old(store), dir, visited, now)
      ensures store == Reaped(old(store), dir, visited, now)
    {
      ghost var s, all := store, After(ChildNames(store, dir), start, inclusive);
      ghost var page;
      var expired, last;
      entries, expired, last, page := DoListDirectoryEntries(dir, start, inclusive, limit);
      visited := ToSet(page);
      assert all - {} == all && {} + visited == visited;
      AheadMore(page, {}, all, limit);
      if page != [] {
        PageLast(page, {});
      }
      while expired > 0
        invariant Ahead(visited, all) && LiveOf(entries, s, dir, visited, now) && store == Reaped(s, dir, visited, now)
        invariant |entries| + expired == limit || (|entries| + expired <= limit && visited == all)
        invariant expired > 0 ==> IsLast(last, visited)
        decreases |all - visited|, expired
      {
        RestAfter(s, dir, start, inclusive, visited, last, now);
        var makeup;
        ghost var wanted, before := expired, visited;
        makeup, expired, last, page := DoListDirectoryEntries(dir, last, false, expired);
        AheadMore(page, visited, all, wanted);
        ReapMore(s, dir, visited, ToSet(page), now);
        LiveMore(entries, makeup, s, dir, visited, ToSet(page), now);
        entries := entries + makeup;
        visited := visited + ToSet(page);
        if page != [] {
          PageLast(page, before);
          Fewer(all, before, visited, last);
        }
      }
      LiveDone(entries, s, dir, visited, all, limit, now);
    }

    /** Takes the entries of a directory out of the store, not what is below them. */
    method DeleteFolderChildren(dir: Path)
      modifies this`store
      ensures ChildNames(store, dir) == {} && SameElsewhere(old(store), store, dir)
    {
      store := map q | q in store && (q == [] || Parent(q) != dir) :: store[q];
      forall name ensures Child(dir, name) !in store {
        ParentOfChild(dir, name);
      }
    }

    /** Lists a directory in which nothing has expired. */
    method ListUnexpired(dir: Path, last: string, limit: nat) returns (entries: seq<Item>)
      requires Unexpired(store, now)
      modifies this`store
      ensures store == old(store)
      ensures FirstOf(NamesOf(entries), After(ChildNames(store, dir), last, false), limit)
      ensures AsStored(entries, store, dir)
    {
      ghost var visited;
      entries, visited := ListDirectoryEntries(dir, last, false, limit);
      NoneReaped(old(store), dir, visited, now);
      NoneReaped(old(store), dir, After(ChildNames(old(store), dir), last, false), now);
    }

    /** Deletes what is below one child of a directory, and logs the deletion of the child and of that. */
    method DeleteSub(dir: Path, sub: Item, chunks0: seq<FileChunk>, ghost s: Store, ghost names: set<string>,
                     ghost base: seq<Event>)
      returns (chunks: seq<FileChunk>)
      requires Unexpired(s, now) && Housed(s) && dir in s && Deleting(s, dir, names, base, store, cache, log, chunks0)
      requires sub.name !in names && Child(dir, sub.name) in s && sub.entry == s[Child(dir, sub.name)]
      modifies this`store, this`cache, this`log
      ensures Deleting(s, dir, names + {sub.name}, base, store, cache, log, chunks)
      ensures cache.Keys <= old(cache.Keys)
      decreases |Under(s, dir)|, 0
    {
      if sub.entry.isDir {
        SubReady(s, dir, names, sub.name, now);
        hide Deleting;
        var _, dirChunks := DoBatchDeleteFolder(Child(dir, sub.name), true);
        DeletingDir(s, dir, names, base, old(store), old(cache), old(log), chunks0, sub.name, cache, log, dirChunks);
        cache := cache - {Child(dir, sub.name)};
        chunks := chunks0 + dirChunks;
      } else {
        DeletingFile(s, dir, names, base, store, cache, log, chunks0, sub.name);
        NotifyUpdateEvent(Child(dir, sub.name), true, None);
        chunks := chunks0 + sub.entry.chunks;
      }
    }

    /** Deletes a page of children one after the other. */
    method DeletePage(dir: Path, entries: seq<Item>, chunks0: seq<FileChunk>, ghost s: Store, ghost names: set<string>,
                      ghost base: seq<Event>)
      returns (last: string, chunks: seq<FileChunk>)
      requires Unexpired(s, now) && Housed(s) && dir in s && Deleting(s, dir, names, base, store, cache, log, chunks0)
      requires entries != [] && Increasing(NamesOf(entries)) && ToSet(NamesOf(entries)) !! names
      requires AsStored(entries, s, dir)
      modifies this`store, this`cache, this`log
      ensures Deleting(s, dir, names + ToSet(NamesOf(entries)), base, store, cache, log, chunks)
      ensures last == entries[|entries|-1].name && cache.Keys <= old(cache.Keys)
      decreases |Under(s, dir)|, 1
    {
      hide *;
      last, chunks := "", chunks0;
      ghost var r := NamesOf(entries);
      PageStart(r, names);
      for i := 0 to |entries|
        invariant Deleting(s, dir, names + ToSet(r[..i]), base, store, cache, log, chunks)
        invariant cache.Keys <= old(cache.Keys)
        invariant i > 0 ==> last == entries[i-1].name
      {
        last := entries[i].name;
        PageItem(entries, s, dir, names, i);
        chunks := DeleteSub(dir, entries[i], chunks, s, names + ToSet(r[..i]), base);
      }
    }

    /** Lists the next page of children while they are being emptied. */
    method ListNext(dir: Path, last: string, ghost s: Store, ghost names: set<string>)
      returns (entries: seq<Item>)
      requires Unexpired(s, now) && store == Pruned(s, dir, names)
      requires Passed(ChildNames(s, dir), names, last)
      modifies this`store
      ensures store == old(store) && AsStored(entries, s, dir)
      ensures FirstOf(NamesOf(entries), ChildNames(s, dir) - names, PAGINATION_SIZE) && PAGINATION_SIZE > 0
    {
      PrunedPage(s, dir, names, last, now);
      entries := ListUnexpired(dir, last, PAGINATION_SIZE);
      assert forall i :: 0 <= i < |entries| ==> NamesOf(entries)[i] in NamesOf(entries);
    }

    /** Deletes the next page of children; there may be more when it was full. */
    method DeleteNextPage(dir: Path, last: string, isRecursive: bool, chunks0: seq<FileChunk>,
                          ghost s: Store, ghost names: set<string>, ghost base: seq<Event>)
      returns (err: Error, next: string, more: bool, chunks: seq<FileChunk>, ghost taken: set<string>)
      requires Unexpired(s, now) && Housed(s) && dir in s && Deleting(s, dir, names, base, store, cache, log, chunks0)
      requires Passed(ChildNames(s, dir), names, last)
      modifies this`store, this`cache, this`log
      ensures cache.Keys <= old(cache.Keys)
      ensures err == if last == "" && !isRecursive && names != ChildNames(s, dir) then NotEmpty else Fine
      ensures err != Fine || taken == {} ==>
        store == old(store) && cache == old(cache) && log == old(log) && next == last && chunks == chunks0
      ensures err == Fine ==> PageDone(ChildNames(s, dir), names, taken, next, more)
      ensures err == Fine ==> Deleting(s, dir, names + taken, base, store, cache, log, chunks)
      decreases |Under(s, dir)|, 2
    {
      hide *;
      DeletingStore(s, dir, names, base, store, cache, log, chunks0);
      var entries := ListNext(dir, last, s, names);
      PageTaken(ChildNames(s, dir), names, last, entries, PAGINATION_SIZE);
      err, next, more, chunks, taken := Fine, last, |entries| == PAGINATION_SIZE, chunks0, ToSet(NamesOf(entries));
      if last == "" && !isRecursive && |entries| > 0 {
        return NotEmpty, last, false, chunks0, {};
      }
      if entries != [] {
        next, chunks := DeletePage(dir, entries, chunks0, s, names, base);
      }
    }

    /** Deletes all the children of a directory, page by page. */
    method DeleteChildren(dir: Path, isRecursive: bool, ghost s: Store) returns (err: Error, chunks: seq<FileChunk>)
      requires Unexpired(s, now) && Housed(s) && dir in s && Deleting(s, dir, {}, log, store, cache, log, [])
      modifies this`store, this`cache, this`log
      ensures cache.Keys <= old(cache.Keys)
      ensures err == if !isRecursive && ChildNames(s, dir) != {} then NotEmpty else Fine
      ensures err == Fine ==> Deleting(s, dir, ChildNames(s, dir), old(log), store, cache, log, chunks)
      ensures err != Fine ==> Deleting(s, dir, {}, old(log), store, cache, log, []) && log == old(log)
      decreases |Under(s, dir)|, 3
    {
      ghost var all, names: set<string> := ChildNames(s, dir), {};
      NamedChildren(s, dir);
      NonePassed(all);
      hide Deleting;
      hide Housed;
      hide Passed;
      var last, more := "", true;
      chunks := [];
      while more
        invariant Deleting(s, dir, names, old(log), store, cache, log, chunks) && cache.Keys <= old(cache.Keys)
        invariant Passed(all, names, last) && (!more ==> names == all)
        invariant names == {} || isRecursive
        invariant names == {} ==> log == old(log) && last == "" && chunks == []
        decreases |all - names|, more
      {
        ghost var taken;
        err, last, more, chunks, taken := DeleteNextPage(dir, last, isRecursive, chunks, s, names, old(log));
        if err != Fine {
          return;
        }
        names := names + taken;
      }
      err := Fine;
    }

    /** Deletes all that is below a directory, and logs those deletions and the one of the directory. */
    method DoBatchDeleteFolder(dir: Path, isRecursive: bool) returns (err: Error, chunks: seq<FileChunk>)
      requires Valid() && Unexpired(store, now) && dir in store && store[dir].isDir
      modifies this`store, this`cache, this`log
      ensures Valid() && cache.Keys <= old(cache.Keys)
      ensures err == if !isRecursive && ChildNames(old(store), dir) != {} then NotEmpty else Fine
      ensures err != Fine ==> store == old(store) && log == old(log)
      ensures err == Fine ==> store == Emptied(old(store), dir) && LoggedSince(old(log), log, Under(old(store), dir))
      ensures err == Fine ==> ChunksOf(chunks, old(store), Under(old(store), dir))
      decreases |Under(store, dir)|, 4
    {
      hide *;
      Parts();
      DeletingStart(store, dir, cache, log);
      EmptiedHoused(store, dir);
      err, chunks := DeleteChildren(dir, isRecursive, store);
      if err != Fine {
        NonePruned(old(store), dir, old(log), store, cache, log);
        Whole();
        return err, [];
      }
      DeletingDone(old(store), dir, ChildNames(old(store), dir), old(log), store, cache, log, chunks);
      ghost var left := store;
      DeleteFolderChildren(dir);
      ChildrenGone(left, store, dir);
      NotifyUpdateEvent(dir, true, None);
      Whole();
    }

    /** Deletes an entry, with all below it when that is asked for; when that fails nothing changes. */
    method DeleteEntryMetaAndData(p: Path, isRecursive: bool) returns (err: Error, chunks: seq<FileChunk>)
      requires Valid() && Unexpired(store, now)
      modifies this`store, this`cache, this`log
      ensures Valid() && (old(Mirrored()) ==> Mirrored()) && SameKinds(old(store), store)
      ensures err == Fine <==> p == [] || MayDelete(old(store), p, isRecursive)
      ensures store == if p != [] && err == Fine then Without(old(store), p) else old(store)
      ensures err != Fine || p == [] ==> log == old(log) && chunks == []
      ensures err == Fine && p != [] ==> LoggedSince(old(log), log, Under(old(store), p))
      ensures err == Fine && p != [] ==> forall c :: c in chunks <==>
        c in old(store)[p].chunks || exists q :: q in Under(old(store), p) && IsFileWith(old(store), q, c)
    {
      if p == [] {
        return Fine, [];
      }
      var entry := FindEntry(p);
      if entry.None? {
        return NotFound, [];
      }
      if entry.value.isDir {
        var dirChunks;
        err, dirChunks := DoBatchDeleteFolder(p, isRecursive);
        chunks := [];
        if err != Fine {
          return;
        }
        FolderGone(old(store), p, start, old(log), log, cache);
        DoDeleteEntry(p, entry.value);
        chunks := entry.value.chunks + dirChunks;
      } else {
        FileGone(old(store), p, start, log, cache);
        DoDeleteEntry(p, entry.value);
        err, chunks := Fine, entry.value.chunks;
      }
    }

    /** Deletes the entry itself; the deletion of a directory is logged already. */
    method DoDeleteEntry(p: Path, entry: Entry)
      modifies this`store, this`cache, this`log
      ensures store == old(store) - {p}
      ensures cache == if entry.isDir then old(cache) - {p} else old(cache)
      ensures log == if entry.isDir then old(log) else Notify(old(log), p, true, None)
    {
      store := store - {p};
      if entry.isDir {
        cache := cache - {p};
      } else {
        NotifyUpdateEvent(p, true, None);
      }
    }
  }

  /** An entry that is there can be deleted, but a directory with entries only with them. */
  ghost predicate MayDelete(s: Store, p: Path, isRecursive: bool) {
    p in s && (s[p].isDir && !isRecursive ==> ChildNames(s, p) == {})
  }

  lemma FolderGone(s: Store, p: Path, start: Store, log: seq<Event>, log2: seq<Event>, cache: map<Path, Entry>)
    requires Housed(s) && p in s && LoggedSince(log, log2, Under(s, p)) && CacheOk(cache, Emptied(s, p))
    ensures Emptied(s, p) - {p} == Without(s, p) && Housed(Without(s, p)) && CacheOk(cache - {p}, Without(s, p))
    ensures Follows(s, ReplayAll(start, log)) ==> Follows(Without(s, p), ReplayAll(start, log2))
  {
    hide *;
    EmptiedHoused(s, p);
    WithoutTop(s, p, cache);
    if Follows(s, ReplayAll(start, log)) {
      LoggedFollow(s, start, log, log2, Under(s, p));
    }
  }

  lemma WithoutTop(s: Store, p: Path, cache: map<Path, Entry>)
    requires CacheOk(cache, Emptied(s, p))
    ensures Emptied(s, p) - {p} == Without(s, p) && s - Under(s, p) == Without(s, p)
    ensures CacheOk(cache - {p}, Without(s, p))
  {
    assert forall q :: q in s ==> (p <= q <==> q == p || p < q);
  }

  lemma LoggedFollow(s: Store, start: Store, log: seq<Event>, log2: seq<Event>, gone: set<Path>)
    requires Follows(s, ReplayAll(start, log)) && LoggedSince(log, log2, gone)
    ensures Follows(s - gone, ReplayAll(start, log2))
  {
    assert log + log2[|log|..] == log2;
    hide DeletesAll;
    hide Follows;
    hide ReplayAll;
    DeletionsFollow(s, start, log, log2[|log|..], gone);
  }

  lemma FileGone(s: Store, p: Path, start: Store, log: seq<Event>, cache: map<Path, Entry>)
    requires Housed(s) && p in s && !s[p].isDir && CacheOk(cache, s)
    ensures s - {p} == Without(s, p) && Housed(Without(s, p)) && CacheOk(cache, Without(s, p))
    ensures Follows(s, ReplayAll(start, log)) ==> Follows(Without(s, p), ReplayAll(start, Notify(log, p, true, None)))
    ensures Under(s, p) == {p} && LoggedSince(log, Notify(log, p, true, None), Under(s, p))
  {
    EmptiedHoused(s, p);
    LoggedOne(log, p);
    NotifyFollowsIf(s, start, log, p, true, None);
    forall q | q in s && p <= q
      ensures q == p
    {
      if p < q {
        NothingBelow(s, p, q);
      }
    }
  }

  lemma NotifyFollowsIf(s: Store, start: Store, log: seq<Event>, path: Path, hadOld: bool, newEntry: Option<Entry>)
    requires newEntry.None? ==> hadOld
    ensures Follows(s, ReplayAll(start, log)) ==>
      Follows(Changed(s, path, newEntry), ReplayAll(start, Notify(log, path, hadOld, newEntry)))
  {
    if Follows(s, ReplayAll(start, log)) {
      NotifyFollows(s, start, log, path, hadOld, newEntry);
    }
  }

  /** What the deletion of a child directory starts from. */
  lemma SubReady(s: Store, dir: Path, names: set<string>, name: string, now: int)
    requires Housed(s) && Unexpired(s, now) && dir in s && name !in names && Child(dir, name) in s
    ensures var t := Pruned(s, dir, names);
      && Housed(t) && Unexpired(t, now) && Child(dir, name) in t
      && |Under(t, Child(dir, name))| < |Under(s, dir)|
  {
    PruneStep(s, dir, names, name);
    FewerUnder(s, dir, name);
    PrunedHoused(s, dir, names);
  }

  lemma NamedChildren(s: Store, dir: Path)
    requires Housed(s)
    ensures "" !in ChildNames(s, dir)
  {
    assert Child(dir, "")[|dir|] == "";
  }

  /** Emptying children leaves them to be listed. */
  lemma PrunedPage(s: Store, dir: Path, names: set<string>, last: string, now: int)
    requires Unexpired(s, now) && Passed(ChildNames(s, dir), names, last)
    ensures var t := Pruned(s, dir, names);
      && Unexpired(t, now)
      && After(ChildNames(t, dir), last, false) == ChildNames(s, dir) - names
      && forall name :: Child(dir, name) in t ==> t[Child(dir, name)] == s[Child(dir, name)]
  {
    PassedRest(ChildNames(s, dir), names, last, ChildNames(Pruned(s, dir, names), dir));
  }

  lemma DeletingStore(s: Store, dir: Path, names: set<string>, base: seq<Event>,
                      store: Store, cache: map<Path, Entry>, log: seq<Event>, chunks: seq<FileChunk>)
    requires Deleting(s, dir, names, base, store, cache, log, chunks)
    ensures store == Pruned(s, dir, names)
  {}

  lemma NonePruned(s: Store, dir: Path, base: seq<Event>, store: Store, cache: map<Path, Entry>, log: seq<Event>)
    requires Deleting(s, dir, {}, base, store, cache, log, [])
    ensures store == s && CacheOk(cache, store)
  {}

  /** A page was taken: the cursor is behind it, and without a full page nothing is left. */
  ghost predicate PageDone(all: set<string>, names: set<string>, taken: set<string>, next: string, more: bool) {
    && Passed(all, names + taken, next)
    && (!more ==> names + taken == all)
    && (more ==> |all - (names + taken)| < |all - names|)
  }

  /** A page is new, and a page that is not full is the last. */
  lemma PageTaken(all: set<string>, names: set<string>, last: string, entries: seq<Item>, limit: nat)
    requires FirstOf(NamesOf(entries), all - names, limit) && Passed(all, names, last) && limit > 0
    ensures Increasing(NamesOf(entries)) && ToSet(NamesOf(entries)) !! names
    ensures entries == [] <==> names == all
    ensures entries == [] <==> ToSet(NamesOf(entries)) == {}
    ensures entries == [] ==> names + ToSet(NamesOf(entries)) == names
    ensures PageDone(all, names, ToSet(NamesOf(entries)),
                     if entries == [] then last else entries[|entries|-1].name, |entries| == limit)
  {
    var r := NamesOf(entries);
    NewNames(all, names, r, limit);
    hide FirstOf;
    if entries == [] {
      assert names + ToSet(r) == names;
    } else {
      PassedNext(all, names, last, r, limit);
    }
  }
}
