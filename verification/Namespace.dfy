/** The filer's name space: a store of entries by path, and the log of changes to it that followers replay. */
module Namespace {
  import opened Chunks
  import opened Common
  import opened Paths

  /**
   * Times are whole seconds, permissions the positions of the mode bits that are set.  `owner` stands for user and
   * group names, `place` for replication and collection, `kind` for mime type, link target and digest.
   */
  datatype Attr = Attr(mtime: int, crtime: int, perm: set<nat>, uid: nat, gid: nat, ttlSec: nat,
                       owner: string, place: string, kind: string)

  /** The directory bit of the mode is kept apart from the other bits. */
  datatype Entry = Entry(isDir: bool, attr: Attr, chunks: seq<FileChunk>, extended: map<string, string>) {
    predicate Expired(now: int) {
      attr.ttlSec > 0 && attr.crtime + attr.ttlSec < now
    }
  }

  type Store = map<Path, Entry>

  /** Every entry has a name and lives in a directory: the root, or a stored one. */
  ghost predicate Housed(s: Store) {
    && (forall p :: p in s ==> p != [] && "" !in p)
    && forall p {:trigger Parent(p)} :: p in s && |p| > 1 ==> Parent(p) in s && s[Parent(p)].isDir
  }

  /** All proper ancestors of a stored entry are stored directories. */
  lemma {:induction false} AncestorsStored(s: Store, p: Path, k: nat)
    requires Housed(s) && p in s && 0 < k < |p|
    ensures p[..k] in s && s[p[..k]].isDir
    decreases |p|
  {
    assert Parent(p) in s;
    if k < |p| - 1 {
      assert Parent(p)[..k] == p[..k];
      AncestorsStored(s, Parent(p), k);
    }
  }

  /** A file has nothing below it, and neither has a path that is not stored. */
  lemma NothingBelow(s: Store, top: Path, q: Path)
    requires Housed(s) && top != [] && (top in s ==> !s[top].isDir) && top < q
    ensures q !in s
  {
    if q in s {
      assert q[..|top|] == top;
      AncestorsStored(s, q, |top|);
    }
  }

  /** The directory entry made for a missing parent of an entry. */
  function ParentEntry(now: int, e: Entry): Entry {
    Entry(true, e.attr.(mtime := now, crtime := now, perm := e.attr.perm + {3, 6}, ttlSec := 0, kind := ""), [], map[])
  }

  /** The store with the missing ones among the first parents of a path made. */
  ghost function WithParents(s: Store, path: Path, n: nat, dir: Entry): Store
    requires n <= |path|
    decreases n
  {
    if n <= 1 then s
    else
      var t := WithParents(s, path, n - 1, dir);
      if path[..n-1] in t then t else t[path[..n-1] := dir]
  }

  /** The log with the events of the missing ones among the first parents. */
  ghost function ParentsLog(log: seq<Event>, s: Store, path: Path, n: nat, dir: Entry): seq<Event>
    requires n <= |path|
    decreases n
  {
    if n <= 1 then log
    else
      var l := ParentsLog(log, s, path, n - 1, dir);
      if path[..n-1] in s then l else Notify(l, path[..n-1], false, Some(dir))
  }

  /** It has what was there, and directories at proper prefixes that were not. */
  lemma {:induction false} WithParentsHas(s: Store, path: Path, n: nat, dir: Entry)
    requires n <= |path|
    ensures var t := WithParents(s, path, n, dir);
      && (forall q :: q in t <==> q in s || (0 < |q| < n && q <= path))
      && (forall q :: q in t ==> t[q] == if q in s then s[q] else dir)
    decreases n
  {
    if n > 1 {
      WithParentsHas(s, path, n - 1, dir);
      assert forall q :: |q| == n - 1 ==> (q <= path <==> q == path[..n-1]);
    }
  }

  lemma LogStep(log: seq<Event>, s: Store, path: Path, i: nat, dir: Entry)
    requires i < |path|
    ensures ParentsLog(log, s, path, i + 1, dir)
      == (if i == 0 || path[..i] in s then ParentsLog(log, s, path, i, dir)
          else Notify(ParentsLog(log, s, path, i, dir), path[..i], false, Some(dir)))
  {}

  /** On the way to a stored path nothing is logged. */
  lemma {:induction false} NoneLogged(log: seq<Event>, s: Store, path: Path, n: nat, dir: Entry)
    requires Housed(s) && 0 < n <= |path| && path[..n] in s
    ensures ParentsLog(log, s, path, n, dir) == log
    decreases n
  {
    if n > 1 {
      AncestorsStored(s, path[..n], n - 1);
      assert path[..n][..n-1] == path[..n-1];
      NoneLogged(log, s, path, n - 1, dir);
    }
  }

  lemma WithParentsHoused(s: Store, path: Path, n: nat, dir: Entry)
    requires Housed(s) && n <= |path| && dir.isDir && !Blocked(s, path) && "" !in path
    ensures Housed(WithParents(s, path, n, dir))
  {
    WithParentsHas(s, path, n, dir);
    var t := WithParents(s, path, n, dir);
    forall p | p in t && |p| > 1
      ensures Parent(p) in t && t[Parent(p)].isDir
    {
      if p !in s {
        assert Parent(p) == path[..|p|-1];
      }
    }
  }

  /** None of the first proper ancestors is a file. */
  ghost predicate Open(s: Store, path: Path, n: nat)
    requires n <= |path|
  {
    forall k :: 0 < k < n && path[..k] in s ==> s[path[..k]].isDir
  }

  /** One of the proper ancestors is a file. */
  ghost predicate Blocked(s: Store, path: Path) {
    !Open(s, path, |path|)
  }

  /** One more parent. */
  lemma ParentStep(s: Store, path: Path, i: nat, dir: Entry)
    requires i < |path| && Open(s, path, i) && dir.isDir
    ensures var t := WithParents(s, path, i, dir);
      && (i > 1 ==> Parent(path[..i]) in t && t[Parent(path[..i])].isDir)
      && (i > 0 ==> (path[..i] in t <==> path[..i] in s) && (path[..i] in s ==> t[path[..i]] == s[path[..i]]))
      && WithParents(s, path, i + 1, dir) == if i == 0 || path[..i] in t then t else t[path[..i] := dir]
    ensures Open(s, path, i + 1) <==> i == 0 || path[..i] !in s || s[path[..i]].isDir
  {
    WithParentsHas(s, path, i, dir);
    if i > 1 {
      assert Parent(path[..i]) == path[..i-1];
    }
  }

  /** No path turns from file to directory or back. */
  ghost predicate SameKinds(s: Store, t: Store) {
    forall p :: p in s && p in t ==> s[p].isDir == t[p].isDir
  }

  /** A new entry whose parent is there, or one in place of another of its kind. */
  lemma PutHoused(s: Store, path: Path, e: Entry)
    requires Housed(s) && path != [] && "" !in path && (path in s ==> s[path].isDir == e.isDir)
    requires |path| > 1 ==> Parent(path) in s && s[Parent(path)].isDir
    ensures Housed(s[path := e]) && SameKinds(s, s[path := e])
  {}

  /** The store once an entry was created. */
  ghost function Created(s: Store, path: Path, e: Entry, dir: Entry): Store {
    WithParents(s, path, |path|, dir)[path := e]
  }

  lemma ParentsFacts(s: Store, path: Path, dir: Entry)
    requires Housed(s) && path != [] && "" !in path && !Blocked(s, path) && dir.isDir
    ensures var t := WithParents(s, path, |path|, dir);
      && Housed(t) && SameKinds(s, t) && (path in t <==> path in s) && (path in s ==> t == s)
      && (|path| > 1 ==> Parent(path) in t && t[Parent(path)].isDir)
  {
    WithParentsHas(s, path, |path|, dir);
    WithParentsHoused(s, path, |path|, dir);
    assert path[..|path|] == path;
    if |path| > 1 {
      assert Parent(path) <= path && Parent(path) == path[..|path|-1];
    }
    if path in s {
      ParentsThere(s, path, |path|, dir);
    }
  }

  lemma ParentsThere(s: Store, path: Path, n: nat, dir: Entry)
    requires Housed(s) && 0 < n <= |path| && (path[..n] in s)
    ensures WithParents(s, path, n, dir) == s
  {
    WithParentsHas(s, path, n, dir);
    forall q | 0 < |q| < n && q <= path
      ensures q in s
    {
      AncestorsStored(s, path[..n], |q|);
      assert path[..n][..|q|] == q;
    }
  }

  // Events and their replay.

  /** A change of what is at one path. */
  datatype Event = Event(path: Path, hadOld: bool, newEntry: Option<Entry>)

  function Render(p: Path): string {
    if p == [] then "" else Render(Parent(p)) + "/" + Last(p)
  }

  const SYSTEM_LOG_DIR := "/topics/.system/log"

  /** Changes under the system log make no events. */
  predicate Logged(p: Path) {
    !(SYSTEM_LOG_DIR <= Render(p))
  }

  /** An entry after a trip through its message: the extended attributes are lost. */
  function FromPb(e: Entry): Entry {
    e.(extended := map[])
  }

  function Replay(f: Store, ev: Event): Store {
    var g := if ev.hadOld then f - {ev.path} else f;
    if ev.newEntry.Some? then g[ev.path := FromPb(ev.newEntry.value)] else g
  }

  function ReplayAll(f: Store, log: seq<Event>): Store {
    if log == [] then f else Replay(ReplayAll(f, log[..|log|-1]), log[|log|-1])
  }

  /** Appends the event of a change, unless it is under the system log. */
  function Notify(log: seq<Event>, path: Path, hadOld: bool, newEntry: Option<Entry>): seq<Event> {
    if Logged(path) then log + [Event(path, hadOld, newEntry)] else log
  }

  ghost predicate SameAt(s: Store, f: Store, p: Path) {
    (p in s <==> p in f) && (p in s ==> FromPb(s[p]) == FromPb(f[p]))
  }

  /** The follower has what the store has outside the system log, but for the extended attributes. */
  ghost predicate Follows(s: Store, f: Store) {
    forall p :: Logged(p) ==> SameAt(s, f, p)
  }

  /** What a change does to the store. */
  ghost function Changed(s: Store, path: Path, newEntry: Option<Entry>): Store {
    if newEntry.Some? then s[path := newEntry.value] else s - {path}
  }

  /** A follower that replays the event of a change follows the changed store. */
  lemma NotifyFollows(s: Store, start: Store, log: seq<Event>, path: Path, hadOld: bool, newEntry: Option<Entry>)
    requires Follows(s, ReplayAll(start, log)) && (newEntry.None? ==> hadOld)
    ensures Follows(Changed(s, path, newEntry), ReplayAll(start, Notify(log, path, hadOld, newEntry)))
  {
    hide ReplayAll;
    hide Notify;
    hide Render;
    hide Changed;
    hide Replay;
    hide SameAt;
    var f := ReplayAll(start, log);
    ReplayNotify(start, log, path, hadOld, newEntry);
    forall p | Logged(p)
      ensures SameAt(Changed(s, path, newEntry), ReplayAll(start, Notify(log, path, hadOld, newEntry)), p)
    {
      ChangeSame(s, f, path, hadOld, newEntry, p);
    }
  }

  lemma ReplayNotify(start: Store, log: seq<Event>, path: Path, hadOld: bool, newEntry: Option<Entry>)
    ensures var f, f2 := ReplayAll(start, log), ReplayAll(start, Notify(log, path, hadOld, newEntry));
      f2 == if Logged(path) then Replay(f, Event(path, hadOld, newEntry)) else f
  {
    var log2 := log + [Event(path, hadOld, newEntry)];
    assert log2[..|log2|-1] == log;
  }

  lemma ChangeSame(s: Store, f: Store, path: Path, hadOld: bool, newEntry: Option<Entry>, p: Path)
    requires SameAt(s, f, p) && (newEntry.None? ==> hadOld)
    ensures SameAt(Changed(s, path, newEntry), Replay(f, Event(path, hadOld, newEntry)), p)
    ensures p != path ==> SameAt(Changed(s, path, newEntry), f, p)
  {}

  ghost predicate Deletion(ev: Event) {
    ev.hadOld && ev.newEntry.None?
  }

  /** The events delete exactly the given paths, but for those under the system log. */
  ghost predicate DeletesAll(evs: seq<Event>, gone: set<Path>) {
    && (forall i :: 0 <= i < |evs| ==> Deletion(evs[i]) && evs[i].path in gone && Logged(evs[i].path))
    && (forall q :: q in gone && Logged(q) ==> exists i :: 0 <= i < |evs| && evs[i].path == q)
  }

  lemma {:induction false} ReplayDeletions(f: Store, log: seq<Event>, evs: seq<Event>, gone: set<Path>, p: Path)
    requires DeletesAll(evs, gone) && Logged(p)
    ensures SameAt(ReplayAll(f, log) - gone, ReplayAll(f, log + evs), p)
  {
    ReplayDeletionsUpTo(f, log, evs, p);
  }

  lemma {:induction false} ReplayDeletionsUpTo(f: Store, log: seq<Event>, evs: seq<Event>, p: Path)
    requires forall i :: 0 <= i < |evs| ==> Deletion(evs[i])
    ensures var g, h := ReplayAll(f, log), ReplayAll(f, log + evs);
      && (p in h <==> p in g && forall i :: 0 <= i < |evs| ==> evs[i].path != p)
      && (p in h ==> h[p] == g[p])
  {
    if evs == [] {
      assert log + evs == log;
    } else {
      var n := |evs| - 1;
      assert (log + evs)[..|log + evs|-1] == log + evs[..n];
      ReplayDeletionsUpTo(f, log, evs[..n], p);
    }
  }

  /** A follower that replays the deletions follows the store without those paths. */
  lemma DeletionsFollow(s: Store, start: Store, log: seq<Event>, evs: seq<Event>, gone: set<Path>)
    requires Follows(s, ReplayAll(start, log)) && DeletesAll(evs, gone)
    ensures Follows(s - gone, ReplayAll(start, log + evs))
  {
    forall p | Logged(p)
      ensures SameAt(s - gone, ReplayAll(start, log + evs), p)
    {
      assert SameAt(s, ReplayAll(start, log), p);
      ReplayDeletions(start, log, evs, gone, p);
    }
  }

  lemma DeletesConcat(evs: seq<Event>, gone: set<Path>, more: seq<Event>, goneToo: set<Path>)
    requires DeletesAll(evs, gone) && DeletesAll(more, goneToo)
    ensures DeletesAll(evs + more, gone + goneToo)
  {
    var all := evs + more;
    forall q | q in gone + goneToo && Logged(q)
      ensures exists i :: 0 <= i < |all| && all[i].path == q
    {
      if q in gone {
        var i :| 0 <= i < |evs| && evs[i].path == q;
        assert all[i].path == q;
      } else {
        var i :| 0 <= i < |more| && more[i].path == q;
        assert all[|evs| + i].path == q;
      }
    }
  }

  lemma DeletesOne(q: Path)
    ensures DeletesAll(Notify([], q, true, None), {q})
  {
    if Logged(q) {
      assert Notify([], q, true, None)[0].path == q;
    }
  }

  /** The log has grown by deletions of exactly the given paths. */
  ghost predicate LoggedSince(base: seq<Event>, log: seq<Event>, gone: set<Path>) {
    base <= log && DeletesAll(log[|base|..], gone)
  }

  lemma LoggedMore(base: seq<Event>, log: seq<Event>, gone: set<Path>, log2: seq<Event>, goneToo: set<Path>)
    requires LoggedSince(base, log, gone) && LoggedSince(log, log2, goneToo)
    ensures LoggedSince(base, log2, gone + goneToo)
  {
    DeletesConcat(log[|base|..], gone, log2[|log|..], goneToo);
    assert log[|base|..] + log2[|log|..] == log2[|base|..];
  }

  lemma LoggedOne(log: seq<Event>, q: Path)
    ensures LoggedSince(log, Notify(log, q, true, None), {q})
  {
    DeletesOne(q);
    assert Notify(log, q, true, None)[|log|..] == Notify([], q, true, None);
  }

  // Deleting a folder.

  /** The store without what is at and below a path. */
  ghost function Without(s: Store, top: Path): Store {
    map q | q in s && !(top <= q) :: s[q]
  }

  /** The store without what is below a path. */
  ghost function Emptied(s: Store, top: Path): Store {
    map q | q in s && !(top < q) :: s[q]
  }

  ghost function Under(s: Store, top: Path): set<Path> {
    set q | q in s && top <= q
  }

  /** A path under one of the named children of a directory. */
  predicate In(q: Path, dir: Path, names: set<string>) {
    dir < q && q[|dir|] in names
  }

  ghost function UnderNames(s: Store, dir: Path, names: set<string>): set<Path> {
    set q | q in s && In(q, dir, names)
  }

  /** The store with some children of a directory emptied. */
  ghost function Pruned(s: Store, dir: Path, names: set<string>): Store {
    map q | q in s && !(In(q, dir, names) && |q| > |dir| + 1) :: s[q]
  }

  lemma EmptiedHoused(s: Store, top: Path)
    requires Housed(s)
    ensures Housed(Emptied(s, top)) && Housed(Without(s, top))
  {
    forall p | p in s && |p| > 1
      ensures Parent(p) <= p && Parent(p) != p
    {}
  }

  lemma PruneStep(s: Store, dir: Path, names: set<string>, name: string)
    requires name !in names
    ensures Emptied(Pruned(s, dir, names), Child(dir, name)) == Pruned(s, dir, names + {name})
    ensures Under(Pruned(s, dir, names), Child(dir, name)) == Under(s, Child(dir, name))
    ensures UnderNames(s, dir, names + {name}) == UnderNames(s, dir, names) + Under(s, Child(dir, name))
  {
    forall q
      ensures In(q, dir, {name}) <==> Child(dir, name) <= q
    {}
  }

  lemma PruneFile(s: Store, dir: Path, names: set<string>, name: string)
    requires Housed(s) && Child(dir, name) in s && !s[Child(dir, name)].isDir
    ensures Pruned(s, dir, names + {name}) == Pruned(s, dir, names)
    ensures Under(s, Child(dir, name)) == {Child(dir, name)}
  {
    forall q | q in s && In(q, dir, {name})
      ensures q == Child(dir, name)
    {
      if q != Child(dir, name) {
        assert Child(dir, name) < q;
        NothingBelow(s, Child(dir, name), q);
      }
    }
  }

  /** With every child emptied, taking out the children empties the directory. */
  lemma AllPruned(s: Store, dir: Path, names: set<string>)
    requires Housed(s) && dir in s && forall name :: Child(dir, name) in s ==> name in names
    ensures (map q | q in Pruned(s, dir, names) && Parent(q) != dir :: s[q]) == Emptied(s, dir)
    ensures UnderNames(s, dir, names) + {dir} == Under(s, dir)
  {
    assert forall q :: q in s ==> (dir <= q <==> q == dir || dir < q);
    forall q | q in s && dir < q
      ensures q[|dir|] in names && (|q| == |dir| + 1 <==> Parent(q) == dir)
    {
      assert q[..|dir|+1] == Child(dir, q[|dir|]);
      if |q| > |dir| + 1 {
        AncestorsStored(s, q, |dir| + 1);
      } else {
        assert q == q[..|dir|+1];
      }
    }
  }

  lemma PrunedHoused(s: Store, dir: Path, names: set<string>)
    requires Housed(s)
    ensures Housed(Pruned(s, dir, names))
  {
    forall p | p in Pruned(s, dir, names) && |p| > 1
      ensures Parent(p) in Pruned(s, dir, names)
    {
      assert Parent(p) in s;
    }
  }

  ghost predicate Unexpired(s: Store, now: int) {
    forall p :: p in s ==> !s[p].Expired(now)
  }

  lemma FewerUnder(s: Store, dir: Path, name: string)
    requires dir in s
    ensures |Under(s, Child(dir, name))| < |Under(s, dir)|
  {
    SubsetSize(Under(s, Child(dir, name)), Under(s, dir) - {dir});
  }

  /** Cached paths are stored directories. */
  ghost predicate CacheOk(cache: map<Path, Entry>, s: Store) {
    forall p :: p in cache ==> cache[p].isDir && (p != [] ==> p in s && s[p].isDir)
  }

  /** The chunks of the files among some paths. */
  ghost predicate ChunksOf(chunks: seq<FileChunk>, s: Store, qs: set<Path>) {
    forall c :: c in chunks <==> exists q :: q in qs && IsFileWith(s, q, c)
  }

  predicate IsFileWith(s: Store, q: Path, c: FileChunk) {
    q in s && !s[q].isDir && c in s[q].chunks
  }

  lemma ChunksMore(chunks: seq<FileChunk>, s: Store, qs: set<Path>, more: seq<FileChunk>, t: Store, rs: set<Path>)
    requires ChunksOf(chunks, s, qs) && ChunksOf(more, t, rs)
    requires forall q :: q in rs ==> q in s && q in t && s[q] == t[q]
    ensures ChunksOf(chunks + more, s, qs + rs)
  {
    forall c
      ensures c in chunks + more <==> exists q :: q in qs + rs && IsFileWith(s, q, c)
    {
      if q :| q in rs && IsFileWith(t, q, c) {
        assert IsFileWith(s, q, c);
      }
      if q :| q in qs + rs && IsFileWith(s, q, c) && q !in qs {
        assert IsFileWith(t, q, c);
      }
    }
  }

  lemma ChunksOfOne(s: Store, q: Path)
    requires q in s
    ensures ChunksOf(if s[q].isDir then [] else s[q].chunks, s, {q})
  {
    forall c
      ensures !s[q].isDir && c in s[q].chunks <==> exists r :: r in {q} && IsFileWith(s, r, c)
    {
      if !s[q].isDir && c in s[q].chunks {
        assert IsFileWith(s, q, c);
      }
    }
  }

  /**
   * Since the log was `base`, the named children of a directory were emptied, all below them was logged as deleted, and
   * the chunks of the files there were collected.
   */
  ghost predicate Deleting(s: Store, dir: Path, names: set<string>, base: seq<Event>,
                           store: Store, cache: map<Path, Entry>, log: seq<Event>, chunks: seq<FileChunk>) {
    && store == Pruned(s, dir, names) && CacheOk(cache, store)
    && LoggedSince(base, log, UnderNames(s, dir, names))
    && ChunksOf(chunks, s, UnderNames(s, dir, names))
    && forall name :: name in names ==> Child(dir, name) !in cache
  }

  lemma DeletingStart(s: Store, dir: Path, cache: map<Path, Entry>, log: seq<Event>)
    requires CacheOk(cache, s)
    ensures Deleting(s, dir, {}, log, s, cache, log, [])
  {
    assert log[|log|..] == [];
  }

  lemma DeletingDir(s: Store, dir: Path, names: set<string>, base: seq<Event>,
                    store: Store, cache: map<Path, Entry>, log: seq<Event>, chunks: seq<FileChunk>,
                    name: string, cache2: map<Path, Entry>, log2: seq<Event>, more: seq<FileChunk>)
    requires Deleting(s, dir, names, base, store, cache, log, chunks) && name !in names && Child(dir, name) in s
    requires CacheOk(cache2, Emptied(store, Child(dir, name))) && cache2.Keys <= cache.Keys
    requires LoggedSince(log, log2, Under(store, Child(dir, name)))
    requires ChunksOf(more, store, Under(store, Child(dir, name)))
    ensures Deleting(s, dir, names + {name}, base, Emptied(store, Child(dir, name)), cache2 - {Child(dir, name)}, log2,
                     chunks + more)
  {
    PrunedUnder(s, dir, names, name);
    hide LoggedSince;
    hide Under;
    hide UnderNames;
    hide Pruned;
    hide Emptied;
    hide ChunksOf;
    PruneStep(s, dir, names, name);
    LoggedMore(base, log, UnderNames(s, dir, names), log2, Under(store, Child(dir, name)));
    ChunksMore(chunks, s, UnderNames(s, dir, names), more, store, Under(store, Child(dir, name)));
  }

  lemma PrunedUnder(s: Store, dir: Path, names: set<string>, name: string)
    requires name !in names
    ensures var t := Pruned(s, dir, names);
      forall q :: q in Under(t, Child(dir, name)) ==> q in s && q in t && s[q] == t[q]
  {}

  lemma DeletingFile(s: Store, dir: Path, names: set<string>, base: seq<Event>,
                     store: Store, cache: map<Path, Entry>, log: seq<Event>, chunks: seq<FileChunk>, name: string)
    requires Housed(s) && Deleting(s, dir, names, base, store, cache, log, chunks) && name !in names
    requires Child(dir, name) in s && !s[Child(dir, name)].isDir
    ensures Deleting(s, dir, names + {name}, base, store, cache, Notify(log, Child(dir, name), true, None),
                     chunks + s[Child(dir, name)].chunks)
  {
    assert CacheOk(cache, store) && Child(dir, name) in store && store[Child(dir, name)] == s[Child(dir, name)];
    hide LoggedSince;
    hide Under;
    hide UnderNames;
    hide Pruned;
    hide Housed;
    hide Notify;
    hide ChunksOf;
    PruneStep(s, dir, names, name);
    PruneFile(s, dir, names, name);
    LoggedOne(log, Child(dir, name));
    LoggedMore(base, log, UnderNames(s, dir, names), Notify(log, Child(dir, name), true, None), {Child(dir, name)});
    ChunksOfOne(s, Child(dir, name));
    ChunksMore(chunks, s, UnderNames(s, dir, names), s[Child(dir, name)].chunks, s, {Child(dir, name)});
  }

  /** All children done: once they are out of the store and the directory is logged, it is empty. */
  lemma DeletingDone(s: Store, dir: Path, names: set<string>, base: seq<Event>,
                     store: Store, cache: map<Path, Entry>, log: seq<Event>, chunks: seq<FileChunk>)
    requires Housed(s) && dir in s && s[dir].isDir && Deleting(s, dir, names, base, store, cache, log, chunks)
    requires forall name :: Child(dir, name) in s ==> name in names
    ensures (map q | q in store && (q == [] || Parent(q) != dir) :: store[q]) == Emptied(s, dir)
    ensures CacheOk(cache, Emptied(s, dir))
    ensures LoggedSince(base, Notify(log, dir, true, None), Under(s, dir))
    ensures ChunksOf(chunks, s, Under(s, dir))
  {
    AllPruned(s, dir, names);
    UncachedBelow(s, dir, names, cache);
    ChunksOfOne(s, dir);
    hide LoggedSince;
    hide Notify;
    hide Housed;
    hide CacheOk;
    hide Under;
    hide UnderNames;
    hide ChunksOf;
    LoggedOne(log, dir);
    LoggedMore(base, log, UnderNames(s, dir, names), Notify(log, dir, true, None), {dir});
    ChunksMore(chunks, s, UnderNames(s, dir, names), [], s, {dir});
    assert chunks + [] == chunks;
  }

  lemma UncachedBelow(s: Store, dir: Path, names: set<string>, cache: map<Path, Entry>)
    requires Housed(s) && CacheOk(cache, Pruned(s, dir, names))
    requires forall name :: Child(dir, name) in s ==> name in names && Child(dir, name) !in cache
    ensures CacheOk(cache, Emptied(s, dir))
  {
    forall p | p in cache && p != []
      ensures !(dir < p)
    {
      if dir < p {
        assert p[..|dir|+1] == Child(dir, p[|dir|]) && p[..|p|] == p;
        if |p| > |dir| + 1 {
          AncestorsStored(s, p, |dir| + 1);
        }
      }
    }
  }
}
