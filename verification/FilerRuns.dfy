/** Whole runs of the filer: what every sequence of operations keeps. */
module FilerRuns {
  import opened Common
  import opened Filer
  import opened FilerServer
  import opened Namespace
  import opened Paths
  import opened Renames

  datatype Op =
    | Create(path: Path, entry: Entry, oExcl: bool)
    | Update(path: Path, entry: Entry)
    | Delete(path: Path, isRecursive: bool)
    | Rename(oldPath: Path, newPath: Path)
    | Evict(path: Path)

  /** Paths have no empty components, and nothing is stored that has expired already. */
  predicate Sound(op: Op, now: int) {
    match op
    case Create(path, entry, _) => "" !in path && !entry.Expired(now)
    case Update(path, entry) => path != [] && !entry.Expired(now)
    case Delete(_, _) => true
    case Rename(oldPath, _) => oldPath != []
    case Evict(_) => true
  }

  /** An update that would turn a stored file into a directory or back. */
  predicate Switches(op: Op, s: Store) {
    op.Update? && op.path in s && s[op.path].isDir != op.entry.isDir && Logged(op.path)
  }

  /** One operation. A rename onto an entry or into itself is not made. */
  method Step(server: FilerServer, op: Op)
    requires server.filer.Valid() && Unexpired(server.filer.store, server.filer.now) && Sound(op, server.filer.now)
    modifies server.filer`store, server.filer`cache, server.filer`log
    ensures server.filer.Valid() && Unexpired(server.filer.store, server.filer.now)
    ensures SameKinds(old(server.filer.store), server.filer.store)
    ensures old(server.filer.Mirrored()) && !Switches(op, old(server.filer.store)) ==> server.filer.Mirrored()
  {
    var filer := server.filer;
    ghost var s := filer.store;
    hide Housed;
    hide CacheOk;
    hide Follows;
    match op {
      case Create(path, entry, oExcl) =>
        CreateUnexpired(s, path, entry, filer.now);
        hide Unexpired;
        hide Created;
        var _ := filer.CreateEntry(path, entry, oExcl);
      case Update(path, entry) =>
        var _ := server.UpdateEntry(path, entry);
      case Delete(path, isRecursive) =>
        var _, _ := filer.DeleteEntryMetaAndData(path, isRecursive);
      case Rename(oldPath, newPath) =>
        SameKindsSelf(s);
        if MayRename(filer.store, oldPath, newPath) {
          if oldPath in filer.store && oldPath != newPath {
            RenameKeeps(s, oldPath, newPath, ParentEntry(filer.now, s[oldPath]), filer.now);
          }
          hide Unexpired;
          hide SameKinds;
          hide Renamed;
          var _ := server.AtomicRenameEntry(oldPath, newPath);
        }
      case Evict(path) =>
        SameKindsSelf(s);
        filer.Evict(path);
    }
  }

  lemma SameKindsSelf(s: Store)
    ensures SameKinds(s, s)
  {}

  /**
   * In every run each entry lives in a stored directory, no entry changes its kind in place, cached paths are stored
   * directories, and a follower that replays the events agrees, unless an update asked for a change of kind.
   */
  method RunAll(server: FilerServer, ops: seq<Op>) returns (ghost trace: seq<Store>)
    requires server.filer.Valid() && Unexpired(server.filer.store, server.filer.now)
    requires forall i :: 0 <= i < |ops| ==> Sound(ops[i], server.filer.now)
    modifies server.filer`store, server.filer`cache, server.filer`log
    ensures server.filer.Valid()
    ensures |trace| == |ops| + 1 && trace[0] == old(server.filer.store) && trace[|ops|] == server.filer.store
    ensures forall i :: 0 <= i < |trace| ==> Housed(trace[i])
    ensures forall i :: 0 <= i < |ops| ==> SameKinds(trace[i], trace[i+1])
    ensures old(server.filer.Mirrored()) && (forall i :: 0 <= i < |ops| ==> !Switches(ops[i], trace[i])) ==>
      server.filer.Mirrored()
  {
    trace := [server.filer.store];
    hide CacheOk;
    hide Follows;
    hide SameKinds;
    hide Unexpired;
    for n := 0 to |ops|
      invariant server.filer.Valid() && Unexpired(server.filer.store, server.filer.now)
      invariant |trace| == n + 1 && trace[0] == old(server.filer.store) && trace[n] == server.filer.store
      invariant forall i :: 0 <= i < |trace| ==> Housed(trace[i])
      invariant forall i :: 0 <= i < n ==> SameKinds(trace[i], trace[i+1])
      invariant old(server.filer.Mirrored()) && (forall i :: 0 <= i < n ==> !Switches(ops[i], trace[i])) ==>
        server.filer.Mirrored()
    {
      Step(server, ops[n]);
      trace := trace + [server.filer.store];
    }
  }
}
