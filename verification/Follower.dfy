/** A follower of a filer: a store that is kept up by replaying events. */
module Follower {
  import opened Common
  import opened Filer
  import opened FilerServer
  import opened Namespace
  import opened Paths

  class Follower {
    var store: Store

    constructor (store: Store)
      ensures this.store == store
    {
      this.store := store;
    }

    /** Applies one event: delete what was there, insert what is there now. */
    method Apply(ev: Event)
      modifies this
      ensures store == Replay(old(store), ev)
    {
      if ev.hadOld {
        store := store - {ev.path};
      }
      if ev.newEntry.Some? {
        store := store[ev.path := FromPb(ev.newEntry.value)];
      }
    }

    method ApplyAll(log: seq<Event>)
      modifies this
      ensures store == ReplayAll(old(store), log)
    {
      for i := 0 to |log|
        invariant store == ReplayAll(old(store), log[..i])
      {
        Apply(log[i]);
        assert log[..i+1][..|log[..i+1]|-1] == log[..i];
      }
      assert log[..|log|] == log;
    }

    /** A follower that began with the filer's entries and replays its log has them outside the system log. */
    method CatchUp(filer: Filer)
      requires filer.Mirrored() && store == filer.start
      modifies this
      ensures Follows(filer.store, store)
    {
      hide Follows;
      ghost var s, log, start := filer.store, filer.log, filer.start;
      ApplyAll(filer.log);
    }
  }

  /** The event of a refused update misleads the follower: a file here, a directory there. */
  lemma RefusedUpdateMisleads(attr: Attr)
    ensures var file, folder := Entry(false, attr, [], map[]), Entry(true, attr, [], map[]);
      var s: Store := map[["a"] := file];
      !Follows(s, ReplayAll(s, Notify([], ["a"], true, Some(folder))))
  {
    var file, folder := Entry(false, attr, [], map[]), Entry(true, attr, [], map[]);
    var s: Store := map[["a"] := file];
    assert Render(["a"]) == "/a" by {
      assert Parent(["a"]) == [] && Render([]) == "";
    }
    assert Render(["a"])[1] != SYSTEM_LOG_DIR[1];
    UpdateFollows(s, s, [], ["a"], folder);
  }
}
