/** Whole runs of writes, flushes and reads of an open file. */
module MountRuns {
  import opened Common
  import opened Chunks
  import opened Storage
  import opened Runs
  import opened Addresses
  import opened Manifests
  import opened OpenEntry
  import opened FileStates
  import opened FileReads
  import opened FileRuns
  import opened LosingRuns
  import opened MountFile

  /** One operation of an open file. */
  method Step(handle: FileHandle, op: Op)
    requires handle.Valid() && (op.WriteOp? ==> |op.data| > 0)
    modifies handle, handle.dirtyPages.intervals, handle.dirtyPages.intervals.repr, handle.dirtyPages.volumes
    ensures handle.Valid() && fresh(handle.dirtyPages.intervals.repr - old(handle.dirtyPages.intervals.repr))
    ensures GoodState(old(handle.State())) && GoodState(handle.State())
    ensures Next(old(handle.State()), op, handle.State())
  {
    hide *;
    handle.Goodness();
    handle.Parts();
    handle.StateIs();
    ghost var s := handle.State();
    match op {
      case WriteOp(offset, data) =>
        handle.Write(offset, data);
      case FlushPagesOp =>
        handle.FlushPages();
      case FlushOp(saves, filerSaves) =>
        var err := handle.Flush(saves, filerSaves);
    }
    handle.Goodness();
    NextIs(s, op, handle.State());
  }

  lemma NextIs(s: State, op: Op, t: State)
    requires s.mergeFactor > 0
    requires op.WriteOp? ==> Takes(s, Run(op.offset, op.data), t)
    requires op.FlushPagesOp? ==> Pages(s, t)
    requires op.FlushOp? ==> Flushes(s, op.saves, op.filerSaves, t)
    ensures Next(s, op, t)
  {}

  /**
   Every run is a trace of states.  Reads are served the last byte written exactly where every flush that would delete
   its chunk is followed by a write; the content agrees where no flush drops the chunk from the entry.  A run that fills
   no batch keeps everything.
   */
  method RunAll(handle: FileHandle, ops: seq<Op>) returns (ghost ss: seq<State>)
    requires handle.Valid() && forall op :: op in ops && op.WriteOp? ==> |op.data| > 0
    modifies handle, handle.dirtyPages.intervals, handle.dirtyPages.intervals.repr, handle.dirtyPages.volumes
    ensures handle.Valid()
    ensures Trace(ss, ops) && |ss| == |ops| + 1 && ss[0] == old(handle.State()) && ss[|ops|] == handle.State()
    ensures forall p :: (handle.State().Served(p)
                         == if ReadHeld(ss, ops, p) then After(ops, p, old(handle.State()).Written(p)) else None)
    ensures forall p :: handle.State().Whole(p) <==> EntryHeld(ss, ops, p)
    ensures forall p :: EntryHeld(ss, ops, p) ==> handle.State().Content(p) == handle.State().Served(p)
    ensures Room(old(handle.State()), Writes(ops)) ==>
      forall p :: (handle.State().Content(p) == After(ops, p, old(handle.State()).Content(p))
                   && handle.State().Served(p) == After(ops, p, old(handle.State()).Served(p)))
  {
    hide *;
    handle.Goodness();
    ss := [handle.State()];
    NoOps(ss);
    for i := 0 to |ops|
      invariant handle.Valid() && |ss| == i + 1
      invariant fresh(handle.dirtyPages.intervals.repr - old(handle.dirtyPages.intervals.repr))
      invariant Trace(ss, ops[..i]) && ss[0] == old(handle.State()) && ss[i] == handle.State()
    {
      Step(handle, ops[i]);
      assert ops[..i+1] == ops[..i] + [ops[i]];
      TraceMore(ss, ops[..i], ops[i], handle.State());
      ss := ss + [handle.State()];
    }
    assert ops[..|ops|] == ops;
    Outcome(ss, ops);
  }

  lemma NoOps(ss: seq<State>)
    requires |ss| == 1 && GoodState(ss[0])
    ensures Trace(ss, [])
  {}

  /** What is known of the state after a run. */
  lemma Outcome(ss: seq<State>, ops: seq<Op>)
    requires Trace(ss, ops) && |ss| == |ops| + 1
    ensures
      var s, t := ss[0], ss[|ops|];
      && (forall p :: (t.Served(p) == if ReadHeld(ss, ops, p) then After(ops, p, s.Written(p)) else None))
      && (forall p :: t.Whole(p) <==> EntryHeld(ss, ops, p))
      && (forall p :: EntryHeld(ss, ops, p) ==> t.Content(p) == t.Served(p))
      && (Room(s, Writes(ops)) ==>
            forall p :: (t.Content(p) == After(ops, p, s.Content(p)) && t.Served(p) == After(ops, p, s.Served(p))))
  {
    hide *;
    var s, t := ss[0], ss[|ops|];
    forall p
      ensures t.Served(p) == if ReadHeld(ss, ops, p) then After(ops, p, s.Written(p)) else None
      ensures t.Whole(p) <==> EntryHeld(ss, ops, p)
      ensures EntryHeld(ss, ops, p) ==> t.Content(p) == t.Served(p)
    {
      RunServed(ss, ops, p);
      RunWhole(ss, ops, p);
      if EntryHeld(ss, ops, p) {
        RunContent(ss, ops, p);
      }
    }
    if Room(s, Writes(ops)) {
      forall p ensures t.Content(p) == After(ops, p, s.Content(p)) && t.Served(p) == After(ops, p, s.Served(p)) {
        RunKeepsAll(ss, ops, p);
      }
    }
  }

  /**
   A read after a run returns the last byte written wherever it is dirty, or the reader reaches it and the chunk that
   shows there is not hidden at its front.  Bytes that are not dirty and not reached read as zero.
   */
  method RunThenRead(handle: FileHandle, ops: seq<Op>, offset: int, size: nat, inCache: set<FileId>)
    returns (data: seq<byte>)
    requires handle.Valid() && (forall op :: op in ops && op.WriteOp? ==> |op.data| > 0)
    requires 0 <= offset && offset + size <= MAX_INT64
    modifies handle, handle.dirtyPages.intervals, handle.dirtyPages.intervals.repr, handle.dirtyPages.volumes
    ensures handle.Valid()
    ensures |data| == ReadCount(handle.State().runs, handle.entryViewCache, handle.State().Within(inCache),
                               offset, size)
    ensures forall j :: 0 <= j < |data| && Reached(handle, inCache, offset, size, j) ==>
      Some(data[j]) == After(ops, offset + j, old(handle.State()).Written(offset + j))
    ensures forall j :: 0 <= j < |data| && Unreached(handle, inCache, offset, size, j) ==> data[j] == 0
  {
    hide *;
    ghost var ss := RunAll(handle, ops);
    data := handle.Read(offset, size, inCache);
    forall j | 0 <= j < |data| && Reached(handle, inCache, offset, size, j)
      ensures Some(data[j]) == After(ops, offset + j, old(handle.State()).Written(offset + j))
    {
      ReadServes(handle, inCache, offset, size, data, j);
      RunWritten(ss, ops, offset + j);
    }
    ReadZeros(handle, inCache, offset, size, data);
  }

  /** Byte j of a read is dirty, or the reader reaches it and no newer chunk hides the front of the chunk shown. */
  ghost predicate Reached(handle: FileHandle, inCache: set<FileId>, offset: int, size: nat, j: int)
    reads handle, handle.dirtyPages.intervals, handle.dirtyPages.volumes
  {
    var s := handle.State();
    || Lookup(s.runs, offset + j).Some?
    || (FrontShows(s.cached, offset + j)
        && j < Reach(ReadViews(handle.entryViewCache), s.Within(inCache), offset, size))
  }

  ghost predicate Unreached(handle: FileHandle, inCache: set<FileId>, offset: int, size: nat, j: int)
    reads handle, handle.dirtyPages.intervals, handle.dirtyPages.volumes
  {
    var s := handle.State();
    Lookup(s.runs, offset + j) == None && Reach(ReadViews(handle.entryViewCache), s.Within(inCache), offset, size) <= j
  }

  lemma ReadServes(handle: FileHandle, inCache: set<FileId>, offset: int, size: nat, data: seq<byte>, j: int)
    requires handle.Valid() && 0 <= j < |data| && Reached(handle, inCache, offset, size, j)
    requires ReadShows(handle.State().runs, handle.entryViewCache, handle.State().Within(inCache),
                       offset, size, data)
    ensures Some(data[j]) == handle.State().Written(offset + j)
  {
    handle.Goodness();
    handle.Parts();
    ReadIsWritten(handle.State(), handle.entryViewCache, handle.State().Within(inCache), offset, size, data, j);
  }

  lemma ReadZeros(handle: FileHandle, inCache: set<FileId>, offset: int, size: nat, data: seq<byte>)
    requires ReadShows(handle.State().runs, handle.entryViewCache, handle.State().Within(inCache),
                       offset, size, data)
    ensures forall j :: 0 <= j < |data| && Unreached(handle, inCache, offset, size, j) ==> data[j] == 0
  {}

  // ----- runs that lose what was written -----

  method CreateFile(chunkSizeLimit: nat, mergeFactor: nat) returns (handle: FileHandle)
    requires mergeFactor > 0
    ensures handle.Valid() && NewFile(handle.State()) && handle.State().mergeFactor == mergeFactor
    ensures fresh(handle) && fresh(handle.dirtyPages.intervals) && fresh(handle.dirtyPages.intervals.repr)
    ensures fresh(handle.dirtyPages.volumes)
  {
    hide *;
    var volumes := new Volumes();
    NothingYet(volumes.manifests, volumes.blobs, volumes.clock);
    handle := new FileHandle(volumes, [], chunkSizeLimit, mergeFactor, Flat);
    handle.Goodness();
    IsNew(handle.State());
  }

  lemma NothingYet(store: Store, blobs: Blobs, now: int)
    requires store == map[]
    ensures Grounded(store, Flat) && Resolve(store, Flat, []) == Ok([], []) && GoodChunks([], blobs, now)
  {}

  lemma IsNew(s: State)
    requires GoodState(s) && s.runs == [] && s.chunks == [] && s.stored == [] && s.cached == []
    ensures NewFile(s)
  {}

  /** The losing run on a new file. */
  method LoseDots(chunkSizeLimit: nat, mergeFactor: nat, n: nat, first: Op, second: Op)
    returns (handle: FileHandle, ghost ss: seq<State>)
    requires mergeFactor > 0 && first.FlushOp? && second.FlushOp?
    ensures handle.Valid() && Trace(ss, LosingRun(n, first, second)) && |ss| == n + 4 && ss[n+3] == handle.State()
    ensures NewFile(ss[0]) && ss[0].mergeFactor == mergeFactor
    ensures forall i :: 0 <= i < n ==> After(LosingRun(n, first, second), 2 * i, None) == Some(0)
    ensures mergeFactor == n + 1 && (second.saves > 0 || second.filerSaves > 0) ==>
      forall i :: 0 <= i < n ==> handle.State().Content(2 * i) == handle.State().Served(2 * i) == None
    ensures mergeFactor == n && first.saves > 0 ==>
      forall i :: 0 <= i < n ==> handle.State().Content(2 * i) == None && handle.State().Served(2 * i) == Some(0)
  {
    hide *;
    handle := CreateFile(chunkSizeLimit, mergeFactor);
    LosingRunOps(n, first, second);
    ss := RunAll(handle, LosingRun(n, first, second));
    forall i | 0 <= i < n ensures After(LosingRun(n, first, second), 2 * i, None) == Some(0) {
      LosingRunAfter(n, first, second, i);
    }
    if mergeFactor == n + 1 && (second.saves > 0 || second.filerSaves > 0) {
      forall i | 0 <= i < n ensures handle.State().Content(2 * i) == handle.State().Served(2 * i) == None {
        StoredIsLost(ss, n, first, second, i);
      }
    }
    if mergeFactor == n && first.saves > 0 {
      forall i | 0 <= i < n
        ensures handle.State().Content(2 * i) == None && handle.State().Served(2 * i) == Some(0)
      {
        BundledIsLost(ss, n, first, second, i);
      }
    }
  }

  lemma {:induction false} DotsOps(n: nat)
    ensures forall op :: op in Dots(n) ==> op.WriteOp? && |op.data| > 0
  {
    if n > 0 {
      DotsOps(n - 1);
    }
  }

  lemma LosingRunOps(n: nat, first: Op, second: Op)
    requires first.FlushOp? && second.FlushOp?
    ensures |LosingRun(n, first, second)| == n + 3
    ensures forall op :: op in LosingRun(n, first, second) && op.WriteOp? ==> |op.data| > 0
  {
    DotsOps(n);
  }
}
