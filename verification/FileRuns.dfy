/** Whole runs of writes and flushes of an open file, as traces of its states. */
module FileRuns {
  import opened Common
  import opened Runs
  import opened Visibility
  import opened Manifests
  import opened FileStates

  /** In a flush the mount can save `saves` manifests and the filer `filerSaves`. */
  datatype Op = WriteOp(offset: int, data: seq<byte>) | FlushPagesOp | FlushOp(saves: nat, filerSaves: nat)

  predicate Overwrites(op: Op, p: int) {
    op.WriteOp? && op.offset <= p < op.offset + |op.data|
  }

  function Effect(op: Op, p: int, before: Option<byte>): Option<byte> {
    if Overwrites(op, p) then Some(op.data[p - op.offset]) else before
  }

  /** The byte at p after the operations: that of the last write covering p, else the one before. */
  function After(ops: seq<Op>, p: int, before: Option<byte>): Option<byte> {
    if ops == [] then before else Effect(ops[|ops|-1], p, After(ops[..|ops|-1], p, before))
  }

  function Writes(ops: seq<Op>): nat {
    if ops == [] then 0 else Writes(ops[..|ops|-1]) + if ops[|ops|-1].WriteOp? then 1 else 0
  }

  ghost predicate Next(s: State, op: Op, t: State)
    requires s.mergeFactor > 0
  {
    match op
    case WriteOp(offset, data) => Takes(s, Run(offset, data), t)
    case FlushPagesOp => Pages(s, t)
    case FlushOp(saves, filerSaves) => Flushes(s, saves, filerSaves, t)
  }

  /** The states before, between and after the operations. */
  ghost predicate Trace(ss: seq<State>, ops: seq<Op>) {
    && |ss| == |ops| + 1 && (forall i :: 0 <= i < |ss| ==> GoodState(ss[i]))
    && forall i :: 0 <= i < |ops| ==> GoodState(ss[i]) && Next(ss[i], ops[i], ss[i+1])
  }

  lemma TraceInit(ss: seq<State>, ops: seq<Op>)
    requires Trace(ss, ops) && ops != []
    ensures
      var n := |ops| - 1;
      && Trace(ss[..n+1], ops[..n]) && ss[..n+1][0] == ss[0] && ss[..n+1][n] == ss[n]
      && GoodState(ss[n]) && GoodState(ss[n+1]) && Next(ss[n], ops[n], ss[n+1])
  {}

  lemma TraceMore(ss: seq<State>, ops: seq<Op>, op: Op, t: State)
    requires Trace(ss, ops) && GoodState(ss[|ops|]) && GoodState(t) && Next(ss[|ops|], op, t)
    ensures Trace(ss + [t], ops + [op])
  {
    var all, more := ss + [t], ops + [op];
    forall i | 0 <= i < |more| ensures GoodState(all[i]) && Next(all[i], more[i], all[i+1]) {
      assert all[i] == ss[i];
    }
  }

  // ----- one operation -----

  /** The operation keeps what reads show at p. */
  ghost predicate KeepsRead(s: State, op: Op, p: int)
    requires s.mergeFactor > 0
  {
    op.FlushOp? ==> ReadSafe(s, op.saves, op.filerSaves, p)
  }

  /** The operation keeps the chunk that the entry shows at p in the entry. */
  ghost predicate KeepsEntry(s: State, op: Op, p: int) {
    op.FlushOp? ==> Direct(s, p)
  }

  /** The operation keeps the content at p. */
  ghost predicate KeepsContent(s: State, op: Op, p: int)
    requires s.mergeFactor > 0
  {
    op.FlushOp? ==> Safe(s, op.saves, op.filerSaves, p)
  }

  /** One operation, position by position. */
  lemma NextLaws(s: State, op: Op, t: State, p: int)
    requires GoodState(s) && Next(s, op, t)
    ensures t.Written(p) == Effect(op, p, s.Written(p))
    ensures t.Present(p) <==> Overwrites(op, p) || (s.Present(p) && KeepsRead(s, op, p))
    ensures t.Whole(p) <==> Overwrites(op, p) || (s.Whole(p) && KeepsEntry(s, op, p))
    ensures KeepsContent(s, op, p) ==> t.Content(p) == Effect(op, p, s.Content(p))
  {
    hide GoodState;
    hide Takes;
    hide Flushes;
    hide State.Present;
    hide State.Whole;
    match op {
      case WriteOp(offset, data) =>
        TakesLaws(s, Run(offset, data), t, p);
      case FlushPagesOp =>
        TakesLaws(s, Run(0, []), t, p);
      case FlushOp(saves, filerSaves) =>
        FlushReads(s, saves, filerSaves, t, p);
        FlushContent(s, saves, filerSaves, t, p);
    }
  }

  // ----- whole runs -----

  /** One of the operations from number i on writes position p. */
  ghost predicate Rewritten(ops: seq<Op>, i: nat, p: int) {
    exists k :: i <= k < |ops| && Overwrites(ops[k], p)
  }

  lemma RewrittenMore(ops: seq<Op>, p: int)
    requires ops != []
    ensures
      var n := |ops| - 1;
      && !Rewritten(ops[..n], n, p)
      && forall i: nat :: i <= n ==> (Rewritten(ops, i, p) <==> Rewritten(ops[..n], i, p) || Overwrites(ops[n], p))
  {
    var n := |ops| - 1;
    forall i: nat | i <= n ensures Rewritten(ops, i, p) <==> Rewritten(ops[..n], i, p) || Overwrites(ops[n], p) {
      if k :| i <= k < |ops| && Overwrites(ops[k], p) {
        assert k < n ==> Overwrites(ops[..n][k], p);
      }
      if k :| i <= k < n && Overwrites(ops[..n][k], p) {
        assert Overwrites(ops[k], p);
      }
    }
  }

  /** What was last written at p is there after the run: the byte of the last write. */
  lemma {:induction false} RunWritten(ss: seq<State>, ops: seq<Op>, p: int)
    requires Trace(ss, ops)
    ensures ss[|ops|].Written(p) == After(ops, p, ss[0].Written(p))
  {
    if ops != [] {
      var n := |ops| - 1;
      TraceInit(ss, ops);
      hide *;
      RunWritten(ss[..n+1], ops[..n], p);
      NextLaws(ss[n], ops[n], ss[n+1], p);
      AfterMore(ops, p, ss[0].Written(p));
    }
  }

  lemma AfterMore(ops: seq<Op>, p: int, before: Option<byte>)
    requires ops != []
    ensures After(ops, p, before) == Effect(ops[|ops|-1], p, After(ops[..|ops|-1], p, before))
  {}

  /** Every operation that does not keep what reads show at p is followed by a write there. */
  ghost predicate ReadHeld(ss: seq<State>, ops: seq<Op>, p: int)
    requires Trace(ss, ops)
  {
    && (ss[0].Present(p) || Rewritten(ops, 0, p))
    && forall i :: 0 <= i < |ops| && !KeepsRead(ss[i], ops[i], p) ==> Rewritten(ops, i, p)
  }

  /** Every operation that does not keep the chunk shown at p in the entry is followed by a write there. */
  ghost predicate EntryHeld(ss: seq<State>, ops: seq<Op>, p: int)
    requires Trace(ss, ops)
  {
    && (ss[0].Whole(p) || Rewritten(ops, 0, p))
    && forall i :: 0 <= i < |ops| && !KeepsEntry(ss[i], ops[i], p) ==> Rewritten(ops, i, p)
  }

  lemma TraceParts(ss: seq<State>, ops: seq<Op>)
    requires Trace(ss, ops)
    ensures |ss| == |ops| + 1 && forall i :: 0 <= i < |ss| ==> GoodState(ss[i]) && ss[i].mergeFactor > 0
    ensures forall i :: 0 <= i < |ops| ==> Next(ss[i], ops[i], ss[i+1])
  {}

  lemma ReadHeldIs(ss: seq<State>, ops: seq<Op>, p: int)
    requires Trace(ss, ops)
    ensures ReadHeld(ss, ops, p) <==>
      && (ss[0].Present(p) || Rewritten(ops, 0, p))
      && forall i :: 0 <= i < |ops| && !KeepsRead(ss[i], ops[i], p) ==> Rewritten(ops, i, p)
  {
    hide KeepsRead;
    hide Rewritten;
    hide State.Present;
  }

  lemma EntryHeldIs(ss: seq<State>, ops: seq<Op>, p: int)
    requires Trace(ss, ops)
    ensures EntryHeld(ss, ops, p) <==>
      && (ss[0].Whole(p) || Rewritten(ops, 0, p))
      && forall i :: 0 <= i < |ops| && !KeepsEntry(ss[i], ops[i], p) ==> Rewritten(ops, i, p)
  {
    hide KeepsEntry;
    hide Rewritten;
    hide State.Whole;
  }

  /** The last operation writes p, or what held before it is kept by it. */
  lemma ReadHeldMore(ss: seq<State>, ops: seq<Op>, p: int)
    requires Trace(ss, ops) && ops != []
    requires Trace(ss[..|ops|], ops[..|ops|-1]) && ss[|ops|-1].mergeFactor > 0
    ensures
      var n := |ops| - 1;
      ReadHeld(ss, ops, p) <==>
        Overwrites(ops[n], p) || (ReadHeld(ss[..n+1], ops[..n], p) && KeepsRead(ss[n], ops[n], p))
  {
    hide *;
    var n := |ops| - 1;
    TraceParts(ss, ops);
    RewrittenMore(ops, p);
    ReadHeldIs(ss, ops, p);
    ReadHeldIs(ss[..n+1], ops[..n], p);
    assert forall i :: 0 <= i < n ==> ss[..n+1][i] == ss[i] && ops[..n][i] == ops[i];
  }

  lemma {:induction false} RunPresent(ss: seq<State>, ops: seq<Op>, p: int)
    requires Trace(ss, ops)
    ensures ss[|ops|].Present(p) <==> ReadHeld(ss, ops, p)
  {
    if ops != [] {
      var n := |ops| - 1;
      TraceInit(ss, ops);
      ReadHeldMore(ss, ops, p);
      hide *;
      RunPresent(ss[..n+1], ops[..n], p);
      NextLaws(ss[n], ops[n], ss[n+1], p);
    }
  }

  /** Reads are served the last byte written exactly where every flush that would lose it is followed by a write. */
  lemma RunServed(ss: seq<State>, ops: seq<Op>, p: int)
    requires Trace(ss, ops)
    ensures ss[|ops|].Served(p) == if ReadHeld(ss, ops, p) then After(ops, p, ss[0].Written(p)) else None
  {
    TraceParts(ss, ops);
    hide *;
    RunPresent(ss, ops, p);
    RunWritten(ss, ops, p);
    ServedIs(ss[|ops|], p);
  }

  lemma EntryHeldMore(ss: seq<State>, ops: seq<Op>, p: int)
    requires Trace(ss, ops) && ops != [] && Trace(ss[..|ops|], ops[..|ops|-1])
    ensures
      var n := |ops| - 1;
      EntryHeld(ss, ops, p) <==>
        Overwrites(ops[n], p) || (EntryHeld(ss[..n+1], ops[..n], p) && KeepsEntry(ss[n], ops[n], p))
  {
    hide *;
    var n := |ops| - 1;
    TraceParts(ss, ops);
    RewrittenMore(ops, p);
    EntryHeldIs(ss, ops, p);
    EntryHeldIs(ss[..n+1], ops[..n], p);
    assert forall i :: 0 <= i < n ==> ss[..n+1][i] == ss[i] && ops[..n][i] == ops[i];
  }

  /** The entry shows the chunk last written at p exactly if every flush that would drop it is followed by a write. */
  lemma {:induction false} RunWhole(ss: seq<State>, ops: seq<Op>, p: int)
    requires Trace(ss, ops)
    ensures ss[|ops|].Whole(p) <==> EntryHeld(ss, ops, p)
  {
    if ops != [] {
      var n := |ops| - 1;
      TraceInit(ss, ops);
      EntryHeldMore(ss, ops, p);
      hide *;
      RunWhole(ss[..n+1], ops[..n], p);
      NextLaws(ss[n], ops[n], ss[n+1], p);
    }
  }

  /** Where the entry shows that chunk its content is what reads are served: the last byte written, or nothing. */
  lemma RunContent(ss: seq<State>, ops: seq<Op>, p: int)
    requires Trace(ss, ops) && EntryHeld(ss, ops, p)
    ensures ss[|ops|].Content(p) == if ReadHeld(ss, ops, p) then After(ops, p, ss[0].Written(p)) else None
  {
    TraceParts(ss, ops);
    hide *;
    RunWhole(ss, ops, p);
    RunServed(ss, ops, p);
    ServedIs(ss[|ops|], p);
  }

  // ----- runs that fill no batch -----

  /** The entry lists data only, and its chunks, the dirty runs and `rest` more writes are fewer than a batch. */
  ghost predicate Room(s: State, rest: nat) {
    || (AllData(s.chunks) && |s.chunks| + |s.runs| + rest < s.mergeFactor)
    || (rest == 0 && !s.Dirty())
  }

  function WritesOf(op: Op): nat {
    if op.WriteOp? then 1 else 0
  }

  lemma NoneBundled(s: State)
    requires s.mergeFactor > 0 && |s.chunks| + |s.runs| < s.mergeFactor
    ensures Bundled(s) == []
  {
    KeepCount(s.chunks, Exposed(s));
    BatchedOf(Count(s), s.mergeFactor);
  }

  /** With room left every operation keeps everything. */
  lemma RoomSafe(s: State, op: Op, rest: nat, p: int)
    requires GoodState(s) && Room(s, rest)
    ensures KeepsRead(s, op, p) && KeepsEntry(s, op, p) && KeepsContent(s, op, p)
  {
    if s.Dirty() {
      NoneBundled(s);
    }
  }

  lemma RoomTaken(s: State, r: Run, t: State, rest: nat)
    requires GoodState(s) && Takes(s, r, t) && Room(s, rest + if r.bytes == [] then 0 else 1)
    ensures Room(t, rest)
  {
    assert t.chunks == s.chunks + Added(s, t);
  }

  lemma RoomStored(s: State, saves: nat, filerSaves: nat, t: State, rest: nat)
    requires GoodState(s) && Stores(s, saves, filerSaves, t) && Room(s, rest)
    ensures Room(t, rest)
  {
    KeepCount(s.chunks, Ids(VisibleOf(s.data)));
    forall c | c in KeptOf(s) ensures !c.isManifest {
      KeptMembers(s, c);
    }
  }

  lemma RoomNext(s: State, op: Op, t: State, rest: nat)
    requires GoodState(s) && Next(s, op, t) && Room(s, rest + WritesOf(op))
    ensures Room(t, rest)
  {
    match op {
      case WriteOp(offset, data) =>
        LessRoom(s, rest + 1, rest + if data == [] then 0 else 1);
        RoomTaken(s, Run(offset, data), t, rest);
      case FlushPagesOp =>
        RoomTaken(s, Run(0, []), t, rest);
      case FlushOp(saves, filerSaves) =>
        if s.Dirty() {
          var mid: State :| Pages(s, mid) && Stores(mid, saves, filerSaves, t);
          PagesParts(s, mid);
          RoomTaken(s, Run(0, []), mid, rest);
          RoomStored(mid, saves, filerSaves, t, rest);
        }
    }
  }

  lemma LessRoom(s: State, more: nat, rest: nat)
    requires Room(s, more) && rest <= more
    ensures Room(s, rest)
  {}

  lemma WritesMore(ops: seq<Op>)
    ensures Writes(ops) == if ops == [] then 0 else Writes(ops[..|ops|-1]) + WritesOf(ops[|ops|-1])
  {}

  lemma {:induction false} RoomKept(ss: seq<State>, ops: seq<Op>, rest: nat)
    requires Trace(ss, ops) && Room(ss[0], Writes(ops) + rest)
    ensures Room(ss[|ops|], rest)
  {
    hide *;
    WritesMore(ops);
    TraceParts(ss, ops);
    if ops != [] {
      var n := |ops| - 1;
      TraceInit(ss, ops);
      RoomKept(ss[..n+1], ops[..n], rest + WritesOf(ops[n]));
      RoomNext(ss[n], ops[n], ss[n+1], rest);
    }
  }

  /**
   A run that starts without manifests and whose writes, with the chunks and dirty runs there are, are fewer than a
   batch loses nothing: content and reads follow the writes everywhere.
   */
  lemma {:induction false} RunKeepsAll(ss: seq<State>, ops: seq<Op>, p: int)
    requires Trace(ss, ops) && Room(ss[0], Writes(ops))
    ensures ss[|ops|].Content(p) == After(ops, p, ss[0].Content(p))
    ensures ss[|ops|].Served(p) == After(ops, p, ss[0].Served(p))
  {
    if ops != [] {
      var n, k := |ops| - 1, WritesOf(ops[|ops|-1]);
      TraceInit(ss, ops);
      WritesMore(ops);
      hide *;
      RoomKept(ss[..n+1], ops[..n], k);
      LessRoom(ss[0], Writes(ops), Writes(ops[..n]));
      RunKeepsAll(ss[..n+1], ops[..n], p);
      RoomSafe(ss[n], ops[n], k, p);
      NextServed(ss[n], ops[n], ss[n+1], p);
      AfterMore(ops, p, ss[0].Content(p));
      AfterMore(ops, p, ss[0].Served(p));
    }
  }

  lemma NextServed(s: State, op: Op, t: State, p: int)
    requires GoodState(s) && GoodState(t) && Next(s, op, t) && KeepsRead(s, op, p) && KeepsContent(s, op, p)
    ensures t.Content(p) == Effect(op, p, s.Content(p)) && t.Served(p) == Effect(op, p, s.Served(p))
  {
    NextLaws(s, op, t, p);
    ServedIs(s, p);
    ServedIs(t, p);
    hide GoodState;
    hide Next;
    hide State.Present;
    hide State.Served;
  }
}
