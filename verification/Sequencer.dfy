/**
 File ids from etcd: any number of masters take blocks of ids from one register with compare-and-swap
 and hand ids out of their block.  Each request to etcd is one step; steps of different masters
 interleave freely, and a request may fail, with or without having taken effect.
 */
module Sequencer {
  import opened Common

  const DEFAULT_STEPS: nat := 500

  datatype Register = Absent | Value(n: nat) {
    predicate AtLeast(r: Register) {
      r.Value? ==> Value? && n >= r.n
    }
  }

  /** Which request to etcd a master makes next. */
  datatype Pc =
    | Idle
    | NextGet(count: nat)
    | NextSet(count: nat, prev: nat)
    | MaxGet(want: nat)
    | MaxCreate(want: nat)
    | MaxSet(want: nat, prev: nat)

  /** The ids [cur, max) are free; `floor` is the largest value a SetMax succeeded with. */
  datatype Master = Master(cur: nat, max: nat, pc: Pc, floor: nat)

  datatype Range = Range(master: nat, id: nat, count: nat)

  datatype State = State(register: Register, masters: map<nat, Master>, issued: seq<Range>)

  /** How a request to etcd ends: done, refused or failed, or done but reported as failed. */
  datatype Outcome = Done | Failed | LostReply

  datatype Action =
    | Boot(m: nat, fileMax: nat)
    | NextFileId(m: nat, count: nat)
    | SetMax(m: nat, seen: nat)
    | Request(m: nat, outcome: Outcome)

  function Steps(count: nat): nat {
    if count > DEFAULT_STEPS then DEFAULT_STEPS + count else DEFAULT_STEPS
  }

  /** Hands out `count` ids from the block of master m. */
  function Issue(s: State, m: nat, master: Master, count: nat): State
  {
    State(s.register, s.masters[m := master.(cur := master.cur + count, pc := Idle)],
          s.issued + [Range(m, master.cur, count)])
  }

  function WithPc(s: State, m: nat, pc: Pc): State
    requires m in s.masters
  {
    s.(masters := s.masters[m := s.masters[m].(pc := pc)])
  }

  /** The conditional write of a new block: on success the block starts at the value read before. */
  function DoNextSet(s: State, m: nat, count: nat, prev: nat, outcome: Outcome): State
    requires m in s.masters
  {
    var end := prev + Steps(count);
    if outcome == Failed || s.register != Value(prev) then WithPc(s, m, NextGet(count))
    else if outcome == LostReply then WithPc(s.(register := Value(end)), m, NextGet(count))
    else Issue(s.(register := Value(end)), m, s.masters[m].(cur := end - Steps(count), max := end), count)
  }

  /** The read of SetMax, which returns once the register is high enough. */
  function DoMaxGet(s: State, m: nat, want: nat, outcome: Outcome): State
    requires m in s.masters
  {
    if outcome != Done then WithPc(s, m, Idle)
    else if s.register.Absent? then WithPc(s, m, MaxCreate(want))
    else if s.register.n >= want then
      s.(masters := s.masters[m := Master(s.register.n, s.register.n, Idle, Max(s.masters[m].floor, want))])
    else WithPc(s, m, MaxSet(want, s.register.n))
  }

  /** The write of SetMax, which must find the register as `expected`; otherwise it moves to `refused`. */
  function DoMaxWrite(s: State, m: nat, want: nat, expected: Register, refused: Pc, outcome: Outcome): State
    requires m in s.masters
  {
    if s.register != expected then WithPc(s, m, refused)
    else if outcome == Failed then WithPc(s, m, Idle)
    else if outcome == LostReply then WithPc(s.(register := Value(want)), m, Idle)
    else WithPc(s.(register := Value(want)), m, MaxGet(want))
  }

  /** One request to etcd by a master that is waiting to make one. */
  function DoRequest(s: State, m: nat, outcome: Outcome): State
    requires m in s.masters
  {
    match s.masters[m].pc
    case Idle => s
    case NextGet(count) =>
      if outcome != Done || s.register.Absent? then WithPc(s, m, Idle) else WithPc(s, m, NextSet(count, s.register.n))
    case NextSet(count, prev) => DoNextSet(s, m, count, prev, outcome)
    case MaxGet(want) => DoMaxGet(s, m, want, outcome)
    case MaxCreate(want) => DoMaxWrite(s, m, want, Absent, MaxGet(want), outcome)
    case MaxSet(want, prev) => DoMaxWrite(s, m, want, Value(prev), Idle, outcome)
  }

  function Do(s: State, a: Action): State {
    match a
    case Boot(m, fileMax) =>
      var floor := if m in s.masters then s.masters[m].floor else 0;
      s.(masters := s.masters[m := Master(0, 0, MaxGet(fileMax), floor)])
    case NextFileId(m, count) =>
      if m !in s.masters || !s.masters[m].pc.Idle? then s
      else if s.masters[m].cur + count >= s.masters[m].max then WithPc(s, m, NextGet(count))
      else Issue(s, m, s.masters[m], count)
    case SetMax(m, seen) =>
      if m !in s.masters || !s.masters[m].pc.Idle? || seen <= s.masters[m].max then s
      else WithPc(s, m, MaxGet(seen))
    case Request(m, outcome) =>
      if m !in s.masters then s else DoRequest(s, m, outcome)
  }

  function Run(s: State, actions: seq<Action>): State {
    if actions == [] then s else Do(Run(s, actions[..|actions|-1]), actions[|actions|-1])
  }

  const INITIAL: State := State(Absent, map[], [])

  // ----- safety -----

  /** [a, a+n) and [b, b+k) have no id in common. */
  predicate Disjoint(a: nat, n: nat, b: nat, k: nat) {
    n == 0 || k == 0 || a + n <= b || b + k <= a
  }

  predicate Below(r: Register, x: nat) {
    x == 0 || (r.Value? && x <= r.n)
  }

  /** SetMax only ever raises the register. */
  predicate PcOk(pc: Pc) {
    pc.MaxSet? ==> pc.prev < pc.want
  }

  /** The free block of a master stays within what the register gave out. */
  ghost predicate BlockOk(s: State, m: nat)
    requires m in s.masters
  {
    var k := s.masters[m];
    && PcOk(k.pc) && k.cur <= k.max && Below(s.register, k.max)
    && Below(s.register, k.floor) && (k.cur < k.max ==> k.floor <= k.cur)
  }

  predicate RangesApart(a: Range, b: Range) {
    Disjoint(a.id, a.count, b.id, b.count)
  }

  /** None of the ids handed out is still free. */
  predicate Spent(r: Range, k: Master)
    requires k.cur <= k.max
  {
    Disjoint(r.id, r.count, k.cur, k.max - k.cur)
  }

  predicate BlocksApart(k: Master, l: Master)
    requires k.cur <= k.max && l.cur <= l.max
  {
    Disjoint(k.cur, k.max - k.cur, l.cur, l.max - l.cur)
  }

  ghost predicate BlocksOk(s: State) {
    forall m :: m in s.masters ==> BlockOk(s, m)
  }

  ghost predicate IssuedOk(s: State) {
    && (forall i :: 0 <= i < |s.issued| ==> Below(s.register, s.issued[i].id + s.issued[i].count))
    && (forall i, j :: 0 <= i < j < |s.issued| ==> RangesApart(s.issued[i], s.issued[j]))
  }

  ghost predicate NothingTwice(s: State)
    requires BlocksOk(s)
  {
    && (forall i, m :: 0 <= i < |s.issued| && m in s.masters ==> BlockOk(s, m) && Spent(s.issued[i], s.masters[m]))
    && (forall m, k :: m in s.masters && k in s.masters && m != k ==>
          BlockOk(s, m) && BlockOk(s, k) && BlocksApart(s.masters[m], s.masters[k]))
  }

  ghost predicate Inv(s: State) {
    BlocksOk(s) && IssuedOk(s) && NothingTwice(s)
  }

  lemma PcKeeps(s: State, m: nat, pc: Pc)
    requires Inv(s) && m in s.masters && PcOk(pc)
    ensures Inv(WithPc(s, m, pc))
  {
    var t := WithPc(s, m, pc);
    forall k | k in t.masters ensures BlockOk(t, k) { assert BlockOk(s, k); }
  }

  lemma RaiseKeeps(s: State, r: nat)
    requires Inv(s) && Value(r).AtLeast(s.register)
    ensures Inv(s.(register := Value(r)))
  {
    var t := s.(register := Value(r));
    forall k | k in t.masters ensures BlockOk(t, k) { assert BlockOk(s, k); }
  }

  /** A master whose block is new, above all that was given out before. */
  lemma BlockKeeps(s: State, m: nat, master: Master, prev: nat)
    requires Inv(s.(register := Value(prev))) && s.register.Value? && prev <= master.cur <= master.max <= s.register.n
    requires PcOk(master.pc) && Below(s.register, master.floor)
    requires master.cur < master.max ==> master.floor <= master.cur
    ensures Inv(s.(masters := s.masters[m := master]))
  {
    var was := s.(register := Value(prev));
    var t := s.(masters := s.masters[m := master]);
    forall k | k in t.masters ensures BlockOk(t, k) { assert k != m ==> BlockOk(was, k); }
    forall k | k in s.masters ensures s.masters[k].max <= prev { assert BlockOk(was, k); }
  }

  lemma IssueBlocks(s: State, m: nat, count: nat)
    requires Inv(s) && m in s.masters && s.masters[m].cur + count <= s.masters[m].max
    ensures BlocksOk(Issue(s, m, s.masters[m], count))
  {
    var t := Issue(s, m, s.masters[m], count);
    assert BlockOk(s, m);
    forall k | k in t.masters ensures BlockOk(t, k) { assert BlockOk(s, k); }
  }

  lemma IssueRanges(s: State, m: nat, count: nat)
    requires Inv(s) && m in s.masters && s.masters[m].cur + count <= s.masters[m].max
    ensures IssuedOk(Issue(s, m, s.masters[m], count))
  {
    var t, n := Issue(s, m, s.masters[m], count), |s.issued|;
    assert BlockOk(s, m);
    forall i | 0 <= i < n ensures t.issued[i] == s.issued[i] && RangesApart(t.issued[i], t.issued[n]) {
      assert Spent(s.issued[i], s.masters[m]);
    }
  }

  /** Ids taken from the front of a block are no longer free. */
  lemma IssueKeeps(s: State, m: nat, count: nat)
    requires Inv(s) && m in s.masters && s.masters[m].cur + count <= s.masters[m].max
    ensures Inv(Issue(s, m, s.masters[m], count))
  {
    var master := s.masters[m];
    var t, n := Issue(s, m, master, count), |s.issued|;
    IssueBlocks(s, m, count);
    IssueRanges(s, m, count);
    forall i, k | 0 <= i < |t.issued| && k in t.masters ensures BlockOk(t, k) && Spent(t.issued[i], t.masters[k]) {
      assert BlockOk(s, m) && BlockOk(s, k);
      assert i < n ==> t.issued[i] == s.issued[i] && Spent(s.issued[i], s.masters[k]) && Spent(s.issued[i], master);
      assert k != m ==> BlocksApart(master, s.masters[k]);
    }
    forall k, l | k in t.masters && l in t.masters && k != l
      ensures BlockOk(t, k) && BlockOk(t, l) && BlocksApart(t.masters[k], t.masters[l])
    {
      assert BlockOk(s, k) && BlockOk(s, l) && BlocksApart(s.masters[k], s.masters[l]);
    }
  }

  lemma IssueSame(s: State, m: nat, block: Master, count: nat)
    ensures Issue(s.(masters := s.masters[m := block]), m, block, count) == Issue(s, m, block, count)
  {
    var next := block.(cur := block.cur + count, pc := Idle);
    assert s.masters[m := block][m := next] == s.masters[m := next];
  }

  /** A new block starts where all that was given out before ends. */
  lemma NewBlockKeeps(s: State, m: nat, prev: nat, steps: nat)
    requires Inv(s) && m in s.masters && s.register == Value(prev)
    ensures
      var raised := s.(register := Value(prev + steps));
      Inv(raised.(masters := raised.masters[m := s.masters[m].(cur := prev, max := prev + steps)]))
  {
    assert BlockOk(s, m);
    var raised := s.(register := Value(prev + steps));
    assert raised.(register := Value(prev)) == s;
    BlockKeeps(raised, m, s.masters[m].(cur := prev, max := prev + steps), prev);
  }

  lemma NextSetKeeps(s: State, m: nat, count: nat, prev: nat, outcome: Outcome)
    requires Inv(s) && m in s.masters
    ensures Inv(DoNextSet(s, m, count, prev, outcome))
    ensures DoNextSet(s, m, count, prev, outcome).register.AtLeast(s.register)
  {
    hide Inv;
    var end := prev + Steps(count);
    if outcome == Failed || s.register != Value(prev) {
      PcKeeps(s, m, NextGet(count));
    } else if outcome == LostReply {
      RaiseKeeps(s, end);
      PcKeeps(s.(register := Value(end)), m, NextGet(count));
    } else {
      NextSetDone(s, m, count, prev);
    }
  }

  lemma NextSetDone(s: State, m: nat, count: nat, prev: nat)
    requires Inv(s) && m in s.masters && s.register == Value(prev)
    ensures
      var end := prev + Steps(count);
      Inv(Issue(s.(register := Value(end)), m, s.masters[m].(cur := prev, max := end), count))
  {
    hide Inv;
    var end := prev + Steps(count);
    var raised, block := s.(register := Value(end)), s.masters[m].(cur := prev, max := end);
    NewBlockKeeps(s, m, prev, Steps(count));
    var t := raised.(masters := raised.masters[m := block]);
    assert t.masters[m] == block;
    IssueKeeps(t, m, count);
    IssueSame(raised, m, block, count);
  }

  lemma MaxGetKeeps(s: State, m: nat, want: nat, outcome: Outcome)
    requires Inv(s) && m in s.masters
    ensures Inv(DoMaxGet(s, m, want, outcome))
  {
    assert BlockOk(s, m);
    if outcome != Done {
      PcKeeps(s, m, Idle);
    } else if s.register.Absent? {
      PcKeeps(s, m, MaxCreate(want));
    } else if s.register.n >= want {
      assert s.(register := Value(s.register.n)) == s;
      BlockKeeps(s, m, Master(s.register.n, s.register.n, Idle, Max(s.masters[m].floor, want)), s.register.n);
    } else {
      PcKeeps(s, m, MaxSet(want, s.register.n));
    }
  }

  lemma MaxWriteKeeps(s: State, m: nat, want: nat, expected: Register, refused: Pc, outcome: Outcome)
    requires Inv(s) && m in s.masters && PcOk(refused) && Value(want).AtLeast(expected)
    ensures Inv(DoMaxWrite(s, m, want, expected, refused, outcome))
    ensures DoMaxWrite(s, m, want, expected, refused, outcome).register.AtLeast(s.register)
  {
    if s.register != expected {
      PcKeeps(s, m, refused);
    } else if outcome == Failed {
      PcKeeps(s, m, Idle);
    } else {
      RaiseKeeps(s, want);
      PcKeeps(s.(register := Value(want)), m, if outcome == LostReply then Idle else MaxGet(want));
    }
  }

  lemma RequestKeeps(s: State, m: nat, outcome: Outcome)
    requires Inv(s) && m in s.masters
    ensures Inv(DoRequest(s, m, outcome)) && DoRequest(s, m, outcome).register.AtLeast(s.register)
  {
    assert BlockOk(s, m);
    match s.masters[m].pc
    case Idle =>
    case NextGet(count) =>
      PcKeeps(s, m, Idle);
      if s.register.Value? { PcKeeps(s, m, NextSet(count, s.register.n)); }
    case NextSet(count, prev) => NextSetKeeps(s, m, count, prev, outcome);
    case MaxGet(want) => MaxGetKeeps(s, m, want, outcome);
    case MaxCreate(want) => MaxWriteKeeps(s, m, want, Absent, MaxGet(want), outcome);
    case MaxSet(want, prev) => MaxWriteKeeps(s, m, want, Value(prev), Idle, outcome);
  }

  lemma BootKeeps(s: State, m: nat, fileMax: nat)
    requires Inv(s)
    ensures Inv(Do(s, Boot(m, fileMax)))
  {
    var t := Do(s, Boot(m, fileMax));
    forall k | k in t.masters ensures BlockOk(t, k) { assert k in s.masters ==> BlockOk(s, k); }
  }

  /** Every step keeps the invariant, and the register never goes down. */
  lemma DoKeeps(s: State, a: Action)
    requires Inv(s)
    ensures Inv(Do(s, a)) && Do(s, a).register.AtLeast(s.register)
  {
    match a
    case Boot(m, fileMax) => BootKeeps(s, m, fileMax);
    case NextFileId(m, count) =>
      if m in s.masters && s.masters[m].pc.Idle? {
        PcKeeps(s, m, NextGet(count));
        if s.masters[m].cur + count < s.masters[m].max { IssueKeeps(s, m, count); }
      }
    case SetMax(m, seen) => if m in s.masters { PcKeeps(s, m, MaxGet(seen)); }
    case Request(m, outcome) => if m in s.masters { RequestKeeps(s, m, outcome); }
  }

  /** In every run the register never goes down and no id is handed out twice, by whichever masters. */
  lemma {:induction false} RunSafe(s: State, actions: seq<Action>)
    requires Inv(s)
    ensures Inv(Run(s, actions)) && Run(s, actions).register.AtLeast(s.register)
  {
    if actions != [] {
      RunSafe(s, actions[..|actions|-1]);
      DoKeeps(Run(s, actions[..|actions|-1]), actions[|actions|-1]);
    }
  }

  lemma NoIdTwice(actions: seq<Action>, i: int, j: int)
    requires 0 <= i < j < |Run(INITIAL, actions).issued|
    ensures RangesApart(Run(INITIAL, actions).issued[i], Run(INITIAL, actions).issued[j])
  {
    RunSafe(INITIAL, actions);
  }

  // ----- SetMax -----

  /** The master's floor: 0 for one that never ran. */
  function Floor(s: State, m: nat): nat {
    if m in s.masters then s.masters[m].floor else 0
  }

  /** A step hands out at most one range, from the master's floor up, and never lowers a floor. */
  lemma DoFloor(s: State, a: Action, m: nat)
    requires Inv(s)
    ensures Floor(Do(s, a), m) >= Floor(s, m)
    ensures Do(s, a).issued == s.issued
      || (|Do(s, a).issued| == |s.issued| + 1 && Do(s, a).issued[..|s.issued|] == s.issued
          && (Do(s, a).issued[|s.issued|].master == m ==> Do(s, a).issued[|s.issued|].id >= Floor(s, m)))
  {
    hide Inv;
    if m in s.masters { InvBlock(s, m); }
  }

  lemma InvBlock(s: State, m: nat)
    requires Inv(s) && m in s.masters
    ensures BlockOk(s, m)
  {}

  /** Ids a master hands out later are at or above its floor. */
  lemma {:induction false} LaterIdsAboveFloor(s: State, actions: seq<Action>, m: nat, i: int)
    requires Inv(s) && |s.issued| <= i < |Run(s, actions).issued| && Run(s, actions).issued[i].master == m
    ensures Run(s, actions).issued[i].id >= Floor(s, m)
  {
    if actions != [] {
      var t := Run(s, actions[..|actions|-1]);
      RunSafe(s, actions[..|actions|-1]);
      FloorGrows(s, actions[..|actions|-1], m);
      DoFloor(t, actions[|actions|-1], m);
      if i < |t.issued| {
        LaterIdsAboveFloor(s, actions[..|actions|-1], m, i);
        assert Run(s, actions).issued[i] == t.issued[i];
      }
    }
  }

  lemma {:induction false} FloorGrows(s: State, actions: seq<Action>, m: nat)
    requires Inv(s)
    ensures Floor(Run(s, actions), m) >= Floor(s, m)
  {
    if actions != [] {
      RunSafe(s, actions[..|actions|-1]);
      FloorGrows(s, actions[..|actions|-1], m);
      DoFloor(Run(s, actions[..|actions|-1]), actions[|actions|-1], m);
    }
  }

  /** After SetMax(v) succeeds in any reachable state, every later id of that master is at least v. */
  lemma SetMaxHolds(before: seq<Action>, m: nat, v: nat, after: seq<Action>, i: int)
    requires
      var s := Run(INITIAL, before);
      && m in s.masters && s.masters[m].pc == MaxGet(v) && s.register.Value? && s.register.n >= v
      && |s.issued| <= i < |Run(DoRequest(s, m, Done), after).issued|
      && Run(DoRequest(s, m, Done), after).issued[i].master == m
    ensures Run(DoRequest(Run(INITIAL, before), m, Done), after).issued[i].id >= v
  {
    var s := Run(INITIAL, before);
    RunSafe(INITIAL, before);
    RequestKeeps(s, m, Done);
    LaterIdsAboveFloor(DoRequest(s, m, Done), after, m, i);
  }

  // ----- a SetMax that is ignored -----

  /** No request for fewer than `least` ids. */
  predicate FromCount(actions: seq<Action>, least: nat) {
    forall a :: a in actions && a.NextFileId? ==> least <= a.count
  }

  /** Range i was handed out by master m after state s. */
  predicate Later(s: State, after: seq<Action>, m: nat, i: int) {
    |s.issued| <= i < |Run(s, after).issued| && Run(s, after).issued[i].master == m
  }

  /** Requests for `least` ids or more cannot get master m's block to hand out an id below v. */
  predicate Guarded(s: State, m: nat, v: nat, least: nat) {
    && Below(s.register, v)
    && (m in s.masters ==> v <= s.masters[m].cur || s.masters[m].max <= s.masters[m].cur + least)
  }

  /** A step hands out nothing, or one range, which begins at v or later when it is master m's. */
  predicate OneFrom(s: State, t: State, m: nat, v: nat) {
    || t.issued == s.issued
    || (|t.issued| == |s.issued| + 1 && t.issued[..|s.issued|] == s.issued
        && (t.issued[|s.issued|].master == m ==> t.issued[|s.issued|].id >= v))
  }

  lemma GuardRequest(s: State, k: nat, outcome: Outcome, m: nat, v: nat, least: nat)
    requires k in s.masters && Guarded(s, m, v, least) && Below(DoRequest(s, k, outcome).register, v)
    ensures Guarded(DoRequest(s, k, outcome), m, v, least) && OneFrom(s, DoRequest(s, k, outcome), m, v)
  {}

  lemma GuardStep(s: State, a: Action, m: nat, v: nat, least: nat)
    requires Inv(s) && Guarded(s, m, v, least) && (a.NextFileId? ==> least <= a.count)
    ensures Guarded(Do(s, a), m, v, least) && OneFrom(s, Do(s, a), m, v)
  {
    DoKeeps(s, a);
    assert Below(Do(s, a).register, v);
    hide Inv;
    if a.Request? && a.m in s.masters {
      hide DoRequest;
      GuardRequest(s, a.m, a.outcome, m, v, least);
    }
  }

  lemma {:induction false} GuardHolds(s: State, after: seq<Action>, m: nat, v: nat, least: nat)
    requires Inv(s) && Guarded(s, m, v, least) && FromCount(after, least)
    ensures Guarded(Run(s, after), m, v, least) && |s.issued| <= |Run(s, after).issued|
    ensures forall i :: Later(s, after, m, i) ==> Run(s, after).issued[i].id >= v
  {
    if after != [] {
      var init, a := after[..|after|-1], after[|after|-1];
      assert a in after && forall b :: b in init ==> b in after;
      GuardHolds(s, init, m, v, least);
      RunSafe(s, init);
      hide Inv;
      hide Guarded;
      GuardStep(Run(s, init), a, m, v, least);
      forall i | Later(s, after, m, i) ensures Run(s, after).issued[i].id >= v {
        if i < |Run(s, init).issued| {
          assert Run(s, after).issued[i] == Run(s, init).issued[i];
          assert Later(s, init, m, i);
        }
      }
    }
  }

  /** A SetMax at or below the master's own limit does nothing; later ids reach v or come from the rest of the block. */
  lemma SetMaxIgnored(before: seq<Action>, m: nat, v: nat, after: seq<Action>, i: int)
    requires
      var s := Run(INITIAL, before);
      m in s.masters && s.masters[m].pc.Idle? && v <= s.masters[m].max && Later(s, after, m, i)
    ensures
      var s := Run(INITIAL, before);
      && Do(s, SetMax(m, v)) == s
      && (v <= Run(s, after).issued[i].id || s.masters[m].cur <= Run(s, after).issued[i].id < v)
  {
    var s := Run(INITIAL, before);
    RunSafe(INITIAL, before);
    assert BlockOk(s, m);
    GuardHolds(s, after, m, Min(v, s.masters[m].cur), 0);
  }

  /**
   After an ignored SetMax(v) all later ids of the master are at least v exactly when its next id already was, or its
   block is too short for the smallest request.
   */
  lemma SetMaxIgnoredExact(before: seq<Action>, m: nat, v: nat, least: nat)
    requires
      var s := Run(INITIAL, before);
      m in s.masters && s.masters[m].pc.Idle? && v <= s.masters[m].max
    ensures
      var s := Run(INITIAL, before);
      (forall after, i :: FromCount(after, least) && Later(s, after, m, i) ==> Run(s, after).issued[i].id >= v)
      <==> v <= s.masters[m].cur || s.masters[m].max <= s.masters[m].cur + least
  {
    var s := Run(INITIAL, before);
    RunSafe(INITIAL, before);
    assert BlockOk(s, m);
    var k := s.masters[m];
    if v <= k.cur || k.max <= k.cur + least {
      forall after, i | FromCount(after, least) && Later(s, after, m, i) ensures Run(s, after).issued[i].id >= v {
        GuardHolds(s, after, m, v, least);
      }
    } else {
      NextIsCur(s, m, least);
    }
  }

  lemma NextIsCur(s: State, m: nat, count: nat)
    requires m in s.masters && s.masters[m].pc.Idle? && s.masters[m].cur + count < s.masters[m].max
    ensures FromCount([NextFileId(m, count)], count) && Later(s, [NextFileId(m, count)], m, |s.issued|)
    ensures Run(s, [NextFileId(m, count)]).issued[|s.issued|].id == s.masters[m].cur
  {
    var a := NextFileId(m, count);
    assert [a][..0] == [];
    assert Run(s, [a]) == Do(s, a);
  }
}
