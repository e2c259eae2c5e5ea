/** The unflushed writes of an open file: linked lists of nodes, cut and re-joined in place. */
module DirtyIntervals {
  import opened Common
  import opened Runs

  class IntervalNode {
    const data: seq<byte>
    const offset: int
    const size: int
    var next: IntervalNode?

    constructor (data: seq<byte>, offset: int, size: int)
      ensures this.data == data && this.offset == offset && this.size == size && next == null
    {
      this.data, this.offset, this.size, this.next := data, offset, size, null;
    }

    ghost function AsRun(): Run {
      Run(offset, data)
    }
  }

  /** Node i starts where the node before it stops. */
  ghost predicate Meets(nodes: seq<IntervalNode>, i: int)
    requires 0 < i < |nodes|
  {
    nodes[i].offset == nodes[i-1].AsRun().Stop()
  }

  /** The nodes hold `run`: none empty, each starting where the one before stops. */
  ghost predicate Spans(nodes: seq<IntervalNode>, run: Run) {
    && |nodes| > 0
    && nodes[0].offset == run.start
    && nodes[|nodes|-1].AsRun().Stop() == run.Stop()
    && (forall i :: 0 <= i < |nodes| ==> nodes[i].size == |nodes[i].data| > 0 && Inside(nodes[i].AsRun(), run))
    && (forall i {:trigger Meets(nodes, i)} :: 0 < i < |nodes| ==> Meets(nodes, i))
    && (forall i, j :: 0 <= i < j < |nodes| ==> nodes[i].offset < nodes[j].offset)
  }

  /** What node i of the chain points to: the one after it, the last to null. */
  ghost function NextIn(nodes: seq<IntervalNode>, i: int): IntervalNode?
    requires 0 <= i < |nodes|
  {
    if i + 1 < |nodes| then nodes[i+1] else null
  }

  ghost predicate Linked(nodes: seq<IntervalNode>)
    reads nodes
  {
    forall i {:trigger NextIn(nodes, i)} :: 0 <= i < |nodes| ==> nodes[i].next == NextIn(nodes, i)
  }

  lemma SpansConcat(a: seq<IntervalNode>, ra: Run, b: seq<IntervalNode>, rb: Run)
    requires Spans(a, ra) && Spans(b, rb) && ra.Stop() == rb.start
    ensures Spans(a + b, Concat(ra, rb))
  {
    var c, rc := a + b, Concat(ra, rb);
    forall i | 0 <= i < |c| ensures c[i].size == |c[i].data| > 0 && Inside(c[i].AsRun(), rc) {
      assert i < |a| ==> Inside(a[i].AsRun(), ra);
      assert i >= |a| ==> Inside(b[i - |a|].AsRun(), rb);
    }
    forall i | 0 < i < |c| ensures Meets(c, i) {
      assert i < |a| ==> Meets(a, i);
      assert i > |a| ==> Meets(b, i - |a|);
    }
    forall i, j | 0 <= i < j < |c| ensures c[i].offset < c[j].offset {
      assert i < |a| ==> Inside(a[i].AsRun(), ra);
      assert j >= |a| ==> Inside(b[j - |a|].AsRun(), rb);
    }
  }

  /** `front.Next = back`: two chains become one. */
  method SetNext(front: IntervalNode, back: IntervalNode, ghost a: seq<IntervalNode>, ghost b: seq<IntervalNode>)
    requires a != [] && front == a[|a|-1] && b != [] && back == b[0]
    requires Linked(a) && Linked(b) && front !in b
    requires forall i :: 0 <= i < |a| - 1 ==> a[i] != front
    modifies front
    ensures Linked(a + b)
  {
    front.next := back;
    ghost var all := a + b;
    forall i | 0 <= i < |all| ensures all[i].next == NextIn(all, i) {
      if i < |a| - 1 {
        assert all[i] == a[i] && all[i+1] == a[i+1] && old(a[i].next) == NextIn(a, i);
      } else if i == |a| - 1 {
        assert all[i] == front && all[i+1] == back;
      } else {
        var j := i - |a|;
        assert all[i] == b[j] && b[j] in b && old(b[j].next) == NextIn(b, j);
        assert i + 1 < |all| ==> all[i+1] == b[j+1];
      }
    }
    assert Linked(all);
  }

  /** Nodes of runs that do not overlap are different nodes. */
  lemma SpansApart(a: seq<IntervalNode>, ra: Run, b: seq<IntervalNode>, rb: Run)
    requires Spans(a, ra) && Spans(b, rb) && (ra.Stop() <= rb.start || rb.Stop() <= ra.start)
    ensures forall n :: n in a ==> n !in b
  {
    forall n | n in a ensures n !in b {
      assert Inside(n.AsRun(), ra);
      assert n in b ==> Inside(n.AsRun(), rb);
    }
  }

  lemma NodeRun(n: IntervalNode)
    ensures n.AsRun() == Run(n.offset, n.data) && n.AsRun().Stop() == n.offset + |n.data|
  {}

  lemma SpansOne(n: IntervalNode)
    requires n.size == |n.data| > 0
    ensures Spans([n], n.AsRun())
  {}

  class IntervalLinkedList {
    var head: IntervalNode
    var tail: IntervalNode
    ghost var nodes: seq<IntervalNode>
    ghost var run: Run

    ghost predicate Valid()
      reads this, nodes
    {
      && Spans(nodes, run) && Linked(nodes)
      && head == nodes[0] && tail == nodes[|nodes|-1]
    }

    ghost function Nodes(): set<IntervalNode>
      reads this
    {
      set n | n in nodes
    }

    constructor (head: IntervalNode, tail: IntervalNode, ghost nodes: seq<IntervalNode>, ghost run: Run)
      requires Spans(nodes, run) && Linked(nodes) && head == nodes[0] && tail == nodes[|nodes|-1]
      ensures Valid() && this.nodes == nodes && this.run == run
    {
      this.head, this.tail, this.nodes, this.run := head, tail, nodes, run;
    }

    function Offset(): (o: int)
      requires Valid()
      reads this, nodes
      ensures o == run.start
    {
      head.offset
    }

    function Size(): (n: int)
      requires Valid()
      reads this, nodes
      ensures n == |run.bytes| > 0
    {
      assert Inside(nodes[0].AsRun(), run);
      tail.offset + tail.size - head.offset
    }

    method AddNodeToTail(node: IntervalNode)
      requires Valid() && node.next == null && node.size == |node.data| > 0 && node.offset == run.Stop()
      modifies this, tail
      ensures Valid() && nodes == old(nodes) + [node] && run == Concat(old(run), node.AsRun())
    {
      SpansOne(node);
      SpansConcat(nodes, run, [node], node.AsRun());
      SpansApart(nodes, run, [node], node.AsRun());
      SetNext(tail, node, nodes, [node]);
      tail := node;
      nodes, run := nodes + [node], Concat(run, node.AsRun());
    }

    method AddNodeToHead(node: IntervalNode)
      requires Valid() && node.next == null && node.size == |node.data| > 0 && node.AsRun().Stop() == run.start
      modifies this, node
      ensures Valid() && nodes == [node] + old(nodes) && run == Concat(node.AsRun(), old(run))
    {
      SpansOne(node);
      SpansConcat([node], node.AsRun(), nodes, run);
      SpansApart([node], node.AsRun(), nodes, run);
      SetNext(node, head, [node], nodes);
      head := node;
      nodes, run := [node] + nodes, Concat(node.AsRun(), run);
    }

    /** Hangs the nodes of `after` behind this list. */
    method Connect(after: IntervalLinkedList)
      requires Valid() && after.Valid() && run.Stop() == after.run.start
      modifies this, tail
      ensures Valid() && nodes == old(nodes) + after.nodes && run == Concat(old(run), after.run)
    {
      SpansConcat(nodes, run, after.nodes, after.run);
      SpansApart(nodes, run, after.nodes, after.run);
      SetNext(tail, after.head, nodes, after.nodes);
      tail := after.tail;
      nodes, run := nodes + after.nodes, Concat(run, after.run);
    }

    /**
     Copies the bytes at [start, stop) that this list holds into `buf`, whose cell `base` stands for
     position `start`.
     */
    method ReadData(buf: array<byte>, base: nat, start: int, stop: int)
      requires Valid() && start <= stop && base + (stop - start) <= buf.Length
      modifies buf
      ensures forall k :: 0 <= k < buf.Length ==>
        buf[k] == if base <= k < base + (stop - start) && run.Covers(start + k - base)
                  then run.At(start + k - base) else old(buf[k])
    {
      var t := head;
      ghost var i := 0;
      while true
        invariant 0 <= i < |nodes| && t == nodes[i]
        invariant forall k :: 0 <= k < buf.Length ==>
          buf[k] == if base <= k < base + (stop - start) && run.Covers(start + k - base) && start + k - base < t.offset
                    then run.At(start + k - base) else old(buf[k])
        decreases |nodes| - i
      {
        var nodeStart, nodeStop := Max(start, t.offset), Min(stop, t.offset + t.size);
        assert Inside(t.AsRun(), run);
        if nodeStart < nodeStop {
          forall k | base + nodeStart - start <= k < base + nodeStop - start {
            buf[k] := t.data[start + k - base - t.offset];
          }
          assert forall p :: nodeStart <= p < nodeStop ==> t.AsRun().Covers(p) && t.AsRun().At(p) == run.At(p);
        }
        assert t == nodes[i] && t.next == NextIn(nodes, i);
        if t.next == null {
          break;
        }
        t := t.next;
        i := i + 1;
        assert Meets(nodes, i);
      }
      assert i == |nodes| - 1 && t.AsRun().Stop() == run.Stop();
    }

    /** All bytes of the list in order, as the upload reads them. */
    method ToReader() returns (bytes: seq<byte>)
      requires Valid()
      ensures bytes == run.bytes
    {
      var t := head;
      ghost var i := 0;
      bytes := t.data;
      assert Inside(t.AsRun(), run);
      PrefixStep([], run, Run(run.start, []), t.AsRun());
      assert [] + bytes == bytes;
      while t.next != null
        invariant 0 <= i < |nodes| && t == nodes[i]
        invariant nodes[i].next == NextIn(nodes, i)
        invariant Prefix(bytes, run, t.AsRun())
        decreases |nodes| - i
      {
        ghost var before := t.AsRun();
        t := t.next;
        i := i + 1;
        assert Inside(t.AsRun(), run) && Meets(nodes, i);
        PrefixStep(bytes, run, before, t.AsRun());
        bytes := bytes + t.data;
      }
    }
  }

  /** `bytes` are those of `run` up to the end of `node`. */
  ghost predicate Prefix(bytes: seq<byte>, run: Run, node: Run) {
    && run.start <= node.start && node.Stop() <= run.Stop()
    && bytes == run.bytes[..node.Stop() - run.start]
  }

  lemma PrefixStep(bytes: seq<byte>, run: Run, a: Run, b: Run)
    requires Prefix(bytes, run, a) && a.Stop() == b.start && Inside(b, run)
    ensures Prefix(bytes + b.bytes, run, b)
  {
    forall k | 0 <= k < |b.bytes| ensures b.bytes[k] == run.bytes[b.start + k - run.start] {
      assert b.Covers(b.start + k) && b.At(b.start + k) == run.At(b.start + k);
    }
  }

  lemma SpansSnoc(nodes: seq<IntervalNode>, n: IntervalNode, whole: Run, start: int, stop: int)
    requires whole.start <= start <= stop <= whole.Stop()
    requires if nodes == [] then stop == start else Spans(nodes, whole.Slice(start, stop))
    requires n.size == |n.data| > 0 && n.offset == stop && Inside(n.AsRun(), whole)
    ensures Spans(nodes + [n], whole.Slice(start, n.AsRun().Stop()))
  {
    SpansOne(n);
    var to, piece := n.AsRun().Stop(), whole.Slice(stop, n.AsRun().Stop());
    assert n.AsRun() == piece by {
      forall k | 0 <= k < |n.data| ensures n.data[k] == piece.bytes[k] {
        assert n.AsRun().Covers(stop + k) && n.AsRun().At(stop + k) == whole.At(stop + k);
      }
    }
    if nodes == [] {
      assert nodes + [n] == [n];
    } else {
      SpansConcat(nodes, whole.Slice(start, stop), [n], piece);
      assert Concat(whole.Slice(start, stop), piece) == whole.Slice(start, to);
    }
  }

  /** `nodes` hold the part of [start, stop) that lies before position `at`. */
  ghost predicate Built(nodes: seq<IntervalNode>, whole: Run, start: int, stop: int, at: int) {
    && whole.start <= start < stop <= whole.Stop() && whole.start <= at <= whole.Stop()
    && if at <= start then nodes == [] else Spans(nodes, whole.Slice(start, Min(at, stop)))
  }

  /** One step of the copy: a new node for the part of `t` in [start, stop), if there is one. */
  method CopyNode(nodes: seq<IntervalNode>, t: IntervalNode, start: int, stop: int, ghost whole: Run)
    returns (more: seq<IntervalNode>)
    requires Built(nodes, whole, start, stop, t.offset)
    requires t.size == |t.data| > 0 && Inside(t.AsRun(), whole)
    ensures Built(more, whole, start, stop, t.AsRun().Stop())
    ensures forall n :: n in more ==> n in nodes || (fresh(n) && n.next == null)
  {
    var nodeStart, nodeStop := Max(start, t.offset), Min(stop, t.offset + t.size);
    more := nodes;
    if nodeStart < nodeStop {
      var n := new IntervalNode(t.data[nodeStart - t.offset..nodeStop - t.offset], nodeStart, nodeStop - nodeStart);
      InsideTrans(t.AsRun().Slice(nodeStart, nodeStop), t.AsRun(), whole);
      SpansSnoc(nodes, n, whole, start, nodeStart);
      more := nodes + [n];
    }
  }

  /** New nodes, not yet linked, for the part [start, stop) of `list`. */
  method CopyNodes(list: IntervalLinkedList, start: int, stop: int) returns (nodes: seq<IntervalNode>)
    requires list.Valid() && list.run.start <= start < stop <= list.run.Stop()
    ensures fresh(nodes) && forall n :: n in nodes ==> n.next == null
    ensures Spans(nodes, list.run.Slice(start, stop))
  {
    nodes := [];
    var t: IntervalNode? := list.head;
    ghost var i, at := 0, list.run.start;
    while t != null
      invariant 0 <= i <= |list.nodes| && t == if i < |list.nodes| then list.nodes[i] else null
      invariant at == if i < |list.nodes| then list.nodes[i].offset else list.run.Stop()
      invariant forall n :: n in nodes ==> fresh(n) && n.next == null
      invariant Built(nodes, list.run, start, stop, at)
      decreases |list.nodes| - i
    {
      nodes := CopyNode(nodes, t, start, stop, list.run);
      at := t.AsRun().Stop();
      assert t.next == NextIn(list.nodes, i);
      t := t.next;
      i := i + 1;
      assert i < |list.nodes| ==> Meets(list.nodes, i);
    }
    assert forall k :: 0 <= k < |nodes| ==> nodes[k] in nodes;
  }

  method LinkAll(nodes: seq<IntervalNode>)
    requires forall n :: n in nodes ==> n.next == null
    requires forall i, j :: 0 <= i < j < |nodes| ==> nodes[i] != nodes[j]
    modifies nodes
    ensures Linked(nodes)
  {
    var k := 1;
    while k < |nodes|
      invariant 1 <= k && (k <= |nodes| || nodes == [])
      invariant forall j :: 0 <= j < |nodes| ==> nodes[j].next == if j < k - 1 then NextIn(nodes, j) else null
    {
      nodes[k-1].next := nodes[k];
      k := k + 1;
    }
  }

  /** A new list of new nodes holding the part [start, stop) of `list`. */
  method SubList(list: IntervalLinkedList, start: int, stop: int) returns (r: IntervalLinkedList)
    requires list.Valid() && list.run.start <= start < stop <= list.run.Stop()
    ensures fresh(r) && fresh(r.Nodes())
    ensures r.Valid() && r.run == list.run.Slice(start, stop)
  {
    var nodes := CopyNodes(list, start, stop);
    ghost var part := list.run.Slice(start, stop);
    LinkAll(nodes);
    r := new IntervalLinkedList(nodes[0], nodes[|nodes|-1], nodes, part);
  }

  /** `l` is a proper chain that holds `run`, made of objects in `repr`. */
  ghost predicate Good(l: IntervalLinkedList, run: Run, repr: set<object>)
    reads repr
  {
    l in repr && (forall n :: n in l.nodes ==> n in repr) && l.Valid() && l.run == run
  }

  ghost predicate AllGood(lists: seq<IntervalLinkedList>, runs: seq<Run>, repr: set<object>)
    reads repr
  {
    |lists| == |runs| && forall i :: 0 <= i < |lists| ==> Good(lists[i], runs[i], repr)
  }

  lemma AllGoodConcat(a: seq<IntervalLinkedList>, ra: seq<Run>, b: seq<IntervalLinkedList>, rb: seq<Run>,
                      repr: set<object>)
    requires AllGood(a, ra, repr) && AllGood(b, rb, repr)
    ensures AllGood(a + b, ra + rb, repr)
  {
    forall i | 0 <= i < |a + b| ensures Good((a + b)[i], (ra + rb)[i], repr) {
      assert i < |a| ==> Good(a[i], ra[i], repr);
      assert i >= |a| ==> Good(b[i - |a|], rb[i - |a|], repr);
    }
  }

  lemma NotAmong(lists: seq<IntervalLinkedList>, runs: seq<Run>, repr: set<object>, node: IntervalNode)
    requires AllGood(lists, runs, repr) && node !in repr
    ensures forall i :: 0 <= i < |lists| ==> node !in lists[i].nodes
  {
    forall i | 0 <= i < |lists| ensures node !in lists[i].nodes {
      assert Good(lists[i], runs[i], repr);
    }
  }

  lemma AllGoodGrow(lists: seq<IntervalLinkedList>, runs: seq<Run>, repr: set<object>, more: set<object>)
    requires AllGood(lists, runs, repr) && repr <= more
    ensures AllGood(lists, runs, more)
  {
    forall i | 0 <= i < |lists| ensures Good(lists[i], runs[i], more) {
      assert Good(lists[i], runs[i], repr);
    }
  }

  /** What stays of one list when `cut` is written over it. */
  method CutList(list: IntervalLinkedList, offset: int, stop: int, ghost cut: Run, ghost repr: set<object>)
    returns (pieces: seq<IntervalLinkedList>, ghost more: set<object>)
    requires Good(list, list.run, repr) && cut.start == offset < stop == cut.Stop()
    ensures repr <= more && fresh(more - repr) && AllGood(pieces, Pieces(list.run, cut), more)
  {
    hide *;
    pieces, more := [], repr;
    ghost var rs: seq<Run> := [];
    ListEnds(list, repr);
    // the list is to the left of the new interval
    if list.tail.offset + list.tail.size <= offset {
      AllGoodConcat(pieces, rs, [list], [list.run], more);
      pieces, rs := pieces + [list], rs + [list.run];
    }
    // the list is to the right of the new interval
    if stop <= list.head.offset {
      AllGoodConcat(pieces, rs, [list], [list.run], more);
      pieces, rs := pieces + [list], rs + [list.run];
    }
    // the new interval overwrites the right part of the list
    if list.head.offset < offset && offset < list.tail.offset + list.tail.size {
      pieces, rs, more := AddPiece(list, list.head.offset, offset, pieces, rs, more);
    }
    // the new interval overwrites the left part of the list
    if list.head.offset < stop && stop < list.tail.offset + list.tail.size {
      pieces, rs, more := AddPiece(list, stop, list.tail.offset + list.tail.size, pieces, rs, more);
    }
    PiecesAre(list.run, cut);
    assert rs == Pieces(list.run, cut);
  }

  /** Copies a part of a list behind the pieces there are. */
  method AddPiece(list: IntervalLinkedList, start: int, stop: int, pieces0: seq<IntervalLinkedList>,
                  ghost rs0: seq<Run>, ghost repr: set<object>)
    returns (pieces: seq<IntervalLinkedList>, ghost rs: seq<Run>, ghost more: set<object>)
    requires Good(list, list.run, repr) && AllGood(pieces0, rs0, repr)
    requires list.run.start <= start < stop <= list.run.Stop()
    ensures repr <= more && fresh(more - repr) && Good(list, list.run, more)
    ensures rs == rs0 + [list.run.Slice(start, stop)] && AllGood(pieces, rs, more)
  {
    var piece := SubList(list, start, stop);
    more := repr + {piece} + piece.Nodes();
    assert AllGood([piece], [piece.run], more);
    assert Good(list, list.run, more);
    hide Good;
    hide AllGood;
    AllGoodGrow(pieces0, rs0, repr, more);
    AllGoodConcat(pieces0, rs0, [piece], [piece.run], more);
    pieces, rs := pieces0 + [piece], rs0 + [piece.run];
  }

  lemma ListEnds(list: IntervalLinkedList, repr: set<object>)
    requires Good(list, list.run, repr)
    ensures list.head.offset == list.run.start < list.run.Stop() == list.tail.offset + list.tail.size
    ensures AllGood([list], [list.run], repr) && AllGood([], [], repr)
  {}

  /** No other list is list k, and the last node of list k is in no other list. */
  ghost predicate Alone(lists: seq<IntervalLinkedList>, k: int)
    requires 0 <= k < |lists|
    reads lists
  {
    forall i :: 0 <= i < |lists| && i != k ==> lists[i] != lists[k] && lists[k].tail !in lists[i].nodes
  }

  lemma AloneAll(lists: seq<IntervalLinkedList>, runs: seq<Run>, repr: set<object>, k: int)
    requires AllGood(lists, runs, repr) && WellFormed(runs) && 0 <= k < |lists|
    ensures Alone(lists, k)
  {
    assert Good(lists[k], runs[k], repr) && lists[k].tail in lists[k].nodes;
    forall i | 0 <= i < |lists| && i != k ensures lists[i] != lists[k] && lists[k].tail !in lists[i].nodes {
      assert Good(lists[i], runs[i], repr) && Apart(runs[i], runs[k]);
      SpansApart(lists[k].nodes, runs[k], lists[i].nodes, runs[i]);
    }
  }

  /** Only the start of a run identifies it in RemoveList. */
  lemma StartsKept(was: seq<Run>, runs: seq<Run>, k: nat, j: nat)
    requires WellFormed(was) && |runs| == |was| && k < |was| && j < |was|
    requires forall i :: 0 <= i < |was| ==> runs[i].start == was[i].start
    ensures forall i :: 0 <= i < |runs| && i != j ==> runs[i].start != runs[j].start
  {
    forall i | 0 <= i < |runs| && i != j ensures runs[i].start != runs[j].start {
      OneAtEnd(was, i, j);
    }
  }

  class ContinuousIntervals {
    var lists: seq<IntervalLinkedList>
    ghost var runs: seq<Run>
    ghost var repr: set<object>

    /** Each list is a chain of contiguous nodes, and the lists neither overlap nor touch. */
    ghost predicate Valid()
      reads this, repr
    {
      this !in repr && AllGood(lists, runs, repr) && WellFormed(runs)
    }

    constructor ()
      ensures Valid() && lists == [] && runs == [] && repr == {}
    {
      lists, runs, repr := [], [], {};
    }

    /** Cuts every list around `cut`; no existing node or list is changed. */
    method CutLists(offset: int, stop: int, ghost cut: Run)
      returns (newLists: seq<IntervalLinkedList>, ghost newRuns: seq<Run>, ghost more: set<object>)
      requires Valid() && cut.start == offset < stop == cut.Stop()
      ensures repr <= more && fresh(more - repr) && AllGood(newLists, newRuns, more) && CutTo(runs, cut, newRuns)
    {
      newLists, newRuns, more := [], [], repr;
      for i := 0 to |lists|
        invariant repr <= more && fresh(more - repr)
        invariant AllGood(newLists, newRuns, more) && CutTo(runs[..i], cut, newRuns)
      {
        assert Good(lists[i], runs[i], repr);
        ghost var was := more;
        var pieces;
        pieces, more := CutList(lists[i], offset, stop, cut, more);
        AllGoodGrow(newLists, newRuns, was, more);
        AllGoodConcat(newLists, newRuns, pieces, Pieces(runs[i], cut), more);
        assert runs[..i+1] == runs[..i] + [runs[i]];
        CutStep(runs[..i], newRuns, runs[i], cut);
        newLists, newRuns := newLists + pieces, newRuns + Pieces(runs[i], cut);
      }
      assert runs[..|lists|] == runs;
    }

    /** The first list that starts at `x`, or the number of lists. */
    method FindStart(x: int) returns (k: nat)
      requires AllGood(lists, runs, repr)
      ensures k <= |lists| && (k < |lists| ==> runs[k].start == x)
      ensures forall j :: 0 <= j < k ==> runs[j].start != x
    {
      k := 0;
      while k < |lists|
        invariant k <= |lists|
        invariant forall j :: 0 <= j < k ==> runs[j].start != x
      {
        assert Good(lists[k], runs[k], repr);
        if lists[k].head.offset == x {
          break;
        }
        k := k + 1;
      }
    }

    /** The first list that stops at `x`, or the number of lists. */
    method FindStop(x: int) returns (k: nat)
      requires AllGood(lists, runs, repr)
      ensures k <= |lists| && (k < |lists| ==> runs[k].Stop() == x)
      ensures forall j :: 0 <= j < k ==> runs[j].Stop() != x
    {
      k := 0;
      while k < |lists|
        invariant k <= |lists|
        invariant forall j :: 0 <= j < k ==> runs[j].Stop() != x
      {
        assert Good(lists[k], runs[k], repr);
        if lists[k].head.offset + lists[k].Size() == x {
          break;
        }
        k := k + 1;
      }
    }

    method AppendNode(k: nat, node: IntervalNode)
      requires AllGood(lists, runs, repr) && k < |lists| && Alone(lists, k)
      requires node.next == null && node.size == |node.data| > 0 && node.offset == runs[k].Stop()
      requires node in repr && forall i :: 0 <= i < |lists| ==> node !in lists[i].nodes
      modifies this`runs, lists[k], lists[k].tail
      ensures runs == old(runs[k := Concat(runs[k], node.AsRun())])
      ensures AllGood(lists, runs, repr)
      ensures Alone(lists, k)
    {
      assert Good(lists[k], runs[k], repr);
      lists[k].AddNodeToTail(node);
      runs := runs[k := Concat(runs[k], node.AsRun())];
      forall i | 0 <= i < |lists| ensures Good(lists[i], runs[i], repr) {
        assert i != k ==> old(Good(lists[i], runs[i], repr));
      }
    }

    method PrependNode(k: nat, node: IntervalNode)
      requires AllGood(lists, runs, repr) && k < |lists| && Alone(lists, k)
      requires node.next == null && node.size == |node.data| > 0 && node.AsRun().Stop() == runs[k].start
      requires node in repr && forall i :: 0 <= i < |lists| ==> node !in lists[i].nodes
      modifies this`runs, lists[k], node
      ensures runs == old(runs[k := Concat(node.AsRun(), runs[k])])
      ensures AllGood(lists, runs, repr)
    {
      assert Good(lists[k], runs[k], repr);
      lists[k].AddNodeToHead(node);
      runs := runs[k := Concat(node.AsRun(), runs[k])];
      forall i | 0 <= i < |lists| ensures Good(lists[i], runs[i], repr) {
        assert i != k ==> old(Good(lists[i], runs[i], repr));
      }
    }

    method ConnectLists(k: nat, j: nat)
      requires AllGood(lists, runs, repr) && k < |lists| && j < |lists| && k != j && Alone(lists, k)
      requires runs[k].Stop() == runs[j].start
      modifies this`runs, lists[k], lists[k].tail
      ensures runs == old(runs[k := Concat(runs[k], runs[j])])
      ensures AllGood(lists, runs, repr)
    {
      assert Good(lists[k], runs[k], repr) && Good(lists[j], runs[j], repr);
      lists[k].Connect(lists[j]);
      runs := runs[k := Concat(runs[k], runs[j])];
      forall i | 0 <= i < |lists| ensures Good(lists[i], runs[i], repr) {
        assert i != k ==> old(Good(lists[i], runs[i], repr));
      }
    }

    /** Takes out the last list with the target's offset. */
    method RemoveList(target: IntervalLinkedList, ghost k: nat)
      requires AllGood(lists, runs, repr) && k < |lists| && lists[k] == target
      requires forall i :: 0 <= i < |lists| && i != k ==> runs[i].start != runs[k].start
      modifies this`lists, this`runs
      ensures lists == RemoveAt(old(lists), k) && runs == RemoveAt(old(runs), k)
      ensures AllGood(lists, runs, repr)
    {
      var index := -1;
      assert Good(lists[k], runs[k], repr);
      for i := 0 to |lists|
        invariant index == if k < i then k else -1
      {
        assert Good(lists[i], runs[i], repr);
        if lists[i].Offset() == target.Offset() {
          index := i;
        }
      }
      ghost var was, runsWere := lists, runs;
      lists, runs := RemoveAt(lists, index), RemoveAt(runs, k);
      forall i | 0 <= i < |lists| ensures Good(lists[i], runs[i], repr) {
        assert Good(was[Kept(k, i)], runsWere[Kept(k, i)], repr);
      }
    }

    /** The node closes the gap between list prev and list next. */
    method JoinThree(prev: nat, next: nat, interval: IntervalNode)
      requires AllGood(lists, runs, repr) && WellFormed(runs) && this !in repr
      requires prev < |lists| && next < |lists| && prev != next
      requires interval.next == null && interval.size == |interval.data| > 0
      requires runs[prev].Stop() == interval.offset && interval.AsRun().Stop() == runs[next].start
      requires interval in repr && forall i :: 0 <= i < |lists| ==> interval !in lists[i].nodes
      modifies this, repr
      ensures repr == old(repr) && AllGood(lists, runs, repr)
      ensures runs == RemoveAt(old(runs[prev := Concat(Concat(runs[prev], interval.AsRun()), runs[next])]), next)
    {
      assert Good(lists[prev], runs[prev], repr);
      AloneAll(lists, runs, repr, prev);
      AppendNode(prev, interval);
      ConnectLists(prev, next);
      assert runs == old(runs[prev := Concat(Concat(runs[prev], interval.AsRun()), runs[next])]);
      StartsKept(old(runs), runs, prev, next);
      RemoveList(lists[next], next);
    }

    method JoinPrev(prev: nat, interval: IntervalNode)
      requires AllGood(lists, runs, repr) && WellFormed(runs) && this !in repr && prev < |lists|
      requires interval.next == null && interval.size == |interval.data| > 0
      requires runs[prev].Stop() == interval.offset
      requires interval in repr && forall i :: 0 <= i < |lists| ==> interval !in lists[i].nodes
      modifies this, repr
      ensures repr == old(repr) && AllGood(lists, runs, repr)
      ensures runs == old(runs[prev := Concat(runs[prev], interval.AsRun())])
    {
      assert Good(lists[prev], runs[prev], repr);
      AloneAll(lists, runs, repr, prev);
      AppendNode(prev, interval);
    }

    method JoinNext(next: nat, interval: IntervalNode)
      requires AllGood(lists, runs, repr) && WellFormed(runs) && this !in repr && next < |lists|
      requires interval.next == null && interval.size == |interval.data| > 0
      requires interval.AsRun().Stop() == runs[next].start
      requires interval in repr && forall i :: 0 <= i < |lists| ==> interval !in lists[i].nodes
      modifies this, repr
      ensures repr == old(repr) && AllGood(lists, runs, repr)
      ensures runs == old(runs[next := Concat(interval.AsRun(), runs[next])])
    {
      assert Good(lists[next], runs[next], repr);
      AloneAll(lists, runs, repr, next);
      PrependNode(next, interval);
    }

    /** Adds the node to the lists, joining it to the list before and the list after. */
    method JoinInterval(interval: IntervalNode)
      requires this !in repr && AllGood(lists, runs, repr) && Free(runs, interval.AsRun())
      requires interval.next == null && interval.size == |interval.data|
      requires interval in repr && forall i :: 0 <= i < |lists| ==> interval !in lists[i].nodes
      modifies this, repr
      ensures Valid() && repr >= old(repr) && fresh(repr - old(repr))
      ensures Overlays(old(runs), interval.AsRun(), runs)
    {
      ghost var r, was := interval.AsRun(), runs;
      var next := FindStart(interval.offset + interval.size);
      var prev := FindStop(interval.offset);
      if prev < |lists| && next < |lists| {
        JoinBoth(was, r, prev, next);
        JoinThree(prev, next, interval);
      } else if prev < |lists| {
        JoinBefore(was, r, prev);
        JoinPrev(prev, interval);
      } else if next < |lists| {
        JoinAfter(was, r, next);
        JoinNext(next, interval);
      } else {
        JoinNone(was, r);
        SpansOne(interval);
        AddList(interval);
      }
    }

    /** A new list holding only the node. */
    method AddList(interval: IntervalNode)
      requires this !in repr && AllGood(lists, runs, repr)
      requires interval in repr && Spans([interval], interval.AsRun()) && interval.next == null
      modifies this
      ensures repr >= old(repr) && fresh(repr - old(repr))
      ensures AllGood(lists, runs, repr) && runs == old(runs) + [interval.AsRun()]
    {
      assert interval.next == NextIn([interval], 0);
      var list := new IntervalLinkedList(interval, interval, [interval], interval.AsRun());
      ghost var was := repr;
      assert AllGood([list], [interval.AsRun()], repr + {list});
      hide Good;
      hide Spans;
      hide AllGood;
      repr := repr + {list};
      AllGoodGrow(lists, runs, was, repr);
      AllGoodConcat(lists, runs, [list], [interval.AsRun()], repr);
      lists, runs := lists + [list], runs + [interval.AsRun()];
    }

    /** Writes `data` over the buffer at `offset`. */
    method AddInterval(data: seq<byte>, offset: int)
      requires Valid() && |data| > 0
      modifies this, repr
      ensures Valid() && fresh(repr - old(repr))
      ensures Overlays(old(runs), Run(offset, data), runs)
    {
      hide *;
      Parts();
      var interval := new IntervalNode(data, offset, |data|);
      ghost var r := Run(offset, data);
      NodeRun(interval);
      var newLists;
      ghost var newRuns, more;
      newLists, newRuns, more := CutLists(offset, offset + |data|, r);
      NotAmong(newLists, newRuns, more, interval);
      AllGoodGrow(newLists, newRuns, more, more + {interval});
      CutFree(runs, newRuns, r);
      lists, runs, repr := newLists, newRuns, more + {interval};
      JoinInterval(interval);
      CutOverlays(old(runs), newRuns, r, runs);
    }

    lemma Parts()
      requires Valid()
      ensures this !in repr && AllGood(lists, runs, repr) && WellFormed(runs)
    {}

    method TotalSize() returns (total: int)
      requires Valid()
      ensures total == Runs.TotalSize(runs)
    {
      total := 0;
      for i := 0 to |lists|
        invariant total == Runs.TotalSize(runs[..i])
      {
        assert Good(lists[i], runs[i], repr);
        assert runs[..i+1][..i] == runs[..i];
        total := total + lists[i].Size();
      }
      assert runs[..|lists|] == runs;
    }

    /** Takes out the largest list, the last one among equals; null when there is none. */
    method RemoveLargestIntervalLinkedList() returns (t: IntervalLinkedList?, ghost k: int)
      requires Valid()
      modifies this
      ensures Valid() && repr == old(repr)
      ensures t == null <==> old(runs) == []
      ensures t == null ==> runs == []
      ensures t != null ==> 0 <= k < |old(runs)| && t.Valid() && t.run == old(runs)[k] && runs == RemoveAt(old(runs), k)
      ensures t != null ==> forall i :: 0 <= i < |old(runs)| ==> |old(runs)[i].bytes| <= |t.run.bytes|
      ensures t != null ==> forall i :: k < i < |old(runs)| ==> |old(runs)[i].bytes| < |t.run.bytes|
    {
      var maxSize, maxIndex := 0, -1;
      for i := 0 to |lists|
        invariant maxIndex == -1 <==> i == 0
        invariant maxIndex == -1 ==> maxSize == 0
        invariant maxIndex != -1 ==> 0 <= maxIndex < i && maxSize == |runs[maxIndex].bytes|
        invariant forall j :: 0 <= j < i ==> |runs[j].bytes| <= maxSize
        invariant forall j :: maxIndex < j < i ==> |runs[j].bytes| < maxSize
      {
        assert Good(lists[i], runs[i], repr);
        if maxSize <= lists[i].Size() {
          maxSize, maxIndex := lists[i].Size(), i;
        }
      }
      if maxSize <= 0 {
        return null, -1;
      }
      k, t := maxIndex, lists[maxIndex];
      assert Good(t, runs[k], repr);
      TakeOut(maxIndex);
    }

    method TakeOut(k: nat)
      requires Valid() && k < |lists|
      modifies this
      ensures Valid() && repr == old(repr)
      ensures lists == RemoveAt(old(lists), k) && runs == RemoveAt(old(runs), k)
    {
      ghost var was, runsWere := lists, runs;
      RemoveWellFormed(runs, k);
      lists, runs := RemoveAt(lists, k), RemoveAt(runs, k);
      forall i | 0 <= i < |lists| ensures Good(lists[i], runs[i], repr) {
        assert Good(was[Kept(k, i)], runsWere[Kept(k, i)], repr);
      }
    }

    /** One round of ReadData: list i. */
    method ReadList(i: nat, data: array<byte>, startOffset: int, ghost was: seq<byte>, minOffset: int, maxStop: int)
      returns (lo: int, hi: int)
      requires Valid() && i < |lists|
      requires Filled(runs[..i], startOffset, was, data[..])
      requires minOffset == Lowest(runs[..i], startOffset, startOffset + data.Length)
      requires maxStop == Highest(runs[..i], startOffset, startOffset + data.Length)
      modifies data
      ensures Filled(runs[..i+1], startOffset, was, data[..])
      ensures lo == Lowest(runs[..i+1], startOffset, startOffset + data.Length)
      ensures hi == Highest(runs[..i+1], startOffset, startOffset + data.Length)
    {
      assert Good(lists[i], runs[i], repr);
      WellFormedPrefix(runs, i);
      ExtentStep(runs, i, startOffset, startOffset + data.Length);
      hide *;
      ghost var mid := data[..];
      var touched, start, stop := CopyList(lists[i], data, startOffset);
      lo, hi := if touched then Min(minOffset, start) else minOffset, if touched then Max(maxStop, stop) else maxStop;
      FilledStep(runs[..i], runs[i], runs[..i+1], startOffset, was, mid, data[..]);
    }

    /** Writes the dirty bytes over the window that starts at `startOffset`. */
    method ReadData(data: array<byte>, startOffset: int) returns (offset: int, size: int)
      requires Valid()
      modifies data
      ensures Filled(runs, startOffset, old(data[..]), data[..])
      ensures (offset, size) == Extent(runs, startOffset, startOffset + data.Length)
    {
      var minOffset, maxStop := MAX_INT64, 0;
      for i := 0 to |lists|
        invariant Filled(runs[..i], startOffset, old(data[..]), data[..])
        invariant minOffset == Lowest(runs[..i], startOffset, startOffset + data.Length)
        invariant maxStop == Highest(runs[..i], startOffset, startOffset + data.Length)
      {
        minOffset, maxStop := ReadList(i, data, startOffset, old(data[..]), minOffset, maxStop);
      }
      assert runs[..|lists|] == runs;
      if minOffset == MAX_INT64 {
        return 0, 0;
      }
      offset, size := minOffset, maxStop - minOffset;
    }
  }

  /** Copies the part of a list that lies in the window that starts at `startOffset`. */
  method CopyList(list: IntervalLinkedList, data: array<byte>, startOffset: int)
    returns (touched: bool, start: int, stop: int)
    requires list.Valid()
    modifies data
    ensures start == Max(startOffset, list.run.start) && stop == Min(startOffset + data.Length, list.run.Stop())
    ensures touched == Touches(list.run, startOffset, startOffset + data.Length)
    ensures forall j :: 0 <= j < data.Length ==>
      data[..][j] == if list.run.Covers(startOffset + j) then list.run.At(startOffset + j) else old(data[..][j])
  {
    start := Max(startOffset, list.Offset());
    stop := Min(startOffset + data.Length, list.Offset() + list.Size());
    touched := start <= stop;
    hide Spans;
    hide Linked;
    if touched {
      list.ReadData(data, start - startOffset, start, stop);
    }
  }

  /** The window [from, end] reaches run `r`, perhaps only at its edge. */
  predicate Touches(r: Run, from: int, end: int) {
    Max(from, r.start) <= Min(end, r.Stop())
  }

  function Lowest(runs: seq<Run>, from: int, end: int): int {
    if runs == [] then MAX_INT64
    else
      var rest, r := Lowest(runs[..|runs|-1], from, end), runs[|runs|-1];
      if Touches(r, from, end) then Min(rest, Max(from, r.start)) else rest
  }

  function Highest(runs: seq<Run>, from: int, end: int): int {
    if runs == [] then 0
    else
      var rest, r := Highest(runs[..|runs|-1], from, end), runs[|runs|-1];
      if Touches(r, from, end) then Max(rest, Min(end, r.Stop())) else rest
  }

  lemma ExtentStep(runs: seq<Run>, i: nat, from: int, end: int)
    requires i < |runs|
    ensures
      var touched, lo, hi := Touches(runs[i], from, end), Lowest(runs[..i], from, end), Highest(runs[..i], from, end);
      && Lowest(runs[..i+1], from, end) == (if touched then Min(lo, Max(from, runs[i].start)) else lo)
      && Highest(runs[..i+1], from, end) == (if touched then Max(hi, Min(end, runs[i].Stop())) else hi)
  {
    assert runs[..i+1][..i] == runs[..i];
  }

  /** The stretch of the window the dirty bytes lie in, as offset and size. */
  function Extent(runs: seq<Run>, from: int, end: int): (int, int) {
    var lo := Lowest(runs, from, end);
    if lo == MAX_INT64 then (0, 0) else (lo, Highest(runs, from, end) - lo)
  }

  /** All dirty bytes of the window lie in the stretch, and it stays within the window. */
  lemma {:induction false} ExtentHolds(runs: seq<Run>, from: int, end: int)
    requires 0 <= from <= end <= MAX_INT64
    ensures forall i, p :: 0 <= i < |runs| && runs[i].Covers(p) && from <= p < end ==>
      Lowest(runs, from, end) <= p < Highest(runs, from, end)
    ensures end < MAX_INT64 ==>
      (Lowest(runs, from, end) == MAX_INT64 <==> forall i :: 0 <= i < |runs| ==> !Touches(runs[i], from, end))
    ensures end < MAX_INT64 && Lowest(runs, from, end) == MAX_INT64 ==> Highest(runs, from, end) == 0
    ensures 0 <= Highest(runs, from, end) <= end
    ensures Lowest(runs, from, end) != MAX_INT64 ==> from <= Lowest(runs, from, end) <= Highest(runs, from, end)
  {
    if runs != [] {
      var n := |runs| - 1;
      ExtentHolds(runs[..n], from, end);
      assert forall i :: 0 <= i < n ==> runs[i] == runs[..n][i];
    }
  }

  /** The window `now` shows the dirty bytes where there are some and `was` elsewhere. */
  ghost predicate Filled(runs: seq<Run>, from: int, was: seq<byte>, now: seq<byte>) {
    && |now| == |was|
    && forall j :: 0 <= j < |was| ==> now[j] == Lookup(runs, from + j).UnwrapOr(was[j])
  }

  lemma FilledStep(runs: seq<Run>, r: Run, more: seq<Run>, from: int, was: seq<byte>, mid: seq<byte>, now: seq<byte>)
    requires Filled(runs, from, was, mid) && |now| == |mid|
    requires forall p :: Lookup(more, p) == if r.Covers(p) then Some(r.At(p)) else Lookup(runs, p)
    requires forall j :: 0 <= j < |mid| ==> now[j] == if r.Covers(from + j) then r.At(from + j) else mid[j]
    ensures Filled(more, from, was, now)
  {}

  lemma WellFormedPrefix(runs: seq<Run>, i: nat)
    requires WellFormed(runs) && i < |runs|
    ensures WellFormed(runs[..i]) && runs[..i+1] == runs[..i] + [runs[i]]
    ensures forall p :: (Lookup(runs[..i+1], p)
                         == if runs[i].Covers(p) then Some(runs[i].At(p)) else Lookup(runs[..i], p))
  {
    forall j | 0 <= j < i ensures Apart(runs[..i][j], runs[i]) {}
    Append(runs[..i], runs[i]);
  }
}
