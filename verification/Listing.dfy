/** Paged directory listings that skip and delete expired entries. */
module Listing {
  import opened Common
  import opened Names
  import opened Namespace
  import opened Paths

  /** The names of the entries in a directory. */
  function ChildNames(s: Store, dir: Path): (r: set<string>)
    ensures forall name :: name in r <==> Child(dir, name) in s
  {
    assert forall q :: q in s && q != [] && Parent(q) == dir ==> Child(dir, Last(q)) == q;
    assert forall name :: Child(dir, name) != [] && Parent(Child(dir, name)) == dir && Last(Child(dir, name)) == name;
    set q | q in s && q != [] && Parent(q) == dir :: Last(q)
  }

  /** Every path but the direct children of a directory holds what it held. */
  ghost predicate SameElsewhere(was: Store, now: Store, dir: Path) {
    forall q :: q == [] || Parent(q) != dir ==> (q in now <==> q in was) && (q in now ==> now[q] == was[q])
  }

  /** With no children left and all else as it was, exactly the direct children are gone. */
  lemma ChildrenGone(was: Store, now: Store, dir: Path)
    requires ChildNames(now, dir) == {} && SameElsewhere(was, now, dir)
    ensures now == map q | q in was && (q == [] || Parent(q) != dir) :: was[q]
  {
    forall q | q != [] && Parent(q) == dir ensures q !in now {
      ChildOfParent(q);
      assert Last(q) !in ChildNames(now, dir);
    }
  }

  datatype Item = Item(name: string, entry: Entry)

  function NamesOf(items: seq<Item>): (r: seq<string>)
    ensures |r| == |items| && forall i :: 0 <= i < |r| ==> r[i] == items[i].name
  {
    seq(|items|, i requires 0 <= i < |items| => items[i].name)
  }

  ghost predicate ExpiredIn(s: Store, dir: Path, name: string, now: int) {
    Child(dir, name) in s && s[Child(dir, name)].Expired(now)
  }

  /** The store without the expired ones among some names of a directory. */
  ghost function Reaped(s: Store, dir: Path, names: set<string>, now: int): Store {
    map q | q in s && !(q != [] && Parent(q) == dir && Last(q) in names && s[q].Expired(now)) :: s[q]
  }

  ghost predicate AsStored(items: seq<Item>, s: Store, dir: Path) {
    forall i :: 0 <= i < |items| ==> Child(dir, items[i].name) in s && items[i].entry == s[Child(dir, items[i].name)]
  }

  /** The items are the unexpired ones of the names, in order, as they were stored. */
  ghost predicate LiveOf(items: seq<Item>, s: Store, dir: Path, names: set<string>, now: int) {
    && Increasing(NamesOf(items))
    && AsStored(items, s, dir)
    && (forall x :: x in NamesOf(items) <==> x in names && !ExpiredIn(s, dir, x, now))
  }

  ghost function Live(s: Store, dir: Path, names: set<string>, now: int): set<string> {
    set x | x in names && !ExpiredIn(s, dir, x, now)
  }

  function ToSet(r: seq<string>): set<string> {
    set x | x in r
  }

  /** The visited names come before all the others. */
  ghost predicate Ahead(visited: set<string>, all: set<string>) {
    visited <= all && forall x, y :: x in visited && y in all && y !in visited ==> Less(x, y)
  }

  lemma ReapStep(s: Store, dir: Path, seen: set<string>, x: string, now: int)
    requires x !in seen && Child(dir, x) in s
    ensures Child(dir, x) in Reaped(s, dir, seen, now) && Reaped(s, dir, seen, now)[Child(dir, x)] == s[Child(dir, x)]
    ensures Reaped(s, dir, seen + {x}, now) ==
      Reaped(s, dir, seen, now) - (if s[Child(dir, x)].Expired(now) then {Child(dir, x)} else {})
  {
    ParentOfChild(dir, x);
    forall q | q != [] && Parent(q) == dir
      ensures Last(q) == x <==> q == Child(dir, x)
    {
      ChildOfParent(q);
    }
  }

  lemma LiveStep(items: seq<Item>, s: Store, dir: Path, seen: set<string>, x: string, now: int)
    requires LiveOf(items, s, dir, seen, now) && Child(dir, x) in s && forall y :: y in seen ==> Less(y, x)
    ensures s[Child(dir, x)].Expired(now) ==> LiveOf(items, s, dir, seen + {x}, now)
    ensures !s[Child(dir, x)].Expired(now) ==> LiveOf(items + [Item(x, s[Child(dir, x)])], s, dir, seen + {x}, now)
  {
    LessTotal(x, x);
    var more := items + [Item(x, s[Child(dir, x)])];
    assert NamesOf(more) == NamesOf(items) + [x];
    assert forall i :: 0 <= i < |items| ==> NamesOf(items)[i] in NamesOf(items);
  }

  lemma PageBegin(s: Store, dir: Path, names: seq<string>, now: int)
    ensures LiveOf([], s, dir, ToSet(names[..0]), now) && Reaped(s, dir, ToSet(names[..0]), now) == s
    ensures names[..|names|] == names
  {}

  lemma PageStep(names: seq<string>, i: nat)
    requires Increasing(names) && i < |names|
    ensures names[i] !in ToSet(names[..i]) && forall y :: y in ToSet(names[..i]) ==> Less(y, names[i])
    ensures ToSet(names[..i+1]) == ToSet(names[..i]) + {names[i]}
  {
    NotRepeated(names, i);
    assert names[..i+1] == names[..i] + [names[i]];
  }

  /** After the visited names come the ones not visited. */
  lemma RestAfter(s: Store, dir: Path, start: string, inclusive: bool, visited: set<string>, last: string, now: int)
    requires Ahead(visited, After(ChildNames(s, dir), start, inclusive))
    requires IsLast(last, visited)
    ensures After(ChildNames(Reaped(s, dir, visited, now), dir), last, false)
         == After(ChildNames(s, dir), start, inclusive) - visited
  {
    var all := After(ChildNames(s, dir), start, inclusive);
    forall x
      ensures Child(dir, x) in Reaped(s, dir, visited, now) && Less(last, x) <==> x in all && x !in visited
    {
      ParentOfChild(dir, x);
      LessTotal(last, x);
      if Less(start, last) && Less(last, x) {
        LessTransitive(start, last, x);
      }
    }
  }

  lemma ReapMore(s: Store, dir: Path, visited: set<string>, more: set<string>, now: int)
    ensures Reaped(Reaped(s, dir, visited, now), dir, more, now) == Reaped(s, dir, visited + more, now)
  {}

  /** The next page continues the list. */
  lemma LiveMore(items: seq<Item>, next: seq<Item>, s: Store, dir: Path, visited: set<string>, more: set<string>,
                 now: int)
    requires LiveOf(items, s, dir, visited, now) && visited !! more
    requires LiveOf(next, Reaped(s, dir, visited, now), dir, more, now)
    requires forall x, y :: x in visited && y in more ==> Less(x, y)
    ensures LiveOf(items + next, s, dir, visited + more, now)
  {
    assert NamesOf(items + next) == NamesOf(items) + NamesOf(next);
    assert forall i :: 0 <= i < |items| ==> NamesOf(items)[i] in NamesOf(items);
    assert forall i :: 0 <= i < |next| ==> NamesOf(next)[i] in NamesOf(next);
    forall x | x in more
      ensures ExpiredIn(Reaped(s, dir, visited, now), dir, x, now) <==> ExpiredIn(s, dir, x, now)
    {
      ParentOfChild(dir, x);
    }
  }

  lemma AheadMore(page: seq<string>, visited: set<string>, all: set<string>, limit: nat)
    requires Ahead(visited, all) && FirstOf(page, all - visited, limit)
    ensures Ahead(visited + ToSet(page), all) && visited !! ToSet(page)
    ensures |page| == limit || visited + ToSet(page) == all
    ensures forall x, y :: x in visited && y in ToSet(page) ==> Less(x, y)
  {}

  /** All visited, or enough found: these are the first unexpired names. */
  lemma LiveDone(items: seq<Item>, s: Store, dir: Path, visited: set<string>, all: set<string>, limit: nat, now: int)
    requires LiveOf(items, s, dir, visited, now) && Ahead(visited, all)
    requires |items| == limit || (|items| <= limit && visited == all)
    ensures FirstOf(NamesOf(items), Live(s, dir, all, now), limit)
  {}

  ghost predicate IsLast(last: string, visited: set<string>) {
    last in visited && forall x :: x in visited ==> x == last || Less(x, last)
  }

  lemma PageLast(page: seq<string>, visited: set<string>)
    requires page != [] && Increasing(page) && forall x, y :: x in visited && y in ToSet(page) ==> Less(x, y)
    ensures IsLast(page[|page|-1], visited + ToSet(page))
  {
    assert page[|page|-1] in page;
  }

  lemma Fewer(all: set<string>, before: set<string>, visited: set<string>, x: string)
    requires before <= visited <= all && x in visited && x !in before
    ensures |all - visited| < |all - before|
  {
    SubsetSize(all - visited, all - before - {x});
  }

  /** A listing keeps a follower in agreement exactly when it deletes no expired entry whose changes are logged. */
  lemma ReapedFollows(s: Store, f: Store, dir: Path, names: set<string>, now: int)
    requires Follows(s, f)
    ensures Follows(Reaped(s, dir, names, now), f)
       <==> forall name :: name in names && ExpiredIn(s, dir, name, now) ==> !Logged(Child(dir, name))
  {
    var t := Reaped(s, dir, names, now);
    forall name | name in names && ExpiredIn(s, dir, name, now) ensures Child(dir, name) !in t {
      ParentOfChild(dir, name);
    }
    forall q | q in s && q !in t
      ensures Child(dir, Last(q)) == q && ExpiredIn(s, dir, Last(q), now) && Last(q) in names
    {
      ChildOfParent(q);
    }
    if forall name :: name in names && ExpiredIn(s, dir, name, now) ==> !Logged(Child(dir, name)) {
      forall p | Logged(p) ensures SameAt(t, f, p) {
        assert SameAt(s, f, p);
      }
    } else {
      var name :| name in names && ExpiredIn(s, dir, name, now) && Logged(Child(dir, name));
      assert SameAt(s, f, Child(dir, name)) && !SameAt(t, f, Child(dir, name));
    }
  }

  /** A listing keeps the name space whole exactly when it deletes no directory with entries in it. */
  lemma ReapedHoused(s: Store, dir: Path, names: set<string>, now: int)
    requires Housed(s)
    ensures Housed(Reaped(s, dir, names, now))
       <==> forall name :: name in names && ExpiredIn(s, dir, name, now) ==> ChildNames(s, Child(dir, name)) == {}
  {
    var t := Reaped(s, dir, names, now);
    if name :| name in names && ExpiredIn(s, dir, name, now) && ChildNames(s, Child(dir, name)) != {} {
      var x :| x in ChildNames(s, Child(dir, name));
      var d, q := Child(dir, name), Child(Child(dir, name), x);
      ParentOfChild(dir, name);
      ParentOfChild(d, x);
      assert q in t && Parent(q) !in t;
    } else {
      forall q | q in t && |q| > 1 ensures Parent(q) in t && t[Parent(q)].isDir {
        StaysHoused(s, dir, names, now, q);
      }
    }
  }

  lemma StaysHoused(s: Store, dir: Path, names: set<string>, now: int, q: Path)
    requires Housed(s) && q in s && |q| > 1
    requires forall name :: name in names && ExpiredIn(s, dir, name, now) ==> ChildNames(s, Child(dir, name)) == {}
    ensures Parent(q) in Reaped(s, dir, names, now) && s[Parent(q)].isDir
  {
    var d := Parent(q);
    ChildOfParent(q);
    assert d in s && s[d].isDir && Last(q) in ChildNames(s, d);
    hide Housed;
    hide ChildNames;
    if d != [] {
      ChildOfParent(d);
      assert ExpiredIn(s, dir, Last(d), now) && Last(d) in names && Parent(d) == dir ==> ChildNames(s, d) == {};
    }
  }

  /** A listing keeps the directory cache right exactly when it deletes no cached directory. */
  lemma ReapedCache(s: Store, cache: map<Path, Entry>, dir: Path, names: set<string>, now: int)
    requires CacheOk(cache, s)
    ensures CacheOk(cache, Reaped(s, dir, names, now))
       <==> forall name :: name in names && ExpiredIn(s, dir, name, now) ==> Child(dir, name) !in cache
  {
    var t := Reaped(s, dir, names, now);
    if name :| name in names && ExpiredIn(s, dir, name, now) && Child(dir, name) in cache {
      ParentOfChild(dir, name);
      assert Child(dir, name) !in t;
    } else {
      forall p | p in cache && p != [] ensures p in t {
        ChildOfParent(p);
      }
    }
  }

  /** Without expired entries a listing changes nothing and leaves nothing out. */
  lemma NoneReaped(s: Store, dir: Path, names: set<string>, now: int)
    requires Unexpired(s, now)
    ensures Reaped(s, dir, names, now) == s && Live(s, dir, names, now) == names
  {}

  /** The names up to the cursor have been visited. */
  ghost predicate Passed(all: set<string>, visited: set<string>, last: string) {
    visited <= all && forall x :: x in all ==> (x in visited <==> !Less(last, x))
  }

  lemma PassedNext(all: set<string>, visited: set<string>, last: string, r: seq<string>, limit: nat)
    requires Passed(all, visited, last) && FirstOf(r, all - visited, limit) && r != []
    ensures Passed(all, visited + ToSet(r), r[|r|-1])
    ensures |all - (visited + ToSet(r))| < |all - visited|
  {
    var next := r[|r|-1];
    assert next in r;
    forall x | x in all
      ensures x in visited + ToSet(r) <==> !Less(next, x)
    {
      LessTotal(next, x);
      LessTotal(last, x);
      if x in visited && x != last {
        LessTransitive(x, last, next);
      }
    }
    Fewer(all, visited, visited + ToSet(r), next);
  }

  lemma PassedRest(all: set<string>, visited: set<string>, last: string, left: set<string>)
    requires Passed(all, visited, last) && all - visited <= left <= all
    ensures After(left, last, false) == all - visited
  {}

  lemma NonePassed(all: set<string>)
    requires "" !in all
    ensures Passed(all, {}, "")
  {
    forall x | x in all
      ensures Less("", x)
    {
      LessTotal("", x);
    }
  }

  lemma PageStart(r: seq<string>, names: set<string>)
    ensures names + ToSet(r[..0]) == names && r[..|r|] == r
  {}

  /** The next item of a page is stored and was not visited before. */
  lemma PageItem(entries: seq<Item>, s: Store, dir: Path, names: set<string>, i: nat)
    requires i < |entries| && Increasing(NamesOf(entries)) && ToSet(NamesOf(entries)) !! names
    requires AsStored(entries, s, dir)
    ensures var r, name := NamesOf(entries), entries[i].name;
      && name !in names + ToSet(r[..i]) && names + ToSet(r[..i]) + {name} == names + ToSet(r[..i+1])
      && Child(dir, name) in s && entries[i].entry == s[Child(dir, name)]
  {
    var r := NamesOf(entries);
    PageStep(r, i);
    assert r[i] in r && r[i] in ToSet(r);
  }

  // Streaming a listing, page by page, with a prefix filter.

  ghost function Matching(names: set<string>, prefix: string): set<string> {
    set x | x in names && prefix <= x
  }

  /** The items sent are the matching ones among the names seen, in order, as they were stored. */
  ghost predicate SentOf(sent: seq<Item>, s: Store, dir: Path, seen: set<string>, prefix: string) {
    && Increasing(NamesOf(sent))
    && AsStored(sent, s, dir)
    && forall x :: x in NamesOf(sent) <==> x in seen && prefix <= x
  }

  lemma SentStep(sent: seq<Item>, s: Store, dir: Path, seen: set<string>, prefix: string, item: Item)
    requires SentOf(sent, s, dir, seen, prefix) && forall x :: x in seen ==> Less(x, item.name)
    requires Child(dir, item.name) in s && item.entry == s[Child(dir, item.name)]
    ensures prefix <= item.name ==> SentOf(sent + [item], s, dir, seen + {item.name}, prefix)
    ensures !(prefix <= item.name) ==> SentOf(sent, s, dir, seen + {item.name}, prefix)
  {
    assert NamesOf(sent + [item]) == NamesOf(sent) + [item.name];
    assert forall i :: 0 <= i < |sent| ==> NamesOf(sent)[i] in NamesOf(sent);
  }

  /** Enough sent, or all seen: these are the first matching names. */
  lemma SentDone(sent: seq<Item>, s: Store, dir: Path, seen: set<string>, prefix: string, live: set<string>, limit: nat)
    requires SentOf(sent, s, dir, seen, prefix) && Ahead(seen, live)
    requires |sent| == limit || (|sent| <= limit && seen == live)
    ensures FirstOf(NamesOf(sent), Matching(live, prefix), limit)
  {}

  /** A page continues what was seen. */
  lemma AheadPage(r: seq<string>, i: nat, seen: set<string>, live: set<string>, limit: nat)
    requires Ahead(seen, live) && FirstOf(r, live - seen, limit) && i <= |r|
    ensures Ahead(seen + ToSet(r[..i]), live)
    ensures i < |r| ==> r[i] !in seen + ToSet(r[..i]) && seen + ToSet(r[..i]) + {r[i]} == seen + ToSet(r[..i+1])
    ensures i < |r| ==> forall x :: x in seen + ToSet(r[..i]) ==> Less(x, r[i])
  {
    assert forall k :: 0 <= k < |r| ==> r[k] in r;
    if i < |r| {
      PageStep(r, i);
    }
    forall x, y | x in ToSet(r[..i]) && y in live && y !in seen && y !in ToSet(r[..i])
      ensures Less(x, y)
    {
      if y in r {
        var k :| 0 <= k < |r| && r[k] == y;
        assert i <= k;
      }
    }
  }

  /** After a page the cursor stands before exactly the live names not seen. */
  lemma NextCursor(s: Store, dir: Path, start: string, inclusive: bool, r: seq<string>, visited: set<string>,
                   limit: nat, now: int)
    requires FirstOf(r, Live(s, dir, After(ChildNames(s, dir), start, inclusive), now), limit) && r != []
    ensures var t := Reaped(s, dir, visited, now);
      Live(t, dir, After(ChildNames(t, dir), r[|r|-1], false), now)
        == Live(s, dir, After(ChildNames(s, dir), start, inclusive), now) - ToSet(r)
  {
    var t, last := Reaped(s, dir, visited, now), r[|r|-1];
    var live := Live(s, dir, After(ChildNames(s, dir), start, inclusive), now);
    assert last in r;
    forall x
      ensures x in live && x !in r <==> Child(dir, x) in t && Less(last, x) && !ExpiredIn(t, dir, x, now)
    {
      ParentOfChild(dir, x);
      LessTotal(last, x);
      if Less(start, last) && Less(last, x) {
        LessTransitive(start, last, x);
      }
    }
  }

  /** What the next page of a stream starts from. */
  ghost predicate Streaming(s: Store, t: Store, dir: Path, last: string, inclusive: bool, live: set<string>,
                            seen: set<string>, now: int)
  {
    && (forall q :: q in t ==> q in s && t[q] == s[q])
    && Live(t, dir, After(ChildNames(t, dir), last, inclusive), now) == live - seen
  }

  lemma StreamStart(s: Store, dir: Path, start: string, inclusive: bool, prefix: string, now: int)
    ensures var live := Live(s, dir, After(ChildNames(s, dir), start, inclusive), now);
      SentOf([], s, dir, {}, prefix) && Ahead({}, live) && Streaming(s, s, dir, start, inclusive, live, {}, now)
  {}

  lemma SentStored(sent: seq<Item>, s: Store, dir: Path, seen: set<string>, prefix: string)
    requires SentOf(sent, s, dir, seen, prefix)
    ensures AsStored(sent, s, dir)
  {}

  lemma StreamNext(s: Store, t: Store, dir: Path, last: string, inclusive: bool, live: set<string>, seen: set<string>,
                   entries: seq<Item>, visited: set<string>, limit: nat, now: int)
    requires Streaming(s, t, dir, last, inclusive, live, seen, now) && Ahead(seen, live) && limit > 0
    requires FirstOf(NamesOf(entries), live - seen, limit) && LiveOf(entries, t, dir, visited, now)
    ensures AsStored(entries, s, dir)
    ensures |entries| < limit ==> seen + ToSet(NamesOf(entries)) == live
    ensures entries == [] ==> seen == live
    ensures entries != [] ==>
      && Streaming(s, Reaped(t, dir, visited, now), dir, entries[|entries|-1].name, false,
                   live, seen + ToSet(NamesOf(entries)), now)
      && |live - (seen + ToSet(NamesOf(entries)))| < |live - seen|
  {
    hide *;
    StreamStored(s, t, dir, last, inclusive, live, seen, entries, visited, now);
    StreamLeft(live, seen, NamesOf(entries), limit);
    if entries != [] {
      StreamMore(s, t, dir, last, inclusive, live, seen, NamesOf(entries), visited, limit, now);
    }
  }

  lemma StreamStored(s: Store, t: Store, dir: Path, last: string, inclusive: bool, live: set<string>, seen: set<string>,
                     entries: seq<Item>, visited: set<string>, now: int)
    requires Streaming(s, t, dir, last, inclusive, live, seen, now) && LiveOf(entries, t, dir, visited, now)
    ensures AsStored(entries, s, dir)
  {}

  lemma StreamLeft(live: set<string>, seen: set<string>, r: seq<string>, limit: nat)
    requires Ahead(seen, live) && FirstOf(r, live - seen, limit) && limit > 0
    ensures |r| < limit ==> seen + ToSet(r) == live
    ensures r == [] ==> seen == live
    ensures r != [] ==> |live - (seen + ToSet(r))| < |live - seen|
  {
    NewNames(live, seen, r, limit);
    if r != [] {
      assert r[|r|-1] in r;
      Fewer(live, seen, seen + ToSet(r), r[|r|-1]);
    }
  }

  lemma StreamMore(s: Store, t: Store, dir: Path, last: string, inclusive: bool, live: set<string>, seen: set<string>,
                   r: seq<string>, visited: set<string>, limit: nat, now: int)
    requires Streaming(s, t, dir, last, inclusive, live, seen, now)
    requires FirstOf(r, live - seen, limit) && r != []
    ensures Streaming(s, Reaped(t, dir, visited, now), dir, r[|r|-1], false, live, seen + ToSet(r), now)
  {
    NextCursor(t, dir, last, inclusive, r, visited, limit, now);
    ReapedPart(t, dir, visited, now);
    assert live - seen - ToSet(r) == live - (seen + ToSet(r));
    hide Reaped;
    hide Live;
    hide After;
    hide FirstOf;
  }

  lemma ReapedPart(s: Store, dir: Path, visited: set<string>, now: int)
    ensures forall q :: q in Reaped(s, dir, visited, now) ==> q in s && Reaped(s, dir, visited, now)[q] == s[q]
  {}

  lemma NewNames(all: set<string>, names: set<string>, r: seq<string>, limit: nat)
    requires FirstOf(r, all - names, limit) && names <= all && limit > 0
    ensures Increasing(r) && ToSet(r) !! names
    ensures r == [] <==> names == all
    ensures r == [] <==> ToSet(r) == {}
    ensures |r| < limit ==> names + ToSet(r) == all
  {
    if r != [] {
      assert r[0] in r && r[0] in ToSet(r);
    } else {
      assert names + ToSet(r) == names;
    }
  }
}
