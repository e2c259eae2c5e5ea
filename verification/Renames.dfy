/** What renaming an entry with all below it does to the name space. */
module Renames {
  import opened Common
  import opened Listing
  import opened Namespace
  import opened Paths

  /** Some entries under one path, at their places under another, without their extended attributes. */
  ghost function Carry(s: Store, top: Path, dest: Path, qs: set<Path>): (r: Store)
    requires forall q :: q in qs ==> q in s && top <= q
    ensures forall p :: p in r <==> dest <= p && Moved(p, dest, top) in qs
    ensures forall p :: p in r ==> r[p] == FromPb(s[Moved(p, dest, top)])
  {
    assert forall q :: q in qs ==> dest <= Moved(q, top, dest) && Moved(Moved(q, top, dest), dest, top) == q;
    assert forall p :: dest <= p && Moved(p, dest, top) in qs ==> Moved(Moved(p, dest, top), top, dest) == p;
    map p | p in (set q | q in qs :: Moved(q, top, dest)) :: FromPb(s[Moved(p, dest, top)])
  }

  /** A subtree taken from one path to another. */
  ghost function Taken(t: Store, c: Path, d: Path): Store {
    t - Under(t, c) + Carry(t, c, d, Under(t, c))
  }

  /** The store after a rename: missing parents made, the old entries gone, their copies at the new path. */
  ghost function Renamed(s: Store, oldPath: Path, newPath: Path, dir: Entry): Store {
    Taken(WithParents(s, newPath, |newPath|, dir), oldPath, newPath)
  }

  /** The store after some children of the old directory were moved to the new one. */
  ghost function Moving(s: Store, oldPath: Path, newPath: Path, names: set<string>): Store {
    s - UnderNames(s, oldPath, names) + Carry(s, oldPath, newPath, UnderNames(s, oldPath, names))
  }

  /** Neither path is inside the other, and nothing is below the new one. */
  ghost predicate Ready(s: Store, oldPath: Path, newPath: Path) {
    !(oldPath <= newPath) && !(newPath <= oldPath) && forall q :: newPath < q ==> q !in s
  }

  lemma Comparable(a: Path, b: Path, q: Path)
    requires a <= q && b <= q
    ensures a <= b || b <= a
  {
    if |a| <= |b| {
      assert forall i :: 0 <= i < |a| ==> a[i] == q[i] && b[i] == q[i];
    } else {
      assert forall i :: 0 <= i < |b| ==> a[i] == q[i] && b[i] == q[i];
    }
  }

  lemma MovedName(p: Path, top: Path, dest: Path)
    requires top < p
    ensures dest < Moved(p, top, dest) && Moved(p, top, dest)[|dest|] == p[|top|]
  {}

  /** What is at a path half way through. */
  lemma MovingAt(s: Store, oldPath: Path, newPath: Path, names: set<string>, p: Path)
    requires Ready(s, oldPath, newPath)
    ensures var t := Moving(s, oldPath, newPath, names);
      if newPath < p then
        && (p in t <==> p[|newPath|] in names && Moved(p, newPath, oldPath) in s)
        && (p in t ==> t[p] == FromPb(s[Moved(p, newPath, oldPath)]))
      else (p in t <==> p in s && !In(p, oldPath, names)) && (p in t ==> t[p] == s[p])
  {
    if newPath < p {
      MovedName(p, newPath, oldPath);
    } else if newPath == p {
      assert Moved(p, newPath, oldPath) == oldPath;
    }
  }

  /** The next child to move is still where it was, all of it. */
  lemma ChildThere(s: Store, oldPath: Path, newPath: Path, names: set<string>, name: string)
    requires Ready(s, oldPath, newPath) && name !in names
    ensures var t := Moving(s, oldPath, newPath, names);
      forall q :: Child(oldPath, name) <= q ==> (q in t <==> q in s) && (q in t ==> t[q] == s[q])
    ensures Child(newPath, name) !in Moving(s, oldPath, newPath, names)
    ensures Under(Moving(s, oldPath, newPath, names), Child(oldPath, name)) == Under(s, Child(oldPath, name))
  {
    forall q | Child(oldPath, name) <= q
      ensures var t := Moving(s, oldPath, newPath, names); (q in t <==> q in s) && (q in t ==> t[q] == s[q])
    {
      if newPath < q {
        Comparable(oldPath, newPath, q);
      }
      MovingAt(s, oldPath, newPath, names, q);
    }
    MovingAt(s, oldPath, newPath, names, Child(newPath, name));
  }

  lemma ChildrenApart(oldPath: Path, newPath: Path, name: string)
    requires !(oldPath <= newPath) && !(newPath <= oldPath)
    ensures !(Child(oldPath, name) <= Child(newPath, name)) && !(Child(newPath, name) <= Child(oldPath, name))
  {
    if Child(oldPath, name) <= Child(newPath, name) || Child(newPath, name) <= Child(oldPath, name) {
      var q := if Child(oldPath, name) <= Child(newPath, name) then Child(newPath, name) else Child(oldPath, name);
      assert oldPath <= Child(oldPath, name) <= q && newPath <= Child(newPath, name) <= q;
      Comparable(oldPath, newPath, q);
    }
  }

  lemma MovedDeeper(p: Path, oldPath: Path, newPath: Path, name: string)
    requires Child(newPath, name) <= p
    ensures Moved(p, Child(newPath, name), Child(oldPath, name)) == Moved(p, newPath, oldPath)
    ensures Child(oldPath, name) <= Moved(p, newPath, oldPath)
  {}

  lemma UnderChild(q: Path, top: Path, name: string)
    ensures Child(top, name) <= q <==> top < q && q[|top|] == name
  {}

  lemma TakenAt(t: Store, c: Path, d: Path, p: Path)
    ensures var r := Taken(t, c, d);
      if d <= p && Moved(p, d, c) in t then p in r && r[p] == FromPb(t[Moved(p, d, c)])
      else (p in r <==> p in t && !(c <= p)) && (p in r ==> r[p] == t[p])
  {}

  /** Moving one child, its parent being there, is one step of moving them all. */
  lemma MoveStepAt(s: Store, oldPath: Path, newPath: Path, names: set<string>, name: string, p: Path)
    requires Ready(s, oldPath, newPath) && name !in names
    ensures var r := Taken(Moving(s, oldPath, newPath, names), Child(oldPath, name), Child(newPath, name));
      var u := Moving(s, oldPath, newPath, names + {name});
      (p in r <==> p in u) && (p in r ==> r[p] == u[p])
  {
    var t, c, d := Moving(s, oldPath, newPath, names), Child(oldPath, name), Child(newPath, name);
    hide Moving;
    hide Taken;
    hide Child;
    hide Moved;
    ChildThere(s, oldPath, newPath, names, name);
    MovingAt(s, oldPath, newPath, names, p);
    MovingAt(s, oldPath, newPath, names + {name}, p);
    TakenAt(t, c, d, p);
    UnderChild(p, newPath, name);
    UnderChild(p, oldPath, name);
    if d <= p {
      MovedDeeper(p, oldPath, newPath, name);
    } else if c <= p && newPath < p {
      Comparable(oldPath, newPath, p);
    }
  }

  lemma MoveStep(s: Store, oldPath: Path, newPath: Path, names: set<string>, name: string)
    requires Ready(s, oldPath, newPath) && name !in names
    ensures Taken(Moving(s, oldPath, newPath, names), Child(oldPath, name), Child(newPath, name))
         == Moving(s, oldPath, newPath, names + {name})
  {
    hide *;
    var r := Taken(Moving(s, oldPath, newPath, names), Child(oldPath, name), Child(newPath, name));
    var u := Moving(s, oldPath, newPath, names + {name});
    forall p
      ensures (p in r <==> p in u) && (p in r ==> r[p] == u[p])
    {
      MoveStepAt(s, oldPath, newPath, names, name, p);
    }
  }

  lemma ParentsAbove(t: Store, d: Path, dir: Entry)
    requires Housed(t) && d != [] && (|d| > 1 ==> Parent(d) in t && t[Parent(d)].isDir)
    ensures WithParents(t, d, |d|, dir) == t && !Blocked(t, d)
  {
    WithParentsHas(t, d, |d|, dir);
    forall k | 0 < k < |d|
      ensures d[..k] in t && t[d[..k]].isDir
    {
      assert Parent(d)[..k] == d[..k];
      if k < |d| - 1 {
        AncestorsStored(t, Parent(d), k);
      } else {
        assert d[..k] == Parent(d);
      }
    }
    assert forall q :: 0 < |q| < |d| && q <= d ==> q == d[..|q|];
  }

  /** A new entry beside the old one, with nothing below it. */
  lemma CreatedReady(s: Store, oldPath: Path, newPath: Path, e: Entry, dir: Entry)
    requires Housed(s) && oldPath in s && newPath != [] && newPath !in s && !(oldPath <= newPath)
    ensures Ready(Created(s, newPath, e, dir), oldPath, newPath)
    ensures forall q :: oldPath <= q ==> (q in Created(s, newPath, e, dir) <==> q in s)
    ensures forall q :: oldPath <= q && q in s ==> Created(s, newPath, e, dir)[q] == s[q]
    ensures Under(Created(s, newPath, e, dir), oldPath) == Under(s, oldPath)
  {
    WithParentsHas(s, newPath, |newPath|, dir);
    if newPath < oldPath {
      NothingBelow(s, newPath, oldPath);
    }
    forall q | newPath < q
      ensures q !in s
    {
      NothingBelow(s, newPath, q);
    }
  }

  lemma RenameUnexpired(s: Store, oldPath: Path, newPath: Path, names: set<string>, now: int)
    requires Unexpired(s, now)
    ensures Unexpired(Moving(s, oldPath, newPath, names), now)
  {}

  lemma CreateUnexpired(s: Store, path: Path, e: Entry, now: int)
    requires Unexpired(s, now) && !e.Expired(now)
    ensures Unexpired(Created(s, path, e, ParentEntry(now, e)), now)
  {
    WithParentsHas(s, path, |path|, ParentEntry(now, e));
  }

  /** With all children moved and the old directory deleted, the rename is complete. */
  lemma RenameDoneAt(s: Store, oldPath: Path, newPath: Path, dir: Entry, names: set<string>, p: Path)
    requires Housed(s) && oldPath in s && newPath != [] && newPath !in s && !(oldPath <= newPath)
    requires var s1 := Created(s, newPath, FromPb(s[oldPath]), dir);
      Housed(s1) && forall name :: Child(oldPath, name) in s1 ==> name in names
    ensures var s1 := Created(s, newPath, FromPb(s[oldPath]), dir);
      var r, u := Without(Moving(s1, oldPath, newPath, names), oldPath), Renamed(s, oldPath, newPath, dir);
      (p in r <==> p in u) && (p in r ==> r[p] == u[p])
  {
    var w, s1 := WithParents(s, newPath, |newPath|, dir), Created(s, newPath, FromPb(s[oldPath]), dir);
    CreatedReady(s, oldPath, newPath, FromPb(s[oldPath]), dir);
    WithParentsHas(s, newPath, |newPath|, dir);
    MovingAt(s1, oldPath, newPath, names, p);
    TakenAt(w, oldPath, newPath, p);
    hide Moving;
    hide Taken;
    hide WithParents;
    hide Housed;
    if newPath <= p {
      MovedBack(p, newPath, oldPath);
      var q := Moved(p, newPath, oldPath);
      if p == newPath {
        assert q == oldPath;
      } else if q in s1 {
        MovedName(p, newPath, oldPath);
        FirstName(s1, oldPath, q);
      }
    }
  }

  lemma FirstName(s: Store, dir: Path, q: Path)
    requires Housed(s) && dir < q && q in s
    ensures Child(dir, q[|dir|]) in s
  {
    assert q[..|dir|+1] == Child(dir, q[|dir|]) && q[..|q|] == q;
    if |q| > |dir| + 1 {
      AncestorsStored(s, q, |dir| + 1);
    }
  }

  /** The children of a directory are being moved to another that was made for them. */
  ghost predicate MoveReady(s: Store, oldPath: Path, newPath: Path, now: int) {
    && Unexpired(s, now) && Ready(s, oldPath, newPath) && Housed(s)
    && oldPath in s && newPath in s && s[newPath].isDir
  }

  /** What moving one more child starts from, and what it comes to. */
  lemma SubMove(s: Store, oldPath: Path, newPath: Path, names: set<string>, name: string, now: int, dir: Entry)
    requires MoveReady(s, oldPath, newPath, now) && name !in names && Child(oldPath, name) in s
    requires Housed(Moving(s, oldPath, newPath, names))
    ensures var t, c, d := Moving(s, oldPath, newPath, names), Child(oldPath, name), Child(newPath, name);
      && Unexpired(t, now) && c in t && t[c] == s[c] && d !in t && !(c <= d) && d != [] && "" !in d && !Blocked(t, d)
      && |Under(t, c)| < |Under(s, oldPath)|
      && Renamed(t, c, d, dir) == Moving(s, oldPath, newPath, names + {name})
  {
    var t, d := Moving(s, oldPath, newPath, names), Child(newPath, name);
    RenameUnexpired(s, oldPath, newPath, names, now);
    ChildThere(s, oldPath, newPath, names, name);
    ChildrenApart(oldPath, newPath, name);
    FewerUnder(s, oldPath, name);
    MoveStep(s, oldPath, newPath, names, name);
    MovingAt(s, oldPath, newPath, names, newPath);
    ParentOfChild(newPath, name);
    Named(s, oldPath, newPath, name);
    hide Moving;
    hide Taken;
    ParentsAbove(t, d, dir);
  }

  lemma Named(s: Store, oldPath: Path, newPath: Path, name: string)
    requires Housed(s) && newPath in s && Child(oldPath, name) in s
    ensures "" !in Child(newPath, name)
  {
    assert Child(oldPath, name)[|oldPath|] == name;
  }

  /**
   * A rename moves exactly what was at and below the old path, with attributes and chunks, and leaves nothing there.
   * Elsewhere it only makes the missing parents of the new path.
   */
  lemma RenameMoves(s: Store, oldPath: Path, newPath: Path, dir: Entry, p: Path)
    requires Housed(s) && oldPath in s && newPath != [] && newPath !in s && !(oldPath <= newPath)
    ensures var r := Renamed(s, oldPath, newPath, dir);
      && (oldPath <= p ==> p !in r)
      && (newPath <= p ==>
            && (p in r <==> Moved(p, newPath, oldPath) in s)
            && (p in r ==> r[p] == FromPb(s[Moved(p, newPath, oldPath)])))
      && (!(oldPath <= p) && !(newPath <= p) ==>
            && (p in r <==> p in s || (p != [] && p <= newPath))
            && (p in r ==> r[p] == if p in s then s[p] else dir))
  {
    var w, q := WithParents(s, newPath, |newPath|, dir), if newPath <= p then Moved(p, newPath, oldPath) else oldPath;
    TakenAt(w, oldPath, newPath, p);
    WithParentsHas(s, newPath, |newPath|, dir);
    NotAbove(oldPath, newPath, q);
    assert q in w <==> q in s;
    if newPath <= p && p != newPath {
      NothingBelow(s, newPath, p);
      assert p !in w;
    } else if p == newPath {
      assert q == oldPath;
    }
    hide Taken;
    hide WithParents;
    hide Housed;
    if newPath <= p && oldPath <= p {
      Comparable(oldPath, newPath, p);
      assert newPath < oldPath;
      NothingBelow(s, newPath, oldPath);
    }
  }

  lemma NotAbove(oldPath: Path, newPath: Path, q: Path)
    requires !(oldPath <= newPath) && oldPath <= q
    ensures !(q <= newPath)
  {}

  /** It keeps the kinds of entries, and expires none. */
  lemma RenameKeeps(s: Store, oldPath: Path, newPath: Path, dir: Entry, now: int)
    requires Housed(s) && oldPath in s && newPath != [] && newPath !in s && !(oldPath <= newPath)
    requires Unexpired(s, now) && !dir.Expired(now)
    ensures SameKinds(s, Renamed(s, oldPath, newPath, dir)) && Unexpired(Renamed(s, oldPath, newPath, dir), now)
  {
    var r := Renamed(s, oldPath, newPath, dir);
    forall p
      ensures p in r ==> !r[p].Expired(now) && (p in s ==> s[p].isDir == r[p].isDir)
    {
      RenameMoves(s, oldPath, newPath, dir, p);
      if newPath <= p && p != newPath {
        NothingBelow(s, newPath, p);
      }
    }
  }
}
