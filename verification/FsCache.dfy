/** The cache of FUSE nodes: a trie of path components with parent pointers, changed in place. */
module FsCache {
  import opened Common
  import opened Paths

  /** What the cache holds at a path; directories and files are told apart when a node is moved. */
  datatype Object = Dir(id: nat) | File(id: nat) | Other(id: nat)

  class FsNode {
    var parent: FsNode?
    var node: Option<Object>
    var name: string
    var children: map<string, FsNode>

    constructor (parent: FsNode?, name: string, node: Option<Object>)
      ensures this.parent == parent && this.name == name && this.node == node && children == map[]
    {
      this.parent, this.name, this.node, this.children := parent, name, node, map[];
    }
  }

  type Nodes = map<Path, FsNode>

  /** The keys are the paths of a tree whose top is at `base`. */
  ghost predicate Rooted(base: Path, m: Nodes) {
    && base in m
    && (forall p :: p in m ==> base <= p)
    && (forall p {:trigger Parent(p)} :: p in m && p != base ==> p != [] && Parent(p) in m)
    && (forall p, q :: p in m && q in m && m[p] == m[q] ==> p == q)
  }

  /** The children of the node at a path are the nodes one component below it. */
  ghost predicate Leads(m: Nodes, p: Path, children: map<string, FsNode>) {
    forall name {:trigger Child(p, name)} ::
      && (name in children <==> Child(p, name) in m)
      && (name in children ==> children[name] == m[Child(p, name)])
  }

  ghost predicate Linked(m: Nodes, p: Path)
    requires p in m
    reads m[p]
  {
    Leads(m, p, m[p].children)
  }

  /** A node below the top points back to its parent and bears its name. */
  ghost predicate Hangs(m: Nodes, p: Path)
    requires p in m
    reads m[p]
  {
    HangsFrom(m, p, m[p].parent, m[p].name)
  }

  ghost predicate HangsFrom(m: Nodes, p: Path, parent: FsNode?, name: string) {
    p != [] && Parent(p) in m && parent == m[Parent(p)] && name == Last(p)
  }

  ghost predicate Tree(base: Path, m: Nodes)
    reads m.Values
  {
    && Rooted(base, m)
    && (forall p :: p in m ==> Linked(m, p))
    && (forall p :: p in m && p != base ==> Hangs(m, p))
  }

  /** The nodes at and below a path, and the others. */
  ghost function Under(m: Nodes, top: Path): Nodes {
    map p | p in m && top <= p :: m[p]
  }

  ghost function Without(m: Nodes, top: Path): Nodes {
    map p | p in m && !(top <= p) :: m[p]
  }

  type Shown = map<Path, Option<Object>>

  /** What a tree of nodes holds, path by path. */
  ghost function View(m: Nodes): Shown
    reads m.Values`node
  {
    map p | p in m :: m[p].node
  }

  ghost function Seen(v: Shown, p: Path): Option<Object> {
    if p in v then v[p] else None
  }

  class FsCache {
    const root: FsNode
    ghost var at: Nodes

    ghost predicate Valid()
      reads this, at.Values
    {
      Tree([], at) && at[[]] == root && root.parent == null
    }

    /** What a lookup of the path returns. */
    ghost function Lookup(p: Path): Option<Object>
      reads this, at.Values
    {
      Seen(View(at), p)
    }

    constructor (node: Option<Object>)
      ensures Valid() && at.Keys == {[]} && Lookup([]) == node
    {
      root := new FsNode(null, "", node);
      new;
      at := map[[] := root];
    }

    /** The node at a path, following the children. */
    method Find(path: Path) returns (t: FsNode?)
      requires Valid()
      ensures t == if path in at then at[path] else null
    {
      t := root;
      assert path[..0] == [];
      for i := 0 to |path|
        invariant path[..i] in at && t == at[path[..i]]
      {
        assert path[..i+1] == Child(path[..i], path[i]);
        assert Linked(at, path[..i]);
        if path[i] !in t.children {
          NotBelow(at, path, i + 1);
          return null;
        }
        t := t.children[path[i]];
      }
      assert path[..|path|] == path;
    }

    method DoGetFsNode(path: Path) returns (node: Option<Object>)
      requires Valid()
      ensures node == Lookup(path)
    {
      var t := Find(path);
      if t == null {
        return None;
      }
      node := t.node;
    }

    /** The child of a node, made empty when there is none. */
    method EnsureChild(n: FsNode, name: string, ghost p: Path) returns (t: FsNode)
      requires Valid() && p in at && at[p] == n
      modifies this`at, n`children
      ensures Valid() && Child(p, name) in at && t == at[Child(p, name)]
      ensures Child(p, name) in old(at) ==> at == old(at)
      ensures Child(p, name) !in old(at) ==> at == old(at)[Child(p, name) := t] && fresh(t) && t.node == None
    {
      assert Linked(at, p);
      if name in n.children {
        return n.children[name];
      }
      t := new FsNode(n, name, None);
      GrownRooted(at, p, name, t);
      forall q | q in at
        ensures Leads(at[Child(p, name) := t], q, if q == p then n.children[name := t] else at[q].children)
      {
        assert Linked(at, q);
        GrownLeads(at, p, name, t, q, at[q].children);
      }
      GrownLeaf(at, p, name, t);
      ParentOfChild(p, name);
      n.children := n.children[name := t];
      at := at[Child(p, name) := t];
      StillTree([], at);
    }

    /** Takes a child out of its parent's children. */
    method RemoveChild(parent: FsNode, child: FsNode, ghost path: Path)
      requires Valid() && path in at && path != [] && child == at[path] && parent == at[Parent(path)]
      modifies this`at, parent`children
      ensures Valid() && at == Without(old(at), path)
      ensures Tree(path, Under(old(at), path))
      ensures child !in at.Values && parent !in Under(old(at), path).Values
    {
      CutFacts(at, path);
      hide Leads;
      hide HangsFrom;
      hide Rooted;
      parent.children := parent.children - {child.name};
      at := Without(at, path);
      StillTree([], at);
    }

    /** Cuts a node and all below it off its parent. */
    method Disconnect(parent: FsNode, child: FsNode, ghost path: Path)
      requires Valid() && path in at && path != [] && child == at[path] && parent == at[Parent(path)]
      modifies this`at, parent`children, child`parent
      ensures Valid() && at == Without(old(at), path)
      ensures Tree(path, Under(old(at), path)) && child.parent == null
    {
      ghost var u := Under(at, path);
      RemoveChild(parent, child, path);
      SetParent(child, null, path, u);
    }

    /** One step down a path, making the node there when it is missing. */
    method EnsureNext(n: FsNode, name: string, ghost p: Path, ghost path: Path, ghost start: Nodes)
      returns (t: FsNode, ghost made: set<FsNode>)
      requires Valid() && p in at && n == at[p] && Child(p, name) <= path && Grown(start, at, path)
      modifies this`at, n`children
      ensures Valid() && Child(p, name) in at && t == at[Child(p, name)] && Grown(start, at, path)
      ensures at.Values <= old(at.Values) + made && fresh(made)
    {
      hide Tree;
      hide Grown;
      t := EnsureChild(n, name, p);
      made := if at == old(at) then {} else {t};
      if at != old(at) {
        GrownStep(start, old(at), path, Child(p, name), t);
      }
    }

    /** The node at a path, made with all that is missing on the way. */
    method Ensure(path: Path) returns (t: FsNode, ghost made: set<FsNode>)
      requires Valid()
      modifies this`at, at.Values`children
      ensures Valid() && path in at && t == at[path] && Grown(old(at), at, path)
      ensures at.Values <= old(at.Values) + made && fresh(made)
    {
      t, made := root, {};
      assert path[..0] == [] && Grown(at, at, path);
      hide Tree;
      hide Grown;
      for i := 0 to |path|
        invariant Valid() && path[..i] in at && t == at[path[..i]] && Grown(old(at), at, path)
        invariant at.Values <= old(at.Values) + made && fresh(made)
      {
        assert path[..i+1] == Child(path[..i], path[i]);
        ghost var more;
        t, more := EnsureNext(t, path[i], path[..i], path, old(at));
        made := made + more;
      }
      assert path[..|path|] == path;
    }

    /** Making nodes on the way changes no lookup. */
    method EnsureQuietly(path: Path) returns (t: FsNode, ghost made: set<FsNode>)
      requires Valid()
      modifies this`at, at.Values`children
      ensures Valid() && path in at && t == at[path] && SameShown(old(View(at)), View(at))
      ensures at.Values <= old(at.Values) + made && fresh(made)
    {
      t, made := Ensure(path);
      assert View(old(at)) == old(View(at));
      hide Tree;
      GrownShows(old(at), at, path);
    }

    /** Sets what a path holds; every other lookup stays. */
    method DoSetFsNode(path: Path, node: Option<Object>)
      requires Valid()
      modifies this`at, at.Values
      ensures Valid() && path in at
      ensures forall p :: Lookup(p) == if p == path then node else old(Lookup(p))
    {
      hide Tree;
      hide View;
      var t, _ := EnsureQuietly(path);
      SetNode(t, node, path);
    }

    /** Hangs a detached tree under a parent, or panics when a directory or file is to go under no directory. */
    method ConnectToParent(n: FsNode, parent: FsNode, ghost top: Path, ghost m: Nodes, ghost dest: Path)
      returns (panicked: bool)
      requires Valid() && Tree(top, m) && n == m[top] && at.Values !! m.Values
      requires Vacant(at, dest) && parent == at[Parent(dest)] && n.name == Last(dest)
      modifies this`at, parent`children, n`parent
      ensures Valid() && (panicked <==> !old(Fits(n.node, parent.node)))
      ensures at == if panicked then old(at) else old(at) + Rekeyed(m, top, dest)
      ensures panicked ==> parent.children == old(parent.children)
    {
      SetParent(n, parent, top, m);
      if !Fits(n.node, parent.node) {
        return true;
      }
      RekeyedTree(m, top, dest);
      AddChild(n, parent, dest, Rekeyed(m, top, dest));
      panicked := false;
    }

    /** Hangs a detached tree under a parent that has no child of that name. */
    method AddChild(n: FsNode, parent: FsNode, ghost dest: Path, ghost r: Nodes)
      requires Valid() && Tree(dest, r) && n == r[dest] && at.Values !! r.Values
      requires Vacant(at, dest) && parent == at[Parent(dest)] && n.parent == parent && n.name == Last(dest)
      modifies this`at, parent`children
      ensures Valid() && at == old(at) + r
    {
      GraftFacts(at, r, dest);
      assert [] !in r;
      hide Leads;
      hide HangsFrom;
      hide Rooted;
      parent.children := parent.children[n.name := n];
      at := at + r;
      StillTree([], at);
    }

    /** Cuts a node off its parent and empties it and all below it. */
    method Remove(parent: FsNode, t: FsNode, ghost path: Path)
      requires Valid() && path in at && path != [] && t == at[path] && parent == at[Parent(path)]
      modifies this`at, parent`children, Under(at, path).Values
      ensures Valid() && at == Without(old(at), path)
      ensures View(at) == old(View(Without(at, path)))
    {
      ghost var u := Under(at, path);
      UnderApart(at, path);
      assert path in u && u[path] == t;
      Disconnect(parent, t, path);
      DeleteSelf(t, path, u);
    }

    /** Forgets a path and all below it; every other lookup stays. */
    method DeleteFsNode(path: Path)
      requires Valid()
      modifies this`at, at.Values
      ensures Valid()
      ensures forall p :: Lookup(p) == if path <= p then None else old(Lookup(p))
    {
      var t := Find(path);
      if t == null {
        NoneBelow(at, path);
        return;
      }
      DeleteFound(t, path);
    }

    method DeleteFound(t: FsNode, ghost path: Path)
      requires Valid() && path in at && t == at[path]
      modifies this`at, at.Values
      ensures Valid()
      ensures forall p :: Lookup(p) == if path <= p then None else old(Lookup(p))
    {
      assert path != [] ==> Hangs(at, path);
      if t.parent != null {
        UnderApart(at, path);
        hide Tree;
        Remove(t.parent, t, path);
      } else {
        DeleteRoot();
      }
    }

    /**
     Moves a node with all below it, over whatever was at the new path.  It panics exactly when a directory or file
     would go under no directory; by then both paths are gone from the cache.
     */
    method Move(oldPath: Path, newPath: Path) returns (src: FsNode?, panicked: bool)
      requires Valid() && oldPath != []
      modifies this`at, at.Values
      ensures Valid()
      ensures panicked <==> oldPath in old(at) && !old(MayMove(View(at), oldPath, newPath))
      ensures oldPath !in old(at) ==> src == null && forall p :: Lookup(p) == old(Lookup(p))
      ensures oldPath in old(at) && !panicked ==> src == old(at)[oldPath] && newPath in at && at[newPath] == src
      ensures oldPath in old(at) && !panicked ==> forall p :: Lookup(p) == AfterMove(old(View(at)), oldPath, newPath, p)
      ensures panicked ==> forall p :: Lookup(p) == AfterPanic(old(View(at)), oldPath, newPath, p)
    {
      src := Find(oldPath);
      panicked := false;
      if src == null {
        return;
      }
      ghost var u, v0 := Under(at, oldPath), View(at);
      TakeOff(src, oldPath);
      ghost var v1 := View(at);
      if newPath == [] {
        panicked := true;
        return;
      }
      hide *;
      var parent, name := MakeRoomBeside(newPath, oldPath, u);
      ghost var v2, vu := View(at), View(u);
      MoveFits(v0, vu, v1, v2, oldPath, newPath);
      panicked := Place(src, parent, name, oldPath, u, newPath);
      if panicked {
        PanicShows(v0, v1, v2, oldPath, newPath);
      } else {
        MoveShows(v0, vu, v1, v2, View(at), oldPath, newPath);
      }
    }

    /** Detaches a tree from the cache. */
    method TakeOff(src: FsNode, ghost oldPath: Path)
      requires Valid() && oldPath in at && oldPath != [] && src == at[oldPath]
      modifies this`at, at.Values`children, src`parent
      ensures Valid() && Tree(oldPath, Under(old(at), oldPath)) && at.Values !! Under(old(at), oldPath).Values
      ensures CutShown(old(View(at)), View(at), oldPath) && at.Values <= old(at.Values)
      ensures UnderShown(old(View(at)), View(Under(old(at), oldPath)), oldPath)
    {
      assert Hangs(at, oldPath);
      UnderApart(at, oldPath);
      Disconnect(src.parent, src, oldPath);
    }

    /** Clears a path, making what is missing above it. */
    method MakeRoom(newPath: Path) returns (parent: FsNode, name: string, ghost made: set<FsNode>)
      requires Valid() && newPath != []
      modifies this`at, at.Values
      ensures Valid() && Vacant(at, newPath) && parent == at[Parent(newPath)] && name == Last(newPath)
      ensures CutShown(old(View(at)), View(at), newPath)
      ensures at.Values <= old(at.Values) + made && fresh(made)
    {
      var target;
      target, made := EnsureQuietly(newPath);
      assert Hangs(at, newPath);
      parent, name := target.parent, target.name;
      WithoutVacant(at, newPath);
      WithoutShown(at, newPath);
      hide Tree;
      hide View;
      hide Vacant;
      Remove(parent, target, newPath);
    }

    /** The same with a detached tree beside the cache, which is left alone. */
    method MakeRoomBeside(newPath: Path, ghost top: Path, ghost u: Nodes) returns (parent: FsNode, name: string)
      requires Valid() && newPath != [] && Tree(top, u) && at.Values !! u.Values
      modifies this`at, at.Values
      ensures Valid() && Vacant(at, newPath) && parent == at[Parent(newPath)] && name == Last(newPath)
      ensures CutShown(old(View(at)), View(at), newPath)
      ensures Tree(top, u) && at.Values !! u.Values && View(u) == old(View(u))
      ensures parent in old(at.Values) || fresh(parent)
    {
      hide Tree;
      hide View;
      hide CutShown;
      ghost var made;
      parent, name, made := MakeRoom(newPath);
    }

    /** Puts a detached tree at a path that is free. */
    method Place(src: FsNode, parent: FsNode, name: string, ghost oldPath: Path, ghost u: Nodes, ghost newPath: Path)
      returns (panicked: bool)
      requires Valid() && Tree(oldPath, u) && src == u[oldPath] && at.Values !! u.Values
      requires Vacant(at, newPath) && parent == at[Parent(newPath)] && name == Last(newPath)
      modifies this`at, parent`children, src`parent, src`name
      ensures Valid() && (panicked <==> !old(Fits(Seen(View(u), oldPath), Seen(View(at), Parent(newPath)))))
      ensures panicked ==> View(at) == old(View(at))
      ensures !panicked ==> newPath in at && at[newPath] == src
      ensures !panicked ==> GraftShown(old(View(at)), old(View(u)), View(at), oldPath, newPath)
    {
      hide *;
      ghost var was := at;
      TreeRooted(oldPath, u);
      panicked := Hang(src, parent, name, oldPath, u, newPath);
      GraftView(was, u, oldPath, newPath);
    }

    method Hang(src: FsNode, parent: FsNode, name: string, ghost oldPath: Path, ghost u: Nodes, ghost newPath: Path)
      returns (panicked: bool)
      requires Valid() && Tree(oldPath, u) && src == u[oldPath] && at.Values !! u.Values
      requires Vacant(at, newPath) && parent == at[Parent(newPath)] && name == Last(newPath)
      modifies this`at, parent`children, src`parent, src`name
      ensures Valid() && (panicked <==> !old(Fits(Seen(View(u), oldPath), Seen(View(at), Parent(newPath)))))
      ensures panicked ==> at == old(at)
      ensures !panicked ==> newPath in at && at[newPath] == src && at == old(at) + Rekeyed(u, oldPath, newPath)
    {
      SetName(src, name, oldPath, u);
      panicked := ConnectToParent(src, parent, oldPath, u, newPath);
      assert Moved(oldPath, oldPath, newPath) == newPath;
    }

    /** The node a path holds, or the given one put there. */
    method EnsureFsNode(path: Path, node: Object) returns (r: Object)
      requires Valid()
      modifies this`at, at.Values
      ensures Valid() && Lookup(path) == Some(r)
      ensures r == if old(Lookup(path)).Some? then old(Lookup(path)).value else node
      ensures forall p :: p != path ==> Lookup(p) == old(Lookup(p))
    {
      var t := DoGetFsNode(path);
      if t.Some? {
        return t.value;
      }
      DoSetFsNode(path, Some(node));
      r := node;
    }

    method DeleteRoot()
      requires Valid()
      modifies this`at, at.Values
      ensures Valid() && forall p :: Lookup(p) == None
    {
      DeleteSelf(root, [], at);
      at := map[[] := root];
      assert forall name :: Child([], name) != [];
      StillTree([], at);
    }

    method SetNode(t: FsNode, node: Option<Object>, ghost path: Path)
      requires Valid() && path in at && t == at[path]
      modifies t`node
      ensures Valid() && View(at) == old(View(at))[path := node]
    {
      t.node := node;
    }
  }

  /** Directories and files go under a directory. */
  predicate Fits(moved: Option<Object>, above: Option<Object>) {
    moved.Some? && !moved.value.Other? ==> above.Some? && above.value.Dir?
  }

  /** The new path has a parent, and it will do once the old path is cut off. */
  ghost predicate MayMove(v: Shown, oldPath: Path, newPath: Path) {
    && newPath != []
    && Fits(Seen(v, oldPath), if oldPath <= Parent(newPath) then None else Seen(v, Parent(newPath)))
  }

  /** What a lookup returns when the move panicked: the old path is cut off; the new one, unless the root, cleared. */
  ghost function AfterPanic(v: Shown, oldPath: Path, newPath: Path, p: Path): Option<Object> {
    if oldPath <= p || ([] != newPath <= p) then None else Seen(v, p)
  }

  /** A directory or file cannot go below itself, nor under a path that holds no directory. */
  lemma MovePanics(v: Shown, oldPath: Path, newPath: Path)
    requires Seen(v, oldPath).Some? && !Seen(v, oldPath).value.Other? && newPath != []
    ensures !MayMove(v, oldPath, newPath) <==>
      oldPath < newPath || !(Seen(v, Parent(newPath)).Some? && Seen(v, Parent(newPath)).value.Dir?)
  {
    assert oldPath < newPath <==> oldPath <= Parent(newPath);
  }

  /** What a lookup returns once a path was moved to another. */
  ghost function AfterMove(v: Shown, oldPath: Path, newPath: Path, p: Path): Option<Object> {
    if newPath <= p then Seen(v, Moved(p, newPath, oldPath)) else if oldPath <= p then None else Seen(v, p)
  }

  ghost predicate SameShown(was: Shown, now: Shown) {
    forall p :: Seen(now, p) == Seen(was, p)
  }

  /** All is seen as before, but nothing at or below the path. */
  ghost predicate CutShown(was: Shown, now: Shown, path: Path) {
    forall p :: Seen(now, p) == if path <= p then None else Seen(was, p)
  }

  ghost predicate UnderShown(was: Shown, part: Shown, path: Path) {
    forall p :: path <= p ==> Seen(part, p) == Seen(was, p)
  }

  /** A part seen under its new path, the rest as before. */
  ghost predicate GraftShown(was: Shown, part: Shown, now: Shown, oldPath: Path, newPath: Path) {
    forall p :: Seen(now, p) == if newPath <= p then Seen(part, Moved(p, newPath, oldPath)) else Seen(was, p)
  }

  lemma MoveFits(v0: Shown, vu: Shown, v1: Shown, v2: Shown, oldPath: Path, newPath: Path)
    requires newPath != []
    requires UnderShown(v0, vu, oldPath) && CutShown(v0, v1, oldPath) && CutShown(v1, v2, newPath)
    ensures MayMove(v0, oldPath, newPath) <==> Fits(Seen(vu, oldPath), Seen(v2, Parent(newPath)))
  {}

  lemma PanicShows(v0: Shown, v1: Shown, v2: Shown, oldPath: Path, newPath: Path)
    requires newPath != [] && CutShown(v0, v1, oldPath) && CutShown(v1, v2, newPath)
    ensures forall p :: Seen(v2, p) == AfterPanic(v0, oldPath, newPath, p)
  {}

  /** Cut off, cleared and put in place: a move. */
  lemma MoveShows(v0: Shown, vu: Shown, v1: Shown, v2: Shown, v3: Shown, oldPath: Path, newPath: Path)
    requires UnderShown(v0, vu, oldPath) && CutShown(v0, v1, oldPath) && CutShown(v1, v2, newPath)
    requires GraftShown(v2, vu, v3, oldPath, newPath)
    ensures forall p :: Seen(v3, p) == AfterMove(v0, oldPath, newPath, p)
  {
    forall p
      ensures Seen(v3, p) == AfterMove(v0, oldPath, newPath, p)
    {
      if newPath <= p {
        MovedBack(p, newPath, oldPath);
      }
    }
  }

  /** Moving a path to a free one and back again shows what was shown before. */
  lemma MoveRoundTrip(v: Shown, there: Shown, back: Shown, oldPath: Path, newPath: Path)
    requires !(oldPath <= newPath) && !(newPath <= oldPath)
    requires forall p :: newPath <= p ==> Seen(v, p) == None
    requires forall p :: Seen(there, p) == AfterMove(v, oldPath, newPath, p)
    requires forall p :: Seen(back, p) == AfterMove(there, newPath, oldPath, p)
    ensures SameShown(v, back)
  {
    forall p
      ensures Seen(back, p) == Seen(v, p)
    {
      if oldPath <= p {
        MovedBack(p, oldPath, newPath);
      } else if newPath <= p {
        assert Seen(back, p) == None;
      }
    }
  }

  lemma GraftView(m: Nodes, u: Nodes, oldPath: Path, newPath: Path)
    requires Rooted(oldPath, u) && Vacant(m, newPath)
    ensures GraftShown(View(m), View(u), View(m + Rekeyed(u, oldPath, newPath)), oldPath, newPath)
  {
    var v := View(m + Rekeyed(u, oldPath, newPath));
    forall p
      ensures Seen(v, p) == if newPath <= p then Seen(View(u), Moved(p, newPath, oldPath)) else Seen(View(m), p)
    {
      if newPath <= p {
        MovedBack(p, newPath, oldPath);
      }
    }
  }

  lemma WithoutShown(m: Nodes, path: Path)
    ensures CutShown(View(m), View(Without(m, path)), path)
    ensures UnderShown(View(m), View(Under(m, path)), path)
  {}

  lemma WithoutVacant(m: Nodes, path: Path)
    requires Rooted([], m) && path in m && path != []
    ensures Vacant(Without(m, path), path)
  {}

  /** The new tree has the old nodes, and new empty ones only on the way to the path. */
  ghost predicate Grown(was: Nodes, now: Nodes, path: Path)
    reads now.Values`node
  {
    && (forall p :: p in was ==> p in now && now[p] == was[p])
    && (forall p :: p in now && p !in was ==> p <= path && now[p].node == None)
  }

  lemma GrownStep(was: Nodes, now: Nodes, path: Path, p: Path, t: FsNode)
    requires Grown(was, now, path) && p <= path && p !in now && t.node == None
    ensures Grown(was, now[p := t], path)
  {}

  lemma GrownShows(was: Nodes, now: Nodes, path: Path)
    requires Grown(was, now, path)
    ensures SameShown(View(was), View(now))
  {}

  /** The top of a detached tree may have any parent and any name. */
  method SetParent(child: FsNode, parent: FsNode?, ghost path: Path, ghost m: Nodes)
    requires Tree(path, m) && child == m[path]
    modifies child`parent
    ensures Tree(path, m) && child.parent == parent
  {
    assert forall p :: p in m && p != path ==> Hangs(m, p) && m[p] != child;
    hide Leads;
    hide HangsFrom;
    hide Rooted;
    child.parent := parent;
  }

  method SetName(child: FsNode, name: string, ghost path: Path, ghost m: Nodes)
    requires Tree(path, m) && child == m[path]
    modifies child`name
    ensures Tree(path, m) && child.name == name
  {
    assert forall p :: p in m && p != path ==> Hangs(m, p) && m[p] != child;
    hide Leads;
    hide HangsFrom;
    hide Rooted;
    child.name := name;
  }

  /** The same nodes, at their paths under another top. */
  ghost function Rekeyed(m: Nodes, top: Path, dest: Path): Nodes
    requires forall q :: q in m ==> top <= q
    ensures forall q :: q in m ==>
      Moved(q, top, dest) in Rekeyed(m, top, dest) && Rekeyed(m, top, dest)[Moved(q, top, dest)] == m[q]
    ensures forall p :: p in Rekeyed(m, top, dest) ==>
      dest <= p && Moved(p, dest, top) in m && Rekeyed(m, top, dest)[p] == m[Moved(p, dest, top)]
  {
    assert forall q :: q in m ==> dest <= Moved(q, top, dest) && Moved(Moved(q, top, dest), dest, top) == q by {
      forall q | q in m
        ensures dest <= Moved(q, top, dest) && Moved(Moved(q, top, dest), dest, top) == q
      {
        MovedBack(q, top, dest);
      }
    }
    map p | p in (set q | q in m :: Moved(q, top, dest)) :: m[Moved(p, dest, top)]
  }

  lemma RekeyedRooted(m: Nodes, top: Path, dest: Path)
    requires Rooted(top, m)
    ensures Rooted(dest, Rekeyed(m, top, dest))
  {
    var r := Rekeyed(m, top, dest);
    assert Moved(top, top, dest) == dest;
    forall p | p in r && p != dest
      ensures p != [] && Parent(p) in r
    {
      var q := Moved(p, dest, top);
      MovedBack(p, dest, top);
      MovedParent(p, dest, top);
      MovedParent(q, top, dest);
    }
    forall p, q | p in r && q in r && r[p] == r[q]
      ensures p == q
    {
      MovedBack(p, dest, top);
      MovedBack(q, dest, top);
    }
  }

  lemma RekeyedLeads(m: Nodes, top: Path, dest: Path, q: Path, children: map<string, FsNode>)
    requires Rooted(top, m) && q in m && Leads(m, q, children)
    ensures Leads(Rekeyed(m, top, dest), Moved(q, top, dest), children)
  {
    var r := Rekeyed(m, top, dest);
    forall name
      ensures Child(Moved(q, top, dest), name) in r <==> Child(q, name) in m
      ensures Child(q, name) in m ==> r[Child(Moved(q, top, dest), name)] == m[Child(q, name)]
    {
      MovedChild(q, top, dest, name);
      MovedBack(Child(q, name), top, dest);
    }
  }

  lemma RekeyedHangs(m: Nodes, top: Path, dest: Path, q: Path, parent: FsNode?, name: string)
    requires Rooted(top, m) && q in m && q != top && HangsFrom(m, q, parent, name)
    ensures HangsFrom(Rekeyed(m, top, dest), Moved(q, top, dest), parent, name)
  {
    MovedParent(q, top, dest);
  }

  /** A detached tree is a tree under any other path. */
  lemma RekeyedTree(m: Nodes, top: Path, dest: Path)
    requires Tree(top, m)
    ensures Tree(dest, Rekeyed(m, top, dest))
  {
    var r := Rekeyed(m, top, dest);
    RekeyedRooted(m, top, dest);
    forall p | p in r
      ensures Leads(r, p, r[p].children) && (p != dest ==> HangsFrom(r, p, r[p].parent, r[p].name))
    {
      var q := Moved(p, dest, top);
      MovedBack(p, dest, top);
      assert Linked(m, q);
      RekeyedLeads(m, top, dest, q, m[q].children);
      if p != dest {
        MovedParent(p, dest, top);
        assert Hangs(m, q);
        RekeyedHangs(m, top, dest, q, m[q].parent, m[q].name);
      }
    }
  }

  /** Nothing is at or below the path, but its parent is there. */
  ghost predicate Vacant(m: Nodes, dest: Path) {
    dest != [] && Parent(dest) in m && forall p :: p in m ==> !(dest <= p)
  }

  lemma GraftRooted(m: Nodes, r: Nodes, dest: Path)
    requires Rooted([], m) && Rooted(dest, r) && Vacant(m, dest) && m.Values !! r.Values
    ensures Rooted([], m + r)
  {
    forall p, q | p in m && q in r
      ensures m[p] != r[q]
    {
      assert m[p] in m.Values && r[q] in r.Values;
    }
  }

  lemma GraftLeadsOld(m: Nodes, r: Nodes, dest: Path, p: Path, children: map<string, FsNode>)
    requires Rooted(dest, r) && Vacant(m, dest) && p in m && Leads(m, p, children)
    ensures Leads(m + r, p, if p == Parent(dest) then children[Last(dest) := r[dest]] else children)
  {
    forall name
      ensures Child(p, name) in r <==> p == Parent(dest) && name == Last(dest)
      ensures Child(p, name) in r ==> Child(p, name) == dest
    {
      ChildOfParent(dest);
      ParentOfChild(p, name);
      assert dest <= Child(p, name) && |dest| <= |p| ==> dest <= p;
    }
  }

  lemma GraftLeadsNew(m: Nodes, r: Nodes, dest: Path, p: Path, children: map<string, FsNode>)
    requires Rooted(dest, r) && Vacant(m, dest) && p in r && Leads(r, p, children)
    ensures Leads(m + r, p, children)
  {
    forall name
      ensures Child(p, name) !in m
    {
      assert dest <= Child(p, name);
    }
  }

  /** What holds of the two trees before the link between them is made. */
  lemma GraftFacts(m: Nodes, r: Nodes, dest: Path)
    requires Tree([], m) && Tree(dest, r) && Vacant(m, dest) && m.Values !! r.Values
    requires r[dest].parent == m[Parent(dest)] && r[dest].name == Last(dest)
    ensures Rooted([], m + r)
    ensures forall p :: p in m + r ==>
      Leads(m + r, p, if p == Parent(dest) then (m + r)[p].children[Last(dest) := r[dest]] else (m + r)[p].children)
    ensures forall p :: p in m + r && p != [] ==> HangsFrom(m + r, p, (m + r)[p].parent, (m + r)[p].name)
    ensures forall p :: p in m + r && p != Parent(dest) ==> (m + r)[p] != m[Parent(dest)]
  {
    GraftRooted(m, r, dest);
    assert Parent(dest) !in r;
    forall p | p in m + r
      ensures
        var children := (m + r)[p].children;
        Leads(m + r, p, if p == Parent(dest) then children[Last(dest) := r[dest]] else children)
      ensures p != [] ==> HangsFrom(m + r, p, (m + r)[p].parent, (m + r)[p].name)
    {
      if p in r {
        assert Linked(r, p) && (p != dest ==> Hangs(r, p));
        GraftLeadsNew(m, r, dest, p, r[p].children);
      } else {
        assert Linked(m, p) && (p != [] ==> Hangs(m, p));
        GraftLeadsOld(m, r, dest, p, m[p].children);
      }
    }
  }

  lemma TreeRooted(base: Path, m: Nodes)
    requires Tree(base, m)
    ensures Rooted(base, m)
  {}

  lemma StillTree(base: Path, m: Nodes)
    requires Rooted(base, m)
    requires forall p :: p in m ==> Leads(m, p, m[p].children)
    requires forall p :: p in m && p != base ==> Hangs(m, p)
    ensures Tree(base, m)
  {}

  /** A tree with one more leaf. */
  lemma GrownRooted(m: Nodes, p: Path, name: string, t: FsNode)
    requires Rooted([], m) && p in m && Child(p, name) !in m && t !in m.Values
    ensures Rooted([], m[Child(p, name) := t])
  {
    ParentOfChild(p, name);
  }

  lemma GrownLeads(m: Nodes, p: Path, name: string, t: FsNode, q: Path, children: map<string, FsNode>)
    requires Leads(m, q, children) && Child(p, name) !in m
    ensures Leads(m[Child(p, name) := t], q, if q == p then children[name := t] else children)
  {
    forall other
      ensures Child(q, other) == Child(p, name) <==> q == p && other == name
    {
      ParentOfChild(q, other);
      ParentOfChild(p, name);
    }
  }

  lemma GrownLeaf(m: Nodes, p: Path, name: string, t: FsNode)
    requires Rooted([], m) && Child(p, name) !in m
    ensures Leads(m[Child(p, name) := t], Child(p, name), map[])
  {
    forall other
      ensures Child(Child(p, name), other) !in m[Child(p, name) := t]
    {
      ParentOfChild(Child(p, name), other);
    }
  }

  /** A tree without what is at and below a path. */
  lemma CutRooted(m: Nodes, path: Path)
    requires Rooted([], m) && path in m && path != []
    ensures Rooted([], Without(m, path))
  {
    forall p | p in Without(m, path) && p != []
      ensures Parent(p) in Without(m, path)
    {
      assert p in m;
      assert Parent(p) <= p;
    }
  }

  lemma CutFacts(m: Nodes, path: Path)
    requires Tree([], m) && path in m && path != []
    ensures Rooted([], Without(m, path)) && Tree(path, Under(m, path)) && m[path].name == Last(path)
    ensures forall q :: q in m && !(path <= q) ==>
      Leads(Without(m, path), q, if q == Parent(path) then m[q].children - {Last(path)} else m[q].children)
    ensures forall q :: q in m && q != path ==> m[q] != m[path]
    ensures forall q :: q in m && q != Parent(path) ==> m[q] != m[Parent(path)]
    ensures forall q :: q in m && !(path <= q) && q != [] ==> HangsFrom(Without(m, path), q, m[q].parent, m[q].name)
  {
    UnderTree([], m, path);
    CutRooted(m, path);
    assert Hangs(m, path);
    forall q | q in m && !(path <= q)
      ensures Leads(Without(m, path), q, if q == Parent(path) then m[q].children - {Last(path)} else m[q].children)
      ensures q != [] ==> HangsFrom(Without(m, path), q, m[q].parent, m[q].name)
    {
      assert Linked(m, q) && (q != [] ==> Hangs(m, q));
      CutLeads(m, path, q, m[q].children);
    }
  }

  lemma CutLeads(m: Nodes, path: Path, q: Path, children: map<string, FsNode>)
    requires path != [] && Leads(m, q, children) && !(path <= q)
    ensures Leads(Without(m, path), q, if q == Parent(path) then children - {Last(path)} else children)
  {
    forall name
      ensures path <= Child(q, name) <==> q == Parent(path) && name == Last(path)
    {
      ParentOfChild(q, name);
      ChildOfParent(path);
      assert path <= Child(q, name) && |path| <= |q| ==> path <= q;
    }
  }

  /** No path below a missing one is there. */
  lemma {:induction false} NotBelow(m: Nodes, path: Path, k: nat)
    requires Rooted([], m) && k <= |path| && path[..k] !in m
    ensures path !in m
    decreases |path|
  {
    if k == |path| {
      assert path[..k] == path;
    } else {
      assert Parent(path)[..k] == path[..k];
      NotBelow(m, Parent(path), k);
    }
  }

  lemma NoneBelow(m: Nodes, path: Path)
    requires Rooted([], m) && path !in m
    ensures forall p :: p in m ==> !(path <= p)
  {
    forall p | path <= p
      ensures p !in m
    {
      assert p[..|path|] == path;
      NotBelow(m, p, |path|);
    }
  }

  /** Everything on the way from the top to a node is there. */
  lemma {:induction false} OnTheWay(base: Path, m: Nodes, q: Path, k: nat)
    requires Rooted(base, m) && q in m && |base| <= k <= |q|
    ensures q[..k] in m
    decreases |q|
  {
    if k == |q| {
      assert q[..k] == q;
    } else {
      assert Parent(q)[..k] == q[..k];
      OnTheWay(base, m, Parent(q), k);
    }
  }

  lemma UnderRooted(base: Path, m: Nodes, top: Path)
    requires Rooted(base, m) && top in m
    ensures Rooted(top, Under(m, top))
  {
    forall p | p in Under(m, top) && p != top
      ensures p != [] && Parent(p) in Under(m, top)
    {
      assert base <= top < p;
      assert p in m && p != base;
      assert top <= Parent(p);
    }
  }

  lemma UnderApart(m: Nodes, top: Path)
    requires Rooted([], m)
    ensures Under(m, top).Values !! Without(m, top).Values
    ensures forall p :: p in m && !(top <= p) ==> m[p] !in Under(m, top).Values
  {
    forall p, q | p in Under(m, top) && q in Without(m, top)
      ensures m[p] != m[q]
    {}
  }

  lemma UnderTree(base: Path, m: Nodes, top: Path)
    requires Tree(base, m) && top in m
    ensures Tree(top, Under(m, top))
  {
    UnderRooted(base, m, top);
    var u := Under(m, top);
    forall p | p in u
      ensures Leads(u, p, u[p].children)
    {
      assert Linked(m, p);
      assert forall name :: top <= Child(p, name);
    }
    forall p | p in u && p != top
      ensures Hangs(u, p)
    {
      assert base <= top < p;
      assert Hangs(m, p);
    }
  }

  /** A detached tree below the top is made of the trees of the top's children. */
  lemma Below(base: Path, m: Nodes, q: Path)
    requires Rooted(base, m) && Linked(m, base) && q in m && q != base
    ensures |base| < |q| && Child(base, q[|base|]) <= q
    ensures Child(base, q[|base|]) in m && q[|base|] in m[base].children
  {
    OnTheWay(base, m, q, |base| + 1);
    assert q[..|base| + 1] == Child(base, q[|base|]);
  }

  /** Nothing is left of a node that was deleted. */
  ghost predicate Gone(n: FsNode)
    reads n
  {
    n.children == map[] && n.node == None && n.parent == null
  }

  lemma UnderSmaller(base: Path, m: Nodes, name: string)
    requires Rooted(base, m) && Child(base, name) in m
    ensures |Under(m, Child(base, name))| < |m|
  {
    var u := Under(m, Child(base, name));
    assert u.Keys <= m.Keys - {base};
    SubsetSize(u.Keys, m.Keys - {base});
    assert |m.Keys| == |m|;
  }

  /** The trees of the named children of the top are still whole. */
  ghost predicate Whole(base: Path, m: Nodes, names: set<string>)
    reads m.Values
  {
    forall name :: name in names ==> Child(base, name) in m && Tree(Child(base, name), Under(m, Child(base, name)))
  }

  lemma AllWhole(base: Path, m: Nodes)
    requires Tree(base, m)
    ensures Whole(base, m, m[base].children.Keys)
  {
    assert Linked(m, base);
    forall name | name in m[base].children
      ensures Child(base, name) in m && Tree(Child(base, name), Under(m, Child(base, name)))
    {
      UnderTree(base, m, Child(base, name));
    }
  }

  lemma Siblings(base: Path, m: Nodes, name: string, other: string)
    requires Rooted(base, m) && name != other
    ensures Under(m, Child(base, other)).Values !! Under(m, Child(base, name)).Values
  {
    var u, v := Under(m, Child(base, name)), Under(m, Child(base, other));
    forall p, q | p in u && q in v
      ensures u[p] != v[q]
    {
      assert p[|base|] == name && q[|base|] == other;
    }
  }

  ghost predicate AllGone(m: Nodes, top: Path)
    reads Under(m, top).Values
  {
    forall q :: q in Under(m, top) ==> Gone(m[q])
  }

  /** Empties every node of a detached tree. */
  method DeleteSelf(n: FsNode, ghost base: Path, ghost m: Nodes)
    requires Tree(base, m) && m[base] == n
    modifies m.Values
    ensures forall q :: q in m ==> Gone(m[q])
    decreases |m|, 2
  {
    AllWhole(base, m);
    DeleteChildren(n, base, m);
    forall q | q in m && q != base
      ensures Gone(m[q])
    {
      Below(base, m, q);
      assert q in Under(m, Child(base, q[|base|]));
    }
    n.children := map[];
    n.node := None;
    n.parent := null;
  }

  /** Deletes the children of a node one after the other. */
  method DeleteChildren(n: FsNode, ghost base: Path, ghost m: Nodes)
    requires Rooted(base, m) && base in m && m[base] == n && Linked(m, base) && Whole(base, m, n.children.Keys)
    modifies m.Values
    ensures n.children == old(n.children) && Linked(m, base)
    ensures forall name :: name in n.children ==> AllGone(m, Child(base, name))
    decreases |m|, 1
  {
    hide Tree;
    hide Rooted;
    hide Whole;
    hide Linked;
    hide AllGone;
    var names := n.children.Keys;
    ghost var done: set<string> := {};
    while names != {}
      invariant n.children == old(n.children) && names + done == n.children.Keys && names !! done
      invariant Linked(m, base) && Whole(base, m, names)
      invariant forall name :: name in done ==> AllGone(m, Child(base, name))
    {
      var name :| name in names;
      assert names - {name} + {name} == names;
      DeleteChild(n, name, base, m, names - {name}, done);
      names, done := names - {name}, done + {name};
    }
  }

  /** Deletes one child of a node, leaving the trees of the others as they were. */
  method DeleteChild(n: FsNode, name: string, ghost base: Path, ghost m: Nodes, ghost others: set<string>,
                     ghost done: set<string>)
    requires Rooted(base, m) && m[base] == n && Linked(m, base) && name in n.children
    requires name !in others && name !in done && Whole(base, m, others + {name})
    requires forall other :: other in done ==> AllGone(m, Child(base, other))
    modifies Under(m, Child(base, name)).Values
    ensures unchanged(n) && Linked(m, base) && Whole(base, m, others)
    ensures forall other :: other in done + {name} ==> AllGone(m, Child(base, other))
    decreases |m|, 0
  {
    hide Tree;
    hide Gone;
    ghost var u := Under(m, Child(base, name));
    UnderSmaller(base, m, name);
    forall other | other != name
      ensures Under(m, Child(base, other)).Values !! u.Values
    {
      Siblings(base, m, name, other);
    }
    DeleteSelf(n.children[name], Child(base, name), u);
  }
}
