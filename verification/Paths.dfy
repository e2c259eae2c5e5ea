/** Full paths as the sequence of their components; the root is the empty one. */
module Paths {
  type Path = seq<string>

  function Child(p: Path, name: string): Path {
    p + [name]
  }

  function Parent(p: Path): Path
    requires p != []
  {
    p[..|p|-1]
  }

  function Last(p: Path): string
    requires p != []
  {
    p[|p|-1]
  }

  lemma ChildOfParent(p: Path)
    requires p != []
    ensures Child(Parent(p), Last(p)) == p
  {}

  lemma ParentOfChild(p: Path, name: string)
    ensures Child(p, name) != [] && Parent(Child(p, name)) == p && Last(Child(p, name)) == name
  {}

  /** A path moved from under one top to under another. */
  ghost function Moved(q: Path, top: Path, dest: Path): Path
    requires top <= q
  {
    dest + q[|top|..]
  }

  lemma MovedBack(q: Path, top: Path, dest: Path)
    requires top <= q
    ensures dest <= Moved(q, top, dest) && Moved(Moved(q, top, dest), dest, top) == q
  {}

  lemma MovedChild(q: Path, top: Path, dest: Path, name: string)
    requires top <= q
    ensures top <= Child(q, name) && Moved(Child(q, name), top, dest) == Child(Moved(q, top, dest), name)
  {}

  lemma MovedParent(q: Path, top: Path, dest: Path)
    requires top <= q && q != top
    ensures q != [] && top <= Parent(q) && Moved(q, top, dest) != [] && Moved(q, top, dest) != dest
    ensures Parent(Moved(q, top, dest)) == Moved(Parent(q), top, dest) && Last(Moved(q, top, dest)) == Last(q)
  {}
}
