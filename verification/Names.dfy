/** File names in the order in which stores list them. */
module Names {

  /** Byte-wise order of names. */
  predicate Less(a: string, b: string)
    decreases |a|
  {
    b != [] && (a == [] || a[0] < b[0] || (a[0] == b[0] && Less(a[1..], b[1..])))
  }

  lemma {:induction false} LessTotal(a: string, b: string)
    ensures a == b || Less(a, b) || Less(b, a)
    ensures !(Less(a, b) && Less(b, a)) && !Less(a, a)
    decreases |a|
  {
    if a != [] {
      LessTotal(a[1..], a[1..]);
      if b != [] && a[0] == b[0] {
        LessTotal(a[1..], b[1..]);
        assert a == [a[0]] + a[1..] && b == [b[0]] + b[1..];
      }
    }
  }

  lemma {:induction false} LessTransitive(a: string, b: string, c: string)
    requires Less(a, b) && Less(b, c)
    ensures Less(a, c)
    decreases |a|
  {
    if a != [] && a[0] == b[0] && b[0] == c[0] {
      LessTransitive(a[1..], b[1..], c[1..]);
    }
  }

  ghost predicate Increasing(r: seq<string>) {
    forall i, j :: 0 <= i < j < |r| ==> Less(r[i], r[j])
  }

  /** In order, nothing but members, and nothing passed over: the first names of a set, as many as the limit allows. */
  ghost predicate FirstOf(r: seq<string>, s: set<string>, limit: nat) {
    && Increasing(r)
    && |r| <= limit
    && (forall x :: x in r ==> x in s)
    && (forall x :: x in s ==> x in r || (|r| == limit && forall y :: y in r ==> Less(y, x)))
  }

  /** There is only one such list. */
  lemma {:induction false} FirstOfUnique(r: seq<string>, t: seq<string>, s: set<string>, limit: nat)
    requires FirstOf(r, s, limit) && FirstOf(t, s, limit)
    ensures r == t
  {
    FirstOfPrefix(r, t, s, limit);
    FirstOfPrefix(t, r, s, limit);
    AgreeUpTo(r, t, s, limit, |r|);
  }

  lemma FirstOfPrefix(r: seq<string>, t: seq<string>, s: set<string>, limit: nat)
    requires FirstOf(r, s, limit) && FirstOf(t, s, limit)
    ensures |r| <= |t|
  {
    assert t[..|t|] == t;
    if |t| < |r| {
      NotRepeated(r, |t|);
      AgreeUpTo(r, t, s, limit, |t|);
    }
  }

  lemma NotRepeated(r: seq<string>, n: nat)
    requires Increasing(r) && n < |r|
    ensures r[n] !in r[..n] && r[n] in r
  {
    LessTotal(r[n], r[n]);
  }

  lemma {:induction false} AgreeUpTo(r: seq<string>, t: seq<string>, s: set<string>, limit: nat, n: nat)
    requires FirstOf(r, s, limit) && FirstOf(t, s, limit) && n <= |r| && n <= |t|
    ensures r[..n] == t[..n]
  {
    if n > 0 {
      AgreeUpTo(r, t, s, limit, n - 1);
      NotBefore(r, t, s, limit, n - 1);
      NotBefore(t, r, s, limit, n - 1);
      LessTotal(r[n-1], t[n-1]);
      assert r[..n] == r[..n-1] + [r[n-1]] && t[..n] == t[..n-1] + [t[n-1]];
    }
  }

  lemma NotBefore(r: seq<string>, t: seq<string>, s: set<string>, limit: nat, n: nat)
    requires FirstOf(r, s, limit) && FirstOf(t, s, limit) && n < |r| && n < |t| && r[..n] == t[..n]
    ensures !Less(r[n], t[n])
  {
    LessTotal(r[n], r[n]);
    LessTotal(r[n], t[n]);
    forall i | n < i < |t|
      ensures r[n] == t[i] ==> Less(t[n], r[n])
    {}
    forall i | 0 <= i < n
      ensures t[i] != r[n]
    {
      assert r[..n][i] == t[..n][i] && Less(r[i], r[n]);
    }
    assert r[n] in s && t[n] in t;
  }

  method Least(s: set<string>) returns (m: string)
    requires s != {}
    ensures m in s && forall x :: x in s ==> x == m || Less(m, x)
  {
    m :| m in s;
    var rest := s - {m};
    while rest != {}
      invariant m in s && rest <= s
      invariant forall x :: x in s && x !in rest ==> x == m || Less(m, x)
    {
      var y :| y in rest;
      LessTotal(m, y);
      if Less(y, m) {
        forall x | x in s && x !in rest
          ensures x == y || Less(y, x)
        {
          if x != m {
            LessTransitive(y, m, x);
          }
        }
        m := y;
      }
      rest := rest - {y};
    }
  }

  /** The store's listing: the first names of a set. */
  method FirstNames(s: set<string>, limit: nat) returns (r: seq<string>)
    ensures FirstOf(r, s, limit)
  {
    r := [];
    var rest := s;
    while rest != {} && |r| < limit
      invariant |r| <= limit && Increasing(r) && rest <= s
      invariant forall x :: x in s <==> x in r || x in rest
      invariant forall x, y :: x in r && y in rest ==> Less(x, y)
    {
      var m := Least(rest);
      r := r + [m];
      rest := rest - {m};
      forall y | y in rest
        ensures y != m && Less(m, y)
      {}
    }
  }

  /** The names after a cursor. */
  function After(s: set<string>, start: string, inclusive: bool): set<string> {
    set x | x in s && (Less(start, x) || (inclusive && x == start))
  }
}
