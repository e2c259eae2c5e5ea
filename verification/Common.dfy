/** Types and small functions shared by the models. */
module Common {

  datatype Option<+T> = None | Some(value: T) {
    function UnwrapOr(default: T): T {
      match this case Some(v) => v case None => default
    }
  }

  type byte = b: int | 0 <= b < 256

  const MAX_INT64: int := 0x7fff_ffff_ffff_ffff

  function Min(a: int, b: int): int {
    if a <= b then a else b
  }

  function Max(a: int, b: int): int {
    if a >= b then a else b
  }

  /** The sequence without the element at index k: append(s[0:k], s[k+1:]...). */
  function RemoveAt<T>(s: seq<T>, k: nat): seq<T>
    requires k < |s|
  {
    s[..k] + s[k+1..]
  }

  lemma {:induction false} SubsetSize<T>(a: set<T>, b: set<T>)
    requires a <= b
    ensures |a| <= |b|
  {
    if a != {} {
      var x :| x in a;
      SubsetSize(a - {x}, b - {x});
    }
  }

  /** Everything that was in the map is still there. */
  ghost predicate Grew<K, V>(was: map<K, V>, now: map<K, V>) {
    forall k :: k in was ==> k in now && now[k] == was[k]
  }

  /** copy(buf[base:], bytes) */
  method CopyInto(buf: array<byte>, base: nat, bytes: seq<byte>)
    requires base + |bytes| <= buf.Length
    modifies buf
    ensures buf[..base] == old(buf[..base]) && buf[base + |bytes|..] == old(buf[base + |bytes|..])
    ensures buf[base..base + |bytes|] == bytes
  {
    forall i | 0 <= i < |bytes| {
      buf[base + i] := bytes[i];
    }
  }
}
