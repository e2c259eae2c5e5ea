/** The exclusive admin locks of a master: a lease that its holder renews or releases with its token. */
module AdminLock {
  import opened Common

  /** Ten seconds, in nanoseconds. */
  const LOCK_DURATION: nat := 10_000_000_000

  datatype Lock = Lock(accessSecret: int, accessLockTime: int)

  type Locks = map<string, Lock>

  predicate IsLocked(locks: Locks, name: string, now: int) {
    name in locks && locks[name].accessLockTime + LOCK_DURATION > now
  }

  predicate IsValidToken(locks: Locks, name: string, time: int, token: int) {
    name in locks && locks[name].accessLockTime == time && locks[name].accessSecret == token
  }

  /** A request as the handlers see it, with the times and the random number they will draw. */
  datatype Action =
    | Lease(name: string, previousLockTime: int, previousToken: int, checkedAt: int, lockedAt: int, random: int)
    | Release(name: string, previousLockTime: int, previousToken: int, at: int)
  {
    function Start(): int {
      if Lease? then checkedAt else at
    }

    function End(): int {
      if Lease? then lockedAt else at
    }
  }

  /** The lease is granted to a renewal with the current time and token, or when the lock is not held. */
  predicate Granted(locks: Locks, a: Action) {
    && a.Lease?
    && (IsLocked(locks, a.name, a.checkedAt) ==>
          a.previousToken != 0 && IsValidToken(locks, a.name, a.previousLockTime, a.previousToken))
  }

  function Do(locks: Locks, a: Action): Locks {
    match a
    case Lease(name, _, _, _, lockedAt, random) =>
      if Granted(locks, a) then locks[name := Lock(random, lockedAt)] else locks
    case Release(name, time, token, _) =>
      if IsValidToken(locks, name, time, token) then locks - {name} else locks
  }

  class AdminLocks {
    var locks: Locks

    constructor ()
      ensures locks == map[]
    {
      locks := map[];
    }

    method GenerateToken(name: string, now: int, random: int) returns (time: int, token: int)
      modifies this
      ensures locks == old(locks)[name := Lock(random, now)] && time == now && token == random
    {
      locks := locks[name := Lock(random, now)];
      return now, random;
    }

    method LeaseAdminToken(a: Action) returns (ok: bool, token: int, lockTime: int)
      requires a.Lease?
      modifies this
      ensures locks == Do(old(locks), a) && (ok <==> Granted(old(locks), a))
      ensures ok ==> IsValidToken(locks, a.name, lockTime, token) && lockTime == a.lockedAt
    {
      token, lockTime := 0, 0;
      if IsLocked(locks, a.name, a.checkedAt) {
        if a.previousToken != 0 && IsValidToken(locks, a.name, a.previousLockTime, a.previousToken) {
          lockTime, token := GenerateToken(a.name, a.lockedAt, a.random);
          return true, token, lockTime;
        }
        return false, token, lockTime;
      }
      lockTime, token := GenerateToken(a.name, a.lockedAt, a.random);
      ok := true;
    }

    method ReleaseAdminToken(a: Action)
      requires a.Release?
      modifies this
      ensures locks == Do(old(locks), a)
    {
      if IsValidToken(locks, a.name, a.previousLockTime, a.previousToken) {
        locks := locks - {a.name};
      }
    }
  }

  // ----- runs -----

  function After(actions: seq<Action>, n: nat): Locks
    requires n <= |actions|
  {
    if n == 0 then map[] else Do(After(actions, n - 1), actions[n-1])
  }

  /** The clock never goes back, within a request and from one request to the next. */
  ghost predicate Clocked(actions: seq<Action>) {
    && (forall i :: 0 <= i < |actions| ==> actions[i].Start() <= actions[i].End())
    && (forall i, j :: 0 <= i < j < |actions| ==> actions[i].End() <= actions[j].Start())
  }

  /** Request i is granted the lock `name`. */
  predicate GrantAt(actions: seq<Action>, i: int, name: string) {
    0 <= i < |actions| && actions[i].Lease? && actions[i].name == name && Granted(After(actions, i), actions[i])
  }

  /** Request k releases the lock that request i was granted. */
  predicate ReleasesGrant(actions: seq<Action>, i: int, k: int)
    requires 0 <= i < k < |actions| && actions[i].Lease?
  {
    && actions[k].Release? && actions[k].name == actions[i].name
    && actions[k].previousLockTime == actions[i].lockedAt && actions[k].previousToken == actions[i].random
  }

  /** Until it is released or granted again, the lock stays the one request i was granted. */
  lemma {:induction false} StaysLocked(actions: seq<Action>, i: nat, n: nat, name: string)
    requires GrantAt(actions, i, name) && i < n <= |actions|
    requires forall k :: i < k < n ==> !GrantAt(actions, k, name) && !ReleasesGrant(actions, i, k)
    ensures name in After(actions, n) && After(actions, n)[name] == Lock(actions[i].random, actions[i].lockedAt)
  {
    if i + 1 < n {
      StaysLocked(actions, i, n - 1, name);
      assert !GrantAt(actions, n - 1, name) && !ReleasesGrant(actions, i, n - 1);
    }
  }

  /**
   Two grants of one lock with none in between: the second renews the first with its time and token, or
   the first was released with them, or at least the lock duration lies between.
   */
  lemma ConsecutiveGrants(actions: seq<Action>, i: nat, j: nat, name: string)
    requires i < j && GrantAt(actions, i, name) && GrantAt(actions, j, name)
    requires forall k :: i < k < j ==> !GrantAt(actions, k, name)
    ensures
      || (actions[j].previousLockTime == actions[i].lockedAt && actions[j].previousToken == actions[i].random != 0)
      || (exists k :: i < k < j && ReleasesGrant(actions, i, k))
      || actions[j].checkedAt - actions[i].lockedAt >= LOCK_DURATION
  {
    if forall k :: i < k < j ==> !ReleasesGrant(actions, i, k) {
      StaysLocked(actions, i, j, name);
    }
  }

  /** With a clock that never goes back, two holders that neither renew nor release are a duration apart. */
  lemma HoldersApart(actions: seq<Action>, i: nat, j: nat, name: string)
    requires Clocked(actions) && i < j && GrantAt(actions, i, name) && GrantAt(actions, j, name)
    requires forall k :: i < k < j ==> !GrantAt(actions, k, name) && !ReleasesGrant(actions, i, k)
    requires actions[j].previousLockTime != actions[i].lockedAt || actions[j].previousToken != actions[i].random
    ensures actions[j].lockedAt - actions[i].lockedAt >= LOCK_DURATION
  {
    ConsecutiveGrants(actions, i, j, name);
    assert actions[j].Start() <= actions[j].End();
  }
}
