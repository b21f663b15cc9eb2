/**
 Taking and giving back one session's lease lock: the retry loop with its jittered backoff and
 timeout, and the release that runs however the protected operation ends.
 */
module LockManager {
  import opened Common
  import opened Redis

  const INITIAL_DELAY := 0.01
  const MAX_DELAY := 0.5

  function Min(a: real, b: real): real { if a <= b then a else b }

  /** The delay before jitter of the `k`-th wait. */
  function Delay(k: nat): (d: real)
    ensures INITIAL_DELAY <= d <= MAX_DELAY
  {
    if k == 0 then INITIAL_DELAY else Min(Delay(k - 1) * 2.0, MAX_DELAY)
  }

  function TotalDelay(n: nat): real {
    if n == 0 then 0.0 else TotalDelay(n - 1) + Delay(n - 1)
  }

  lemma FirstDelay()
    ensures Delay(0) == INITIAL_DELAY && TotalDelay(0) == 0.0
  {}

  lemma NextDelay(n: nat)
    ensures Delay(n + 1) == Min(Delay(n) * 2.0, MAX_DELAY)
    ensures TotalDelay(n + 1) == TotalDelay(n) + Delay(n)
  {}

  /** From the sixth wait on every delay is the maximum. */
  lemma {:induction false} TotalDelayLinear(n: nat)
    requires n >= 6
    ensures Delay(n) == 0.5 && TotalDelay(n) == 0.63 + 0.5 * (n - 6) as real
  {
    if n > 6 { TotalDelayLinear(n - 1); }
    else { FirstDelays(); }
  }

  lemma FirstDelays()
    ensures Delay(6) == 0.5 && TotalDelay(6) == 0.63
  {
    assert Delay(1) == 0.02 && TotalDelay(1) == 0.01;
    assert Delay(2) == 0.04 && TotalDelay(2) == 0.03;
    assert Delay(3) == 0.08 && TotalDelay(3) == 0.07;
    assert Delay(4) == 0.16 && TotalDelay(4) == 0.15;
    assert Delay(5) == 0.32 && TotalDelay(5) == 0.31;
    assert TotalDelay(6) == 0.63;
  }

  /** `n` attempts are possible only if the first `n - 2` waits, jittered down, end before the timeout. */
  predicate AttemptsFit(n: nat, timeout: real) {
    n >= 2 ==> 0.9 * TotalDelay(n - 2) < timeout
  }

  lemma {:induction false} TotalDelayMonotone(a: nat, b: nat)
    requires a <= b
    ensures TotalDelay(a) <= TotalDelay(b)
    decreases b
  {
    if a < b { TotalDelayMonotone(a, b - 1); }
  }

  /** With the default timeout of five seconds there are at most 17 attempts. */
  lemma DefaultAttempts(n: nat)
    requires AttemptsFit(n, 5.0)
    ensures n <= 17
  {
    TotalDelayLinear(16);
    if n >= 18 { TotalDelayMonotone(16, n - 2); }
  }

  /** For any timeout the attempts are bounded: past the first eight, one for each 0.45 s. */
  lemma AttemptsBounded(n: nat, timeout: real)
    requires AttemptsFit(n, timeout) && n >= 8
    ensures 0.45 * (n - 8) as real < timeout - 0.567
  {
    TotalDelayLinear(n - 2);
  }

  datatype Ending = TimedOut | Returned | Raised

  /** What the environment does: everything that happens to the shared store and the clock meanwhile. */
  datatype World = World(
    others: (nat, Store) -> Store,   // the store other clients leave before the k-th attempt
    token: nat -> string,            // the fresh lock value of the k-th attempt
    lag: nat -> real,                // how long the k-th cache call takes
    jitter: nat -> real,             // random.uniform(-0.1, 0.1) of the k-th wait
    operation: Store -> Store,       // the protected operation, and what others do meanwhile
    raises: Store -> bool,           // whether it ends by an exception
    releaseFails: bool)              // the release raises; the lock then runs out with its lease
  {
    ghost predicate Sound() {
      && (forall k :: lag(k) >= 0.0)
      && (forall k :: -0.1 <= jitter(k) <= 0.1)
    }
  }

  /** The store in which the `k`-th attempt is made, when all before it failed. */
  function Before(w: World, s: Store, k: nat): Store {
    w.others(k, if k == 0 then s else Before(w, s, k - 1))
  }

  predicate Free(s: Store, lock: string) { Live(s, lock).None? }

  /** What the operation starts from: the store of the winning attempt with the lock taken. */
  function Locked(w: World, s: Store, lock: string, k: nat, ttl: pos): Store {
    TakeLock(Before(w, s, k), lock, w.token(k), ttl)
  }

  lemma RefusedUnchanged(s: Store, lock: string, token: string, ttl: pos)
    ensures !Free(s, lock) ==> TakeLock(s, lock, token, ttl) == s
  {}

  /** A wait of the loop: the jitter moves it by a tenth at most, and it adds to the total. */
  lemma WaitBounds(n: nat, j: real, elapsed: real, wait: real)
    requires -0.1 <= j <= 0.1 && elapsed >= 0.9 * TotalDelay(n) && wait == Delay(n) * (1.0 + j)
    ensures 0.009 <= wait <= 0.55
    ensures elapsed + wait >= 0.9 * TotalDelay(n + 1)
  {
    hide Delay, TotalDelay;
    NextDelay(n);
    JitterBounds(Delay(n), j, wait);
  }

  lemma JitterBounds(d: real, j: real, wait: real)
    requires INITIAL_DELAY <= d <= MAX_DELAY && -0.1 <= j <= 0.1 && wait == d * (1.0 + j)
    ensures 0.009 <= wait <= 0.55 && 0.9 * d <= wait
  {
    assert wait == d + d * j;
    assert d * (j + 0.1) >= 0.0;
    assert d * (0.1 - j) >= 0.0;
    assert d * j <= 0.1 * d;
    assert 0.0 - 0.1 * d <= d * j;
  }

  class SessionLockManager {
    const cache: RedisCache

    constructor (cache: RedisCache)
      ensures this.cache == cache
    {
      this.cache := cache;
    }

    /**
     Attempts are made until the lock is free or the timeout is over, at most as many as fit into
     it; no wait ends more than 0.55 s after the timeout. The operation runs exactly when an
     attempt finds the lock free, under that attempt's token, and the lock is given back by
     compare-and-delete whether it returns or raises; a release that fails is not reported.
     */
    method WithSessionLock(id: string, w: World, timeout: real, ttl: pos)
      returns (end: Ending, attempts: nat, elapsed: real, ghost lastWake: real)
      requires w.Sound()
      modifies cache
      ensures attempts >= 1 && AttemptsFit(attempts, timeout)
      ensures forall k :: 0 <= k < attempts - 1 ==> !Free(Before(w, old(cache.store), k), "lock:session_lock:" + id)
      ensures end.TimedOut? <==> !Free(Before(w, old(cache.store), attempts - 1), "lock:session_lock:" + id)
      ensures end.TimedOut? ==> cache.store == Before(w, old(cache.store), attempts - 1) && elapsed >= timeout
      ensures !end.TimedOut? ==>
                var s := Locked(w, old(cache.store), "lock:session_lock:" + id, attempts - 1, ttl);
                && cache.store == (if w.releaseFails then w.operation(s)
                                   else FreeLock(w.operation(s), "lock:session_lock:" + id, w.token(attempts - 1)))
                && (end.Raised? <==> w.raises(s))
      ensures lastWake == 0.0 || lastWake < timeout + 0.55
      ensures elapsed == lastWake + w.lag(attempts - 1)
    {
      hide Free, TakeLock, FreeLock, Delay, TotalDelay;
      var key := "session_lock:" + id;
      ghost var lock := "lock:session_lock:" + id;
      assert "lock:" + key == lock;
      ghost var s0 := cache.store;
      var value: Option<string>;
      value, attempts, elapsed, lastWake := Acquire(key, lock, w, timeout, ttl);
      if value.None? { return TimedOut, attempts, elapsed, lastWake; }
      var raised := w.raises(cache.store);
      cache.store := w.operation(cache.store);
      if !w.releaseFails { var _ := cache.ReleaseLock(key, value.value); }
      end := if raised then Raised else Returned;
    }

    /** The retry loop: the attempts before the last all found the lock held. */
    method Acquire(key: string, ghost lock: string, w: World, timeout: real, ttl: pos)
      returns (value: Option<string>, attempts: nat, elapsed: real, ghost lastWake: real)
      requires w.Sound() && lock == "lock:" + key
      modifies cache
      ensures attempts >= 1 && AttemptsFit(attempts, timeout)
      ensures forall k :: 0 <= k < attempts - 1 ==> !Free(Before(w, old(cache.store), k), lock)
      ensures value.None? <==> !Free(Before(w, old(cache.store), attempts - 1), lock)
      ensures value.None? ==> cache.store == Before(w, old(cache.store), attempts - 1) && elapsed >= timeout
      ensures value.Some? ==> value.value == w.token(attempts - 1)
      ensures value.Some? ==> cache.store == Locked(w, old(cache.store), lock, attempts - 1, ttl)
      ensures lastWake == 0.0 || lastWake < timeout + 0.55
      ensures elapsed == lastWake + w.lag(attempts - 1)
    {
      hide Live, TakeLock, Delay, TotalDelay;
      ghost var s0 := cache.store;
      var delay := INITIAL_DELAY;
      attempts, elapsed, lastWake := 0, 0.0, 0.0;
      FirstDelay();
      while true
        invariant delay == Delay(attempts) && lastWake == elapsed
        invariant elapsed >= 0.9 * TotalDelay(attempts)
        invariant attempts == 0 ==> elapsed == 0.0 && cache.store == s0
        invariant attempts > 0 ==> cache.store == Before(w, s0, attempts - 1) && elapsed < timeout + 0.55
        invariant attempts > 0 ==> 0.9 * TotalDelay(attempts - 1) < timeout
        invariant forall k :: 0 <= k < attempts ==> !Free(Before(w, s0, k), lock)
        decreases (timeout - elapsed) / 0.009
      {
        cache.store := w.others(attempts, cache.store);
        RefusedUnchanged(cache.store, lock, w.token(attempts), ttl);
        elapsed := elapsed + w.lag(attempts);
        value := cache.AcquireLock(key, ttl, w.token(attempts));
        attempts := attempts + 1;
        if value.Some? { break; }
        if elapsed >= timeout { return; }
        var wait := delay * (1.0 + w.jitter(attempts - 1));
        WaitBounds(attempts - 1, w.jitter(attempts - 1), elapsed, wait);
        NextDelay(attempts - 1);
        elapsed := elapsed + wait;
        lastWake := elapsed;
        delay := Min(delay * 2.0, MAX_DELAY);
      }
    }
  }
}
