/**
 Concurrent `update_session` calls on one stored session, step by step: any number of clients
 take the Redis lease lock, read through the cache, write the database row, write the cache and
 release, while cache entries may vanish and the clock runs. The steps the code does not protect
 (unlocked re-caching, a failing cache write, a crash, a lease that runs out) are steps too.
 */
module LockedUpdates {
  import opened Common
  import opened Costs

  // ---------------------------------------------------------------- the data

  datatype Status = Active | Completed | Error

  /** The columns `update_session` may change. */
  datatype Row = Row(status: Status, turns: int, cost: Option<real>)

  datatype Update = Update(status: Option<Status>, turns: Option<int>, cost: Option<real>, increment: bool)

  /** The changes made to the session object that was read. */
  function Apply(u: Update, r: Row): Row {
    var turns := if u.turns.Some? then u.turns.value else r.turns;
    Row(if u.status.Some? then u.status.value else r.status,
        if u.increment then turns + 1 else turns,
        if u.cost.Some? then u.cost else r.cost)
  }

  /** A row as the table keeps it: the cost in the precision of its column. */
  function Stored(r: Row): Row { r.(cost := Rounded(r.cost)) }

  /** The SQL update: columns whose argument is `None` keep their value. */
  function SqlUpdate(db: Row, arg: Row): Row {
    if arg.cost.Some? then Stored(arg) else arg.(cost := db.cost)
  }

  /** All updates of `log`, one after the other, on a single plain row. */
  function Replay(start: Row, log: seq<Update>): Row {
    if log == [] then start else
      var before := Replay(start, log[..|log| - 1]);
      SqlUpdate(before, Apply(log[|log| - 1], before))
  }

  // ----------------------------------------------------------- the protocol

  datatype Phase =
    | Locked            // lock taken, nothing read yet
    | Missed            // cache read, no entry
    | Fetched(row: Row) // row read from the database, not re-cached yet
    | Loaded(row: Row)  // session object at hand
    | Wrote(row: Row)   // database written, cache not yet
    | Finished          // operation over (normally or by an exception), lock not released yet

  datatype Client = Client(phase: Phase, upd: Update, token: nat, lease: int)

  datatype Lock = Lock(token: nat, expiry: int)

  datatype State = State(
    ttl: int, now: int, start: Row, db: Row, cache: Option<Row>,
    lock: Option<Lock>, nextToken: nat,
    clients: map<nat, Client>, peeks: map<nat, Row>, log: seq<Update>)

  datatype Step =
    | Acquire(c: nat, upd: Update)
    | ReadHit(c: nat) | ReadMiss(c: nat) | ReadRow(c: nat) | Recache(c: nat)
    | Raise(c: nat)
    | WriteRow(c: nat) | WriteCache(c: nat) | WriteCacheFails(c: nat)
    | Release(c: nat) | Crash(c: nat)
    | PeekRow(r: nat) | PeekCache(r: nat)
    | Evict | Tick(d: nat)

  function Init(row: Row, ttl: int): State {
    State(ttl, 0, row, row, None, None, 0, map[], map[], [])
  }

  predicate LockHeld(s: State) { s.lock.Some? && s.now < s.lock.value.expiry }

  predicate Enabled(s: State, step: Step) {
    match step
    case Acquire(c, _) => c !in s.clients && !LockHeld(s) && s.ttl > 0
    case ReadHit(c) => c in s.clients && s.clients[c].phase.Locked? && s.cache.Some?
    case ReadMiss(c) => c in s.clients && s.clients[c].phase.Locked? && s.cache.None?
    case ReadRow(c) => c in s.clients && s.clients[c].phase.Missed?
    case Recache(c) => c in s.clients && s.clients[c].phase.Fetched?
    case Raise(c) => c in s.clients && !s.clients[c].phase.Wrote? && !s.clients[c].phase.Finished?
    case WriteRow(c) =>
      && c in s.clients && s.clients[c].phase.Loaded?
      && Fits(Apply(s.clients[c].upd, s.clients[c].phase.row).cost)
    case WriteCache(c) => c in s.clients && s.clients[c].phase.Wrote?
    case WriteCacheFails(c) => c in s.clients && s.clients[c].phase.Wrote?
    case Release(c) => c in s.clients && s.clients[c].phase.Finished?
    case Crash(c) => c in s.clients
    case PeekRow(r) => true
    case PeekCache(r) => r in s.peeks
    case Evict => true
    case Tick(_) => true
  }

  function Move(s: State, c: nat, p: Phase): State
    requires c in s.clients
  {
    s.(clients := s.clients[c := s.clients[c].(phase := p)])
  }

  function Do(s: State, step: Step): State
    requires Enabled(s, step)
  {
    match step
    case Acquire(c, u) =>
      s.(lock := Some(Lock(s.nextToken, s.now + s.ttl)), nextToken := s.nextToken + 1,
         clients := s.clients[c := Client(Locked, u, s.nextToken, s.now + s.ttl)])
    case ReadHit(c) => Move(s, c, Loaded(s.cache.value))
    case ReadMiss(c) => Move(s, c, Missed)
    case ReadRow(c) => Move(s, c, Fetched(s.db))
    case Recache(c) => Move(s, c, Loaded(s.clients[c].phase.row)).(cache := Some(s.clients[c].phase.row))
    case Raise(c) => Move(s, c, Finished)
    case WriteRow(c) =>
      var next := Apply(s.clients[c].upd, s.clients[c].phase.row);
      Move(s, c, Wrote(next)).(db := SqlUpdate(s.db, next), log := s.log + [s.clients[c].upd])
    case WriteCache(c) => Move(s, c, Finished).(cache := Some(s.clients[c].phase.row))
    case WriteCacheFails(c) => Move(s, c, Finished)
    case Release(c) =>
      s.(clients := s.clients - {c},
         lock := if LockHeld(s) && s.lock.value.token == s.clients[c].token then None else s.lock)
    case Crash(c) => s.(clients := s.clients - {c})
    case PeekRow(r) => s.(peeks := s.peeks[r := s.db])
    case PeekCache(r) => s.(cache := Some(s.peeks[r]), peeks := s.peeks - {r})
    case Evict => s.(cache := None)
    case Tick(d) => s.(now := s.now + d)
  }

  // ----------------------------------------------------- lease-lock safety

  /** The lease the client was given has not run out. */
  predicate LeaseLive(s: State, c: nat) { c in s.clients && s.now < s.clients[c].lease }

  ghost predicate LockInv(s: State) {
    && (forall c :: c in s.clients ==> s.clients[c].token < s.nextToken)
    && (forall c, e :: c in s.clients && e in s.clients && c != e ==> s.clients[c].token != s.clients[e].token)
    && (forall c :: LeaseLive(s, c) ==> s.lock == Some(Lock(s.clients[c].token, s.clients[c].lease)))
    && (s.lock.Some? ==> s.lock.value.token < s.nextToken)
  }

  lemma AcquireLockInv(s: State, c: nat, u: Update)
    requires LockInv(s) && Enabled(s, Acquire(c, u))
    ensures LockInv(Do(s, Acquire(c, u)))
  {
    var t := Do(s, Acquire(c, u));
    forall e | LeaseLive(t, e) ensures t.lock == Some(Lock(t.clients[e].token, t.clients[e].lease)) {
      var before := LeaseLive(s, e);
    }
  }

  lemma LockInvStep(s: State, step: Step)
    requires LockInv(s) && Enabled(s, step)
    ensures LockInv(Do(s, step))
  {
    if step.Acquire? { AcquireLockInv(s, step.c, step.upd); }
    else {
      var t := Do(s, step);
      assert forall e :: e in t.clients ==>
          e in s.clients && t.clients[e].token == s.clients[e].token && t.clients[e].lease == s.clients[e].lease;
      assert forall e :: LeaseLive(t, e) ==> LeaseLive(s, e);
    }
  }

  ghost predicate Runs(s: State, steps: seq<Step>, t: State)
    decreases |steps|
  {
    if steps == [] then s == t
    else Enabled(s, steps[0]) && Runs(Do(s, steps[0]), steps[1..], t)
  }

  lemma {:induction false} LockInvRuns(s: State, steps: seq<Step>, t: State)
    requires LockInv(s) && Runs(s, steps, t)
    ensures LockInv(t)
    decreases |steps|
  {
    if steps != [] {
      LockInvStep(s, steps[0]);
      LockInvRuns(Do(s, steps[0]), steps[1..], t);
    }
  }

  /**
   In every run whatsoever, two clients with unexpired leases are never both inside, and the
   lock key then holds exactly the inside client's token and lease.
   */
  lemma MutualExclusion(row: Row, ttl: int, steps: seq<Step>, s: State, c: nat, e: nat)
    requires Runs(Init(row, ttl), steps, s) && LeaseLive(s, c)
    ensures LeaseLive(s, e) ==> c == e
    ensures LockHeld(s) && s.lock == Some(Lock(s.clients[c].token, s.clients[c].lease))
  {
    LockInvRuns(Init(row, ttl), steps, s);
  }

  /** A release never removes the lock another client holds, however late it comes. */
  lemma LateReleaseHarmless(row: Row, ttl: int, steps: seq<Step>, s: State, c: nat, e: nat)
    requires Runs(Init(row, ttl), steps, s) && Enabled(s, Release(c)) && c != e && LeaseLive(s, e)
    ensures Do(s, Release(c)).lock == s.lock && LeaseLive(Do(s, Release(c)), e)
  {
    LockInvRuns(Init(row, ttl), steps, s);
  }

  // ------------------------------------------------------- no lost updates

  ghost predicate NobodyWrote(s: State) {
    forall c :: c in s.clients ==> !s.clients[c].phase.Wrote?
  }

  /** The same row, as far as the table can tell. */
  predicate Same(a: Row, b: Row) { Stored(a) == Stored(b) }

  ghost predicate CacheFresh(s: State) { s.cache.None? || Same(s.cache.value, s.db) }

  /** What protected runs keep. */
  ghost predicate Coherent(s: State) {
    && LockInv(s)
    && (forall c :: c in s.clients && !s.clients[c].phase.Finished? ==> LeaseLive(s, c))
    && (forall c :: c in s.clients
          && (s.clients[c].phase.Fetched? || s.clients[c].phase.Loaded? || s.clients[c].phase.Wrote?)
          ==> Same(s.clients[c].phase.row, s.db))
    && (NobodyWrote(s) ==> CacheFresh(s))
    && s.db == Replay(s.start, s.log)
  }

  /** The step is one the lock protects, or does no harm in this state. */
  ghost predicate Protected(s: State, step: Step) {
    match step
    case Tick(d) => forall c :: c in s.clients && !s.clients[c].phase.Finished? ==> s.now + d < s.clients[c].lease
    case PeekCache(r) => r in s.peeks && (Same(s.peeks[r], s.db) || !NobodyWrote(s))
    case WriteCacheFails(c) => CacheFresh(s)
    case Crash(c) => c in s.clients && (s.clients[c].phase.Wrote? ==> CacheFresh(s))
    case _ => true
  }

  /** Only one client can be between taking the lock and finishing. */
  lemma OneActive(s: State, c: nat, e: nat)
    requires Coherent(s) && c in s.clients && e in s.clients && c != e
    requires !s.clients[c].phase.Finished?
    ensures s.clients[e].phase.Finished?
  {
    assert LeaseLive(s, c);
    var other := LeaseLive(s, e);
  }

  /** The table is updated alike from its own row and from a copy that is the same to it. */
  lemma SameUpdate(u: Update, row: Row, db: Row)
    requires Same(row, db)
    ensures SqlUpdate(db, Apply(u, row)) == SqlUpdate(db, Apply(u, db))
    ensures Same(Apply(u, row), SqlUpdate(db, Apply(u, row)))
  {
    hide Round;
    var next := Apply(u, row);
    if next.cost.Some? { RoundStable(next.cost.value); }
  }

  lemma WriteRowCoherent(s: State, c: nat)
    requires Coherent(s) && Enabled(s, WriteRow(c))
    ensures Coherent(Do(s, WriteRow(c)))
  {
    var t := Do(s, WriteRow(c));
    LockInvStep(s, WriteRow(c));
    SameUpdate(s.clients[c].upd, s.clients[c].phase.row, s.db);
    hide LockInv, Apply, SqlUpdate, Same, Fits;
    forall e | e in s.clients && e != c ensures s.clients[e].phase.Finished? { OneActive(s, c, e); }
    assert t.log[..|t.log| - 1] == s.log;
    assert t.clients[c].phase.Wrote?;
    forall e | e in t.clients && !t.clients[e].phase.Finished? ensures LeaseLive(t, e) { assert LeaseLive(s, e); }
  }

  lemma AfterWrote(s: State, step: Step, c: nat)
    requires Coherent(s) && Enabled(s, step) && c in s.clients && s.clients[c].phase.Wrote?
    requires step == WriteCache(c) || step == WriteCacheFails(c) || step == Crash(c)
    ensures NobodyWrote(Do(s, step))
  {
    forall e | e in s.clients && e != c ensures s.clients[e].phase.Finished? { OneActive(s, c, e); }
  }

  /** A step keeps coherence exactly when it is protected. */
  lemma StepCoherentIff(s: State, step: Step)
    requires Coherent(s) && Enabled(s, step)
    ensures Coherent(Do(s, step)) <==> Protected(s, step)
  {
    LockInvStep(s, step);
    if step.WriteRow? { WriteRowCoherent(s, step.c); }
    else { OtherStepCoherentIff(s, step); }
  }

  lemma OtherStepCoherentIff(s: State, step: Step)
    requires Coherent(s) && Enabled(s, step) && !step.WriteRow? && LockInv(Do(s, step))
    ensures Coherent(Do(s, step)) <==> Protected(s, step)
  {
    var t := Do(s, step);
    if (step.WriteCache? || step.WriteCacheFails? || step.Crash?) && s.clients[step.c].phase.Wrote? {
      AfterWrote(s, step, step.c);
    }
    StaysLive(s, step);
    StaysFresh(s, step);
  }

  lemma StaysLive(s: State, step: Step)
    requires Coherent(s) && Enabled(s, step) && !step.WriteRow?
    ensures (forall c :: c in Do(s, step).clients && !Do(s, step).clients[c].phase.Finished? ==>
            LeaseLive(Do(s, step), c))
        <==> (step.Tick? ==> Protected(s, step))
  {
    var t := Do(s, step);
    if !step.Tick? {
      forall c | c in t.clients && !t.clients[c].phase.Finished? ensures LeaseLive(t, c) {
        if step.Acquire? && step.c == c {} else { assert LeaseLive(s, c); }
      }
    } else {
      assert t.clients == s.clients;
      if forall c :: c in t.clients && !t.clients[c].phase.Finished? ==> LeaseLive(t, c) {
        forall c | c in s.clients && !s.clients[c].phase.Finished? ensures s.now + step.d < s.clients[c].lease {
          assert LeaseLive(t, c);
        }
      }
    }
  }

  lemma StaysFresh(s: State, step: Step)
    requires Coherent(s) && Enabled(s, step) && !step.WriteRow?
    ensures (NobodyWrote(Do(s, step)) ==> CacheFresh(Do(s, step))) <==> (!step.Tick? ==> Protected(s, step))
  {
    if NobodyWrote(s) {
      assert NobodyWrote(Do(s, step));
    } else {
      var w :| w in s.clients && s.clients[w].phase.Wrote?;
      if step in {WriteCache(w), WriteCacheFails(w), Crash(w)} { AfterWrote(s, step, w); }
      else { StillWriting(s, step, w); }
    }
  }

  lemma StillWriting(s: State, step: Step, w: nat)
    requires Coherent(s) && Enabled(s, step) && !step.WriteRow?
    requires w in s.clients && s.clients[w].phase.Wrote?
    requires step !in {WriteCache(w), WriteCacheFails(w), Crash(w)}
    ensures !NobodyWrote(Do(s, step)) && (!step.Tick? ==> Protected(s, step))
  {
    var t := Do(s, step);
    if step.WriteCache? || step.WriteCacheFails? || step.Crash? { OneActive(s, w, step.c); }
    assert w in t.clients && t.clients[w].phase.Wrote?;
  }

  /** A run all of whose steps are protected. */
  ghost predicate ProtectedRun(s: State, steps: seq<Step>, t: State)
    decreases |steps|
  {
    if steps == [] then s == t
    else Enabled(s, steps[0]) && Protected(s, steps[0]) && ProtectedRun(Do(s, steps[0]), steps[1..], t)
  }

  function Writes(steps: seq<Step>): nat {
    if steps == [] then 0 else (if steps[0].WriteRow? then 1 else 0) + Writes(steps[1..])
  }

  lemma {:induction false} ProtectedRunCoherent(s: State, steps: seq<Step>, t: State)
    requires Coherent(s) && ProtectedRun(s, steps, t)
    ensures Coherent(t) && t.start == s.start && |t.log| == |s.log| + Writes(steps)
    decreases |steps|
  {
    if steps != [] {
      StepCoherentIff(s, steps[0]);
      ProtectedRunCoherent(Do(s, steps[0]), steps[1..], t);
    }
  }

  /**
   No update is lost: after any protected run of any number of clients the row is what the
   completed writes give when applied one after the other to the first row, one log entry a
   write, and whenever nobody is between the two writes the cache holds nothing or that row, its
   cost perhaps still finer than the column.
   */
  lemma NoLostUpdates(row: Row, ttl: int, steps: seq<Step>, t: State)
    requires ProtectedRun(Init(row, ttl), steps, t)
    ensures t.db == Replay(row, t.log) && |t.log| == Writes(steps)
    ensures NobodyWrote(t) ==> CacheFresh(t)
  {
    ProtectedRunCoherent(Init(row, ttl), steps, t);
  }

  predicate HasRow(p: Phase) { p.Fetched? || p.Loaded? || p.Wrote? }

  /** Every copy of the row, wherever it is held, has a cost that the column holds as it is. */
  ghost predicate Exact(s: State) {
    && Stored(s.db) == s.db
    && (s.cache.Some? ==> Stored(s.cache.value) == s.cache.value)
    && (forall c :: c in s.clients && HasRow(s.clients[c].phase) ==>
          Stored(s.clients[c].phase.row) == s.clients[c].phase.row)
    && (forall r :: r in s.peeks ==> Stored(s.peeks[r]) == s.peeks[r])
  }

  /** Copies stay exact at every step but one: the write of an update whose cost is finer than the column. */
  lemma ExactStepIff(s: State, step: Step)
    requires Exact(s) && Enabled(s, step)
    ensures Exact(Do(s, step)) <==>
            (step.WriteRow? ==> Rounded(s.clients[step.c].upd.cost) == s.clients[step.c].upd.cost)
  {
    hide Round, LockHeld;
    var t := Do(s, step);
    if step.WriteRow? {
      var next := t.clients[step.c].phase.row;
      if next.cost.Some? { RoundStable(next.cost.value); }
      assert Exact(t) ==> Stored(next) == next;
    }
  }

  ghost predicate CoarseUpdates(s: State) {
    forall c :: c in s.clients ==> Rounded(s.clients[c].upd.cost) == s.clients[c].upd.cost
  }

  lemma {:induction false} ExactRun(s: State, steps: seq<Step>, t: State)
    requires Exact(s) && CoarseUpdates(s) && ProtectedRun(s, steps, t)
    requires forall i :: 0 <= i < |steps| && steps[i].Acquire? ==> Rounded(steps[i].upd.cost) == steps[i].upd.cost
    ensures Exact(t)
    decreases |steps|
  {
    if steps != [] {
      ExactStepIff(s, steps[0]);
      CoarseStep(s, steps[0]);
      ExactRun(Do(s, steps[0]), steps[1..], t);
    }
  }

  lemma CoarseStep(s: State, step: Step)
    requires CoarseUpdates(s) && Enabled(s, step)
    requires step.Acquire? ==> Rounded(step.upd.cost) == step.upd.cost
    ensures CoarseUpdates(Do(s, step))
  {
    hide Round;
  }

  /** If all costs are ones the column holds, a cached copy outside a critical section is the row itself. */
  lemma ExactCopies(row: Row, ttl: int, steps: seq<Step>, t: State)
    requires ProtectedRun(Init(row, ttl), steps, t) && Stored(row) == row
    requires forall i :: 0 <= i < |steps| && steps[i].Acquire? ==> Rounded(steps[i].upd.cost) == steps[i].upd.cost
    ensures NobodyWrote(t) ==> t.cache.None? || t.cache.value == t.db
  {
    NoLostUpdates(row, ttl, steps, t);
    ExactRun(Init(row, ttl), steps, t);
  }

  predicate PureIncrement(u: Update) { u.increment && u.turns.None? }

  ghost predicate AllIncrements(s: State) {
    && (forall c :: c in s.clients ==> PureIncrement(s.clients[c].upd))
    && (forall i :: 0 <= i < |s.log| ==> PureIncrement(s.log[i]))
  }

  lemma {:induction false} ReplayIncrements(start: Row, log: seq<Update>)
    requires forall i :: 0 <= i < |log| ==> PureIncrement(log[i])
    ensures Replay(start, log).turns == start.turns + |log|
  {
    if log != [] { ReplayIncrements(start, log[..|log| - 1]); }
  }

  lemma {:induction false} IncrementsOnly(s: State, steps: seq<Step>, t: State)
    requires AllIncrements(s) && ProtectedRun(s, steps, t)
    requires forall i :: 0 <= i < |steps| && steps[i].Acquire? ==> PureIncrement(steps[i].upd)
    ensures AllIncrements(t)
    decreases |steps|
  {
    if steps != [] { IncrementsOnly(Do(s, steps[0]), steps[1..], t); }
  }

  /** With incrementing clients only, the turn count is the start plus the completed writes. */
  lemma NoLostTurns(row: Row, ttl: int, steps: seq<Step>, t: State)
    requires ProtectedRun(Init(row, ttl), steps, t)
    requires forall i :: 0 <= i < |steps| && steps[i].Acquire? ==> PureIncrement(steps[i].upd)
    ensures t.db.turns == row.turns + Writes(steps)
  {
    NoLostUpdates(row, ttl, steps, t);
    IncrementsOnly(Init(row, ttl), steps, t);
    ReplayIncrements(row, t.log);
  }

  // -------------------------------------------- what the lock does not cover

  const INC := Update(None, None, None, true)

  lemma {:induction false} RunOneMore(s: State, a: seq<Step>, m: State, step: Step)
    requires Runs(s, a, m) && Enabled(m, step)
    ensures Runs(s, a + [step], Do(m, step))
    decreases |a|
  {
    if a == [] { assert [step][1..] == [] && a + [step] == [step]; }
    else {
      RunOneMore(Do(s, a[0]), a[1..], m, step);
      assert (a + [step])[1..] == a[1..] + [step];
    }
  }

  lemma Extend(s: State, a: seq<Step>, m: State, step: Step) returns (b: seq<Step>, t: State)
    requires Runs(s, a, m) && Enabled(m, step)
    ensures Runs(s, b, t) && t == Do(m, step)
  {
    RunOneMore(s, a, m, step);
    b, t := a + [step], Do(m, step);
  }

  /** A client takes the free lock and finds the cache entry `row`. */
  lemma LockAndLoad(s: State, a: seq<Step>, m: State, c: nat, row: Row) returns (b: seq<Step>, t: State)
    requires Runs(s, a, m) && c !in m.clients && !LockHeld(m) && m.ttl > 0 && m.cache == Some(row)
    ensures Runs(s, b, t)
    ensures t == m.(lock := Some(Lock(m.nextToken, m.now + m.ttl)), nextToken := m.nextToken + 1,
                    clients := m.clients[c := Client(Loaded(row), INC, m.nextToken, m.now + m.ttl)])
  {
    b, t := Extend(s, a, m, Acquire(c, INC));
    b, t := Extend(s, b, t, ReadHit(c));
  }

  /** It increments, writes both stores and releases its own lock. */
  lemma WriteAndRelease(s: State, a: seq<Step>, m: State, c: nat, row: Row) returns (b: seq<Step>, t: State)
    requires Runs(s, a, m) && c in m.clients && m.clients[c].phase == Loaded(row) && m.clients[c].upd == INC
    requires LockHeld(m) && m.lock.value.token == m.clients[c].token && Fits(row.cost)
    ensures Runs(s, b, t)
    ensures t == m.(lock := None, clients := m.clients - {c}, log := m.log + [INC],
                    db := SqlUpdate(m.db, Apply(INC, row)), cache := Some(Apply(INC, row)))
  {
    b, t := Extend(s, a, m, WriteRow(c));
    b, t := Extend(s, b, t, WriteCache(c));
    b, t := Extend(s, b, t, Release(c));
    assert t.clients == m.clients - {c};
  }

  lemma Warm(s: State) returns (steps: seq<Step>, t: State)
    requires s.peeks == map[]
    ensures Runs(s, steps, t) && t == s.(cache := Some(s.db))
  {
    steps, t := Extend(s, [], s, PeekRow(0));
    steps, t := Extend(s, steps, t, PeekCache(0));
    assert t.peeks == map[];
  }

  /** One complete locked increment of client `c`, starting from a cache entry `row`. */
  lemma FullIncrement(s: State, a: seq<Step>, m: State, c: nat, row: Row) returns (b: seq<Step>, t: State)
    requires Runs(s, a, m) && c !in m.clients && !LockHeld(m) && m.ttl > 0 && m.cache == Some(row) && Fits(row.cost)
    ensures Runs(s, b, t)
    ensures t == m.(lock := None, nextToken := m.nextToken + 1, log := m.log + [INC],
                    db := SqlUpdate(m.db, Apply(INC, row)), cache := Some(Apply(INC, row)))
  {
    b, t := LockAndLoad(s, a, m, c, row);
    b, t := WriteAndRelease(s, b, t, c, row);
    assert t.clients == m.clients;
  }

  /**
   An unlocked `get_session` that read the row before an update and re-caches it afterwards makes
   the next update lose a turn: two complete locked increments, one turn more.
   */
  lemma UnlockedRecacheLosesTurn() returns (steps: seq<Step>, t: State)
    ensures Runs(Init(Row(Active, 0, None), 30), steps, t)
    ensures |t.log| == 2 && t.db.turns == 1 && t.clients == map[]
  {
    var row := Row(Active, 0, None);
    var s := Init(row, 30);
    steps, t := Warm(s);
    steps, t := Extend(s, steps, t, PeekRow(1));
    steps, t := FullIncrement(s, steps, t, 0, row);
    steps, t := Extend(s, steps, t, PeekCache(1));
    steps, t := FullIncrement(s, steps, t, 1, row);
  }

  /** A critical section that outlives its lease loses a turn in the same way. */
  lemma LateWriterLosesTurn() returns (steps: seq<Step>, t: State)
    ensures Runs(Init(Row(Active, 0, None), 30), steps, t)
    ensures |t.log| == 2 && t.db.turns == 1
  {
    var row := Row(Active, 0, None);
    var s := Init(row, 30);
    steps, t := Warm(s);
    steps, t := LockAndLoad(s, steps, t, 0, row);
    steps, t := Extend(s, steps, t, Tick(30));
    steps, t := FullIncrement(s, steps, t, 1, row);
    assert t.clients[0].phase == Loaded(row);
    steps, t := Extend(s, steps, t, WriteRow(0));
  }
}
