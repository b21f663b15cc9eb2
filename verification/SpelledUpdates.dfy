/**
 Updates of one session by callers that spell its id differently. The lock key carries the
 caller's spelling; the row, and the cached copy that is written, are the canonical id's.
 */
module SpelledUpdates {
  import opened Common
  import opened Costs
  import L = LockedUpdates

  /** Row, cached copy, clock and log are shared; lock and clients are kept for each spelling. */
  datatype State = State(db: L.Row, cache: Option<L.Row>, now: int, log: seq<L.Update>, sites: map<string, L.State>)

  datatype Step = Step(spelling: string, step: L.Step)

  /** What the callers of one spelling see: any other spelling than the canonical one misses the cache. */
  function View(s: State, canonical: string, x: string): L.State
    requires x in s.sites
  {
    s.sites[x].(db := s.db, log := s.log, now := s.now, cache := if x == canonical then s.cache else None)
  }

  predicate WritesCache(step: L.Step) { step.Recache? || step.WriteCache? || step.PeekCache? || step.Evict? }

  predicate Enabled(s: State, canonical: string, e: Step) {
    e.spelling in s.sites && L.Enabled(View(s, canonical, e.spelling), e.step)
  }

  function Do(s: State, canonical: string, e: Step): State
    requires Enabled(s, canonical, e)
  {
    var t := L.Do(View(s, canonical, e.spelling), e.step);
    State(t.db, if e.spelling == canonical || WritesCache(e.step) then t.cache else s.cache, t.now, t.log,
          s.sites[e.spelling := t])
  }

  /** The step is protected by the locks; the clock stays within every lease. */
  ghost predicate Protected(s: State, canonical: string, e: Step)
    requires e.spelling in s.sites
  {
    if e.step.Tick? then forall x :: x in s.sites ==> L.Protected(View(s, canonical, x), e.step)
    else L.Protected(View(s, canonical, e.spelling), e.step)
  }

  function Init(row: L.Row, ttl: int, spellings: set<string>): State {
    State(row, None, 0, [], map x | x in spellings :: L.Init(row, ttl))
  }

  ghost predicate ProtectedRun(s: State, canonical: string, steps: seq<Step>, t: State)
    decreases |steps|
  {
    if steps == [] then s == t
    else
      && Enabled(s, canonical, steps[0]) && Protected(s, canonical, steps[0])
      && ProtectedRun(Do(s, canonical, steps[0]), canonical, steps[1..], t)
  }

  function Writes(steps: seq<Step>): nat {
    if steps == [] then 0 else (if steps[0].step.WriteRow? then 1 else 0) + Writes(steps[1..])
  }

  predicate Increments(steps: seq<Step>) {
    forall i :: 0 <= i < |steps| && steps[i].step.Acquire? ==> L.PureIncrement(steps[i].step.upd)
  }

  /** Whatever incrementing callers with these spellings do, every write counts. */
  ghost predicate NoTurnLost(row: L.Row, ttl: int, canonical: string, spellings: set<string>) {
    forall steps, t :: ProtectedRun(Init(row, ttl, spellings), canonical, steps, t) && Increments(steps) ==>
      t.db.turns == row.turns + Writes(steps)
  }

  // --------------------------------------------------------------- one spelling

  ghost predicate OneSite(s: State, canonical: string, x: string, row: L.Row) {
    && s.sites.Keys == {x}
    && L.Coherent(View(s, canonical, x)) && L.AllIncrements(View(s, canonical, x))
    && s.sites[x].start == row
  }

  lemma Uncached(s: L.State)
    requires L.Coherent(s) && L.AllIncrements(s)
    ensures L.Coherent(s.(cache := None)) && L.AllIncrements(s.(cache := None))
  {}

  lemma IncrementsStep(s: L.State, step: L.Step)
    requires L.AllIncrements(s) && L.Enabled(s, step) && (step.Acquire? ==> L.PureIncrement(step.upd))
    ensures L.AllIncrements(L.Do(s, step)) && L.Do(s, step).start == s.start
    ensures |L.Do(s, step).log| == |s.log| + if step.WriteRow? then 1 else 0
  {
    hide Round, L.LockHeld;
  }

  lemma OneSiteStep(s: State, canonical: string, x: string, row: L.Row, e: Step)
    requires OneSite(s, canonical, x, row) && Enabled(s, canonical, e) && Protected(s, canonical, e)
    requires e.step.Acquire? ==> L.PureIncrement(e.step.upd)
    ensures OneSite(Do(s, canonical, e), canonical, x, row)
    ensures |Do(s, canonical, e).log| == |s.log| + if e.step.WriteRow? then 1 else 0
  {
    var v, t := View(s, canonical, x), Do(s, canonical, e);
    var next := L.Do(v, e.step);
    L.StepCoherentIff(v, e.step);
    IncrementsStep(v, e.step);
    hide L.Coherent, L.AllIncrements, L.Do, L.Enabled, L.Protected;
    Uncached(next);
    assert View(t, canonical, x) == if x == canonical then next else next.(cache := None);
  }

  lemma {:induction false} OneSiteRun(s: State, canonical: string, x: string, row: L.Row, steps: seq<Step>, t: State)
    requires OneSite(s, canonical, x, row) && ProtectedRun(s, canonical, steps, t) && Increments(steps)
    ensures OneSite(t, canonical, x, row) && |t.log| == |s.log| + Writes(steps)
    decreases |steps|
  {
    if steps != [] {
      OneSiteStep(s, canonical, x, row, steps[0]);
      hide OneSite, Do, Protected;
      OneSiteRun(Do(s, canonical, steps[0]), canonical, x, row, steps[1..], t);
    }
  }

  lemma SiteStart(row: L.Row, ttl: int)
    ensures L.Coherent(L.Init(row, ttl)) && L.AllIncrements(L.Init(row, ttl))
  {}

  lemma ReplayOf(v: L.State)
    requires L.Coherent(v) && L.AllIncrements(v)
    ensures v.db == L.Replay(v.start, v.log) && forall i :: 0 <= i < |v.log| ==> L.PureIncrement(v.log[i])
  {}

  lemma OneSpellingKeepsTurns(row: L.Row, ttl: int, canonical: string, x: string, steps: seq<Step>, t: State)
    requires ProtectedRun(Init(row, ttl, {x}), canonical, steps, t) && Increments(steps)
    ensures t.db.turns == row.turns + Writes(steps)
  {
    var s := Init(row, ttl, {x});
    assert View(s, canonical, x) == L.Init(row, ttl);
    SiteStart(row, ttl);
    assert OneSite(s, canonical, x, row);
    OneSiteRun(s, canonical, x, row, steps, t);
    var v := View(t, canonical, x);
    ReplayOf(v);
    hide L.Coherent, L.AllIncrements, L.Replay;
    L.ReplayIncrements(row, v.log);
  }

  // -------------------------------------------------------------- two spellings

  lemma {:induction false} OneMore(s: State, canonical: string, steps: seq<Step>, m: State, e: Step)
    requires ProtectedRun(s, canonical, steps, m) && Enabled(m, canonical, e) && Protected(m, canonical, e)
    ensures ProtectedRun(s, canonical, steps + [e], Do(m, canonical, e))
            && Writes(steps + [e]) == Writes(steps) + if e.step.WriteRow? then 1 else 0
    decreases |steps|
  {
    hide Do, Enabled, Protected;
    if steps == [] { assert [e][1..] == [] && steps + [e] == [e]; } else {
      OneMore(Do(s, canonical, steps[0]), canonical, steps[1..], m, e);
      assert (steps + [e])[1..] == steps[1..] + [e];
    }
  }

  /** The site of a spelling whose one caller, an increment, is in phase `p` under its first token. */
  function Site(row: L.Row, ttl: int, p: L.Phase): L.State {
    L.Init(row, ttl).(lock := Some(L.Lock(0, ttl)), nextToken := 1, clients := map[0 := L.Client(p, L.INC, 0, ttl)])
  }

  /** `s` looks to the callers spelling `x` like that site. */
  predicate At(s: State, canonical: string, x: string, row: L.Row, ttl: int, p: L.Phase) {
    && x in s.sites && s.now == 0
    && s.sites[x].(db := row, log := [], cache := None) == Site(row, ttl, p)
  }

  /** The caller's way from phase `p` to `q`, with what it needs of row and cache. */
  predicate Way(s: State, row: L.Row, step: L.Step, p: L.Phase, q: L.Phase) {
    match step
    case ReadMiss(0) => p == L.Locked && q == L.Missed && s.cache.None?
    case ReadRow(0) => p == L.Missed && q == L.Fetched(row) && s.db == row
    case Recache(0) => p == L.Fetched(row) && q == L.Loaded(row)
    case WriteRow(0) => p == L.Loaded(row) && q == L.Wrote(L.Apply(L.INC, row)) && Fits(row.cost)
    case _ => false
  }

  lemma SeenAt(s: State, canonical: string, x: string, row: L.Row, ttl: int, p: L.Phase)
    requires At(s, canonical, x, row, ttl, p)
    ensures var v := View(s, canonical, x);
            && v.clients == map[0 := L.Client(p, L.INC, 0, ttl)] && v.db == s.db && v.now == 0
            && v == Site(row, ttl, p).(db := s.db, log := s.log, cache := v.cache)
            && (v.cache.Some? ==> v.cache == s.cache)
  {}

  lemma SiteStep(v: L.State, row: L.Row, ttl: int, step: L.Step, p: L.Phase, q: L.Phase, s: State)
    requires v.clients == map[0 := L.Client(p, L.INC, 0, ttl)] && v.db == s.db && v.now == 0
    requires Way(s, row, step, p, q) && (v.cache.Some? ==> v.cache == s.cache)
    ensures L.Enabled(v, step) && L.Protected(v, step)
    ensures var t := L.Do(v, step);
            && t == v.(clients := map[0 := L.Client(q, L.INC, 0, ttl)], db := t.db, cache := t.cache, log := t.log)
            && (if step.WriteRow? then t.db.turns == row.turns + 1 else t.db == s.db)
            && (step.ReadMiss? || step.ReadRow? ==> t.cache == v.cache)
  {
    hide Round, L.LockHeld;
  }

  /** One step of the caller spelling `x`; whoever spells otherwise stays where it is. */
  lemma StepAt(s: State, canonical: string, x: string, row: L.Row, ttl: int, step: L.Step, p: L.Phase, q: L.Phase)
    requires At(s, canonical, x, row, ttl, p) && Way(s, row, step, p, q)
    ensures Enabled(s, canonical, Step(x, step)) && Protected(s, canonical, Step(x, step))
    ensures var t := Do(s, canonical, Step(x, step));
            && At(t, canonical, x, row, ttl, q) && t.now == s.now
            && (forall y :: y != x ==> (y in t.sites <==> y in s.sites) && (y in s.sites ==> t.sites[y] == s.sites[y]))
            && (if step.WriteRow? then t.db.turns == row.turns + 1 else t.db == s.db)
            && (step.ReadMiss? || step.ReadRow? ==> t.cache == s.cache)
  {
    SeenAt(s, canonical, x, row, ttl, p);
    SiteStep(View(s, canonical, x), row, ttl, step, p, q, s);
    hide L.Do, L.Enabled, L.Protected, Fits;
  }

  lemma Advance(s0: State, canonical: string, steps: seq<Step>, s: State, x: string, y: string, row: L.Row, ttl: int,
                step: L.Step, p: L.Phase, q: L.Phase, r: L.Phase)
      returns (longer: seq<Step>, t: State)
    requires ProtectedRun(s0, canonical, steps, s) && Increments(steps) && x != y
    requires At(s, canonical, x, row, ttl, p) && At(s, canonical, y, row, ttl, r) && Way(s, row, step, p, q)
    ensures ProtectedRun(s0, canonical, longer, t) && Increments(longer)
    ensures At(t, canonical, x, row, ttl, q) && At(t, canonical, y, row, ttl, r)
    ensures Writes(longer) == Writes(steps) + if step.WriteRow? then 1 else 0
    ensures if step.WriteRow? then t.db.turns == row.turns + 1 else t.db == s.db
    ensures step.ReadMiss? || step.ReadRow? ==> t.cache == s.cache
  {
    var e := Step(x, step);
    StepAt(s, canonical, x, row, ttl, step, p, q);
    hide Do, Enabled, Protected, Site, L.PureIncrement;
    OneMore(s0, canonical, steps, s, e);
    longer, t := steps + [e], Do(s, canonical, e);
    assert forall i :: 0 <= i < |steps| ==> longer[i] == steps[i];
  }

  /** The caller spelling `x` takes its lock. */
  lemma TakeAt(s: State, canonical: string, x: string, row: L.Row, ttl: int)
    requires x in s.sites && s.sites[x] == L.Init(row, ttl) && s.now == 0 && ttl > 0
    ensures var e := Step(x, L.Acquire(0, L.INC)); var t := Do(s, canonical, e);
            && Enabled(s, canonical, e) && Protected(s, canonical, e)
            && At(t, canonical, x, row, ttl, L.Locked) && t.now == 0 && t.db == s.db && t.cache == s.cache
            && (forall y :: y != x ==> (y in t.sites <==> y in s.sites) && (y in s.sites ==> t.sites[y] == s.sites[y]))
  {}

  lemma StillAt(s: State, t: State, canonical: string, x: string, y: string, row: L.Row, ttl: int)
    requires At(s, canonical, x, row, ttl, L.Locked) && t.now == 0 && x in t.sites && t.sites[x] == s.sites[x]
    ensures At(t, canonical, x, row, ttl, L.Locked)
  {}

  lemma BothLocked(row: L.Row, ttl: int, canonical: string, spellings: set<string>, x: string, y: string)
      returns (steps: seq<Step>, t: State)
    requires ttl > 0 && x in spellings && y in spellings && x != y
    ensures ProtectedRun(Init(row, ttl, spellings), canonical, steps, t) && Increments(steps) && Writes(steps) == 0
    ensures At(t, canonical, x, row, ttl, L.Locked) && At(t, canonical, y, row, ttl, L.Locked)
    ensures t.db == row && t.cache.None?
  {
    var s0 := Init(row, ttl, spellings);
    var a, b := Step(x, L.Acquire(0, L.INC)), Step(y, L.Acquire(0, L.INC));
    TakeAt(s0, canonical, x, row, ttl);
    var s1 := Do(s0, canonical, a);
    TakeAt(s1, canonical, y, row, ttl);
    t := Do(s1, canonical, b);
    hide Do, Enabled, Protected, Site;
    StillAt(s1, t, canonical, x, y, row, ttl);
    OneMore(s0, canonical, [], s0, a);
    OneMore(s0, canonical, [] + [a], s1, b);
    steps := [] + [a] + [b];
  }

  lemma BothLoaded(row: L.Row, ttl: int, canonical: string, spellings: set<string>, x: string, y: string)
      returns (steps: seq<Step>, t: State)
    requires ttl > 0 && x in spellings && y in spellings && x != y
    ensures ProtectedRun(Init(row, ttl, spellings), canonical, steps, t) && Increments(steps) && Writes(steps) == 0
    ensures At(t, canonical, x, row, ttl, L.Loaded(row)) && At(t, canonical, y, row, ttl, L.Loaded(row))
  {
    hide ProtectedRun, Writes, Init, Increments, At;
    var s0, here, got := Init(row, ttl, spellings), L.Fetched(row), L.Loaded(row);
    steps, t := BothLocked(row, ttl, canonical, spellings, x, y);
    steps, t := Advance(s0, canonical, steps, t, x, y, row, ttl, L.ReadMiss(0), L.Locked, L.Missed, L.Locked);
    steps, t := Advance(s0, canonical, steps, t, y, x, row, ttl, L.ReadMiss(0), L.Locked, L.Missed, L.Missed);
    steps, t := Advance(s0, canonical, steps, t, x, y, row, ttl, L.ReadRow(0), L.Missed, here, L.Missed);
    steps, t := Advance(s0, canonical, steps, t, y, x, row, ttl, L.ReadRow(0), L.Missed, here, here);
    steps, t := Advance(s0, canonical, steps, t, x, y, row, ttl, L.Recache(0), here, got, here);
    steps, t := Advance(s0, canonical, steps, t, y, x, row, ttl, L.Recache(0), here, got, got);
  }

  /** Both callers take their locks, read the row, and write it: two writes, one turn. */
  lemma TwoSpellingsLoseTurn(row: L.Row, ttl: int, canonical: string, spellings: set<string>, x: string, y: string)
      returns (steps: seq<Step>, t: State)
    requires ttl > 0 && Fits(row.cost) && x in spellings && y in spellings && x != y
    ensures ProtectedRun(Init(row, ttl, spellings), canonical, steps, t) && Increments(steps)
    ensures Writes(steps) == 2 && t.db.turns == row.turns + 1
  {
    hide ProtectedRun, Writes, Init, Increments, At, Fits;
    var s0, next, got := Init(row, ttl, spellings), L.Apply(L.INC, row), L.Loaded(row);
    steps, t := BothLoaded(row, ttl, canonical, spellings, x, y);
    steps, t := Advance(s0, canonical, steps, t, x, y, row, ttl, L.WriteRow(0), got, L.Wrote(next), got);
    steps, t := Advance(s0, canonical, steps, t, y, x, row, ttl, L.WriteRow(0), got, L.Wrote(next), L.Wrote(next));
  }

  /** No turn is ever lost exactly if all callers spell the id alike. */
  lemma SpellingsIff(row: L.Row, ttl: int, canonical: string, spellings: set<string>)
    requires ttl > 0 && Fits(row.cost)
    ensures NoTurnLost(row, ttl, canonical, spellings) <==> forall x, y :: x in spellings && y in spellings ==> x == y
  {
    if x, y :| x in spellings && y in spellings && x != y {
      var steps, t := TwoSpellingsLoseTurn(row, ttl, canonical, spellings, x, y);
    } else {
      forall steps, t | ProtectedRun(Init(row, ttl, spellings), canonical, steps, t) && Increments(steps)
        ensures t.db.turns == row.turns + Writes(steps)
      {
        if x :| x in spellings {
          assert spellings == {x};
          OneSpellingKeepsTurns(row, ttl, canonical, x, steps, t);
        }
      }
    }
  }
}
