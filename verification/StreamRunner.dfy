/**
 One streaming query: SDK messages are turned into events, forwarded one by one with a look at the
 interrupt marker after each, and closed by a result and a done event; the session is registered
 as active for the time of the run. The consumer may abandon the stream at any event.
 */
module StreamRunner {
  import opened Common
  import opened Redis

  // -------------------------------------------------------- messages, events

  datatype Block = Block(toolUse: bool, name: string, id: string)

  datatype Msg =
    | System
    | User
    | Assistant(blocks: seq<Block>)
    | ResultMsg(isError: bool, turns: Option<int>, cost: Option<real>, badOutput: bool)
    | Fragment(known: bool)   // content block start, delta or stop
    | Foreign

  /** The fields of the stream context that the closing events report. */
  datatype Ctx = Ctx(turns: int, isError: bool, cost: Option<real>)

  datatype Reason = Completed | Interrupted | Failed

  datatype Event =
    | Init
    | Message
    | Partial
    | Question(toolId: string)
    | Error
    | Result(ctx: Ctx)
    | Done(reason: Reason)

  /** How the executor's stream ends; memory extraction may add one error event to a normal end. */
  datatype Ending = Ends(memoryError: bool) | Raises | Cancelled

  /** How a cache call of the run ends; a cancellation from outside can arrive while it is awaited. */
  datatype CallEnd = Answers | Fails | Cancels

  /**
   The environment of one run: the SDK's messages, the store other processes leave before each
   look at the interrupt marker, and how the cache calls end.
   */
  datatype World = World(
    msgs: seq<Msg>, ending: Ending, partials: bool,
    register: CallEnd, unregisterFails: bool, poll: nat -> CallEnd, others: (nat, Store) -> Store)

  // --------------------------------------------------------- the SDK mapping

  function AssistantEvent(blocks: seq<Block>): Event {
    if blocks == [] then Message
    else if blocks[0].toolUse && blocks[0].name == "AskUserQuestion" then Question(blocks[0].id)
    else AssistantEvent(blocks[1..])
  }

  function Handle(x: Ctx, m: Msg, partials: bool): (Ctx, Option<Event>) {
    var y := x.(turns := x.turns + 1);
    match m
    case User => (y, Some(Message))
    case Assistant(blocks) => (y, Some(AssistantEvent(blocks)))
    case ResultMsg(isError, turns, cost, bad) =>
      (Ctx(if turns.Some? then turns.value else y.turns, isError || bad, cost), None)
    case Fragment(known) => (y, if partials && known then Some(Partial) else None)
    case System => (y, None)
    case Foreign => (y, None)
  }

  function CtxAfter(w: World, n: nat): Ctx
    requires n <= |w.msgs|
  {
    if n == 0 then Ctx(0, false, None) else Handle(CtxAfter(w, n - 1), w.msgs[n - 1], w.partials).0
  }

  datatype Out = Out(event: Event, ctx: Ctx)

  /** The events of the first `n` messages, each with the context at that moment. */
  function Outs(w: World, n: nat): seq<Out>
    requires n <= |w.msgs|
  {
    if n == 0 then [] else
      var (ctx, e) := Handle(CtxAfter(w, n - 1), w.msgs[n - 1], w.partials);
      Outs(w, n - 1) + if e.Some? then [Out(e.value, ctx)] else []
  }

  function AllOuts(w: World): seq<Out> {
    var n := |w.msgs|;
    Outs(w, n) + if w.ending == Ends(true) then [Out(Error, CtxAfter(w, n))] else []
  }

  /** One more message. */
  lemma OutsStep(w: World, n: nat)
    requires n < |w.msgs|
    ensures var (ctx, e) := Handle(CtxAfter(w, n), w.msgs[n], w.partials);
            && CtxAfter(w, n + 1) == ctx
            && Outs(w, n + 1) == if e.Some? then Outs(w, n) + [Out(e.value, ctx)] else Outs(w, n)
  {
    assert Outs(w, n) + [] == Outs(w, n);
  }

  lemma AllOutsAre(w: World)
    ensures var n := |w.msgs|;
            AllOuts(w) == if w.ending == Ends(true) then Outs(w, n) + [Out(Error, CtxAfter(w, n))] else Outs(w, n)
  {
    assert Outs(w, |w.msgs|) + [] == Outs(w, |w.msgs|);
  }

  function Events(outs: seq<Out>): (es: seq<Event>)
    ensures |es| == |outs| && forall i :: 0 <= i < |outs| ==> es[i] == outs[i].event
  {
    if outs == [] then [] else [outs[0].event] + Events(outs[1..])
  }

  // ------------------------------------------------------ the marker polls

  function ActiveKey(id: string): string { "active_session:" + id }
  function MarkerKey(id: string): string { "interrupted:" + id }

  /** The store that an accepted interrupt leaves. */
  function WithMarker(s: Store, id: string, ttl: pos): Store { Put(s, MarkerKey(id), Doc(Str("true")), Some(ttl)) }

  /** The store after `k` polls, when the run started from `s`. */
  function StoreAfter(w: World, s: Store, k: nat): Store {
    if k == 0 then s else w.others(k - 1, StoreAfter(w, s, k - 1))
  }

  /** The look after the event `j` is answered and finds no marker. */
  predicate ClearAt(w: World, s: Store, id: string, j: nat) {
    w.poll(j).Answers? && Live(StoreAfter(w, s, j + 1), MarkerKey(id)).None?
  }

  /** The look after the event `j` is answered and finds the marker. */
  predicate MarkedAt(w: World, s: Store, id: string, j: nat) {
    w.poll(j).Answers? && Live(StoreAfter(w, s, j + 1), MarkerKey(id)).Some?
  }

  ghost predicate AllClear(w: World, s: Store, id: string, n: nat) {
    forall j :: 0 <= j < n ==> ClearAt(w, s, id, j)
  }

  datatype Poll = Clear | Marked | Fault | Cut

  /** What the `k`-th look at the marker finds. */
  function PollAt(w: World, s: Store, id: string, k: nat): Poll {
    match w.poll(k)
    case Fails => Fault
    case Cancels => Cut
    case Answers => if Live(StoreAfter(w, s, k + 1), MarkerKey(id)).Some? then Marked else Clear
  }

  lemma PollIs(w: World, s: Store, id: string, k: nat)
    ensures PollAt(w, s, id, k).Clear? <==> ClearAt(w, s, id, k)
    ensures PollAt(w, s, id, k).Marked? <==> MarkedAt(w, s, id, k)
    ensures PollAt(w, s, id, k).Fault? <==> w.poll(k).Fails?
    ensures PollAt(w, s, id, k).Cut? <==> w.poll(k).Cancels?
  {}

  /** The first of the polls `k`, ..., `n - 1` that is not clear, or `n`. */
  function FirstStop(w: World, s: Store, id: string, k: nat, n: nat): (r: nat)
    requires k <= n
    ensures k <= r <= n && (r < n ==> !ClearAt(w, s, id, r))
    ensures forall j :: k <= j < r ==> ClearAt(w, s, id, j)
    decreases n - k
  {
    if k == n || !ClearAt(w, s, id, k) then k else FirstStop(w, s, id, k + 1, n)
  }

  // ------------------------------------------------------- the whole trace

  /** The store at the first poll's side: with the session registered, unless that failed. */
  function Registered(w: World, s: Store, id: string, ttl: pos): Store {
    if !w.register.Answers? then s else Put(s, ActiveKey(id), Doc(Str("true")), Some(ttl))
  }

  const FAILURE: seq<Event> := [Error, Done(Failed)]

  function Ended(ctx: Ctx): seq<Event> {
    [Result(ctx), Done(if ctx.isError then Failed else Completed)]
  }

  /** What follows a poll that is not clear. */
  function Stopped(p: Poll, ctx: Ctx): seq<Event> {
    match p
    case Marked => [Result(ctx), Done(Interrupted)]
    case Cut => []
    case _ => FAILURE
  }

  /** What follows the forwarded events; `s` is the store after registration. */
  function Closing(w: World, s: Store, id: string): seq<Event> {
    var outs := AllOuts(w);
    var k := FirstStop(w, s, id, 0, |outs|);
    if w.register.Fails? then FAILURE
    else if w.register.Cancels? then []
    else if k < |outs| then Stopped(PollAt(w, s, id, k), outs[k].ctx)
    else match w.ending
      case Ends(_) => Ended(CtxAfter(w, |w.msgs|))
      case Raises => FAILURE
      case Cancelled => []
  }

  function Forwarded(w: World, s: Store, id: string): seq<Event> {
    var outs := AllOuts(w);
    var k := FirstStop(w, s, id, 0, |outs|);
    if !w.register.Answers? then [] else if k < |outs| then Events(outs[..k + 1]) else Events(outs)
  }

  function Trace(w: World, s: Store, id: string): seq<Event> {
    Forwarded(w, s, id) + Closing(w, s, id)
  }

  /** A consumer that gives up after `patience` events sees that many. */
  function Limit(t: seq<Event>, patience: Option<pos>): seq<Event> {
    if patience.Some? && patience.value <= |t| then t[..patience.value] else t
  }

  // ---------------------------------------------------------- session tracker

  class AgentSessionTracker {
    const cache: RedisCache
    const sessionTtl: pos
    const interruptTtl: pos

    constructor (cache: RedisCache, sessionTtl: pos, interruptTtl: pos)
      ensures this.cache == cache && this.sessionTtl == sessionTtl && this.interruptTtl == interruptTtl
    {
      this.cache, this.sessionTtl, this.interruptTtl := cache, sessionTtl, interruptTtl;
    }

    method Register(id: string)
      modifies cache
      ensures cache.store == Put(old(cache.store), ActiveKey(id), Doc(Str("true")), Some(sessionTtl))
    {
      cache.SetJson(ActiveKey(id), Str("true"), Some(sessionTtl));
    }

    method IsActive(id: string) returns (r: bool)
      ensures r <==> Live(cache.store, ActiveKey(id)).Some?
    {
      r := cache.Exists(ActiveKey(id));
    }

    method Unregister(id: string)
      modifies cache
      ensures cache.store == Drop(old(cache.store), ActiveKey(id))
    {
      var _ := cache.Delete(ActiveKey(id));
    }

    method IsInterrupted(id: string) returns (r: bool)
      ensures r <==> Live(cache.store, MarkerKey(id)).Some?
    {
      r := cache.Exists(MarkerKey(id));
    }

    method MarkInterrupted(id: string)
      modifies cache
      ensures cache.store == WithMarker(old(cache.store), id, interruptTtl)
    {
      cache.SetJson(MarkerKey(id), Str("true"), Some(interruptTtl));
    }
  }

  class SessionControl {
    const tracker: AgentSessionTracker

    constructor (tracker: AgentSessionTracker)
      ensures this.tracker == tracker
    {
      this.tracker := tracker;
    }

    /** Only an active session can be interrupted; nothing else in the store changes. */
    method Interrupt(id: string) returns (sent: bool)
      modifies tracker.cache
      ensures sent <==> Live(old(tracker.cache.store), ActiveKey(id)).Some?
      ensures !sent ==> tracker.cache.store == old(tracker.cache.store)
      ensures sent ==> tracker.cache.store == WithMarker(old(tracker.cache.store), id, tracker.interruptTtl)
    {
      sent := tracker.IsActive(id);
      if sent { tracker.MarkInterrupted(id); }
    }
  }

  // ----------------------------------------------------------- query executor

  datatype Pulled = Yielded(event: Event) | NoMore | Raised | Cancellation

  class StreamContext {
    var turns: int
    var isError: bool
    var cost: Option<real>

    constructor ()
      ensures Value() == Ctx(0, false, None)
    {
      turns, isError, cost := 0, false, None;
    }

    function Value(): Ctx reads this { Ctx(turns, isError, cost) }
  }

  /** The executor's generator, resumed once for each event. */
  class QueryExecutor {
    const w: World
    const ctx: StreamContext
    var pos: nat   // messages received, one more after the memory extraction

    constructor (w: World, ctx: StreamContext)
      requires ctx.Value() == Ctx(0, false, None)
      ensures this.w == w && this.ctx == ctx && pos == 0
    {
      this.w, this.ctx, pos := w, ctx, 0;
    }

    ghost predicate Valid()
      reads this, ctx
    {
      && pos <= |w.msgs| + 1
      && (pos == |w.msgs| + 1 ==> w.ending.Ends?)
      && ctx.Value() == CtxAfter(w, if pos <= |w.msgs| then pos else |w.msgs|)
    }

    ghost function Given(): seq<Out>
      requires Valid()
      reads this, ctx
    {
      if pos <= |w.msgs| then Outs(w, pos) else AllOuts(w)
    }

    method CheckSpecialToolUses(blocks: seq<Block>) returns (e: Event)
      ensures e == AssistantEvent(blocks)
    {
      for i := 0 to |blocks|
        invariant AssistantEvent(blocks) == AssistantEvent(blocks[i..])
      {
        if blocks[i].toolUse && blocks[i].name == "AskUserQuestion" {
          return Question(blocks[i].id);
        }
        assert blocks[i..][1..] == blocks[i + 1..];
      }
      assert blocks[|blocks|..] == [];
      e := Message;
    }

    method MapSdkMessage(m: Msg) returns (e: Option<Event>)
      modifies ctx
      ensures (ctx.Value(), e) == Handle(old(ctx.Value()).(turns := old(ctx.turns) - 1), m, w.partials)
    {
      e := None;
      match m
      case User => e := Some(Message);
      case Assistant(blocks) =>
        var a := CheckSpecialToolUses(blocks);
        e := Some(a);
      case ResultMsg(isError, turns, cost, bad) =>
        ctx.isError := isError;
        if turns.Some? { ctx.turns := turns.value; }
        ctx.cost := cost;
        if bad { ctx.isError := true; }
      case Fragment(known) =>
        if w.partials && known { e := Some(Partial); }
      case System =>
      case Foreign =>
    }

    /** The next event of the stream, with the context as it is then; or how the stream is over. */
    method Next() returns (r: Pulled)
      requires Valid()
      modifies this`pos, ctx
      ensures r.Yielded? ==> Valid() && Given() == old(Given()) + [Out(r.event, ctx.Value())]
      ensures r.NoMore? ==>
              Valid() && w.ending.Ends? && old(Given()) == AllOuts(w) && ctx.Value() == CtxAfter(w, |w.msgs|)
      ensures r.Raised? ==> w.ending.Raises? && old(Given()) == AllOuts(w)
      ensures r.Cancellation? ==> w.ending.Cancelled? && old(Given()) == AllOuts(w)
    {
      hide Handle, CtxAfter, Outs, AllOuts;
      ghost var given := Given();
      AllOutsAre(w);
      while pos < |w.msgs|
        invariant Valid() && Given() == given
        decreases |w.msgs| - pos
      {
        var m := w.msgs[pos];
        OutsStep(w, pos);
        ctx.turns := ctx.turns + 1;
        var e := MapSdkMessage(m);
        pos := pos + 1;
        if e.Some? { return Yielded(e.value); }
      }
      if pos == |w.msgs| {
        match w.ending
        case Raises => ctx.isError := true; return Raised;
        case Cancelled => return Cancellation;
        case Ends(memoryError) =>
          pos := pos + 1;
          if memoryError { return Yielded(Error); }
      }
      return NoMore;
    }
  }

  // ------------------------------------------------------------ stream runner

  lemma {:induction false} EventsSnoc(outs: seq<Out>, o: Out)
    ensures Events(outs + [o]) == Events(outs) + [o.event]
  {
    hide Events;
    assert |Events(outs + [o])| == |Events(outs) + [o.event]|;
    assert forall i :: 0 <= i < |outs| ==> Events(outs + [o])[i] == (outs + [o])[i].event == outs[i].event;
  }

  lemma {:induction false} EventsPrefix(a: seq<Out>, b: seq<Out>)
    requires a <= b
    ensures Events(a) <= Events(b)
  {
    hide Events;
    assert forall i :: 0 <= i < |a| ==> Events(a)[i] == a[i].event == b[i].event == Events(b)[i];
  }

  lemma {:induction false} GivenPrefix(w: World, n: nat)
    requires n <= |w.msgs|
    ensures Outs(w, n) <= AllOuts(w)
    decreases |w.msgs| - n
  {
    if n < |w.msgs| { GivenPrefix(w, n + 1); }
  }

  /** Before the poll after its last event, what has been forwarded begins the trace. */
  lemma PartialShape(w: World, s: Store, id: string, given: seq<Out>)
    requires w.register.Answers? && given <= AllOuts(w) && given != [] && AllClear(w, s, id, |given| - 1)
    ensures Events(given) <= Trace(w, s, id)
  {
    hide AllOuts, Closing, PollAt, ClearAt, Events;
    var outs := AllOuts(w);
    var k := FirstStop(w, s, id, 0, |outs|);
    EventsPrefix(given, if k < |outs| then outs[..k + 1] else outs);
    assert Events(given) <= Forwarded(w, s, id);
  }

  lemma StoppedShape(w: World, s: Store, id: string, given: seq<Out>)
    requires w.register.Answers? && given <= AllOuts(w) && given != [] && AllClear(w, s, id, |given| - 1)
    requires !ClearAt(w, s, id, |given| - 1)
    ensures Forwarded(w, s, id) == Events(given)
    ensures Closing(w, s, id) == Stopped(PollAt(w, s, id, |given| - 1), given[|given| - 1].ctx)
  {
    hide AllOuts, PollAt, ClearAt, Events;
    var outs := AllOuts(w);
    assert outs[..|given|] == given;
  }

  lemma DrainedShape(w: World, s: Store, id: string)
    requires w.register.Answers? && AllClear(w, s, id, |AllOuts(w)|)
    ensures Forwarded(w, s, id) == Events(AllOuts(w))
    ensures Closing(w, s, id) == match w.ending
                                 case Ends(_) => Ended(CtxAfter(w, |w.msgs|))
                                 case Raises => FAILURE
                                 case Cancelled => []
  {
    hide AllOuts, PollAt, ClearAt, Events;
  }

  predicate Within(n: nat, patience: Option<pos>) { patience.Some? ==> n < patience.value }

  /** How the forwarding loop is left. */
  datatype Exit = Threw | Abandoned | SawMarker | Drained

  class StreamQueryRunner {
    const tracker: AgentSessionTracker

    constructor (tracker: AgentSessionTracker)
      ensures this.tracker == tracker
    {
      this.tracker := tracker;
    }

    /** The look at the marker after an event: others have changed the store meanwhile. */
    method LookAtMarker(w: World, ghost s: Store, id: string, k: nat) returns (p: Poll)
      requires tracker.cache.store == StoreAfter(w, s, k)
      modifies tracker.cache
      ensures tracker.cache.store == StoreAfter(w, s, k + 1)
      ensures p == PollAt(w, s, id, k) && (p.Clear? <==> ClearAt(w, s, id, k))
    {
      tracker.cache.store := w.others(k, tracker.cache.store);
      match w.poll(k)
      case Fails => return Fault;
      case Cancels => return Cut;
      case Answers =>
        var marked := tracker.IsInterrupted(id);
        p := if marked then Marked else Clear;
    }

    /** The loop over the executor's events, with a look at the marker after each. */
    method Forward(w: World, id: string, patience: Option<pos>, ctx: StreamContext)
      returns (emitted: seq<Event>, exit: Exit, polls: nat)
      requires w.register.Answers? && ctx.Value() == Ctx(0, false, None)
      modifies tracker.cache, ctx
      ensures var s := old(tracker.cache.store);
              && tracker.cache.store == StoreAfter(w, s, polls)
              && (exit.Abandoned? ==> emitted == Limit(Trace(w, s, id), patience))
              && (!exit.Abandoned? ==> emitted == Forwarded(w, s, id) && Within(|emitted|, patience))
              && (exit.Threw? ==> Closing(w, s, id) == FAILURE)
              && (exit.SawMarker? ==> Closing(w, s, id) == [Result(ctx.Value()), Done(Interrupted)])
              && (exit.Drained? ==> Closing(w, s, id) == Ended(ctx.Value()))
    {
      hide AllOuts, CtxAfter, Outs, Events, Trace, Closing, Forwarded, Handle, Ended, PollAt, ClearAt, StoreAfter,
        Live;
      emitted, polls := [], 0;
      ghost var s := tracker.cache.store;
      var executor := new QueryExecutor(w, ctx);
      NothingGiven(executor);
      StartOfRun(w, s);
      while true
        invariant executor.Valid() && executor.w == w && executor.ctx == ctx && fresh(executor)
        invariant emitted == Events(executor.Given()) && polls == |emitted|
        invariant tracker.cache.store == StoreAfter(w, s, polls)
        invariant AllClear(w, s, id, polls) && Within(|emitted|, patience)
        decreases |AllOuts(w)| - |emitted|
      {
        var r := executor.Next();
        match r
        case NoMore => DrainedShape(w, s, id); return emitted, Drained, polls;
        case Raised => DrainedShape(w, s, id); return emitted, Threw, polls;
        case Cancellation =>
          DrainedShape(w, s, id);
          NothingCloses(w, s, id);
          return emitted, Abandoned, polls;
        case Yielded(e) =>
          ghost var given := executor.Given();
          GivenBounds(executor);
          EventsSnoc(given[..polls], given[polls]);
          PartialShape(w, s, id, given);
          emitted := emitted + [e];
          if patience.Some? && |emitted| == patience.value { return emitted, Abandoned, polls; }
          var p := LookAtMarker(w, s, id, polls);
          polls := polls + 1;
          if !p.Clear? {
            StoppedShape(w, s, id, given);
            if p.Cut? { NothingCloses(w, s, id); }
            return emitted, (match p case Marked => SawMarker case Cut => Abandoned case _ => Threw), polls;
          }
      }
    }

    /** The two closing events, unless the consumer gives up in between. */
    method Close(forwarded: seq<Event>, a: Event, b: Event, patience: Option<pos>) returns (emitted: seq<Event>)
      requires Within(|forwarded|, patience)
      ensures emitted == Limit(forwarded + [a, b], patience)
    {
      emitted := forwarded + [a];
      if Within(|emitted|, patience) { emitted := emitted + [b]; }
    }

    /**
     The whole run: the consumer sees the trace, as far as it listens, and the session is not
     active afterwards, however the run is left; `raised` is the error of an unregistration that fails.
     */
    method Run(w: World, id: string, patience: Option<pos>) returns (emitted: seq<Event>, polls: nat, raised: bool)
      modifies tracker.cache
      ensures var s := Registered(w, old(tracker.cache.store), id, tracker.sessionTtl);
              && emitted == Limit(Trace(w, s, id), patience)
              && tracker.cache.store == (if w.unregisterFails then StoreAfter(w, s, polls)
                                         else Drop(StoreAfter(w, s, polls), ActiveKey(id)))
      ensures raised <==> w.unregisterFails
    {
      hide StoreAfter, Forwarded, Closing, Drop, Put;
      emitted, polls := [], 0;
      var exit := Threw;
      ghost var s := Registered(w, tracker.cache.store, id, tracker.sessionTtl);
      var ctx := new StreamContext();
      StartOfRun(w, s);
      match w.register {
        case Fails => Unregistered(w, s, id);
        case Cancels =>
          Unregistered(w, s, id);
          exit := Abandoned;
        case Answers =>
          tracker.Register(id);
          emitted, exit, polls := Forward(w, id, patience, ctx);
      }
      match exit {
        case Abandoned =>
        case Threw => emitted := Close(emitted, Error, Done(Failed), patience);
        case SawMarker => emitted := Close(emitted, Result(ctx.Value()), Done(Interrupted), patience);
        case Drained =>
          var reason := if ctx.isError then Failed else Completed;
          emitted := Close(emitted, Result(ctx.Value()), Done(reason), patience);
      }
      raised := w.unregisterFails;
      if !raised { tracker.Unregister(id); }
    }
  }

  lemma StartOfRun(w: World, s: Store)
    ensures StoreAfter(w, s, 0) == s
  {}

  lemma NothingCloses(w: World, s: Store, id: string)
    requires Closing(w, s, id) == []
    ensures Trace(w, s, id) == Forwarded(w, s, id)
  {}

  lemma Unregistered(w: World, s: Store, id: string)
    requires !w.register.Answers?
    ensures Forwarded(w, s, id) == [] && Closing(w, s, id) == if w.register.Fails? then FAILURE else []
    ensures w.register.Cancels? ==> Trace(w, s, id) == []
  {}

  lemma GivenBounds(executor: QueryExecutor)
    requires executor.Valid()
    ensures executor.Given() <= AllOuts(executor.w)
  {
    if executor.pos <= |executor.w.msgs| { GivenPrefix(executor.w, executor.pos); }
  }

  lemma NothingGiven(executor: QueryExecutor)
    requires executor.pos == 0 && executor.ctx.Value() == Ctx(0, false, None)
    ensures executor.Valid() && executor.Given() == [] && Events(executor.Given()) == []
  {}

  class AgentService {
    const runner: StreamQueryRunner

    constructor (runner: StreamQueryRunner)
      ensures this.runner == runner
    {
      this.runner := runner;
    }

    /** The init event comes before anything else, even before the session is registered. */
    method QueryStream(w: World, id: string, patience: Option<pos>) returns (emitted: seq<Event>, raised: bool)
      modifies runner.tracker.cache
      ensures var cache := runner.tracker.cache;
              var s := Registered(w, old(cache.store), id, runner.tracker.sessionTtl);
              && emitted == Limit(Stream(w, s, id), patience)
              && (if patience == Some(1) then cache.store == old(cache.store)
                  else raised || Live(cache.store, ActiveKey(id)).None?)
      ensures raised <==> w.unregisterFails && patience != Some(1)
      ensures var t := Stream(w, Registered(w, old(runner.tracker.cache.store), id, runner.tracker.sessionTtl), id);
              && emitted <= t
              && |emitted| == if patience.Some? && patience.value < |t| then patience.value else |t|
    {
      hide Trace;
      emitted, raised := [Init], false;
      if patience == Some(1) { return; }
      var rest, polls, failed := runner.Run(w, id, if patience.Some? then Some(patience.value - 1) else None);
      emitted, raised := emitted + rest, failed;
    }
  }

  function Stream(w: World, s: Store, id: string): seq<Event> { [Init] + Trace(w, s, id) }

  // ----------------------------------------------------------------- grammar

  predicate Middle(e: Event) { e.Message? || e.Partial? || e.Question? || e.Error? }

  predicate Closes(a: Event, b: Event) {
    || (a.Result? && b.Done?)
    || (a.Error? && b == Done(Failed))
  }

  /** init (message | partial | question | error)* (result done | error done[error]) */
  predicate Word(t: seq<Event>) {
    && |t| >= 3 && t[0].Init?
    && (forall i :: 1 <= i < |t| - 2 ==> Middle(t[i]))
    && Closes(t[|t| - 2], t[|t| - 1])
  }

  predicate Asks(b: Block) { b.toolUse && b.name == "AskUserQuestion" }

  /** An assistant message is a question exactly if a block asks one; the first such block decides. */
  lemma {:induction false} FirstQuestion(blocks: seq<Block>)
    ensures AssistantEvent(blocks).Message? <==> forall i :: 0 <= i < |blocks| ==> !Asks(blocks[i])
    ensures forall i :: 0 <= i < |blocks| && Asks(blocks[i]) && (forall j :: 0 <= j < i ==> !Asks(blocks[j])) ==>
              AssistantEvent(blocks) == Question(blocks[i].id)
  {
    if blocks != [] && !Asks(blocks[0]) {
      FirstQuestion(blocks[1..]);
      assert forall i :: 1 <= i < |blocks| ==> blocks[i] == blocks[1..][i - 1];
    }
  }

  /** The event that a message calls for: questions by their first asking block, fragments if asked for. */
  predicate CallsFor(m: Msg, partials: bool, e: Event) {
    match e
    case Message => m.User? || (m.Assistant? && forall i :: 0 <= i < |m.blocks| ==> !Asks(m.blocks[i]))
    case Question(toolId) =>
      && m.Assistant?
      && exists i :: 0 <= i < |m.blocks| && FirstAsk(m.blocks, i) && toolId == m.blocks[i].id
    case Partial => partials && m == Fragment(true)
    case _ => false
  }

  predicate FirstAsk(blocks: seq<Block>, i: nat)
    requires i < |blocks|
  {
    Asks(blocks[i]) && forall j :: 0 <= j < i ==> !Asks(blocks[j])
  }

  lemma HandleCalls(x: Ctx, m: Msg, partials: bool, e: Event)
    ensures Handle(x, m, partials).1 == Some(e) <==> CallsFor(m, partials, e)
  {
    if m.Assistant? { AssistantCalls(m.blocks, e); }
  }

  lemma AssistantCalls(blocks: seq<Block>, e: Event)
    ensures AssistantEvent(blocks) == e <==> CallsFor(Assistant(blocks), false, e)
  {
    hide AssistantEvent;
    FirstQuestion(blocks);
    AssistantMiddle(blocks);
    if i :| 0 <= i < |blocks| && Asks(blocks[i]) {
      var k := FirstAsking(blocks, i);
      assert AssistantEvent(blocks) == Question(blocks[k].id);
    }
  }

  lemma {:induction false} FirstAsking(blocks: seq<Block>, i: nat) returns (k: nat)
    requires i < |blocks| && Asks(blocks[i])
    ensures k <= i && FirstAsk(blocks, k)
  {
    if j: nat :| j < i && Asks(blocks[j]) { k := FirstAsking(blocks, j); } else { k := i; }
  }

  predicate Shown(m: Msg, partials: bool) { m.User? || m.Assistant? || (partials && m == Fragment(true)) }

  /** Messages among the first `n` that call for an event. */
  function Before(w: World, n: nat): nat
    requires n <= |w.msgs|
  {
    if n == 0 then 0 else Before(w, n - 1) + if Shown(w.msgs[n - 1], w.partials) then 1 else 0
  }

  /**
   Every message that calls for an event gives exactly that one, with the context after the
   message, in message order; no other message gives any.
   */
  lemma {:induction false} EveryMessage(w: World, n: nat, j: nat, e: Event)
    requires j < n <= |w.msgs|
    ensures |Outs(w, n)| == Before(w, n)
    ensures CallsFor(w.msgs[j], w.partials, e) ==>
              Before(w, j) < |Outs(w, n)| && Outs(w, n)[Before(w, j)] == Out(e, CtxAfter(w, j + 1))
  {
    if n > 1 { EveryMessage(w, n - 1, if j < n - 1 then j else 0, e); }
    OutsStep(w, n - 1);
    var m, x := w.msgs[n - 1], CtxAfter(w, n - 1);
    var h := Handle(x, m, w.partials).1;
    HandleCalls(x, m, w.partials, e);
    hide CallsFor, CtxAfter, Outs;
  }

  /** Partial events appear exactly when asked for and sent. */
  lemma PartialsIff(w: World)
    ensures (exists i :: 0 <= i < |AllOuts(w)| && AllOuts(w)[i].event.Partial?) <==>
            w.partials && Fragment(true) in w.msgs
  {
    var n := |w.msgs|;
    AllOutsAre(w);
    if w.partials && Fragment(true) in w.msgs {
      var j :| 0 <= j < n && w.msgs[j] == Fragment(true);
      EveryMessage(w, n, j, Partial);
      assert AllOuts(w)[Before(w, j)].event.Partial?;
    }
    PartialsAsked(w, n);
  }

  lemma {:induction false} PartialsAsked(w: World, n: nat)
    requires n <= |w.msgs|
    ensures forall i :: 0 <= i < |Outs(w, n)| && Outs(w, n)[i].event.Partial? ==>
              w.partials && Fragment(true) in w.msgs
  {
    if n > 0 {
      PartialsAsked(w, n - 1);
      OutsStep(w, n - 1);
      HandleCalls(CtxAfter(w, n - 1), w.msgs[n - 1], w.partials, Partial);
      hide Handle, Outs;
    }
  }

  lemma AssistantMiddle(blocks: seq<Block>)
    ensures AssistantEvent(blocks).Message? || AssistantEvent(blocks).Question?
  {}

  lemma {:induction false} OutsMiddle(w: World, n: nat)
    requires n <= |w.msgs|
    ensures forall i :: 0 <= i < |Outs(w, n)| ==> Middle(Outs(w, n)[i].event)
  {
    if n > 0 {
      OutsMiddle(w, n - 1);
      if w.msgs[n - 1].Assistant? { AssistantMiddle(w.msgs[n - 1].blocks); }
    }
  }

  lemma ForwardedMiddle(w: World, s: Store, id: string)
    ensures forall i :: 0 <= i < |Forwarded(w, s, id)| ==> Middle(Forwarded(w, s, id)[i])
  {
    hide PollAt, ClearAt, Events;
    OutsMiddle(w, |w.msgs|);
    var outs := AllOuts(w);
    assert forall i :: 0 <= i < |outs| ==> Middle(outs[i].event);
  }

  /**
   The run is cancelled from outside, while it registers, polls or waits for the executor: the one
   way to end without a done event.
   */
  predicate CutShort(w: World, s: Store, id: string) {
    var n := |AllOuts(w)|;
    var k := FirstStop(w, s, id, 0, n);
    || w.register.Cancels?
    || (w.register.Answers? && if k < n then w.poll(k).Cancels? else w.ending.Cancelled?)
  }

  lemma ClosingLength(w: World, s: Store, id: string)
    ensures var c := Closing(w, s, id);
            if CutShort(w, s, id) then c == [] else |c| == 2 && Closes(c[0], c[1])
  {
    hide ClearAt, AllOuts, CtxAfter;
  }

  lemma CutShortIff(w: World, s: Store, id: string)
    ensures CutShort(w, s, id) <==>
            || w.register.Cancels?
            || (w.register.Answers? && CutAt(w, s, id))
  {
    hide AllOuts;
    var n := |AllOuts(w)|;
    var k := FirstStop(w, s, id, 0, n);
    assert AllClear(w, s, id, k);
    if j :| 0 <= j < n && AllClear(w, s, id, j) && w.poll(j).Cancels? {
      assert !ClearAt(w, s, id, j);
      hide ClearAt;
      assert j == k;
    }
  }

  /** A cancellation arrives at the first look that is not clear, or while the executor is awaited at the end. */
  ghost predicate CutAt(w: World, s: Store, id: string) {
    || (exists k :: 0 <= k < |AllOuts(w)| && AllClear(w, s, id, k) && w.poll(k).Cancels?)
    || (AllClear(w, s, id, |AllOuts(w)|) && w.ending.Cancelled?)
  }

  /** A stream is a full word exactly if it is not cancelled first. */
  lemma StreamIsWord(w: World, s: Store, id: string)
    ensures Word(Stream(w, s, id)) <==> !CutShort(w, s, id)
    ensures var t := Stream(w, s, id);
            !CutShort(w, s, id) ==> forall i :: 0 <= i < |t| ==> (t[i].Done? <==> i == |t| - 1)
  {
    ClosingLength(w, s, id);
    hide PollAt, ClearAt, AllOuts, CtxAfter;
    ForwardedMiddle(w, s, id);
    var f, c := Forwarded(w, s, id), Closing(w, s, id);
    hide Forwarded;
    var t := Stream(w, s, id);
    assert t == [Init] + f + c;
    if CutShort(w, s, id) {
      assert c == [] && t == [Init] + f;
      assert f != [] ==> t[|t| - 1] == f[|f| - 1];
    } else {
      assert |c| == 2 && Closes(c[0], c[1]);
      assert t[|t| - 2] == c[0] && t[|t| - 1] == c[1];
      assert forall i :: 1 <= i < |t| - 2 ==> t[i] == f[i - 1];
    }
  }

  /** Whatever the consumer has seen when it stops is the beginning of a word. */
  lemma SeenIsPrefix(w: World, s: Store, id: string, patience: Option<pos>)
    ensures exists t :: Word(t) && Limit(Stream(w, s, id), patience) <= t
  {
    hide PollAt, ClearAt, AllOuts, CtxAfter;
    StreamIsWord(w, s, id);
    ForwardedMiddle(w, s, id);
    var f := Forwarded(w, s, id);
    var t := if CutShort(w, s, id) then [Init] + f + FAILURE else Stream(w, s, id);
    hide Forwarded;
    if CutShort(w, s, id) {
      assert Stream(w, s, id) == [Init] + f;
      assert forall i :: 1 <= i < |t| - 2 ==> t[i] == f[i - 1];
    }
    assert Word(t) && Limit(Stream(w, s, id), patience) <= t;
  }

  // ------------------------------------------------ reasons and the interrupt

  function DoneReason(w: World, s: Store, id: string): Reason
    requires !CutShort(w, s, id)
  {
    Closing(w, s, id)[1].reason
  }

  /** The reason of the done event, which is the last of the stream, in terms of what happened. */
  lemma ReasonIff(w: World, s: Store, id: string)
    requires !CutShort(w, s, id)
    ensures var t := Stream(w, s, id); t[|t| - 1] == Done(DoneReason(w, s, id))
    ensures DoneReason(w, s, id).Interrupted? <==>
            && w.register.Answers?
            && exists k :: 0 <= k < |AllOuts(w)| && AllClear(w, s, id, k) && MarkedAt(w, s, id, k)
    ensures DoneReason(w, s, id).Completed? <==>
            && w.register.Answers? && AllClear(w, s, id, |AllOuts(w)|)
            && w.ending.Ends? && !CtxAfter(w, |w.msgs|).isError
  {
    var k := FirstStop(w, s, id, 0, |AllOuts(w)|);
    PollIs(w, s, id, k);
    assert MarkedAt(w, s, id, k) ==> !ClearAt(w, s, id, k);
    MarkedNotClear(w, s, id);
    hide PollAt, ClearAt, MarkedAt, AllOuts, CtxAfter, Forwarded;
    assert AllClear(w, s, id, k);
  }

  lemma MarkedNotClear(w: World, s: Store, id: string)
    ensures forall k :: MarkedAt(w, s, id, k) ==> !ClearAt(w, s, id, k)
  {}

  /**
   The stream up to its closing, for each way the run can go: the events up to the first look that
   is not clear, or all of them; then the closing that this look, or the executor's end, calls for.
   */
  lemma StreamCases(w: World, s: Store, id: string)
    ensures w.register.Fails? ==> Stream(w, s, id) == [Init] + [Error, Done(Failed)]
    ensures w.register.Cancels? ==> Stream(w, s, id) == [Init]
    ensures w.register.Answers? && AllClear(w, s, id, |AllOuts(w)|) ==>
              Stream(w, s, id) == [Init] + Events(AllOuts(w)) +
                (match w.ending
                 case Ends(_) =>
                   var ctx := CtxAfter(w, |w.msgs|);
                   [Result(ctx), Done(if ctx.isError then Failed else Completed)]
                 case Raises => [Error, Done(Failed)]
                 case Cancelled => [])
  {
    hide AllOuts, PollAt, ClearAt, Events, CtxAfter;
    assert [Init] + ([] + FAILURE) == [Init] + [Error, Done(Failed)];
    assert [Init] + ([] + []) == [Init];
    if w.register.Answers? && AllClear(w, s, id, |AllOuts(w)|) {
      DrainedShape(w, s, id);
      hide Closing, Forwarded, FirstStop;
      Joined(Forwarded(w, s, id), Closing(w, s, id));
    }
  }

  lemma Joined(f: seq<Event>, c: seq<Event>)
    ensures [Init] + (f + c) == [Init] + f + c
  {}

  /** The same for a run that a look at the marker stops. */
  lemma StoppedCases(w: World, s: Store, id: string, k: nat)
    requires w.register.Answers? && k < |AllOuts(w)| && AllClear(w, s, id, k)
    ensures var shown := [Init] + Events(AllOuts(w)[..k + 1]);
            && (MarkedAt(w, s, id, k) ==>
                  Stream(w, s, id) == shown + [Result(AllOuts(w)[k].ctx), Done(Interrupted)])
            && (w.poll(k).Fails? ==> Stream(w, s, id) == shown + [Error, Done(Failed)])
            && (w.poll(k).Cancels? ==> Stream(w, s, id) == shown)
  {
    PollIs(w, s, id, k);
    var given, p := AllOuts(w)[..k + 1], PollAt(w, s, id, k);
    if !ClearAt(w, s, id, k) {
      StoppedShape(w, s, id, given);
      hide AllOuts, PollAt, ClearAt, MarkedAt, Events, Closing, Forwarded;
      Joined(Forwarded(w, s, id), Closing(w, s, id));
      assert [Init] + Events(given) + [] == [Init] + Events(given);
    } else {
      MarkedNotClear(w, s, id);
    }
  }

  /** The executor's messages never become error events. */
  lemma {:induction false} OutsNoError(w: World, n: nat)
    requires n <= |w.msgs|
    ensures forall i :: 0 <= i < |Outs(w, n)| ==> !Outs(w, n)[i].event.Error?
  {
    if n > 0 {
      OutsNoError(w, n - 1);
      if w.msgs[n - 1].Assistant? { AssistantMiddle(w.msgs[n - 1].blocks); }
    }
  }

  /**
   A client sees an error event and then `completed` in exactly one way: the executor ended without
   error, its memory extraction failed, and no poll stopped the run.
   */
  lemma ErrorCompletedIff(w: World, s: Store, id: string)
    ensures (!CutShort(w, s, id) && Error in Stream(w, s, id) && DoneReason(w, s, id).Completed?) <==>
            && w.ending == Ends(true) && w.register.Answers? && AllClear(w, s, id, |AllOuts(w)|)
            && !CtxAfter(w, |w.msgs|).isError
  {
    if w.ending.Ends? && w.register.Answers? && AllClear(w, s, id, |AllOuts(w)|) && !CtxAfter(w, |w.msgs|).isError {
      NotCut(w, s, id);
      ReasonIff(w, s, id);
      DrainedErrors(w, s, id);
    } else if !CutShort(w, s, id) {
      ReasonIff(w, s, id);
    }
  }

  lemma NotCut(w: World, s: Store, id: string)
    requires w.ending.Ends? && w.register.Answers? && AllClear(w, s, id, |AllOuts(w)|)
    ensures !CutShort(w, s, id)
  {
    hide AllOuts, PollAt, ClearAt;
  }

  lemma AllOutsErrors(w: World)
    ensures w.ending == Ends(true) <==> exists i :: 0 <= i < |AllOuts(w)| && AllOuts(w)[i].event == Error
  {
    OutsNoError(w, |w.msgs|);
    AllOutsAre(w);
    hide AllOuts, Outs, CtxAfter;
    if w.ending == Ends(true) { assert AllOuts(w)[|AllOuts(w)| - 1].event == Error; }
  }

  lemma DrainedErrors(w: World, s: Store, id: string)
    requires w.ending.Ends? && w.register.Answers? && AllClear(w, s, id, |AllOuts(w)|)
    ensures Error in Stream(w, s, id) <==> w.ending == Ends(true)
  {
    DrainedShape(w, s, id);
    AllOutsErrors(w);
    hide AllOuts, PollAt, ClearAt, CtxAfter, FirstStop, Closing, Forwarded, Events;
    var outs, t, f, c := AllOuts(w), Stream(w, s, id), Events(AllOuts(w)), Ended(CtxAfter(w, |w.msgs|));
    assert t == [Init] + f + c && Error !in c;
    if i :| 0 <= i < |outs| && outs[i].event == Error { assert t[i + 1] == f[i] == Error; }
  }

  /** The last result message decides `is_error`; turns count on from what it reports. */
  lemma {:induction false} LastResultDecides(w: World, j: nat, n: nat)
    requires j < n <= |w.msgs| && w.msgs[j].ResultMsg?
    requires forall k :: j < k < n ==> !w.msgs[k].ResultMsg?
    ensures CtxAfter(w, n).isError == (w.msgs[j].isError || w.msgs[j].badOutput)
    ensures CtxAfter(w, n).cost == w.msgs[j].cost
    ensures w.msgs[j].turns.Some? ==> CtxAfter(w, n).turns == w.msgs[j].turns.value + (n - 1 - j)
    ensures w.msgs[j].turns.None? ==> CtxAfter(w, n).turns == CtxAfter(w, j).turns + (n - j)
    decreases n
  {
    if n > j + 1 { LastResultDecides(w, j, n - 1); }
  }

  /** Without a result message the run counts as successful and every message as a turn. */
  lemma {:induction false} NoResult(w: World, n: nat)
    requires n <= |w.msgs| && forall k :: 0 <= k < n ==> !w.msgs[k].ResultMsg?
    ensures CtxAfter(w, n) == Ctx(n, false, None)
  {
    if n > 0 { NoResult(w, n - 1); }
  }

  /** At every poll of the run from the `k`-th on, the marker is in the store and can be read. */
  ghost predicate MarkedFrom(w: World, s: Store, id: string, k: nat) {
    forall j: nat :: k <= j < |AllOuts(w)| ==> MarkedAt(w, s, id, j)
  }

  /**
   A marker that is set after `k` polls and stays is obeyed after at most one more event: the
   stream has forwarded at most `k + 1`, and is closed as interrupted unless it was over before.
   */
  lemma InterruptLatency(w: World, s: Store, id: string, k: nat)
    requires MarkedFrom(w, s, id, k)
    ensures |Forwarded(w, s, id)| <= k + 1
    ensures w.register.Answers? && k < |AllOuts(w)| && (forall j :: 0 <= j < k ==> w.poll(j).Answers?) ==>
              !CutShort(w, s, id) && DoneReason(w, s, id).Interrupted?
  {
    hide AllOuts, CtxAfter, StoreAfter, Live;
    if k < |AllOuts(w)| { assert MarkedAt(w, s, id, k); PollIs(w, s, id, k); }
  }

  lemma MarkerApart(a: string, b: string)
    ensures ActiveKey(a) != MarkerKey(b)
    ensures MarkerKey(a) == MarkerKey(b) ==> a == b
  {
    assert ActiveKey(a)[0] == 'a' && MarkerKey(b)[0] == 'i';
    assert MarkerKey(a)[12..] == a && MarkerKey(b)[12..] == b;
  }

  /** The `j`-th poll comes before time `end`, and others have left the marker alone since the `k`-th. */
  predicate PollInTime(w: World, s: Store, id: string, j: nat, k: nat, end: int) {
    && w.poll(j).Answers? && StoreAfter(w, s, j + 1).now < end
    && (j > k ==> KeepsMarker(StoreAfter(w, s, j), StoreAfter(w, s, j + 1), id))
  }

  ghost predicate PollsInTime(w: World, s: Store, id: string, k: nat, end: int) {
    forall j: nat :: k <= j < |AllOuts(w)| ==> PollInTime(w, s, id, j, k, end)
  }

  /** The marker's entry stays until it runs out. */
  predicate KeepsMarker(s: Store, r: Store, id: string) {
    var e := Live(s, MarkerKey(id));
    e.Some? && (e.value.expiry.Some? ==> r.now < e.value.expiry.value) ==> Live(r, MarkerKey(id)) == e
  }

  lemma {:induction false} MarkerStays(w: World, s: Store, id: string, k: nat, ttl: pos, t: Store, j: nat)
    requires StoreAfter(w, s, k + 1) == WithMarker(t, id, ttl) && k <= j < |AllOuts(w)|
    requires PollsInTime(w, s, id, k, t.now + ttl)
    ensures Live(StoreAfter(w, s, j + 1), MarkerKey(id)) == Some(Entry(Doc(Str("true")), Some(t.now + ttl)))
  {
    hide AllOuts, StoreAfter, Live, Put;
    if j > k {
      MarkerStays(w, s, id, k, ttl, t, j - 1);
      assert PollInTime(w, s, id, j, k, t.now + ttl);
    }
  }

  /**
   An interrupt accepted just before the poll `k`, for a run that polls within the marker's TTL,
   ends the run after at most one more event: it is the last one forwarded, and the stream is done
   as interrupted, unless it was over before.
   */
  lemma InterruptObeyed(w: World, s: Store, id: string, k: nat, ttl: pos, t: Store)
    requires StoreAfter(w, s, k + 1) == WithMarker(t, id, ttl) && PollsInTime(w, s, id, k, t.now + ttl)
    ensures |Forwarded(w, s, id)| <= k + 1
    ensures w.register.Answers? && k < |AllOuts(w)| && AllClear(w, s, id, k) ==>
              !CutShort(w, s, id) && DoneReason(w, s, id).Interrupted? && |Forwarded(w, s, id)| == k + 1
  {
    forall j: nat | k <= j < |AllOuts(w)| ensures MarkedAt(w, s, id, j) {
      MarkerStays(w, s, id, k, ttl, t, j);
      assert PollInTime(w, s, id, j, k, t.now + ttl);
    }
    hide AllOuts, CtxAfter, StoreAfter, Live, Put, KeepsMarker;
    InterruptLatency(w, s, id, k);
    if k < |AllOuts(w)| && AllClear(w, s, id, k) { ClearAnswers(w, s, id, k); }
  }

  lemma ClearAnswers(w: World, s: Store, id: string, k: nat)
    requires AllClear(w, s, id, k)
    ensures forall j :: 0 <= j < k ==> w.poll(j).Answers?
  {
    forall j | 0 <= j < k ensures w.poll(j).Answers? { assert ClearAt(w, s, id, j); }
  }

  /**
   A marker that outlives its run, which never clears it, stops the next run of the session: if it
   is still there at that run's first poll, one event is forwarded and the stream is interrupted.
   */
  lemma StaleMarkerStops(w: World, s: Store, id: string, ttl: pos, left: Store)
    requires s == Registered(w, left, id, ttl) && Live(left, MarkerKey(id)).Some?
    requires w.register.Answers? && w.poll(0).Answers? && KeepsMarker(s, StoreAfter(w, s, 1), id)
    requires var e := Live(left, MarkerKey(id)).value; e.expiry.Some? ==> StoreAfter(w, s, 1).now < e.expiry.value
    requires AllOuts(w) != []
    ensures |Forwarded(w, s, id)| == 1 && !CutShort(w, s, id) && DoneReason(w, s, id).Interrupted?
  {
    MarkerApart(id, id);
    hide AllOuts, StoreAfter, Live, Put;
    PollIs(w, s, id, 0);
    assert MarkedAt(w, s, id, 0);
  }

  /** The run itself leaves the marker as it finds it. */
  lemma RunKeepsMarker(s: Store, id: string)
    ensures Live(Drop(s, ActiveKey(id)), MarkerKey(id)) == Live(s, MarkerKey(id))
  {
    MarkerApart(id, id);
  }
}
