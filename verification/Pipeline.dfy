/**
 The streaming pipeline of one query: a producer task that reads agent events and puts them into a
 bounded queue, a consumer that yields them to the client until the `None` sentinel, and the
 clean-up when the client goes away. Every interleaving of the two tasks is a run.
 */
module Pipeline {
  import opened Common

  const QUEUE_SIZE := 100

  // ---------------------------------------------------------------- events

  /** What the data of an init event turns out to be, and whether the session can be created. */
  datatype InitData = BadJson | NotAnObject | Parsed(sid: Option<string>, creates: bool)

  /** `cost` is absent, or present and possibly null. */
  datatype ResultData = Unreadable | Fields(turns: Option<int>, cost: Option<Option<real>>)

  datatype Kind = Init(data: InitData) | Message | Error | Result(fields: ResultData) | Other(name: string)

  datatype Event = Event(kind: Kind, payload: int)

  datatype Item =
    | Ev(event: Event)
    | InitFailed     // "Session initialization failed"
    | CreateFailed   // "Session creation failed"
    | Internal       // "Internal stream error"
    | Sentinel

  /** The query's session id, the agent's event stream and whether it ends by an exception. */
  datatype Setup = Setup(sid: Option<string>, source: seq<Event>, raises: bool)

  // ------------------------------------------------------ what one event does

  predicate Truthy(sid: Option<string>) { sid.Some? && sid.value != "" }

  /** Session id and error item after the init handler; any other event changes nothing. */
  function HandleInit(sid: Option<string>, e: Event): (Option<string>, Option<Item>) {
    if sid.Some? || !e.kind.Init? then (sid, None)
    else match e.kind.data
      case BadJson => (None, Some(InitFailed))
      case NotAnObject => (None, Some(CreateFailed))
      case Parsed(id, creates) => (id, if Truthy(id) && !creates then Some(CreateFailed) else None)
  }

  datatype Meta = Meta(sid: Option<string>, isError: bool, turns: int, cost: Option<real>)

  function Track(m: Meta, e: Event): Meta {
    match e.kind
    case Message => m.(turns := m.turns + 1)
    case Error => m.(isError := true)
    case Result(Fields(turns, cost)) =>
      m.(turns := if turns.Some? then turns.value else m.turns,
         cost := if cost.Some? then cost.value else m.cost)
    case _ => m
  }

  // ------------------------------------------------- the sequential reference

  /** What the first `n` events put into the queue: each event, an init failure right before its init. */
  function Woven(c: Setup, n: nat): seq<Item>
    requires n <= |c.source|
  {
    if n == 0 then [] else
      var e := c.source[n - 1];
      var failure := HandleInit(MetaAfter(c, n - 1).sid, e).1;
      Woven(c, n - 1) + (if failure.Some? then [failure.value] else []) + [Ev(e)]
  }

  function MetaAfter(c: Setup, n: nat): Meta
    requires n <= |c.source|
  {
    if n == 0 then Meta(c.sid, false, 0, None) else
      var e := c.source[n - 1];
      var m := MetaAfter(c, n - 1);
      var (sid, failure) := HandleInit(m.sid, e);
      var t := Track(m, e);
      t.(sid := sid, isError := t.isError || failure.Some?)
  }

  function Full(c: Setup): seq<Item> {
    Woven(c, |c.source|) + if c.raises then [Internal] else []
  }

  // ----------------------------------------------------------- the two tasks

  datatype Producer =
    | Pull
    | PutFailure(event: Event, item: Item)
    | Check(event: Event)          // is the client still connected?
    | Put(event: Event)
    | PutInternal
    | PutSentinel
    | Done(sent: bool)             // without the sentinel when cancelled while putting it

  datatype Consumer =
    | Reading
    | Leaving                      // in the finally block, the producer not looked at yet
    | Awaiting                     // producer cancelled, waiting for it
    | Over(status: Option<Meta>)   // the session status written, if there is a session

  datatype State = State(
    pos: nat, producer: Producer, meta: Meta, cut: bool,
    queue: seq<Item>, taken: seq<Item>, log: seq<Item>,
    consumer: Consumer, gone: bool, interrupted: bool)

  datatype Step =
    | PullStep | PutStep | Connected | Disconnected   // producer
    | Get | Leave(cancelled: bool) | Cancel | Finish  // consumer

  function Start(c: Setup): State {
    State(0, Pull, Meta(c.sid, false, 0, None), false, [], [], [], Reading, false, false)
  }

  predicate Putting(p: Producer) { p.PutFailure? || p.Put? || p.PutInternal? || p.PutSentinel? }

  predicate Enabled(c: Setup, s: State, step: Step) {
    match step
    case PullStep => s.producer.Pull? && s.pos <= |c.source|
    case PutStep => Putting(s.producer) && |s.queue| < QUEUE_SIZE
    case Connected => s.producer.Check?
    case Disconnected => s.producer.Check?
    case Get => s.consumer.Reading? && s.queue != []
    case Leave(_) => s.consumer.Reading?
    case Cancel => s.consumer.Leaving? && !s.producer.Done?
    case Finish => (s.consumer.Leaving? || s.consumer.Awaiting?) && s.producer.Done?
  }

  function PullNext(c: Setup, s: State): State
    requires s.pos <= |c.source|
  {
    if s.pos == |c.source| then s.(producer := if c.raises then PutInternal else PutSentinel)
    else
      var e := c.source[s.pos];
      var (sid, failure) := HandleInit(s.meta.sid, e);
      s.(pos := s.pos + 1, meta := Track(s.meta, e).(sid := sid),
         producer := if failure.Some? then PutFailure(e, failure.value) else Check(e))
  }

  function Enqueue(s: State, i: Item, next: Producer): State {
    s.(queue := s.queue + [i], log := s.log + [i], producer := next)
  }

  function PutNext(s: State): State
    requires Putting(s.producer)
  {
    match s.producer
    case PutFailure(e, i) => Enqueue(s, i, Check(e)).(meta := s.meta.(isError := true))
    case Put(e) => Enqueue(s, Ev(e), Pull)
    case PutInternal => Enqueue(s, Internal, PutSentinel)
    case PutSentinel => Enqueue(s, Sentinel, Done(true))
  }

  /** The cancellation is raised where the producer waits; only inside the try body it interrupts. */
  function CancelNext(s: State): State {
    match s.producer
    case PutSentinel => s.(producer := Done(false), consumer := Awaiting)
    case PutInternal => s.(producer := PutSentinel, cut := true, consumer := Awaiting)
    case _ =>
      s.(producer := PutSentinel, cut := true, consumer := Awaiting,
         interrupted := s.interrupted || Truthy(s.meta.sid))
  }

  function Do(c: Setup, s: State, step: Step): State
    requires Enabled(c, s, step)
  {
    match step
    case PullStep => PullNext(c, s)
    case PutStep => PutNext(s)
    case Connected => s.(producer := Put(s.producer.event))
    case Disconnected =>
      s.(producer := PutSentinel, cut := true, interrupted := s.interrupted || Truthy(s.meta.sid))
    case Get =>
      s.(queue := s.queue[1..], taken := s.taken + [s.queue[0]],
         consumer := if s.queue[0].Sentinel? then Leaving else Reading)
    case Leave(cancelled) =>
      s.(consumer := Leaving, gone := true,
         interrupted := s.interrupted || (cancelled && Truthy(s.meta.sid)))
    case Cancel => CancelNext(s)
    case Finish => s.(consumer := Over(if Truthy(s.meta.sid) then Some(s.meta) else None))
  }

  predicate Run(c: Setup, s: State, steps: seq<Step>)
    decreases |steps|
  {
    steps == [] || (Enabled(c, s, steps[0]) && Run(c, Do(c, s, steps[0]), steps[1..]))
  }

  function End(c: Setup, s: State, steps: seq<Step>): State
    requires Run(c, s, steps)
    decreases |steps|
  {
    if steps == [] then s else End(c, Do(c, s, steps[0]), steps[1..])
  }

  // ------------------------------------------------------------- invariants

  /** What the producer still has to put for the event it is at. */
  function Pending(p: Producer): seq<Item> {
    match p
    case PutFailure(e, i) => [i, Ev(e)]
    case Check(e) => [Ev(e)]
    case Put(e) => [Ev(e)]
    case _ => []
  }

  /** What it has put: the sequence of the events pulled so far, up to what is pending. */
  ghost predicate ProducerInv(c: Setup, s: State) {
    && s.pos <= |c.source|
    && match s.producer
       case PutSentinel => Stopped(c, s, s.log)
       case Done(false) => Stopped(c, s, s.log)
       case Done(true) => s.log != [] && s.log[|s.log| - 1] == Sentinel && Stopped(c, s, s.log[..|s.log| - 1])
       case p => InStep(c, s, p) && (p.PutInternal? ==> c.raises && s.pos == |c.source|)
  }

  ghost predicate InStep(c: Setup, s: State, p: Producer)
    requires s.pos <= |c.source|
  {
    && s.log + Pending(p) == Woven(c, s.pos)
    && s.meta.(isError := s.meta.isError || p.PutFailure?) == MetaAfter(c, s.pos)
  }

  ghost predicate Stopped(c: Setup, s: State, items: seq<Item>) {
    && s.pos <= |c.source|
    && items <= Full(c)
    && (!s.cut ==> items == Full(c) && s.pos == |c.source| && s.meta == MetaAfter(c, s.pos))
  }

  predicate ConsumerInv(s: State) {
    && s.taken + s.queue == s.log
    && |s.queue| <= QUEUE_SIZE
    && (s.producer.Done? || s.producer.PutSentinel? || !s.cut)
    && (s.consumer.Reading? ==> Sentinel !in s.taken && !s.gone)
    && (s.producer.Done? && !s.producer.sent ==> s.gone)
    && (!s.consumer.Reading? && !s.gone ==> s.producer == Done(true) && s.queue == [])
    && (s.consumer.Awaiting? ==> s.gone && (s.producer.Done? || s.producer.PutSentinel?))
    && (s.consumer.Over? ==> s.producer.Done? && s.consumer.status == if Truthy(s.meta.sid) then Some(s.meta) else None)
    && (s.cut && Truthy(s.meta.sid) && !s.gone ==> s.interrupted)
  }

  ghost predicate Inv(c: Setup, s: State) { ProducerInv(c, s) && ConsumerInv(s) }

  lemma {:induction false} WovenGrows(c: Setup, n: nat, m: nat)
    requires n <= m <= |c.source|
    ensures Woven(c, n) <= Woven(c, m)
    decreases m
  {
    if n < m { WovenGrows(c, n, m - 1); }
  }

  lemma {:induction false} WovenPlain(c: Setup, n: nat)
    requires n <= |c.source|
    ensures Sentinel !in Woven(c, n) && Internal !in Woven(c, n)
  {
    if n > 0 { WovenPlain(c, n - 1); }
  }

  /** Pulling makes exactly the items pending that the event adds to the sequence. */
  lemma PullPending(c: Setup, s: State)
    requires s.producer.Pull? && s.pos < |c.source| && s.meta == MetaAfter(c, s.pos)
    ensures var t := PullNext(c, s);
            && Woven(c, s.pos + 1) == Woven(c, s.pos) + Pending(t.producer)
            && t.meta.(isError := t.meta.isError || t.producer.PutFailure?) == MetaAfter(c, s.pos + 1)
  {
    var e := c.source[s.pos];
    var failure := HandleInit(s.meta.sid, e).1;
    if failure.Some? {
      assert Woven(c, s.pos) + [failure.value] + [Ev(e)] == Woven(c, s.pos) + [failure.value, Ev(e)];
    } else {
      assert Woven(c, s.pos) + [] == Woven(c, s.pos);
    }
  }

  lemma PullInv(c: Setup, s: State)
    requires Inv(c, s) && Enabled(c, s, PullStep)
    ensures ProducerInv(c, PullNext(c, s))
  {
    hide Woven, MetaAfter, HandleInit, Track;
    assert s.log + [] == s.log;
    if s.pos < |c.source| { PullPending(c, s); }
  }

  lemma PutPending(c: Setup, s: State)
    requires ProducerInv(c, s) && (s.producer.PutFailure? || s.producer.Put?)
    ensures ProducerInv(c, PutNext(s))
  {
    hide Woven, MetaAfter, Stopped;
    match s.producer
    case PutFailure(e, i) => assert s.log + [i] + [Ev(e)] == s.log + [i, Ev(e)];
    case Put(e) => assert s.log + [Ev(e)] + [] == s.log + [Ev(e)];
  }

  lemma PutLast(c: Setup, s: State)
    requires ProducerInv(c, s) && ConsumerInv(s) && (s.producer.PutInternal? || s.producer.PutSentinel?)
    ensures ProducerInv(c, PutNext(s))
  {
    hide Woven, MetaAfter;
    if s.producer.PutInternal? {
      assert s.log + [] == s.log;
    } else {
      assert (s.log + [Sentinel])[..|s.log|] == s.log;
    }
  }

  lemma PutInv(c: Setup, s: State)
    requires Inv(c, s) && Enabled(c, s, PutStep)
    ensures ProducerInv(c, PutNext(s))
  {
    hide ProducerInv, ConsumerInv, PutNext;
    if s.producer.PutFailure? || s.producer.Put? { PutPending(c, s); } else { PutLast(c, s); }
  }

  lemma PutQueue(s: State)
    requires ConsumerInv(s) && Putting(s.producer) && |s.queue| < QUEUE_SIZE
    ensures ConsumerInv(PutNext(s))
  {
    var i := PutNext(s).queue[|s.queue|];
    assert s.taken + (s.queue + [i]) == s.log + [i];
  }

  /** Wherever the producer is cut off, what it has put is the beginning of the full sequence. */
  lemma CutInv(c: Setup, s: State)
    requires ProducerInv(c, s) && !s.producer.Done?
    ensures s.log <= Full(c)
  {
    hide Woven, MetaAfter;
    if !s.producer.PutSentinel? {
      WovenGrows(c, s.pos, |c.source|);
      assert s.log <= s.log + Pending(s.producer);
    }
  }

  lemma PlainPrefix(c: Setup, items: seq<Item>)
    requires items <= Full(c)
    ensures Sentinel !in items
  {
    hide Woven;
    WovenPlain(c, |c.source|);
    assert Sentinel !in Full(c);
    assert forall i :: 0 <= i < |items| ==> items[i] == Full(c)[i];
  }

  lemma SentinelLast(c: Setup, s: State)
    requires ProducerInv(c, s)
    ensures forall i :: 0 <= i < |s.log| && s.log[i] == Sentinel ==> i == |s.log| - 1 && s.producer == Done(true)
  {
    hide Full, Woven, MetaAfter, InStep;
    if s.producer == Done(true) {
      var plain := s.log[..|s.log| - 1];
      PlainPrefix(c, plain);
      assert s.log == plain + [Sentinel];
    } else {
      if !s.producer.Done? { CutInv(c, s); }
      PlainPrefix(c, s.log);
    }
  }

  lemma TakeFirst(taken: seq<Item>, queue: seq<Item>)
    requires queue != []
    ensures taken + [queue[0]] + queue[1..] == taken + queue
    ensures (taken + queue)[|taken|] == queue[0]
  {}

  /** What the producer has put is not touched by the consumer's steps. */
  lemma SameProducer(c: Setup, s: State, t: State)
    requires ProducerInv(c, s)
    requires t.pos == s.pos && t.producer == s.producer && t.meta == s.meta && t.cut == s.cut && t.log == s.log
    ensures ProducerInv(c, t)
  {
    hide Woven, MetaAfter, Full;
  }

  lemma StopProducer(c: Setup, s: State, t: State)
    requires ProducerInv(c, s) && !s.producer.Done?
    requires t.pos == s.pos && t.log == s.log && t.cut && t.producer.PutSentinel?
    ensures ProducerInv(c, t)
  {
    hide Woven, MetaAfter, Full;
    CutInv(c, s);
  }

  lemma StepProducerInv(c: Setup, s: State, step: Step)
    requires Inv(c, s) && Enabled(c, s, step)
    ensures ProducerInv(c, Do(c, s, step))
  {
    hide ProducerInv, ConsumerInv, Woven, MetaAfter, HandleInit, Track;
    var t := Do(c, s, step);
    match step
    case PullStep => PullInv(c, s);
    case PutStep => PutInv(c, s);
    case Connected => ConnectedInv(c, s);
    case Disconnected => StopProducer(c, s, t);
    case Cancel => if s.producer.PutSentinel? { DeadInv(c, s); } else { StopProducer(c, s, t); }
    case _ => SameProducer(c, s, t);
  }

  lemma ConnectedInv(c: Setup, s: State)
    requires ProducerInv(c, s) && s.producer.Check?
    ensures ProducerInv(c, Do(c, s, Connected))
  {
    hide Woven, MetaAfter, Full;
  }

  /** A producer cancelled while it puts the sentinel has put all it will put. */
  lemma DeadInv(c: Setup, s: State)
    requires ProducerInv(c, s) && s.producer.PutSentinel? && s.consumer.Leaving?
    ensures ProducerInv(c, CancelNext(s))
  {
    hide Woven, MetaAfter, Full;
  }

  lemma StepConsumerInv(c: Setup, s: State, step: Step)
    requires Inv(c, s) && Enabled(c, s, step)
    ensures ConsumerInv(Do(c, s, step))
  {
    SentinelLast(c, s);
    hide ProducerInv, HandleInit, Track;
    match step
    case PutStep => PutQueue(s);
    case Get => TakeFirst(s.taken, s.queue);
    case _ =>
  }

  lemma StepInv(c: Setup, s: State, step: Step)
    requires Inv(c, s) && Enabled(c, s, step)
    ensures Inv(c, Do(c, s, step))
  {
    hide ProducerInv, ConsumerInv, Do;
    StepProducerInv(c, s, step);
    StepConsumerInv(c, s, step);
  }

  lemma {:induction false} RunInv(c: Setup, s: State, steps: seq<Step>)
    requires Inv(c, s) && Run(c, s, steps)
    ensures Inv(c, End(c, s, steps))
    decreases |steps|
  {
    if steps != [] {
      StepInv(c, s, steps[0]);
      RunInv(c, Do(c, s, steps[0]), steps[1..]);
    }
  }

  lemma StartInv(c: Setup)
    ensures Inv(c, Start(c))
  {}

  // ------------------------------------------------------------ refinement

  /** The log without the sentinel. */
  function Items(log: seq<Item>): seq<Item> {
    if log != [] && log[|log| - 1].Sentinel? then log[..|log| - 1] else log
  }

  /**
   In every reachable state: what the client got and what is queued is exactly what was put, the
   queue is within its bound, what was put is the beginning of the sequential reference, and the
   sentinel is put last, once, by a producer that is done. A disconnect interrupts the session.
   */
  lemma QueueRefines(c: Setup, steps: seq<Step>)
    requires Run(c, Start(c), steps)
    ensures var s := End(c, Start(c), steps);
            && s.taken + s.queue == s.log && |s.queue| <= 100
            && Items(s.log) <= Full(c)
            && (forall i :: 0 <= i < |s.log| && s.log[i].Sentinel? ==> i == |s.log| - 1 && s.producer == Done(true))
            && (s.cut && !s.gone && Truthy(s.meta.sid) ==> s.interrupted)
  {
    StartInv(c);
    RunInv(c, Start(c), steps);
    ItemsPrefix(c, End(c, Start(c), steps));
  }

  lemma ItemsPrefix(c: Setup, s: State)
    requires ProducerInv(c, s)
    ensures Items(s.log) <= Full(c)
    ensures forall i :: 0 <= i < |s.log| && s.log[i].Sentinel? ==> i == |s.log| - 1 && s.producer == Done(true)
    ensures s.producer == Done(true) && !s.cut ==> s.log == Full(c) + [Sentinel] && s.meta == MetaAfter(c, |c.source|)
  {
    hide Woven, MetaAfter, Full;
    SentinelLast(c, s);
    if !s.producer.Done? { CutInv(c, s); }
    if s.producer == Done(true) { assert s.log == s.log[..|s.log| - 1] + [Sentinel]; }
  }

  // -------------------------------------------------------- the interrupt

  /** The steps that ask the agent to stop a session that has an id. */
  predicate Interrupts(s: State, step: Step) {
    && Truthy(s.meta.sid)
    && match step
       case Disconnected => true
       case Leave(cancelled) => cancelled
       case Cancel => s.producer.Pull? || s.producer.PutFailure? || s.producer.Check? || s.producer.Put?
       case _ => false
  }

  predicate SomeInterrupts(c: Setup, s: State, steps: seq<Step>)
    requires Run(c, s, steps)
    decreases |steps|
  {
    steps != [] && (Interrupts(s, steps[0]) || SomeInterrupts(c, Do(c, s, steps[0]), steps[1..]))
  }

  lemma InterruptStep(c: Setup, s: State, step: Step)
    requires Enabled(c, s, step)
    ensures Do(c, s, step).interrupted <==> s.interrupted || Interrupts(s, step)
  {
    hide HandleInit, Track;
  }

  /**
   The agent has been asked to stop the session exactly if, while the session had an id, the
   producer saw the client gone, the client's request was cancelled, or the producer was cancelled
   while it read or forwarded events.
   */
  lemma {:induction false} InterruptedIff(c: Setup, s: State, steps: seq<Step>)
    requires Run(c, s, steps)
    ensures End(c, s, steps).interrupted <==> s.interrupted || SomeInterrupts(c, s, steps)
    decreases |steps|
  {
    if steps != [] {
      InterruptStep(c, s, steps[0]);
      InterruptedIff(c, Do(c, s, steps[0]), steps[1..]);
    }
    hide Do;
  }

  // ------------------------------------------------- the reference sequence

  function Events(items: seq<Item>): seq<Event> {
    if items == [] then [] else
      Events(items[..|items| - 1]) + match items[|items| - 1] case Ev(e) => [e] case _ => []
  }

  lemma EventsSnoc(items: seq<Item>, i: Item)
    ensures Events(items + [i]) == Events(items) + match i case Ev(e) => [e] case _ => []
  {
    assert (items + [i])[..|items|] == items;
  }

  /** What the `n`-th event adds. */
  lemma WovenShape(c: Setup, n: nat) returns (f: Option<Item>)
    requires 0 < n <= |c.source|
    ensures Woven(c, n) == Woven(c, n - 1) + (if f.Some? then [f.value] else []) + [Ev(c.source[n - 1])]
    ensures f.Some? ==> Failure(f.value) && c.source[n - 1].kind.Init? && MetaAfter(c, n - 1).sid.None?
    ensures MetaAfter(c, n - 1).sid.Some? ==> MetaAfter(c, n).sid == MetaAfter(c, n - 1).sid
  {
    f := HandleInit(MetaAfter(c, n - 1).sid, c.source[n - 1]).1;
  }

  lemma EventsShape(w: seq<Item>, f: Option<Item>, e: Event)
    requires f.Some? ==> Failure(f.value)
    ensures Events(w + (if f.Some? then [f.value] else []) + [Ev(e)]) == Events(w) + [e]
  {
    hide Events;
    if f.Some? {
      EventsSnoc(w, f.value);
      EventsSnoc(w + [f.value], Ev(e));
    } else {
      assert w + [] == w;
      EventsSnoc(w, Ev(e));
    }
  }

  /** Without the failure items the sequence is the agent's own stream. */
  lemma {:induction false} WovenEvents(c: Setup, n: nat)
    requires n <= |c.source|
    ensures Events(Woven(c, n)) == c.source[..n]
  {
    if n > 0 {
      var f := WovenShape(c, n);
      WovenEvents(c, n - 1);
      hide Woven, MetaAfter, Events;
      EventsShape(Woven(c, n - 1), f, c.source[n - 1]);
      assert c.source[..n] == c.source[..n - 1] + [c.source[n - 1]];
    }
  }

  predicate Failure(i: Item) { i.InitFailed? || i.CreateFailed? }

  /** A failure item is immediately followed by the init event it is about, whose data says which failure. */
  lemma {:induction false} FailureBeforeInit(c: Setup, n: nat, i: nat)
    requires n <= |c.source| && i < |Woven(c, n)| && Failure(Woven(c, n)[i])
    ensures i + 1 < |Woven(c, n)| && Woven(c, n)[i + 1].Ev? && Woven(c, n)[i + 1].event.kind.Init?
    ensures Woven(c, n)[i].InitFailed? <==> Woven(c, n)[i + 1].event.kind.data.BadJson?
  {
    if n > 0 && i < |Woven(c, n - 1)| { FailureBeforeInit(c, n - 1, i); }
  }

  function Failures(items: seq<Item>): nat {
    if items == [] then 0 else Failures(items[..|items| - 1]) + if Failure(items[|items| - 1]) then 1 else 0
  }

  function Inits(es: seq<Event>): nat {
    if es == [] then 0 else Inits(es[..|es| - 1]) + if es[|es| - 1].kind.Init? then 1 else 0
  }

  lemma FailuresSnoc(items: seq<Item>, i: Item)
    ensures Failures(items + [i]) == Failures(items) + if Failure(i) then 1 else 0
  {
    assert (items + [i])[..|items|] == items;
  }

  /** Never more failure items than init events, and none for a query that resumes a session. */
  lemma {:induction false} FailuresBounded(c: Setup, n: nat)
    requires n <= |c.source|
    ensures Failures(Woven(c, n)) <= Inits(c.source[..n])
    ensures c.sid.Some? ==> Failures(Woven(c, n)) == 0 && MetaAfter(c, n).sid == c.sid
  {
    if n > 0 {
      var f := WovenShape(c, n);
      FailuresBounded(c, n - 1);
      hide Woven, MetaAfter, Failures;
      var w, e := Woven(c, n - 1), c.source[n - 1];
      assert c.source[..n][..n - 1] == c.source[..n - 1];
      if f.Some? {
        FailuresSnoc(w, f.value);
        FailuresSnoc(w + [f.value], Ev(e));
      } else {
        assert w + [] == w;
        FailuresSnoc(w, Ev(e));
      }
    }
  }

  /** The error items that count for the session status; the internal error does not. */
  predicate CountsAsError(i: Item) { Failure(i) || (i.Ev? && i.event.kind.Error?) }

  lemma {:induction false} ErrorSeen(c: Setup, n: nat)
    requires n <= |c.source|
    ensures MetaAfter(c, n).isError <==> exists i :: i in Woven(c, n) && CountsAsError(i)
  {
    if n > 0 {
      ErrorSeen(c, n - 1);
      var e := c.source[n - 1];
      assert CountsAsError(Ev(e)) <==> e.kind.Error?;
      assert Ev(e) in Woven(c, n);
      forall i | i in Woven(c, n - 1) ensures i in Woven(c, n) {}
      var failure := HandleInit(MetaAfter(c, n - 1).sid, e).1;
      if failure.Some? {
        assert CountsAsError(failure.value) && failure.value in Woven(c, n);
      }
    }
  }

  /** A result event that reports a turn count. */
  predicate SetsTurns(e: Event) { e.kind.Result? && e.kind.fields.Fields? && e.kind.fields.turns.Some? }

  function Messages(es: seq<Event>): nat {
    if es == [] then 0 else Messages(es[..|es| - 1]) + if es[|es| - 1].kind.Message? then 1 else 0
  }

  /** The turn count is the last one reported, or none, plus the messages since. */
  lemma {:induction false} TurnsCounted(c: Setup, from: nat, n: nat)
    requires from <= n <= |c.source| && (from > 0 ==> SetsTurns(c.source[from - 1]))
    requires forall k :: from <= k < n ==> !SetsTurns(c.source[k])
    ensures MetaAfter(c, n).turns ==
            (if from > 0 then c.source[from - 1].kind.fields.turns.value else 0) + Messages(c.source[from..n])
    decreases n
  {
    if n > from {
      TurnsCounted(c, from, n - 1);
      assert c.source[from..n][..n - 1 - from] == c.source[from..n - 1];
    }
  }

  /** The first init that names a session decides the session id for good. */
  lemma {:induction false} SessionFixed(c: Setup, m: nat, n: nat)
    requires m <= n <= |c.source| && MetaAfter(c, m).sid.Some?
    ensures MetaAfter(c, n).sid == MetaAfter(c, m).sid
    decreases n
  {
    if m < n { SessionFixed(c, m, n - 1); }
  }

  /** An init event that names a session, be it by an empty text. */
  predicate Names(e: Event) { e.kind.Init? && e.kind.data.Parsed? && e.kind.data.sid.Some? }

  /** The query resumes a session, or one of the first `n` events has named it. */
  predicate Named(c: Setup, n: nat)
    requires n <= |c.source|
  {
    c.sid.Some? || exists j :: 0 <= j < n && Names(c.source[j])
  }

  /** The id is the query's own, or else that of the first event to name one. */
  lemma {:induction false} SidIs(c: Setup, n: nat)
    requires n <= |c.source|
    ensures c.sid.Some? ==> MetaAfter(c, n).sid == c.sid
    ensures MetaAfter(c, n).sid.Some? <==> Named(c, n)
    ensures forall j :: 0 <= j < n && c.sid.None? && Names(c.source[j]) && !Named(c, j) ==>
              MetaAfter(c, n).sid == c.source[j].kind.data.sid
  {
    if n > 0 {
      SidIs(c, n - 1);
      hide Track;
      assert Named(c, n) <==> Named(c, n - 1) || Names(c.source[n - 1]);
    }
  }

  /** What becomes of an init event whose data is broken or whose session cannot be created. */
  predicate FailsAs(e: Event, i: Item) {
    || (i == InitFailed && e.kind == Init(BadJson))
    || (i == CreateFailed && e.kind == Init(NotAnObject))
    || (i == CreateFailed && Names(e) && e.kind.data.sid != Some("") && !e.kind.data.creates)
  }

  /** One more event: it is put as it is, after its failure if no session was named before and it fails. */
  lemma WovenStep(c: Setup, n: nat)
    requires n < |c.source|
    ensures var e := c.source[n];
            && (forall i :: !Named(c, n) && FailsAs(e, i) ==> Woven(c, n + 1) == Woven(c, n) + [i, Ev(e)])
            && (Named(c, n) || (forall i :: !FailsAs(e, i)) ==> Woven(c, n + 1) == Woven(c, n) + [Ev(e)])
  {
    SidIs(c, n);
    var e, w := c.source[n], Woven(c, n);
    var f := HandleInit(MetaAfter(c, n).sid, e).1;
    assert Woven(c, n + 1) == w + (if f.Some? then [f.value] else []) + [Ev(e)];
    hide Woven, MetaAfter, Named;
    if f.Some? {
      assert FailsAs(e, f.value);
      assert w + [f.value] + [Ev(e)] == w + [f.value, Ev(e)];
    } else {
      assert w + [] == w;
    }
  }

  /** A result event that reports a cost, be it null. */
  predicate SetsCost(e: Event) { e.kind.Result? && e.kind.fields.Fields? && e.kind.fields.cost.Some? }

  /** The cost is the last one reported. */
  lemma {:induction false} CostIs(c: Setup, from: nat, n: nat)
    requires from <= n <= |c.source| && (from > 0 ==> SetsCost(c.source[from - 1]))
    requires forall k :: from <= k < n ==> !SetsCost(c.source[k])
    ensures MetaAfter(c, n).cost == if from > 0 then c.source[from - 1].kind.fields.cost.value else None
    decreases n
  {
    if n > from { CostIs(c, from, n - 1); }
  }

  // --------------------------------------------------------------- progress

  function Rank(p: Producer): nat {
    match p
    case PutFailure(_, _) => 10
    case Check(_) => 8
    case Put(_) => 7
    case Pull => 5
    case PutInternal => 4
    case PutSentinel => 2
    case Done(_) => 0
  }

  function Measure(c: Setup, s: State): nat
    requires s.pos <= |c.source|
  {
    6 * (|c.source| - s.pos) + Rank(s.producer) + |s.queue| +
    match s.consumer case Reading => 3 case Leaving => 2 case Awaiting => 1 case Over(_) => 0
  }

  lemma StepDecreases(c: Setup, s: State, step: Step)
    requires Inv(c, s) && Enabled(c, s, step)
    ensures Do(c, s, step).pos <= |c.source| && Measure(c, Do(c, s, step)) < Measure(c, s)
  {
    hide Woven, MetaAfter, Full, Track, HandleInit, InStep, Stopped, Truthy;
  }

  /** No run is longer than six steps an event and ten more. */
  lemma {:induction false} RunBounded(c: Setup, s: State, steps: seq<Step>)
    requires Inv(c, s) && Run(c, s, steps)
    ensures |steps| <= Measure(c, s)
    decreases |steps|
  {
    if steps != [] {
      StepInv(c, s, steps[0]);
      StepDecreases(c, s, steps[0]);
      RunBounded(c, Do(c, s, steps[0]), steps[1..]);
    }
  }

  /** The consumer waits for a cancelled producer that waits for room which nobody will make. */
  predicate Stuck(s: State) {
    s.consumer.Awaiting? && s.producer.PutSentinel? && |s.queue| == QUEUE_SIZE
  }

  /** A step other than the client leaving is possible exactly until the end, except when stuck. */
  lemma ProgressIff(c: Setup, s: State)
    requires Inv(c, s)
    ensures (exists step: Step :: Enabled(c, s, step) && !step.Leave?) <==> !s.consumer.Over? && !Stuck(s)
  {
    hide Woven, MetaAfter, Full, Track, HandleInit, InStep, Stopped, Truthy;
    if !s.consumer.Over? && !Stuck(s) {
      var step :=
        if s.producer.Pull? then PullStep
        else if s.producer.Check? then Connected
        else if s.producer.Done? then (if s.consumer.Reading? then Get else Finish)
        else if |s.queue| < QUEUE_SIZE then PutStep
        else if s.consumer.Reading? then Get
        else Cancel;
      DoneHasMore(c, s);
      assert Enabled(c, s, step);
    }
  }

  /** A finished producer left its sentinel to a consumer that still reads. */
  lemma DoneHasMore(c: Setup, s: State)
    requires Inv(c, s)
    ensures s.producer.Done? && s.consumer.Reading? ==> s.queue != []
  {
    hide Woven, MetaAfter, Full, Track, HandleInit, InStep, Stopped, Truthy;
    assert s.queue == [] ==> s.taken == s.log;
  }

  /** Cancelling gets stuck exactly if the queue is full and the producer not yet at its sentinel. */
  lemma CancelStuckIff(c: Setup, s: State)
    requires Inv(c, s) && Enabled(c, s, Cancel)
    ensures Stuck(Do(c, s, Cancel)) <==> |s.queue| == 100 && !s.producer.PutSentinel?
  {}

  // The stuck state is reached: a slow client leaves when one event more than the queue takes has come.

  const INIT_EVENT := Event(Init(Parsed(Some("s"), true)), 0)

  const FLOOD := Setup(Some("s"), [INIT_EVENT] + seq(QUEUE_SIZE, i => Event(Message, i)), false)

  function Filled(n: nat): seq<Item>
    requires n <= QUEUE_SIZE
  {
    seq(n, i requires 0 <= i < n => Ev(FLOOD.source[i]))
  }

  /** The first `n` events are queued and nothing is read. */
  function Flooded(n: nat): State
    requires n <= QUEUE_SIZE
  {
    State(n, Pull, Meta(Some("s"), false, if n == 0 then 0 else n - 1, None), false,
          Filled(n), [], Filled(n), Reading, false, false)
  }

  lemma {:induction false} RunOneMore(c: Setup, s: State, steps: seq<Step>, step: Step)
    requires Run(c, s, steps) && Enabled(c, End(c, s, steps), step)
    ensures Run(c, s, steps + [step]) && End(c, s, steps + [step]) == Do(c, End(c, s, steps), step)
    decreases |steps|
  {
    if steps == [] {
      assert [] + [step] == [step] && [step][1..] == [];
    } else {
      RunOneMore(c, Do(c, s, steps[0]), steps[1..], step);
      assert (steps + [step])[1..] == steps[1..] + [step];
    }
  }

  lemma Extend(c: Setup, s: State, steps: seq<Step>, step: Step) returns (longer: seq<Step>)
    requires Run(c, s, steps) && Enabled(c, End(c, s, steps), step)
    ensures Run(c, s, longer) && End(c, s, longer) == Do(c, End(c, s, steps), step) && longer == steps + [step]
  {
    RunOneMore(c, s, steps, step);
    longer := steps + [step];
  }

  lemma FillOne(n: nat)
    requires n < QUEUE_SIZE
    ensures Filled(n) + [Ev(FLOOD.source[n])] == Filled(n + 1)
  {}

  lemma {:induction false} Fill(n: nat) returns (steps: seq<Step>)
    requires n <= QUEUE_SIZE
    ensures Run(FLOOD, Start(FLOOD), steps) && End(FLOOD, Start(FLOOD), steps) == Flooded(n)
  {
    if n == 0 {
      steps := [];
      assert Filled(0) == [];
    } else {
      steps := Fill(n - 1);
      hide Run, End, Filled;
      steps := Extend(FLOOD, Start(FLOOD), steps, PullStep);
      steps := Extend(FLOOD, Start(FLOOD), steps, Connected);
      FilledSize(n - 1);
      steps := Extend(FLOOD, Start(FLOOD), steps, PutStep);
      FillOne(n - 1);
    }
  }

  lemma FilledSize(n: nat)
    requires n <= QUEUE_SIZE
    ensures |Filled(n)| == n
  {}

  /** A run of the pipeline that ends stuck: the clean-up then waits for good. */
  lemma StuckReachable() returns (c: Setup, steps: seq<Step>)
    ensures Run(c, Start(c), steps) && Stuck(End(c, Start(c), steps))
  {
    c := FLOOD;
    steps := Fill(QUEUE_SIZE);
    hide Run, End, Filled;
    FilledSize(QUEUE_SIZE);
    steps := Extend(c, Start(c), steps, PullStep);
    steps := Extend(c, Start(c), steps, Connected);
    steps := Extend(c, Start(c), steps, Leave(true));
    steps := Extend(c, Start(c), steps, Cancel);
  }

  /** An agent stream that raises at once: the client sees the internal error, the session is completed. */
  lemma InternalCompletes() returns (c: Setup, steps: seq<Step>)
    ensures Run(c, Start(c), steps) && StaysConnected(steps)
    ensures var s := End(c, Start(c), steps);
            && Internal in s.taken && s.consumer.Over?
            && s.consumer.status.Some? && !s.consumer.status.value.isError
  {
    c := Setup(Some("s"), [], true);
    var longer: seq<Step> := [];
    hide Run, End;
    StartRun(c);
    longer := Extend(c, Start(c), longer, PullStep);
    longer := Extend(c, Start(c), longer, PutStep);
    longer := Extend(c, Start(c), longer, PutStep);
    longer := Extend(c, Start(c), longer, Get);
    longer := Extend(c, Start(c), longer, Get);
    longer := Extend(c, Start(c), longer, Finish);
    steps := longer;
  }

  lemma StartRun(c: Setup)
    ensures Run(c, Start(c), []) && End(c, Start(c), []) == Start(c)
  {}

  // ----------------------------------------------- a client that keeps reading

  predicate StaysConnected(steps: seq<Step>) {
    forall k :: 0 <= k < |steps| ==> !steps[k].Leave? && !steps[k].Disconnected?
  }

  lemma {:induction false} NeverCut(c: Setup, s: State, steps: seq<Step>)
    requires Inv(c, s) && Run(c, s, steps) && StaysConnected(steps) && !s.gone && !s.cut
    ensures !End(c, s, steps).gone && !End(c, s, steps).cut
    decreases |steps|
  {
    if steps != [] {
      StepInv(c, s, steps[0]);
      NotGone(c, s, steps[0]);
      NeverCut(c, Do(c, s, steps[0]), steps[1..]);
    }
  }

  lemma NotGone(c: Setup, s: State, step: Step)
    requires Inv(c, s) && Enabled(c, s, step) && !step.Leave? && !step.Disconnected? && !s.gone && !s.cut
    ensures !Do(c, s, step).gone && !Do(c, s, step).cut
  {
    hide Woven, MetaAfter, Full, Track, HandleInit, InStep, Stopped, Truthy;
  }

  /**
   Every run that cannot go on, of a client that keeps reading, has delivered the whole sequence
   and the sentinel, and wrote a status exactly if there is a session: `error` exactly if an error
   event or an init failure was delivered.
   */
  lemma CompleteDelivery(c: Setup, steps: seq<Step>)
    requires Run(c, Start(c), steps) && StaysConnected(steps)
    requires forall step: Step :: Enabled(c, End(c, Start(c), steps), step) ==> step.Leave?
    ensures var s := End(c, Start(c), steps);
            && s.taken == Full(c) + [Sentinel]
            && s.consumer.Over?
            && (s.consumer.status.Some? <==> Truthy(MetaAfter(c, |c.source|).sid))
            && (s.consumer.status.Some? ==>
                  && s.consumer.status.value == MetaAfter(c, |c.source|)
                  && (s.consumer.status.value.isError <==> exists i :: i in s.taken && CountsAsError(i)))
  {
    hide Woven, MetaAfter, Full, Track, HandleInit, InStep, Stopped, Truthy, Do;
    var s := End(c, Start(c), steps);
    StartInv(c);
    RunInv(c, Start(c), steps);
    NeverCut(c, Start(c), steps);
    ProgressIff(c, s);
    ItemsPrefix(c, s);
    assert s.taken + [] == s.taken;
    DeliveredErrors(c);
  }

  lemma DeliveredErrors(c: Setup)
    ensures MetaAfter(c, |c.source|).isError <==> exists i :: i in Full(c) + [Sentinel] && CountsAsError(i)
  {
    hide Woven, MetaAfter;
    var w := Woven(c, |c.source|);
    ErrorSeen(c, |c.source|);
    assert Full(c) + [Sentinel] == w + ((if c.raises then [Internal] else []) + [Sentinel]);
    forall i | CountsAsError(i) ensures i in Full(c) + [Sentinel] <==> i in w {}
  }
}
