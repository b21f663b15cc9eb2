/**
 The stream of one query as the streaming endpoint receives it: what is left in the session's
 status when the agent's events have gone through the pipeline.
 */
module QueryEndpoint {
  import opened Common
  import opened Redis
  import R = StreamRunner
  import P = Pipeline

  /**
   An agent event as the endpoint reads it. The init data always names the session; the result
   data has its turn count under `num_turns`, which the endpoint does not look at.
   */
  function Received(e: R.Event, id: string, creates: bool): P.Event {
    match e
    case Init => P.Event(P.Init(P.Parsed(Some(id), creates)), 0)
    case Message => P.Event(P.Message, 0)
    case Error => P.Event(P.Error, 0)
    case Result(ctx) => P.Event(P.Result(P.Fields(None, Some(ctx.cost))), 0)
    case Partial => P.Event(P.Other("partial"), 0)
    case Question(_) => P.Event(P.Other("question"), 0)
    case Done(_) => P.Event(P.Other("done"), 0)
  }

  function ReceivedAll(t: seq<R.Event>, id: string, creates: bool): (es: seq<P.Event>)
    ensures |es| == |t| && forall i :: 0 <= i < |t| ==> es[i] == Received(t[i], id, creates)
  {
    seq(|t|, i requires 0 <= i < |t| => Received(t[i], id, creates))
  }

  /**
   The endpoint's run over such a stream, for a query that resumes `sid` or starts a session. The
   stream raises at its end when the session cannot be unregistered.
   */
  function SetupOf(t: seq<R.Event>, id: string, creates: bool, sid: Option<string>, raises: bool): P.Setup {
    P.Setup(sid, ReceivedAll(t, id, creates), raises)
  }

  predicate OneInit(t: seq<R.Event>) {
    t != [] && t[0].Init? && forall i :: 1 <= i < |t| ==> !t[i].Init?
  }

  lemma StreamHasOneInit(w: R.World, s: Store, id: string)
    ensures OneInit(R.Stream(w, s, id))
  {
    hide R.PollAt, R.ClearAt, R.AllOuts, R.CtxAfter;
    R.ForwardedMiddle(w, s, id);
    var f, c := R.Forwarded(w, s, id), R.Closing(w, s, id);
    assert forall i :: 0 <= i < |c| ==> !c[i].Init?;
    hide R.Forwarded, R.Closing;
    assert R.Stream(w, s, id) == [R.Init] + f + c;
  }

  /** The init event could not create the session. */
  predicate CreationFails(creates: bool, sid: Option<string>) { sid.None? && !creates }

  predicate HasError(t: seq<R.Event>, n: nat)
    requires n <= |t|
  {
    exists i :: 0 <= i < n && t[i].Error?
  }

  lemma HasErrorStep(t: seq<R.Event>, n: nat)
    requires 1 <= n <= |t|
    ensures HasError(t, n) <==> HasError(t, n - 1) || t[n - 1].Error?
    ensures HasError(t, |t|) <==> R.Error in t
    ensures !HasError(t, 0)
  {}

  /** After `n` events: at most the one failure, errors counted, turns those of the messages. */
  lemma {:induction false} AfterEvents(t: seq<R.Event>, id: string, creates: bool, sid: Option<string>, raises: bool,
      n: nat)
    requires OneInit(t) && id != "" && 1 <= n <= |t|
    ensures var c := SetupOf(t, id, creates, sid, raises); var m := P.MetaAfter(c, n);
            && P.Failures(P.Woven(c, n)) == (if CreationFails(creates, sid) then 1 else 0)
            && (m.isError <==> CreationFails(creates, sid) || HasError(t, n))
            && m.sid == (if sid.Some? then sid else Some(id))
  {
    hide P.Woven, P.MetaAfter, P.Failures, HasError;
    HasErrorStep(t, n);
    if n == 1 {
      FirstEvent(t, id, creates, sid, raises);
    } else {
      AfterEvents(t, id, creates, sid, raises, n - 1);
      LaterEvent(SetupOf(t, id, creates, sid, raises), n);
    }
  }

  lemma FirstWoven(t: seq<R.Event>, id: string, creates: bool, sid: Option<string>, raises: bool)
    requires OneInit(t) && id != ""
    ensures var c := SetupOf(t, id, creates, sid, raises);
            P.Woven(c, 1) == (if CreationFails(creates, sid) then [P.CreateFailed] else []) + [P.Ev(c.source[0])]
  {
    var c := SetupOf(t, id, creates, sid, raises);
    assert P.MetaAfter(c, 0).sid == sid && P.Woven(c, 0) == [];
    hide P.MetaAfter;
    assert P.HandleInit(sid, c.source[0]).1 == if CreationFails(creates, sid) then Some(P.CreateFailed) else None;
  }

  lemma FirstMeta(t: seq<R.Event>, id: string, creates: bool, sid: Option<string>, raises: bool)
    requires OneInit(t) && id != ""
    ensures var m := P.MetaAfter(SetupOf(t, id, creates, sid, raises), 1);
            m.isError == CreationFails(creates, sid) && m.sid == (if sid.Some? then sid else Some(id))
  {
    var c := SetupOf(t, id, creates, sid, raises);
    hide P.Woven;
    assert P.MetaAfter(c, 0) == P.Meta(sid, false, 0, None);
    assert P.HandleInit(sid, c.source[0]).1.Some? <==> CreationFails(creates, sid);
  }

  lemma FirstEvent(t: seq<R.Event>, id: string, creates: bool, sid: Option<string>, raises: bool)
    requires OneInit(t) && id != ""
    ensures var c := SetupOf(t, id, creates, sid, raises); var m := P.MetaAfter(c, 1);
            && P.Failures(P.Woven(c, 1)) == (if CreationFails(creates, sid) then 1 else 0)
            && m.isError == CreationFails(creates, sid) && m.sid == (if sid.Some? then sid else Some(id))
  {
    var c := SetupOf(t, id, creates, sid, raises);
    var e := P.Ev(c.source[0]);
    FirstWoven(t, id, creates, sid, raises);
    FirstMeta(t, id, creates, sid, raises);
    FailuresOf(e);
    hide P.Woven, P.MetaAfter, P.Failures;
    assert [P.CreateFailed] + [e] == [P.CreateFailed, e] && [] + [e] == [e];
  }

  lemma FailuresOf(e: P.Item)
    requires e.Ev?
    ensures P.Failures([e]) == 0 && P.Failures([P.CreateFailed, e]) == 1
  {
    P.FailuresSnoc([], e);
    P.FailuresSnoc([], P.CreateFailed);
    P.FailuresSnoc([P.CreateFailed], e);
    assert [] + [e] == [e] && [] + [P.CreateFailed] == [P.CreateFailed]
        && [P.CreateFailed] + [e] == [P.CreateFailed, e];
  }

  /** An event that is no init adds itself and nothing else. */
  lemma LaterEvent(c: P.Setup, n: nat)
    requires 1 <= n <= |c.source| && !c.source[n - 1].kind.Init?
    ensures P.Failures(P.Woven(c, n)) == P.Failures(P.Woven(c, n - 1))
    ensures P.MetaAfter(c, n).sid == P.MetaAfter(c, n - 1).sid
    ensures P.MetaAfter(c, n).isError == (P.MetaAfter(c, n - 1).isError || c.source[n - 1].kind.Error?)
  {
    assert P.Woven(c, n) == P.Woven(c, n - 1) + [] + [P.Ev(c.source[n - 1])];
    assert P.Woven(c, n - 1) + [] == P.Woven(c, n - 1);
    P.FailuresSnoc(P.Woven(c, n - 1), P.Ev(c.source[n - 1]));
  }

  lemma CostAfter(t: seq<R.Event>, id: string, creates: bool, sid: Option<string>, raises: bool, n: nat)
    requires OneInit(t) && 1 <= n <= |t|
    ensures var c := SetupOf(t, id, creates, sid, raises);
            P.MetaAfter(c, n).cost == if t[n - 1].Result? then t[n - 1].ctx.cost else P.MetaAfter(c, n - 1).cost
  {
    var c := SetupOf(t, id, creates, sid, raises);
    var e := c.source[n - 1];
    hide P.Woven, P.HandleInit;
    assert P.MetaAfter(c, n).cost == P.Track(P.MetaAfter(c, n - 1), e).cost;
  }

  lemma {:induction false} NoCost(t: seq<R.Event>, id: string, creates: bool, sid: Option<string>, raises: bool, n: nat)
    requires OneInit(t) && n <= |t| && forall i :: 0 <= i < n ==> !t[i].Result?
    ensures P.MetaAfter(SetupOf(t, id, creates, sid, raises), n).cost.None?
  {
    if n > 0 {
      NoCost(t, id, creates, sid, raises, n - 1);
      hide P.MetaAfter, SetupOf;
      CostAfter(t, id, creates, sid, raises, n);
    }
  }

  /** A word of the event grammar has its only result, if any, before its only done event. */
  predicate Closed(t: seq<R.Event>) {
    && |t| >= 3 && OneInit(t) && t[|t| - 1].Done?
    && forall i :: 0 <= i < |t| - 2 ==> !t[i].Result?
  }

  lemma StreamIsClosed(w: R.World, s: Store, id: string)
    requires !R.CutShort(w, s, id)
    ensures Closed(R.Stream(w, s, id))
  {
    StreamHasOneInit(w, s, id);
    R.StreamIsWord(w, s, id);
    hide R.Stream, R.CutShort, OneInit;
  }

  lemma CostOfClosed(t: seq<R.Event>, id: string, creates: bool, sid: Option<string>, raises: bool)
    requires Closed(t)
    ensures P.MetaAfter(SetupOf(t, id, creates, sid, raises), |t|).cost ==
            (if t[|t| - 2].Result? then t[|t| - 2].ctx.cost else None)
  {
    var n := |t|;
    hide P.MetaAfter, SetupOf, OneInit;
    NoCost(t, id, creates, sid, raises, n - 2);
    CostAfter(t, id, creates, sid, raises, n);
    CostAfter(t, id, creates, sid, raises, n - 1);
  }

  lemma TurnsOfReceived(t: seq<R.Event>, id: string, creates: bool, sid: Option<string>, raises: bool)
    ensures var c := SetupOf(t, id, creates, sid, raises); P.MetaAfter(c, |t|).turns == P.Messages(c.source)
  {
    var c := SetupOf(t, id, creates, sid, raises);
    P.TurnsCounted(c, 0, |t|);
    assert c.source[0..|t|] == c.source;
  }

  /** The internal error of a stream that raises is no failure of the init event. */
  lemma FullFailures(c: P.Setup)
    ensures P.Failures(P.Full(c)) == P.Failures(P.Woven(c, |c.source|))
  {
    hide P.Woven;
    var woven := P.Woven(c, |c.source|);
    if c.raises { P.FailuresSnoc(woven, P.Internal); } else { assert woven + [] == woven; }
  }

  /**
   What the session's status says after a stream that ran to its end: at most one failure item was
   shown, and exactly one if the creation failed; `error` exactly after such a failure or an error
   event; the turns are the messages of the stream, whatever the result reported; the cost is the
   one of the closing result, if the stream closed with one.
   */
  lemma StatusOfStream(w: R.World, s: Store, id: string, creates: bool, sid: Option<string>)
    requires id != "" && !R.CutShort(w, s, id)
    ensures var t := R.Stream(w, s, id);
            var c := SetupOf(t, id, creates, sid, w.unregisterFails);
            var m := P.MetaAfter(c, |c.source|);
            && |t| >= 3
            && P.Failures(P.Full(c)) == (if CreationFails(creates, sid) then 1 else 0)
            && (m.isError <==> CreationFails(creates, sid) || R.Error in t)
            && m.turns == P.Messages(ReceivedAll(t, id, creates))
            && m.cost == (if t[|t| - 2].Result? then t[|t| - 2].ctx.cost else None)
  {
    var t, raises := R.Stream(w, s, id), w.unregisterFails;
    StreamIsClosed(w, s, id);
    hide R.Stream, R.CutShort;
    var c := SetupOf(t, id, creates, sid, raises);
    AfterEvents(t, id, creates, sid, raises, |t|);
    CostOfClosed(t, id, creates, sid, raises);
    TurnsOfReceived(t, id, creates, sid, raises);
    FullFailures(c);
    HasErrorStep(t, |t|);
    hide HasError, P.Woven, P.MetaAfter, P.Failures, P.Full, Closed;
    assert c.source == ReceivedAll(t, id, creates);
  }

  // ----------------------------------------------- stored and reported turns

  /** A message that becomes a message event. */
  predicate Counted(m: R.Msg) {
    m.User? || (m.Assistant? && forall i :: 0 <= i < |m.blocks| ==> !R.Asks(m.blocks[i]))
  }

  function CountedUpTo(w: R.World, n: nat): nat
    requires n <= |w.msgs|
  {
    if n == 0 then 0 else CountedUpTo(w, n - 1) + if Counted(w.msgs[n - 1]) then 1 else 0
  }

  function MessagesIn(t: seq<R.Event>): nat {
    if t == [] then 0 else MessagesIn(t[..|t| - 1]) + if t[|t| - 1].Message? then 1 else 0
  }

  lemma MessagesSnoc(t: seq<R.Event>, e: R.Event)
    ensures MessagesIn(t + [e]) == MessagesIn(t) + if e.Message? then 1 else 0
  {
    assert (t + [e])[..|t|] == t;
  }

  lemma {:induction false} MessagesReceived(t: seq<R.Event>, id: string, creates: bool)
    ensures P.Messages(ReceivedAll(t, id, creates)) == MessagesIn(t)
  {
    if t != [] {
      MessagesReceived(t[..|t| - 1], id, creates);
      assert ReceivedAll(t, id, creates)[..|t| - 1] == ReceivedAll(t[..|t| - 1], id, creates);
    }
  }

  lemma {:induction false} AfterInit(t: seq<R.Event>)
    ensures MessagesIn([R.Init] + t) == MessagesIn(t)
  {
    if t == [] {
      assert [R.Init] + t == [R.Init] && [R.Init][..0] == [];
    } else {
      var m, e := t[..|t| - 1], t[|t| - 1];
      AfterInit(m);
      assert t == m + [e] && [R.Init] + t == ([R.Init] + m) + [e];
      MessagesSnoc([R.Init] + m, e);
      MessagesSnoc(m, e);
    }
  }

  lemma CountedIff(x: R.Ctx, m: R.Msg, partials: bool)
    ensures R.Handle(x, m, partials).1 == Some(R.Message) <==> Counted(m)
  {
    if m.Assistant? { R.FirstQuestion(m.blocks); }
  }

  lemma OneMoreCounted(outs: seq<R.Out>, o: R.Out)
    ensures MessagesIn(R.Events(outs + [o])) == MessagesIn(R.Events(outs)) + if o.event.Message? then 1 else 0
  {
    hide R.Events;
    R.EventsSnoc(outs, o);
    MessagesSnoc(R.Events(outs), o.event);
  }

  lemma NothingCounted(w: R.World)
    ensures MessagesIn(R.Events(R.Outs(w, 0))) == CountedUpTo(w, 0) == 0
  {
    assert R.Events([]) == [];
  }

  lemma CountedStep(w: R.World, n: nat)
    requires n < |w.msgs|
    ensures CountedUpTo(w, n + 1) == CountedUpTo(w, n) + if Counted(w.msgs[n]) then 1 else 0
  {}

  lemma OutsCountedStep(w: R.World, n: nat)
    requires n < |w.msgs| && MessagesIn(R.Events(R.Outs(w, n))) == CountedUpTo(w, n)
    ensures MessagesIn(R.Events(R.Outs(w, n + 1))) == CountedUpTo(w, n + 1)
  {
    hide R.Handle, R.CtxAfter, R.Events, R.Outs, Counted, CountedUpTo, MessagesIn;
    var m, x := w.msgs[n], R.CtxAfter(w, n);
    R.OutsStep(w, n);
    CountedIff(x, m, w.partials);
    CountedStep(w, n);
    var h := R.Handle(x, m, w.partials);
    if h.1.Some? { OneMoreCounted(R.Outs(w, n), R.Out(h.1.value, h.0)); }
  }

  lemma {:induction false} OutsCounted(w: R.World, n: nat)
    requires n <= |w.msgs|
    ensures MessagesIn(R.Events(R.Outs(w, n))) == CountedUpTo(w, n)
  {
    hide R.Events, R.Outs, CountedUpTo, MessagesIn;
    if n == 0 { NothingCounted(w); } else {
      OutsCounted(w, n - 1);
      OutsCountedStep(w, n - 1);
    }
  }

  lemma AllOutsCounted(w: R.World)
    ensures MessagesIn(R.Events(R.AllOuts(w))) == CountedUpTo(w, |w.msgs|)
  {
    var n := |w.msgs|;
    OutsCounted(w, n);
    if w.ending == R.Ends(true) {
      R.EventsSnoc(R.Outs(w, n), R.Out(R.Error, R.CtxAfter(w, n)));
      MessagesSnoc(R.Events(R.Outs(w, n)), R.Error);
    } else {
      assert R.Outs(w, n) + [] == R.Outs(w, n);
    }
  }

  /** The stream of a run that ends without an interrupt or a failing call. */
  predicate Undisturbed(w: R.World) { w.register.Answers? && w.ending.Ends? }

  /**
   For such a run the stored turns are the reported ones exactly if the user messages and the
   assistant messages without a question are as many as the turns the SDK's messages add up to.
   */
  lemma TurnsAgreeIff(w: R.World, s: Store, id: string, creates: bool, sid: Option<string>, raises: bool)
    requires Undisturbed(w) && R.AllClear(w, s, id, |R.AllOuts(w)|)
    ensures var t := R.Stream(w, s, id);
            var m := P.MetaAfter(SetupOf(t, id, creates, sid, raises), |t|);
            && |t| >= 3 && t[|t| - 2] == R.Result(R.CtxAfter(w, |w.msgs|))
            && (m.turns == t[|t| - 2].ctx.turns <==> CountedUpTo(w, |w.msgs|) == R.CtxAfter(w, |w.msgs|).turns)
  {
    var ctx, outs, t := R.CtxAfter(w, |w.msgs|), R.AllOuts(w), R.Stream(w, s, id);
    R.DrainedShape(w, s, id);
    AllOutsCounted(w);
    StreamShape(w, s, id);
    hide R.Stream, R.AllOuts, R.CtxAfter, R.Forwarded, R.Closing, R.PollAt,
      R.ClearAt, P.MetaAfter;
    var f, done := R.Events(outs), R.Ended(ctx)[1];
    assert t == [R.Init] + f + [R.Result(ctx), done];
    assert t == ([R.Init] + f) + [R.Result(ctx)] + [done];
    AfterInit(f);
    MessagesSnoc([R.Init] + f, R.Result(ctx));
    MessagesSnoc([R.Init] + f + [R.Result(ctx)], done);
    TurnsOfReceived(t, id, creates, sid, raises);
    MessagesReceived(t, id, creates);
  }

  lemma StreamShape(w: R.World, s: Store, id: string)
    ensures R.Stream(w, s, id) == [R.Init] + R.Forwarded(w, s, id) + R.Closing(w, s, id)
  {}

  lemma {:induction false} CountedBound(w: R.World, n: nat)
    requires n <= |w.msgs|
    ensures CountedUpTo(w, n) <= n
    ensures CountedUpTo(w, n) == n <==> forall k :: 0 <= k < n ==> Counted(w.msgs[k])
  {
    if n > 0 { CountedBound(w, n - 1); }
  }

  /** Without a result message they agree exactly if every message is a user or plain assistant message. */
  lemma TurnsAgreeWithoutResult(w: R.World, s: Store, id: string, creates: bool, sid: Option<string>, raises: bool)
    requires Undisturbed(w) && R.AllClear(w, s, id, |R.AllOuts(w)|)
    requires forall k :: 0 <= k < |w.msgs| ==> !w.msgs[k].ResultMsg?
    ensures var t := R.Stream(w, s, id);
            var m := P.MetaAfter(SetupOf(t, id, creates, sid, raises), |t|);
            && |t| >= 3 && t[|t| - 2].Result?
            && (m.turns == t[|t| - 2].ctx.turns <==> forall k :: 0 <= k < |w.msgs| ==> Counted(w.msgs[k]))
  {
    TurnsAgreeIff(w, s, id, creates, sid, raises);
    R.NoResult(w, |w.msgs|);
    hide R.Stream, R.CtxAfter, P.MetaAfter, Counted, CountedUpTo;
    CountedBound(w, |w.msgs|);
  }

  /** After a last result message that reports turns: exactly if the count is those plus the messages since. */
  lemma TurnsAgreeAfterResult(w: R.World, s: Store, id: string, creates: bool, sid: Option<string>, raises: bool,
      j: nat)
    requires Undisturbed(w) && R.AllClear(w, s, id, |R.AllOuts(w)|)
    requires j < |w.msgs| && w.msgs[j].ResultMsg? && w.msgs[j].turns.Some?
    requires forall k :: j < k < |w.msgs| ==> !w.msgs[k].ResultMsg?
    ensures var t := R.Stream(w, s, id);
            var m := P.MetaAfter(SetupOf(t, id, creates, sid, raises), |t|);
            && |t| >= 3 && t[|t| - 2].Result?
            && (m.turns == t[|t| - 2].ctx.turns <==>
                CountedUpTo(w, |w.msgs|) == w.msgs[j].turns.value + (|w.msgs| - 1 - j))
  {
    TurnsAgreeIff(w, s, id, creates, sid, raises);
    R.LastResultDecides(w, j, |w.msgs|);
  }

  /** A world whose SDK sends a result with five turns and nothing else. */
  function QuietWorld(): R.World {
    var msgs := [R.ResultMsg(false, Some(5), None, false)];
    R.World(msgs, R.Ends(false), false, R.Answers, false, k => R.Answers, (k, s) => s)
  }

  lemma QuietStream(s: Store)
    ensures var ctx := R.Ctx(5, false, None);
            R.Stream(QuietWorld(), s, "a") == [R.Init, R.Result(ctx), R.Done(R.Completed)]
    ensures R.AllOuts(QuietWorld()) == []
  {
    var w := QuietWorld();
    assert R.CtxAfter(w, 0) == R.Ctx(0, false, None);
    assert R.CtxAfter(w, 1) == R.Ctx(5, false, None);
    assert R.Outs(w, 1) == [] && R.AllOuts(w) == [];
    assert R.Forwarded(w, s, "a") == [];
    assert R.Trace(w, s, "a") == [R.Result(R.Ctx(5, false, None)), R.Done(R.Completed)];
  }

  /** A run whose client is told of five turns while the session keeps none. */
  lemma StoredTurnsDiffer(s: Store)
    ensures var t := R.Stream(QuietWorld(), s, "a");
            && |t| == 3 && t[1].Result? && t[1].ctx.turns == 5
            && P.MetaAfter(SetupOf(t, "a", true, None, false), 3).turns == 0
  {
    QuietStream(s);
    hide R.Stream, P.MetaAfter;
    var t := R.Stream(QuietWorld(), s, "a");
    TurnsOfReceived(t, "a", true, None, false);
    MessagesReceived(t, "a", true);
    MessagesSnoc([], R.Init);
    MessagesSnoc([R.Init], t[1]);
    MessagesSnoc([R.Init, t[1]], t[2]);
    assert [] + [R.Init] == [R.Init] && [R.Init] + [t[1]] == [R.Init, t[1]] && [R.Init, t[1]] + [t[2]] == t;
  }
}
