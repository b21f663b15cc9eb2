/** Token usage: what a single query adds up over its events, and the totals over models. */
module Usage {
  import opened Common

  /** A usage value; only integers are added. `Other` stands for a null or a text. */
  datatype Value = Tokens(n: int) | Fraction(x: real) | Other

  type UsageDict = map<string, Value>

  datatype Event =
    | Message(assistant: bool, content: seq<Json>, usage: Option<UsageDict>)
    | Result(usage: Option<UsageDict>)
    | Error
    | Ignored   // any other event, or data that is no JSON

  // ------------------------------------------------------------ accumulation

  /** Adding an integer to a value that is no number raises. */
  predicate Clash(sum: UsageDict, usage: UsageDict) {
    exists k :: k in usage && usage[k].Tokens? && k in sum && sum[k].Other?
  }

  function Plus(v: Value, n: int): Value
    requires !v.Other?
  {
    if v.Tokens? then Tokens(v.n + n) else Fraction(v.x + n as real)
  }

  function Merge(sum: UsageDict, usage: UsageDict): UsageDict
    requires !Clash(sum, usage)
  {
    map k | k in sum.Keys + usage.Keys && (k in sum || usage[k].Tokens?) ::
      if k !in usage || !usage[k].Tokens? then sum[k] else Plus(if k in sum then sum[k] else Tokens(0), usage[k].n)
  }

  /** `None` inside: nothing seen yet; `None` outside: an exception. */
  function Accumulate(sum: Option<UsageDict>, usage: Option<UsageDict>): Option<Option<UsageDict>> {
    if usage.None? || usage.value == map[] then Some(sum)
    else if sum.None? then Some(usage)
    else if Clash(sum.value, usage.value) then None
    else Some(Some(Merge(sum.value, usage.value)))
  }

  /** The usage an event reports. */
  function UsageOf(e: Event): Option<UsageDict> {
    match e
    case Message(assistant, _, usage) => if assistant then usage else None
    case Result(usage) => usage
    case _ => None
  }

  function Total(events: seq<Event>): Option<Option<UsageDict>> {
    if events == [] then Some(None) else
      match Total(events[..|events| - 1])
      case None => None
      case Some(sum) => Accumulate(sum, UsageOf(events[|events| - 1]))
  }

  function ValueAt(total: Option<Option<UsageDict>>, key: string): Option<Value> {
    if total.Some? && total.value.Some? && key in total.value.value then Some(total.value.value[key]) else None
  }

  // ------------------------------------------------------- what is reported

  predicate Reports(e: Event, key: string) {
    UsageOf(e).Some? && key in UsageOf(e).value && UsageOf(e).value[key].Tokens?
  }

  function SumOf(events: seq<Event>, key: string): int {
    if events == [] then 0 else
      SumOf(events[..|events| - 1], key) +
      if Reports(events[|events| - 1], key) then UsageOf(events[|events| - 1]).value[key].n else 0
  }

  predicate Reported(events: seq<Event>, key: string) {
    exists i :: 0 <= i < |events| && Reports(events[i], key)
  }

  predicate Counts(e: Event) { UsageOf(e).Some? && UsageOf(e).value != map[] }

  predicate FirstAt(events: seq<Event>, i: int) {
    0 <= i < |events| && Counts(events[i]) && forall j :: 0 <= j < i ==> !Counts(events[j])
  }

  lemma {:induction false} NothingReported(events: seq<Event>, key: string)
    requires !Reported(events, key)
    ensures SumOf(events, key) == 0
  {
    if events != [] {
      var m := events[..|events| - 1];
      assert forall i :: 0 <= i < |m| ==> Reports(m[i], key) == Reports(events[i], key);
      NothingReported(m, key);
    }
  }

  lemma ReportedSnoc(events: seq<Event>, e: Event, key: string)
    ensures Reported(events + [e], key) <==> Reported(events, key) || Reports(e, key)
    ensures SumOf(events + [e], key) == SumOf(events, key) + if Reports(e, key) then UsageOf(e).value[key].n else 0
  {
    var all := events + [e];
    assert all[..|events|] == events && all[|events|] == e;
    if Reported(events, key) {
      var i :| 0 <= i < |events| && Reports(events[i], key);
      assert Reports(all[i], key);
    }
    if Reported(all, key) && !Reports(e, key) {
      var i :| 0 <= i < |all| && Reports(all[i], key);
      assert Reports(events[i], key);
    }
  }

  lemma {:induction false} NothingYet(events: seq<Event>)
    ensures Total(events) == Some(None) <==> forall i :: 0 <= i < |events| ==> !Counts(events[i])
  {
    if events != [] {
      var m := events[..|events| - 1];
      NothingYet(m);
      assert forall i :: 0 <= i < |m| ==> m[i] == events[i];
    }
  }

  lemma {:induction false} FirstOrNone(events: seq<Event>)
    ensures (exists i :: FirstAt(events, i)) || forall i :: 0 <= i < |events| ==> !Counts(events[i])
  {
    if events != [] {
      var m := events[..|events| - 1];
      FirstOrNone(m);
      assert forall i :: 0 <= i < |m| ==> m[i] == events[i];
      if i :| FirstAt(m, i) { assert FirstAt(events, i); }
      else if Counts(events[|m|]) { assert FirstAt(events, |m|); }
    }
  }

  // --------------------------------------- the total, from the first usage on

  /** What the first usage leaves under a key that is no integer: it is never dropped. */
  function Kept(e: Event, key: string): Option<Value> {
    if UsageOf(e).Some? && key in UsageOf(e).value && !UsageOf(e).value[key].Tokens?
    then Some(UsageOf(e).value[key]) else None
  }

  /** Starting from `first`, some integer is added to a value that is no number. */
  ghost predicate Raises(events: seq<Event>, first: Event) {
    exists k :: Kept(first, k) == Some(Other) && Reported(events, k)
  }

  /** The value under a key when `first` is the first usage: all reported integers on top of what it keeps. */
  function Expected(events: seq<Event>, first: Event, key: string): Option<Value> {
    var kept := Kept(first, key);
    if kept == Some(Other) then kept
    else if kept.Some? && kept.value.Fraction? then Some(Fraction(kept.value.x + SumOf(events, key) as real))
    else if Reported(events, key) then Some(Tokens(SumOf(events, key)))
    else None
  }

  lemma NoReports(e: Event, key: string)
    requires !Counts(e)
    ensures !Reports(e, key)
  {}

  lemma NoneReported(events: seq<Event>, key: string)
    requires forall i :: 0 <= i < |events| ==> !Counts(events[i])
    ensures !Reported(events, key) && SumOf(events, key) == 0
  {
    forall i | 0 <= i < |events| ensures !Reports(events[i], key) { NoReports(events[i], key); }
    NothingReported(events, key);
  }

  lemma TotalAtFirst(events: seq<Event>, e: Event)
    requires Counts(e) && forall i :: 0 <= i < |events| ==> !Counts(events[i])
    ensures Total(events + [e]) == Some(UsageOf(e)) && !Raises(events + [e], e)
    ensures forall k :: ValueAt(Some(UsageOf(e)), k) == Expected(events + [e], e, k)
  {
    NothingYet(events);
    assert (events + [e])[..|events|] == events;
    hide Total, Reported, SumOf;
    forall k
      ensures Reported(events + [e], k) <==> Reports(e, k)
      ensures ValueAt(Some(UsageOf(e)), k) == Expected(events + [e], e, k)
    {
      ReportedSnoc(events, e, k);
      NoneReported(events, k);
    }
  }

  lemma ClashIff(events: seq<Event>, first: Event, sum: UsageDict, e: Event)
    requires Counts(e) && forall k :: ValueAt(Some(Some(sum)), k) == Expected(events, first, k)
    ensures Clash(sum, UsageOf(e).value) <==> exists k :: Kept(first, k) == Some(Other) && Reports(e, k)
  {
    hide SumOf, Reported;
    var usage := UsageOf(e).value;
    forall k ensures k in sum && sum[k].Other? <==> Kept(first, k) == Some(Other) {
      assert ValueAt(Some(Some(sum)), k) == Expected(events, first, k);
    }
    if k :| Kept(first, k) == Some(Other) && Reports(e, k) { assert k in usage && usage[k].Tokens? && k in sum; }
    if Clash(sum, usage) {
      var k :| k in usage && usage[k].Tokens? && k in sum && sum[k].Other?;
      assert Kept(first, k) == Some(Other) && Reports(e, k);
    }
  }

  lemma RaisesSnoc(events: seq<Event>, first: Event, e: Event)
    ensures Raises(events + [e], first) <==>
            Raises(events, first) || exists k :: Kept(first, k) == Some(Other) && Reports(e, k)
  {
    hide Reported, Reports, Kept;
    forall k ensures Reported(events + [e], k) <==> Reported(events, k) || Reports(e, k) { ReportedSnoc(events, e, k); }
  }

  lemma ValueStep(events: seq<Event>, first: Event, sum: UsageDict, e: Event, key: string)
    requires !Raises(events + [e], first) && ValueAt(Some(Some(sum)), key) == Expected(events, first, key)
    requires Counts(e) ==> !Clash(sum, UsageOf(e).value)
    ensures ValueAt(Accumulate(Some(sum), UsageOf(e)), key) == Expected(events + [e], first, key)
  {
    ReportedSnoc(events, e, key);
    if !Reported(events, key) { NothingReported(events, key); }
    hide SumOf, Reported;
    assert Kept(first, key) == Some(Other) ==> !Reports(e, key);
  }

  /** The whole outcome is decided by the first event that counts and the sums of all. */
  lemma {:induction false} TotalIs(events: seq<Event>, i: int)
    requires FirstAt(events, i)
    ensures Total(events).None? <==> Raises(events, events[i])
    ensures Total(events).Some? ==>
            Total(events).value.Some? && forall k :: ValueAt(Total(events), k) == Expected(events, events[i], k)
  {
    var n := |events| - 1;
    var m, e, first := events[..n], events[n], events[i];
    assert events == m + [e] && forall j :: 0 <= j < n ==> m[j] == events[j];
    if i == n { TotalAtFirst(m, e); } else {
      assert FirstAt(m, i);
      TotalIs(m, i);
      hide Reported, SumOf, Reports, Kept, Expected;
      RaisesSnoc(m, first, e);
      if Total(m).Some? {
        var sum := Total(m).value.value;
        if Counts(e) { ClashIff(m, first, sum, e); } else { forall k ensures !Reports(e, k) { NoReports(e, k); } }
        if !Raises(events, first) {
          forall k ensures ValueAt(Total(events), k) == Expected(events, first, k) { ValueStep(m, first, sum, e, k); }
        }
      }
    }
  }

  /** A run raises exactly if an event reports an integer where the first usage had no number. */
  lemma RaisesIff(events: seq<Event>)
    ensures Total(events).None? <==>
            exists i, j, k :: FirstAt(events, i) && i < j < |events| && Kept(events[i], k) == Some(Other)
                && Reports(events[j], k)
  {
    FirstOrNone(events);
    NothingYet(events);
    if i :| FirstAt(events, i) {
      TotalIs(events, i);
      hide Total;
      if Raises(events, events[i]) {
        var k :| Kept(events[i], k) == Some(Other) && Reported(events, k);
        var j :| 0 <= j < |events| && Reports(events[j], k);
        assert Counts(events[j]) && j != i;
        assert FirstAt(events, i) && i < j < |events| && Kept(events[i], k) == Some(Other) && Reports(events[j], k);
      }
    }
  }

  // ----------------------------------------------------------- conservation

  /** Each key has the sum of all values reported for it, and no other key is there. */
  ghost predicate Conserved(events: seq<Event>, total: Option<Option<UsageDict>>) {
    && total.Some?
    && forall k :: ValueAt(total, k) == if Reported(events, k) then Some(Tokens(SumOf(events, k))) else None
  }

  predicate NumbersOnly(usage: UsageDict) { forall k :: k in usage ==> usage[k].Tokens? }

  /** The first event that reports any usage reports integers only. */
  ghost predicate FirstIsClean(events: seq<Event>) {
    forall i :: FirstAt(events, i) ==> NumbersOnly(UsageOf(events[i]).value)
  }

  /** The sums are right for every run exactly if the first usage of the run has integers only. */
  lemma ConservedIff(events: seq<Event>)
    ensures Conserved(events, Total(events)) <==> FirstIsClean(events)
  {
    FirstOrNone(events);
    NothingYet(events);
    if i :| FirstAt(events, i) {
      TotalIs(events, i);
      OnlyFirst(events, i);
      hide Total, Counts, FirstAt;
      CleanIff(events, events[i]);
    } else {
      forall k ensures !Reported(events, k) { NoneReported(events, k); }
    }
  }

  lemma OnlyFirst(events: seq<Event>, i: int)
    requires FirstAt(events, i)
    ensures FirstIsClean(events) <==> NumbersOnly(UsageOf(events[i]).value)
  {}

  lemma CleanIff(events: seq<Event>, first: Event)
    requires UsageOf(first).Some?
    ensures NumbersOnly(UsageOf(first).value) <==>
            !Raises(events, first) && forall k ::
                Expected(events, first, k) == if Reported(events, k) then Some(Tokens(SumOf(events, k))) else None
  {
    hide Reported, SumOf;
    if !NumbersOnly(UsageOf(first).value) {
      var k :| k in UsageOf(first).value && !UsageOf(first).value[k].Tokens?;
      assert Kept(first, k) == Some(UsageOf(first).value[k]);
      assert Expected(events, first, k) != if Reported(events, k) then Some(Tokens(SumOf(events, k))) else None;
    }
  }

  // ------------------------------------------- the same on assistant messages and results

  /** The integer that a usage has under a key; anything else counts for nothing. */
  function TokensAt(usage: UsageDict, key: string): int {
    if key in usage && usage[key].Tokens? then usage[key].n else 0
  }

  function AssistantTokens(e: Event, key: string): int {
    match e case Message(true, _, Some(usage)) => TokensAt(usage, key) case _ => 0
  }

  function ResultTokens(e: Event, key: string): int {
    match e case Result(Some(usage)) => TokensAt(usage, key) case _ => 0
  }

  /** The integers of all assistant messages. */
  function AssistantSum(events: seq<Event>, key: string): int {
    if events == [] then 0 else
      AssistantSum(events[..|events| - 1], key) + AssistantTokens(events[|events| - 1], key)
  }

  /** The integers of all results. */
  function ResultSum(events: seq<Event>, key: string): int {
    if events == [] then 0 else ResultSum(events[..|events| - 1], key) + ResultTokens(events[|events| - 1], key)
  }

  /** The event is an assistant message or a result with this usage. */
  predicate Gives(e: Event, usage: UsageDict) {
    e == Result(Some(usage)) || (e.Message? && e.assistant && e.usage == Some(usage))
  }

  /** Some assistant message or result has an integer under the key. */
  ghost predicate Given(events: seq<Event>, key: string) {
    exists i, usage: UsageDict :: 0 <= i < |events| && Gives(events[i], usage) && key in usage && usage[key].Tokens?
  }

  lemma UsageIff(e: Event, usage: UsageDict)
    ensures UsageOf(e) == Some(usage) <==> Gives(e, usage)
  {}

  lemma {:induction false} SumByKind(events: seq<Event>, key: string)
    ensures SumOf(events, key) == AssistantSum(events, key) + ResultSum(events, key)
  {
    if events != [] { SumByKind(events[..|events| - 1], key); }
  }

  lemma ReportedIff(events: seq<Event>, key: string)
    ensures Reported(events, key) <==> Given(events, key)
  {
    if i :| 0 <= i < |events| && Reports(events[i], key) { UsageIff(events[i], UsageOf(events[i]).value); }
    if i, usage: UsageDict :| 0 <= i < |events| && Gives(events[i], usage) && key in usage && usage[key].Tokens? {
      UsageIff(events[i], usage);
      assert Reports(events[i], key);
    }
  }

  /** The first assistant message or result with a usage that is not empty. */
  ghost predicate FirstGiven(events: seq<Event>, i: int, usage: UsageDict) {
    && 0 <= i < |events| && Gives(events[i], usage) && usage != map[]
    && forall j, other :: 0 <= j < i && Gives(events[j], other) ==> other == map[]
  }

  lemma FirstIff(events: seq<Event>, i: int, usage: UsageDict)
    ensures FirstGiven(events, i, usage) <==> FirstAt(events, i) && UsageOf(events[i]) == Some(usage)
  {
    forall j, other | 0 <= j < |events| ensures Gives(events[j], other) <==> UsageOf(events[j]) == Some(other) {
      UsageIff(events[j], other);
    }
    hide UsageOf, Gives;
    if FirstAt(events, i) && UsageOf(events[i]) == Some(usage) {
      forall j, other | 0 <= j < i && Gives(events[j], other) ensures other == map[] { assert !Counts(events[j]); }
    }
    if FirstGiven(events, i, usage) {
      assert Gives(events[i], usage);
      forall j | 0 <= j < i ensures !Counts(events[j]) {
        if UsageOf(events[j]).Some? { assert Gives(events[j], UsageOf(events[j]).value); }
      }
    }
  }

  /** Under each key the integers of all assistant messages and of all results, and no other key. */
  ghost predicate AddsUp(events: seq<Event>, total: Option<Option<UsageDict>>) {
    && total.Some?
    && forall k :: ValueAt(total, k) ==
          if Given(events, k) then Some(Tokens(AssistantSum(events, k) + ResultSum(events, k))) else None
  }

  lemma AddsUpConserved(events: seq<Event>, total: Option<Option<UsageDict>>)
    ensures AddsUp(events, total) <==> Conserved(events, total)
  {
    forall k
      ensures SumOf(events, k) == AssistantSum(events, k) + ResultSum(events, k)
      ensures Reported(events, k) <==> Given(events, k)
    {
      SumByKind(events, k);
      ReportedIff(events, k);
    }
    hide SumOf, AssistantSum, ResultSum, Reported, Given, ValueAt;
  }

  /** The first usage given in the run has integers only. */
  ghost predicate StartsClean(events: seq<Event>) {
    forall i, usage :: FirstGiven(events, i, usage) ==> NumbersOnly(usage)
  }

  lemma StartsCleanIff(events: seq<Event>)
    ensures StartsClean(events) <==> FirstIsClean(events)
  {
    forall i, usage ensures FirstGiven(events, i, usage) <==> FirstAt(events, i) && UsageOf(events[i]) == Some(usage) {
      FirstIff(events, i, usage);
    }
    hide FirstGiven, UsageOf, NumbersOnly;
    if StartsClean(events) {
      forall i | FirstAt(events, i) ensures NumbersOnly(UsageOf(events[i]).value) {
        assert FirstGiven(events, i, UsageOf(events[i]).value);
      }
    }
  }

  /** The total of a run adds up exactly if the first usage given in it has integers only. */
  lemma AddsUpIff(events: seq<Event>)
    ensures AddsUp(events, Total(events)) <==> StartsClean(events)
  {
    ConservedIff(events);
    AddsUpConserved(events, Total(events));
    StartsCleanIff(events);
  }

  /** An assistant message's usage counts, a user message's does not. */
  lemma AssistantCounts(content: seq<Json>)
    ensures var usage := Some(map["input_tokens" := Tokens(10)]);
            && ValueAt(Total([Message(true, content, usage)]), "input_tokens") == Some(Tokens(10))
            && Total([Message(false, content, usage)]) == Some(None)
  {
    var usage: Option<UsageDict> := Some(map["input_tokens" := Tokens(10)]);
    assert "input_tokens" in usage.value;
    assert Total([Message(true, content, usage)]) == Accumulate(None, usage);
    assert Total([Message(false, content, usage)]) == Accumulate(None, None);
  }

  /** A concrete run that raises: a null first, a number for the same key later. */
  lemma NullThenNumber()
    ensures Total([Result(Some(map["input_tokens" := Other])), Result(Some(map["input_tokens" := Tokens(1)]))]) == None
  {
    var a, b := Result(Some(map["input_tokens" := Other])), Result(Some(map["input_tokens" := Tokens(1)]));
    assert [a, b][..1] == [a] && [a][..0] == [];
    assert "input_tokens" in UsageOf(a).value;
    assert Total([a]) == Some(UsageOf(a));
    assert "input_tokens" in UsageOf(b).value;
    assert Clash(UsageOf(a).value, UsageOf(b).value);
  }

  /** The same two events the other way round do not raise: the order matters. */
  lemma NumberThenNull()
    ensures ValueAt(Total([Result(Some(map["input_tokens" := Tokens(1)])), Result(Some(map["input_tokens" := Other]))]),
                    "input_tokens") == Some(Tokens(1))
  {
    var a, b := Result(Some(map["input_tokens" := Tokens(1)])), Result(Some(map["input_tokens" := Other]));
    assert [a, b][..1] == [a] && [a][..0] == [];
    assert "input_tokens" in UsageOf(a).value;
    assert Total([a]) == Some(UsageOf(a));
    assert "input_tokens" in UsageOf(b).value;
    assert !Clash(UsageOf(a).value, UsageOf(b).value);
  }

  // ------------------------------------------------------ order independence

  lemma {:induction false} SumWithout(events: seq<Event>, i: int, key: string)
    requires 0 <= i < |events|
    ensures SumOf(events, key) ==
            SumOf(events[..i] + events[i + 1..], key) +
            if Reports(events[i], key) then UsageOf(events[i]).value[key].n else 0
  {
    var n := |events| - 1;
    if i == n {
      assert events[..i] + events[i + 1..] == events[..n];
    } else {
      SumWithout(events[..n], i, key);
      hide SumOf, Reports;
      LastKept(events, i);
      ReportedSnoc(events[..n][..i] + events[..n][i + 1..], events[n], key);
      ReportedSnoc(events[..n], events[n], key);
      assert events == events[..n] + [events[n]];
    }
  }

  lemma LastKept(events: seq<Event>, i: int)
    requires 0 <= i < |events| - 1
    ensures var n := |events| - 1;
            events[..n][..i] + events[..n][i + 1..] + [events[n]] == events[..i] + events[i + 1..]
  {
    assert events[i + 1..] == events[..|events| - 1][i + 1..] + [events[|events| - 1]];
  }

  lemma TakenOut(a: seq<Event>, b: seq<Event>) returns (i: int)
    requires a != [] && multiset(a) == multiset(b)
    ensures 0 <= i < |b| && b[i] == a[|a| - 1]
    ensures multiset(a[..|a| - 1]) == multiset(b[..i] + b[i + 1..])
  {
    var m, e := a[..|a| - 1], a[|a| - 1];
    assert a == m + [e];
    assert e in multiset(b);
    i :| 0 <= i < |b| && b[i] == e;
    assert b == b[..i] + [e] + b[i + 1..];
    assert multiset(b[..i] + b[i + 1..]) == multiset(b) - multiset{e};
    assert multiset(m) == multiset(a) - multiset{e};
  }

  /** The same events in another order have the same sums. */
  lemma {:induction false} SumOfPermuted(a: seq<Event>, b: seq<Event>, key: string)
    requires multiset(a) == multiset(b)
    ensures SumOf(a, key) == SumOf(b, key)
    decreases |a|
  {
    if a == [] { assert |multiset(b)| == 0; } else {
      var i := TakenOut(a, b);
      SumOfPermuted(a[..|a| - 1], b[..i] + b[i + 1..], key);
      SumWithout(b, i, key);
    }
  }

  ghost predicate SameOutcome(s: Option<Option<UsageDict>>, t: Option<Option<UsageDict>>) {
    (s.None? <==> t.None?) && forall k :: ValueAt(s, k) == ValueAt(t, k)
  }

  /** However the events are ordered, the run raises alike or ends with the same values. */
  ghost predicate AnyOrder(a: seq<Event>) {
    forall b :: multiset(b) == multiset(a) ==> SameOutcome(Total(a), Total(b))
  }

  /** Whichever counting event comes first, the run raises. */
  ghost predicate EveryStartRaises(a: seq<Event>) {
    forall e :: e in a && Counts(e) ==> Raises(a, e)
  }

  /** Whichever counting event comes first, the run does not raise, and the same values are kept from it. */
  ghost predicate EveryStartAlike(a: seq<Event>) {
    && (forall e :: e in a && Counts(e) ==> !Raises(a, e))
    && (forall e, f, k :: e in a && f in a && Counts(e) && Counts(f) ==> Kept(e, k) == Kept(f, k))
  }

  lemma SamePermuted(a: seq<Event>, b: seq<Event>, first: Event)
    requires multiset(a) == multiset(b)
    ensures Raises(a, first) <==> Raises(b, first)
    ensures forall k :: Expected(a, first, k) == Expected(b, first, k)
  {
    forall i | 0 <= i < |a| ensures a[i] in b { assert a[i] in multiset(b); }
    forall i | 0 <= i < |b| ensures b[i] in a { assert b[i] in multiset(a); }
    forall k ensures Reported(a, k) <==> Reported(b, k) {
      if Reported(a, k) { SameReported(a, b, k); }
      if Reported(b, k) { SameReported(b, a, k); }
    }
    hide Reported, SumOf;
    forall k ensures Expected(a, first, k) == Expected(b, first, k) { SumOfPermuted(a, b, k); }
  }

  /** The outcome of any order of `a` that starts counting with `first`. */
  lemma OutcomeOf(a: seq<Event>, b: seq<Event>, i: int)
    requires multiset(a) == multiset(b) && FirstAt(b, i)
    ensures b[i] in a && Counts(b[i])
    ensures Total(b).None? <==> Raises(a, b[i])
    ensures Total(b).Some? ==> forall k :: ValueAt(Total(b), k) == Expected(a, b[i], k)
  {
    assert b[i] in multiset(a);
    TotalIs(b, i);
    hide Total;
    SamePermuted(a, b, b[i]);
  }

  lemma MovedFirst(a: seq<Event>, e: Event) returns (b: seq<Event>)
    requires e in a && Counts(e)
    ensures multiset(b) == multiset(a) && FirstAt(b, 0) && b[0] == e
  {
    var i :| 0 <= i < |a| && a[i] == e;
    b := [e] + a[..i] + a[i + 1..];
    assert a == a[..i] + [e] + a[i + 1..];
  }

  lemma AlikeSuffices(a: seq<Event>, b: seq<Event>)
    requires multiset(b) == multiset(a) && (EveryStartRaises(a) || EveryStartAlike(a))
    ensures SameOutcome(Total(a), Total(b))
  {
    FirstOrNone(a);
    FirstOrNone(b);
    NothingYet(a);
    NothingYet(b);
    forall i | 0 <= i < |a| ensures a[i] in b { assert a[i] in multiset(b); }
    forall i | 0 <= i < |b| ensures b[i] in a { assert b[i] in multiset(a); }
    if i, j :| FirstAt(a, i) && FirstAt(b, j) {
      OutcomeOf(a, a, i);
      OutcomeOf(a, b, j);
      hide Total, Raises, Kept, FirstAt;
      ExpectedByKept(a, a[i], b[j]);
    }
  }

  lemma ExpectedByKept(a: seq<Event>, e: Event, f: Event)
    ensures (forall k :: Kept(e, k) == Kept(f, k)) <==> forall k :: Expected(a, e, k) == Expected(a, f, k)
  {
    hide Reported, SumOf, Kept;
    if forall k :: Expected(a, e, k) == Expected(a, f, k) {
      forall k ensures Kept(e, k) == Kept(f, k) {
        assert Expected(a, e, k) == Expected(a, f, k);
        KeptNoTokens(e, k);
        KeptNoTokens(f, k);
      }
    }
  }

  lemma KeptNoTokens(e: Event, key: string)
    ensures Kept(e, key).Some? ==> !Kept(e, key).value.Tokens?
  {}

  lemma AnyOrderAlike(a: seq<Event>, e: Event, f: Event)
    requires AnyOrder(a) && e in a && f in a && Counts(e) && Counts(f)
    ensures Raises(a, e) <==> Raises(a, f)
    ensures !Raises(a, e) ==> forall k :: Kept(e, k) == Kept(f, k)
  {
    var b := MovedFirst(a, e);
    var c := MovedFirst(a, f);
    OutcomeOf(a, b, 0);
    OutcomeOf(a, c, 0);
    assert SameOutcome(Total(a), Total(b)) && SameOutcome(Total(a), Total(c));
    hide Total, Raises, Kept;
    ExpectedByKept(a, e, f);
  }

  /** The order of the events does not matter exactly if every start raises, or all starts keep the same. */
  lemma OrderIndependentIff(a: seq<Event>)
    ensures AnyOrder(a) <==> EveryStartRaises(a) || EveryStartAlike(a)
  {
    if EveryStartRaises(a) || EveryStartAlike(a) {
      forall b | multiset(b) == multiset(a) ensures SameOutcome(Total(a), Total(b)) { AlikeSuffices(a, b); }
    }
    if AnyOrder(a) {
      hide Total, Raises, Kept, Counts, AnyOrder;
      forall e, f | e in a && f in a && Counts(e) && Counts(f)
        ensures Raises(a, e) <==> Raises(a, f)
        ensures !Raises(a, e) ==> forall k :: Kept(e, k) == Kept(f, k)
      {
        AnyOrderAlike(a, e, f);
      }
    }
  }

  /** The usual case: every usage has integers only. All sums are right and the order does not matter. */
  lemma CleanRuns(a: seq<Event>)
    requires forall i :: 0 <= i < |a| && Counts(a[i]) ==> NumbersOnly(UsageOf(a[i]).value)
    ensures Total(a).Some? && Conserved(a, Total(a)) && AnyOrder(a)
  {
    ConservedIff(a);
    OrderIndependentIff(a);
    hide Total, AnyOrder, Conserved;
    forall e | e in a && Counts(e) ensures !Raises(a, e) && forall k :: Kept(e, k).None? {
      var i :| 0 <= i < |a| && a[i] == e;
      assert NumbersOnly(UsageOf(a[i]).value);
    }
    ConservedTotal(a);
  }

  lemma ConservedTotal(a: seq<Event>)
    ensures Conserved(a, Total(a)) ==> Total(a).Some?
  {}

  /** In particular: when every start has integers only, as the event schema demands. */
  lemma OrderIndependent(a: seq<Event>, b: seq<Event>, key: string)
    requires multiset(a) == multiset(b) && FirstIsClean(a) && FirstIsClean(b)
    ensures ValueAt(Total(a), key) == ValueAt(Total(b), key)
  {
    ConservedIff(a);
    ConservedIff(b);
    SumOfPermuted(a, b, key);
    forall i | 0 <= i < |a| ensures a[i] in b { assert a[i] in multiset(b); }
    forall i | 0 <= i < |b| ensures b[i] in a { assert b[i] in multiset(a); }
    if Reported(a, key) { SameReported(a, b, key); }
    if Reported(b, key) { SameReported(b, a, key); }
  }

  lemma SameReported(a: seq<Event>, b: seq<Event>, key: string)
    requires Reported(a, key) && forall i :: 0 <= i < |a| ==> a[i] in b
    ensures Reported(b, key)
  {
    var i :| 0 <= i < |a| && Reports(a[i], key);
    var j :| 0 <= j < |b| && b[j] == a[i];
    assert Reports(b[j], key);
  }

  // --------------------------------------------------------------- aggregator

  /** All content blocks of assistant messages, in order. */
  function ContentOf(events: seq<Event>): seq<Json> {
    if events == [] then [] else
      ContentOf(events[..|events| - 1]) +
      match events[|events| - 1] case Message(true, content, _) => content case _ => []
  }

  lemma ContentSnoc(events: seq<Event>, e: Event)
    ensures ContentOf(events + [e]) == ContentOf(events) + if e.Message? && e.assistant then e.content else []
    ensures ContentOf([]) == []
  {
    assert (events + [e])[..|events|] == events;
  }

  /** The blocks of every assistant message stand between those of the events before and after it. */
  lemma {:induction false} ContentIs(a: seq<Event>, e: Event, b: seq<Event>)
    ensures ContentOf(a + [e] + b) ==
            ContentOf(a) + (if e.Message? && e.assistant then e.content else []) + ContentOf(b)
    decreases |b|
  {
    hide ContentOf;
    ContentSnoc(a, e);
    if b == [] { assert a + [e] + b == a + [e]; } else {
      var m, z := b[..|b| - 1], b[|b| - 1];
      ContentIs(a, e, m);
      ContentSnoc(a + [e] + m, z);
      ContentSnoc(m, z);
      assert b == m + [z] && a + [e] + b == a + [e] + m + [z];
    }
  }

  class SingleQueryAggregator {
    var contentBlocks: seq<Json>
    var usageData: Option<UsageDict>
    var isError: bool

    constructor ()
      ensures contentBlocks == [] && usageData.None? && !isError
    {
      contentBlocks, usageData, isError := [], None, false;
    }

    /** The values are added one key at a time; `raised` stands for the TypeError. */
    method AccumulateUsage(usage: Option<UsageDict>) returns (raised: bool)
      modifies this`usageData
      ensures AddedTo(old(usageData), usage, usageData, raised)
    {
      if usage.None? || usage.value == map[] { return false; }
      if usageData.None? { usageData := usage; return false; }
      ghost var sum := usageData.value;
      var data, rest := usageData.value, usage.value.Keys;
      while rest != {}
        invariant rest <= usage.value.Keys
        invariant forall k :: k in rest ==> (k in data <==> k in sum) && (k in sum ==> data[k] == sum[k])
        invariant forall k :: k !in usage.value ==> (k in data <==> k in sum) && (k in sum ==> data[k] == sum[k])
        invariant forall k :: k in usage.value && k !in rest ==> Added(sum, usage.value, data, k)
      {
        var k :| k in rest;
        if usage.value[k].Tokens? {
          if k in data && data[k].Other? { return true; }
          data := data[k := Plus(if k in data then data[k] else Tokens(0), usage.value[k].n)];
        }
        rest := rest - {k};
      }
      assert forall k :: k in usage.value ==> Added(sum, usage.value, data, k);
      assert data == Merge(sum, usage.value);
      usageData := Some(data);
      raised := false;
    }

    /** Assistant messages and results add their own usage; the rest of the state follows the kind. */
    method HandleEvent(e: Event) returns (raised: bool)
      modifies this
      ensures match e
              case Message(true, content, usage) =>
                && contentBlocks == old(contentBlocks) + content && isError == old(isError)
                && AddedTo(old(usageData), usage, usageData, raised)
              case Result(usage) =>
                && contentBlocks == old(contentBlocks) && isError == old(isError)
                && AddedTo(old(usageData), usage, usageData, raised)
              case Error => !raised && isError && contentBlocks == old(contentBlocks) && usageData == old(usageData)
              case _ =>
                && !raised && isError == old(isError)
                && contentBlocks == old(contentBlocks) && usageData == old(usageData)
    {
      raised := false;
      match e
      case Message(assistant, content, usage) =>
        if assistant {
          contentBlocks := contentBlocks + content;
          raised := AccumulateUsage(usage);
        }
      case Result(usage) => raised := AccumulateUsage(usage);
      case Error => isError := true;
      case Ignored =>
    }

    /** The run over a query's events, up to the first exception. */
    method HandleAll(events: seq<Event>) returns (raised: bool)
      requires contentBlocks == [] && usageData.None? && !isError
      modifies this
      ensures raised <==> Total(events).None?
      ensures !raised ==> usageData == Total(events).value && contentBlocks == ContentOf(events)
      ensures !raised ==> (isError <==> Error in events)
    {
      hide Accumulate;
      for i := 0 to |events|
        invariant Total(events[..i]) == Some(usageData) && contentBlocks == ContentOf(events[..i])
        invariant isError <==> Error in events[..i]
      {
        assert events[..i + 1][..i] == events[..i];
        NothingAdded(usageData);
        raised := HandleEvent(events[i]);
        if raised {
          Raised(events, i + 1);
          return true;
        }
      }
      assert events[..|events|] == events;
      raised := false;
    }
  }

  /** What adding one usage to the sum so far gives, or that it raises. */
  predicate AddedTo(sum: Option<UsageDict>, usage: Option<UsageDict>, next: Option<UsageDict>, raised: bool) {
    && (raised <==> Accumulate(sum, usage).None?)
    && (!raised ==> next == Accumulate(sum, usage).value)
  }

  lemma NothingAdded(sum: Option<UsageDict>)
    ensures Accumulate(sum, None) == Some(sum)
  {}

  /** Key by key: a first usage is taken as it is, later ones add their integers. */
  lemma AddedToIs(sum: Option<UsageDict>, usage: UsageDict, next: Option<UsageDict>, raised: bool, key: string)
    requires AddedTo(sum, Some(usage), next, raised) && usage != map[]
    ensures sum.None? ==> !raised && next == Some(usage)
    ensures sum.Some? && key in usage && usage[key].Tokens? && key in sum.value && sum.value[key].Other? ==> raised
    ensures !raised && sum.Some? ==>
              && next.Some?
              && (key in next.value <==> key in sum.value || (key in usage && usage[key].Tokens?))
              && (key in next.value ==>
                    next.value[key] ==
                      if key !in sum.value then Tokens(TokensAt(usage, key))
                      else match sum.value[key]
                        case Tokens(n) => Tokens(n + TokensAt(usage, key))
                        case Fraction(x) => Fraction(x + TokensAt(usage, key) as real)
                        case Other => Other)
  {}

  ghost predicate Added(sum: UsageDict, usage: UsageDict, data: UsageDict, k: string)
    requires k in usage
  {
    if usage[k].Tokens? then
      && (k in sum ==> !sum[k].Other?)
      && k in data && data[k] == Plus(if k in sum then sum[k] else Tokens(0), usage[k].n)
    else (k in data <==> k in sum) && (k in sum ==> data[k] == sum[k])
  }

  lemma {:induction false} Raised(events: seq<Event>, n: int)
    requires 0 <= n <= |events| && Total(events[..n]).None?
    ensures Total(events).None?
    decreases |events|
  {
    if n == |events| { assert events[..n] == events; } else {
      assert events[..|events| - 1][..n] == events[..n];
      Raised(events[..|events| - 1], n);
    }
  }

  // ------------------------------------------------------------ result totals

  /** The four counts of one model. */
  datatype Counters = Counters(input: int, output: int, cacheRead: int, cacheCreation: int)

  function AddCounters(a: Counters, b: Counters): Counters {
    Counters(a.input + b.input, a.output + b.output, a.cacheRead + b.cacheRead, a.cacheCreation + b.cacheCreation)
  }

  const ZERO := Counters(0, 0, 0, 0)

  function At(d: map<string, int>, key: string): int { if key in d then d[key] else 0 }

  function CountersOf(d: map<string, int>): Counters {
    Counters(At(d, "input_tokens"), At(d, "output_tokens"),
             At(d, "cache_read_input_tokens"), At(d, "cache_creation_input_tokens"))
  }

  /** The sum over a set of models. */
  ghost function SumOver(models: map<string, Counters>): Counters
    decreases |models|
  {
    if models == map[] then ZERO else
      var m :| m in models;
      AddCounters(models[m], SumOver(models - {m}))
  }

  /** Whichever model is taken out first, the sum is the same. */
  lemma {:induction false} SumOverWithout(models: map<string, Counters>, name: string)
    requires name in models
    ensures SumOver(models) == AddCounters(models[name], SumOver(models - {name}))
    decreases |models|
  {
    var m :| m in models && SumOver(models) == AddCounters(models[m], SumOver(models - {m}));
    if m != name {
      var a, b := models - {m}, models - {name};
      SumOverWithout(a, name);
      SumOverWithout(b, m);
      assert a - {name} == b - {m};
      assert a[name] == models[name] && b[m] == models[m];
      assert SumOver(models) == AddCounters(models[m], AddCounters(models[name], SumOver(a - {name})));
    }
  }

  /** The entries of a dict have different keys. */
  ghost predicate Distinct(entries: seq<(string, Option<map<string, int>>)>) {
    forall i, j :: 0 <= i < j < |entries| ==> entries[i].0 != entries[j].0
  }

  /** `converted` has the counts of exactly those of the first `n` entries that are dicts. */
  ghost predicate Converts(entries: seq<(string, Option<map<string, int>>)>, n: int, converted: map<string, Counters>)
    requires 0 <= n <= |entries|
  {
    && (forall i :: 0 <= i < n && entries[i].1.Some? ==>
          entries[i].0 in converted && converted[entries[i].0] == CountersOf(entries[i].1.value))
    && (forall m :: m in converted ==> exists i :: 0 <= i < n && entries[i].0 == m && entries[i].1.Some?)
  }

  lemma NothingConverted(entries: seq<(string, Option<map<string, int>>)>)
    ensures SumOver(map[]) == ZERO && Converts(entries, 0, map[]) && HasSums(ZERO, entries, 0)
  {}

  lemma ConvertsStep(entries: seq<(string, Option<map<string, int>>)>, n: int, converted: map<string, Counters>)
    requires 0 <= n < |entries| && Distinct(entries) && Converts(entries, n, converted)
    ensures entries[n].1.None? ==> Converts(entries, n + 1, converted)
    ensures entries[n].1.Some? ==>
              var next := converted[entries[n].0 := CountersOf(entries[n].1.value)];
              Converts(entries, n + 1, next)
                  && SumOver(next) == AddCounters(CountersOf(entries[n].1.value), SumOver(converted))
  {
    hide SumOver, CountersOf, AddCounters;
    if entries[n].1.Some? {
      var name, c := entries[n].0, CountersOf(entries[n].1.value);
      assert name !in converted;
      SumOverWithout(converted[name := c], name);
      assert converted[name := c] - {name} == converted;
    }
  }

  /** The counts are what the document has under the four names, nothing where it has none. */
  predicate HasCounts(c: Counters, d: map<string, int>) {
    && c.input == At(d, "input_tokens") && c.output == At(d, "output_tokens")
    && c.cacheRead == At(d, "cache_read_input_tokens") && c.cacheCreation == At(d, "cache_creation_input_tokens")
  }

  /** The sum of one field over the first `n` entries. */
  function FieldSum(entries: seq<(string, Option<map<string, int>>)>, n: nat, field: string): int
    requires n <= |entries|
  {
    if n == 0 then 0 else
      FieldSum(entries, n - 1, field) + match entries[n - 1].1 case Some(d) => At(d, field) case None => 0
  }

  /** The four sums over the first `n` entries, each under its own name. */
  predicate HasSums(c: Counters, entries: seq<(string, Option<map<string, int>>)>, n: nat)
    requires n <= |entries|
  {
    && c.input == FieldSum(entries, n, "input_tokens") && c.output == FieldSum(entries, n, "output_tokens")
    && c.cacheRead == FieldSum(entries, n, "cache_read_input_tokens")
    && c.cacheCreation == FieldSum(entries, n, "cache_creation_input_tokens")
  }

  lemma CountsOf(d: map<string, int>)
    ensures HasCounts(CountersOf(d), d)
  {}

  lemma SumsStep(c: Counters, entries: seq<(string, Option<map<string, int>>)>, n: nat)
    requires n < |entries| && HasSums(c, entries, n)
    ensures HasSums(match entries[n].1 case Some(d) => AddCounters(c, CountersOf(d)) case None => c, entries, n + 1)
  {}

  lemma ConvertsCounts(entries: seq<(string, Option<map<string, int>>)>, converted: map<string, Counters>)
    requires Converts(entries, |entries|, converted)
    ensures forall i :: 0 <= i < |entries| && entries[i].1.Some? ==>
              entries[i].0 in converted && HasCounts(converted[entries[i].0], entries[i].1.value)
  {
    hide At;
  }

  /** The counts of each model that has a document, and their sums. */
  ghost predicate Summed(entries: seq<(string, Option<map<string, int>>)>, converted: map<string, Counters>,
      sum: Counters) {
    && Converts(entries, |entries|, converted) && sum == SumOver(converted) && HasSums(sum, entries, |entries|)
    && forall i :: 0 <= i < |entries| && entries[i].1.Some? ==>
          entries[i].0 in converted && HasCounts(converted[entries[i].0], entries[i].1.value)
  }

  method SumModels(entries: seq<(string, Option<map<string, int>>)>)
    returns (converted: map<string, Counters>, sum: Counters)
    requires Distinct(entries)
    ensures Summed(entries, converted, sum)
  {
    hide SumOver, CountersOf, Converts, Distinct, HasCounts, HasSums, At;
    NothingConverted(entries);
    converted := map[];
    var input, output, cacheRead, cacheCreation := 0, 0, 0, 0;
    for i := 0 to |entries|
      invariant Converts(entries, i, converted)
      invariant SumOver(converted) == Counters(input, output, cacheRead, cacheCreation)
      invariant HasSums(Counters(input, output, cacheRead, cacheCreation), entries, i)
    {
      var (name, d) := entries[i];
      ConvertsStep(entries, i, converted);
      SumsStep(Counters(input, output, cacheRead, cacheCreation), entries, i);
      if d.Some? {
        var c := CountersOf(d.value);
        converted := converted[name := c];
        input, output := input + c.input, output + c.output;
        cacheRead, cacheCreation := cacheRead + c.cacheRead, cacheCreation + c.cacheCreation;
      }
    }
    ConvertsCounts(entries, converted);
    sum := Counters(input, output, cacheRead, cacheCreation);
  }

  /**
   The usage part of the result event: the SDK's own usage when there is one, else the sum over
   the models, field by field; and the counts of each model.
   */
  method BuildResultUsage(usage: Option<map<string, int>>, byModel: Option<seq<(string, Option<map<string, int>>)>>)
    returns (total: Option<Counters>, models: Option<map<string, Counters>>)
    requires byModel.Some? ==> Distinct(byModel.value)
    ensures models.Some? <==> byModel.Some? && byModel.value != []
    ensures total.None? <==> (usage.None? || usage.value == map[]) && models.None?
    ensures usage.Some? && usage.value != map[] ==> HasCounts(total.value, usage.value)
    ensures models.Some? ==>
              exists sum :: Summed(byModel.value, models.value, sum)
                            && (usage.None? || usage.value == map[] ==> total == Some(sum))
  {
    hide Summed, CountersOf, HasCounts;
    if usage.Some? { CountsOf(usage.value); }
    total, models := None, None;
    if usage.Some? && usage.value != map[] { total := Some(CountersOf(usage.value)); }
    if byModel.Some? && byModel.value != [] {
      var converted, sum := SumModels(byModel.value);
      models := Some(converted);
      if total.None? { total := Some(sum); }
    }
  }
}
