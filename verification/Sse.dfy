/**
 Server-sent events of an assistant run: the printer, and the parser of sections 9.2.5 and 9.2.6
 of the WHATWG HTML Standard that a client applies to the concatenated text.
 */
module Sse {
  /** A `done` marker, an event with its type and the JSON text of its data, or any other JSON text. */
  datatype Event = Finished | Typed(kind: string, json: string) | Plain(json: string)

  function Format(e: Event): string {
    match e
    case Finished => "data: [DONE]\n\n"
    case Typed(kind, json) => "event: " + kind + "\ndata: " + json + "\n\n"
    case Plain(json) => "data: " + json + "\n\n"
  }

  function FormatAll(es: seq<Event>): string {
    if es == [] then "" else Format(es[0]) + FormatAll(es[1..])
  }

  // ---------------------------------------------------------------- parser

  /** A dispatched message event. */
  datatype Message = Message(kind: string, data: string, lastId: string)

  datatype Buffers = Buffers(kind: string, data: string, lastId: string)

  predicate Break(c: char) { c == '\r' || c == '\n' }

  predicate OneLine(s: string) { forall i :: 0 <= i < |s| ==> !Break(s[i]) }

  /** Where the first line ends. */
  function LineEnd(s: string): (n: nat)
    ensures n <= |s| && (n < |s| ==> Break(s[n])) && OneLine(s[..n])
  {
    if s == "" || Break(s[0]) then 0 else
      var n := LineEnd(s[1..]);
      assert s[..n + 1] == [s[0]] + s[1..][..n];
      n + 1
  }

  function ColonAt(line: string): (n: nat)
    ensures n <= |line| && (n < |line| ==> line[n] == ':') && ':' !in line[..n]
  {
    if line == "" || line[0] == ':' then 0 else
      var n := ColonAt(line[1..]);
      assert line[..n + 1] == [line[0]] + line[1..][..n];
      n + 1
  }

  function Unspaced(v: string): string {
    if v != "" && v[0] == ' ' then v[1..] else v
  }

  function SetField(b: Buffers, name: string, value: string): Buffers {
    if name == "event" then b.(kind := value)
    else if name == "data" then b.(data := b.data + value + "\n")
    else if name == "id" && '\0' !in value then b.(lastId := value)
    else b
  }

  /** A non-empty line: a comment, a field with a value, or a field name alone. */
  function ProcessLine(b: Buffers, line: string): Buffers {
    var n := ColonAt(line);
    if n == |line| then SetField(b, line, "")
    else if n == 0 then b
    else SetField(b, line[..n], Unspaced(line[n + 1..]))
  }

  function WithoutLastBreak(data: string): string {
    if data != "" && data[|data| - 1] == '\n' then data[..|data| - 1] else data
  }

  function Dispatch(b: Buffers): seq<Message> {
    if b.data == "" then []
    else [Message(if b.kind == "" then "message" else b.kind, WithoutLastBreak(b.data), b.lastId)]
  }

  function Reset(lastId: string): Buffers { Buffers("", "", lastId) }

  /** After the line ended by `s[n]`; CR LF is one line end. */
  function Rest(s: string, n: nat): (r: string)
    requires n < |s|
    ensures |r| < |s| - n
  {
    if s[n] == '\r' && n + 1 < |s| && s[n + 1] == '\n' then s[n + 2..] else s[n + 1..]
  }

  /** The messages dispatched for the text; an unfinished last line or event is dropped. */
  function Parse(s: string, b: Buffers): seq<Message>
    decreases |s|
  {
    var n := LineEnd(s);
    if n == |s| then []
    else if n == 0 then Dispatch(b) + Parse(Rest(s, n), Reset(b.lastId))
    else Parse(Rest(s, n), ProcessLine(b, s[..n]))
  }

  // ------------------------------------------------------------- round trip

  /** What the client is to see of an event. */
  function Expected(e: Event, lastId: string): Message {
    match e
    case Finished => Message("message", "[DONE]", lastId)
    case Typed(kind, json) => Message(if kind == "" then "message" else kind, json, lastId)
    case Plain(json) => Message("message", json, lastId)
  }

  function ExpectedAll(es: seq<Event>, lastId: string): seq<Message> {
    if es == [] then [] else [Expected(es[0], lastId)] + ExpectedAll(es[1..], lastId)
  }

  /** No text put on a line of its own contains a line break. */
  predicate Clean(e: Event) {
    match e
    case Finished => true
    case Typed(kind, json) => OneLine(kind) && OneLine(json)
    case Plain(json) => OneLine(json)
  }

  lemma {:induction false} LineEndAt(s: string, n: nat)
    requires n < |s| && Break(s[n]) && OneLine(s[..n])
    ensures LineEnd(s) == n
  {
    if n > 0 {
      assert !Break(s[..n][0]);
      assert s[1..][..n - 1] == s[..n][1..];
      LineEndAt(s[1..], n - 1);
    }
  }

  lemma ParseLine(line: string, rest: string, b: Buffers)
    requires OneLine(line)
    ensures Parse(line + "\n" + rest, b) ==
            if line == "" then Dispatch(b) + Parse(rest, Reset(b.lastId)) else Parse(rest, ProcessLine(b, line))
  {
    var s, n := line + "\n" + rest, |line|;
    assert s[n] == '\n' && s[..n] == line && s[n + 1..] == rest;
    LineEndAt(s, n);
  }

  lemma {:induction false} ColonIs(line: string, n: nat)
    requires n < |line| && line[n] == ':' && ':' !in line[..n]
    ensures ColonAt(line) == n
  {
    if n > 0 {
      assert line[0] == line[..n][0] && line[0] in line[..n];
      assert line[1..][..n - 1] == line[..n][1..];
      ColonIs(line[1..], n - 1);
    }
  }

  lemma ProcessField(b: Buffers, name: string, value: string)
    requires name != "" && ':' !in name
    ensures ProcessLine(b, name + ": " + value) == SetField(b, name, value)
  {
    hide SetField;
    var line, n := name + ": " + value, |name|;
    assert line[n] == ':' && line[..n] == name && line[n + 1..] == " " + value;
    ColonIs(line, n);
    assert (" " + value)[1..] == value;
  }

  /** A field line changes its buffer, whatever comes after it. */
  lemma ParseField(name: string, value: string, rest: string, b: Buffers)
    requires name != "" && ':' !in name && OneLine(name) && OneLine(value)
    ensures Parse(name + ": " + value + "\n" + rest, b) == Parse(rest, SetField(b, name, value))
  {
    hide SetField, Parse, ProcessLine;
    var line := name + ": " + value;
    assert OneLine(line) by {
      assert forall i :: 0 <= i < |line| ==>
        line[i] == (if i < |name| then name[i] else if i < |name| + 2 then (": ")[i - |name|]
            else value[i - |name| - 2]);
    }
    ParseLine(line, rest, b);
    ProcessField(b, name, value);
  }

  lemma ParseData(json: string, rest: string, b: Buffers)
    requires OneLine(json) && b.data == ""
    ensures Parse("data: " + json + "\n\n" + rest, b) ==
            [Message(if b.kind == "" then "message" else b.kind, json, b.lastId)] + Parse(rest, Reset(b.lastId))
  {
    hide Parse, ProcessLine;
    var c := b.(data := json + "\n");
    assert "data" + ": " + json + "\n" + ("\n" + rest) == "data: " + json + "\n\n" + rest;
    ParseField("data", json, "\n" + rest, b);
    assert "" + json + "\n" == json + "\n";
    ParseLine("", rest, c);
    assert "" + "\n" + rest == "\n" + rest;
    assert c.data[..|c.data| - 1] == json;
  }

  lemma ParseKind(kind: string, rest: string, b: Buffers)
    requires OneLine(kind)
    ensures Parse("event: " + kind + "\n" + rest, b) == Parse(rest, b.(kind := kind))
  {
    hide Parse;
    assert "event" + ": " + kind + "\n" + rest == "event: " + kind + "\n" + rest;
    ParseField("event", kind, rest, b);
  }

  /** One clean event gives its one message, and the text after it is parsed afresh. */
  lemma ParseEvent(e: Event, rest: string, lastId: string)
    requires Clean(e)
    ensures Parse(Format(e) + rest, Reset(lastId)) == [Expected(e, lastId)] + Parse(rest, Reset(lastId))
  {
    hide Parse;
    var b := Reset(lastId);
    match e
    case Finished =>
      assert "data: [DONE]\n\n" + rest == "data: " + "[DONE]" + "\n\n" + rest;
      ParseData("[DONE]", rest, b);
    case Plain(json) => ParseData(json, rest, b);
    case Typed(kind, json) =>
      var tail := "data: " + json + "\n\n" + rest;
      assert Format(e) + rest == "event: " + kind + "\n" + tail;
      ParseKind(kind, tail, b);
      ParseData(json, rest, b.(kind := kind));
  }

  /** The client reads back every list of clean events: same types, same data, same order. */
  lemma {:induction false} RoundTrip(es: seq<Event>, lastId: string)
    requires forall i :: 0 <= i < |es| ==> Clean(es[i])
    ensures Parse(FormatAll(es), Reset(lastId)) == ExpectedAll(es, lastId)
  {
    if es != [] {
      ParseEvent(es[0], FormatAll(es[1..]), lastId);
      RoundTrip(es[1..], lastId);
    }
  }

  // ------------------------------------------- clean text is needed as well

  /** Nothing a client sees contains a carriage return, and no type contains a line break. */
  ghost predicate NoReturns(b: Buffers) { OneLine(b.kind) && '\r' !in b.data }

  lemma {:induction false} ParsedText(s: string, b: Buffers)
    requires NoReturns(b)
    ensures forall m :: m in Parse(s, b) ==> OneLine(m.kind) && '\r' !in m.data
    decreases |s|
  {
    var n := LineEnd(s);
    if n < |s| {
      if n == 0 {
        ParsedText(Rest(s, n), Reset(b.lastId));
        DispatchedText(b);
        hide Dispatch, OneLine;
      } else {
        ProcessedText(b, s[..n]);
        ParsedText(Rest(s, n), ProcessLine(b, s[..n]));
      }
    }
  }

  lemma DispatchedText(b: Buffers)
    requires NoReturns(b)
    ensures forall m :: m in Dispatch(b) ==> OneLine(m.kind) && '\r' !in m.data
  {}

  lemma ProcessedText(b: Buffers, line: string)
    requires NoReturns(b) && OneLine(line)
    ensures NoReturns(ProcessLine(b, line))
  {
    var n := ColonAt(line);
    var value := if n == |line| then "" else Unspaced(line[n + 1..]);
    assert OneLine(value);
    assert '\r' !in b.data + value + "\n";
  }

  function Breaks(s: string): nat {
    if s == "" then 0 else (if s[|s| - 1] == '\n' then 1 else 0) + Breaks(s[..|s| - 1])
  }

  lemma {:induction false} BreaksConcat(a: string, b: string)
    ensures Breaks(a + b) == Breaks(a) + Breaks(b)
  {
    if b == "" { assert a + b == a; } else {
      BreaksConcat(a, b[..|b| - 1]);
      assert (a + b)[..|a + b| - 1] == a + b[..|b| - 1];
    }
  }

  lemma {:induction false} OneLineBreaks(s: string)
    ensures OneLine(s) ==> Breaks(s) == 0
    ensures Breaks(s) == 0 && '\r' !in s ==> OneLine(s)
  {
    if s != "" {
      OneLineBreaks(s[..|s| - 1]);
      assert forall i :: 0 <= i < |s| - 1 ==> s[i] == s[..|s| - 1][i];
    }
  }

  /** Characters, with a line break counted fivefold. */
  function Weight(data: string): nat { |data| + 4 * Breaks(data) }

  function TotalWeight(ms: seq<Message>): nat {
    if ms == [] then 0 else Weight(ms[0].data) + 5 + TotalWeight(ms[1..])
  }

  predicate BreakEnded(data: string) { data == "" || data[|data| - 1] == '\n' }

  lemma AppendWeight(data: string, value: string)
    requires OneLine(value)
    ensures Weight(data + value + "\n") == Weight(data) + |value| + 5
  {
    OneLineBreaks(value);
    BreaksConcat(data, value);
    BreaksConcat(data + value, "\n");
  }

  /** A line adds at most its own length, with its line end, to the data buffer's weight. */
  lemma LineWeight(b: Buffers, line: string)
    requires OneLine(line) && BreakEnded(b.data)
    ensures Weight(ProcessLine(b, line).data) <= Weight(b.data) + |line| + 1
    ensures BreakEnded(ProcessLine(b, line).data)
  {
    hide Weight, ColonAt;
    var n := ColonAt(line);
    var value := if n == |line| then "" else Unspaced(line[n + 1..]);
    assert OneLine(value);
    AppendWeight(b.data, value);
  }

  /** All messages together weigh no more than the text they were parsed from. */
  lemma {:induction false} ParsedWeight(s: string, b: Buffers)
    requires BreakEnded(b.data)
    ensures TotalWeight(Parse(s, b)) <= Weight(b.data) + |s|
    decreases |s|
  {
    var n := LineEnd(s);
    if n < |s| {
      if n == 0 {
        ParsedWeight(Rest(s, n), Reset(b.lastId));
        if b.data != "" {
          assert Dispatch(b) + Parse(Rest(s, n), Reset(b.lastId)) ==
              [Dispatch(b)[0]] + Parse(Rest(s, n), Reset(b.lastId));
        } else {
          assert Dispatch(b) + Parse(Rest(s, n), Reset(b.lastId)) == Parse(Rest(s, n), Reset(b.lastId));
        }
      } else {
        LineWeight(b, s[..n]);
        ParsedWeight(Rest(s, n), ProcessLine(b, s[..n]));
      }
    }
  }

  /** One event on its own is read back exactly if it is clean. */
  lemma RoundTripIff(e: Event, lastId: string)
    ensures Parse(Format(e), Reset(lastId)) == [Expected(e, lastId)] <==> Clean(e)
  {
    hide Parse;
    var b := Reset(lastId);
    if Clean(e) {
      ParseEvent(e, "", lastId);
      NothingParsed(b);
      assert Format(e) + "" == Format(e);
    }
    if Parse(Format(e), b) == [Expected(e, lastId)] && !e.Finished? {
      var ms := Parse(Format(e), b);
      var kind := if e.Typed? then e.kind else "";
      ParsedText(Format(e), b);
      assert ms[0] in ms && OneLine(kind);
      var text := "data: " + e.json + "\n\n";
      if e.Typed? {
        assert Format(e) == "event: " + kind + "\n" + text;
        ParseKind(kind, text, b);
      }
      ParsedWeight(text, b.(kind := kind));
      OneLineBreaks(e.json);
    }
  }

  /** The text ends with a blank line, or is the line end that completes one. */
  predicate EndsBlank(s: string) {
    s == "\n" || (|s| >= 2 && s[|s| - 2] == '\n' && s[|s| - 1] == '\n')
  }

  lemma BreakFound(s: string)
    requires !OneLine(s)
    ensures LineEnd(s) < |s|
  {
    assert s[..|s|] == s;
  }

  lemma LineKeepsData(b: Buffers, line: string)
    requires b.data != ""
    ensures ProcessLine(b, line).data != ""
  {}

  lemma RestEndsBlank(s: string, n: nat)
    requires EndsBlank(s) && 0 < n < |s| && OneLine(s[..n]) && Break(s[n])
    ensures EndsBlank(Rest(s, n))
  {
    assert s[..n][n - 1] == s[n - 1];
  }

  /** With data pending, a text that ends with a blank line dispatches something. */
  lemma {:induction false} Dispatches(s: string, b: Buffers)
    requires EndsBlank(s) && b.data != ""
    ensures Parse(s, b) != []
    decreases |s|
  {
    var n := LineEnd(s);
    assert Break(s[|s| - 1]);
    BreakFound(s);
    if n > 0 {
      RestEndsBlank(s, n);
      hide LineEnd, ProcessLine, EndsBlank, OneLine, Dispatch;
      LineKeepsData(b, s[..n]);
      Dispatches(Rest(s, n), ProcessLine(b, s[..n]));
    }
  }

  /** A JSON text with a line feed never comes back as the first message, whatever text follows. */
  lemma FirstDataWrong(json: string, rest: string, b: Buffers)
    requires '\r' !in json && !OneLine(json) && b.data == ""
    ensures Parse("data: " + json + "\n\n" + rest, b) != []
    ensures Parse("data: " + json + "\n\n" + rest, b)[0].data != json
  {
    hide Parse;
    var text := "data: " + json + "\n\n";
    var n := LineEnd(json);
    BreakFound(json);
    var line, tail := json[..n], json[n + 1..];
    assert json == line + "\n" + tail;
    assert text == "data" + ": " + line + "\n" + (tail + "\n\n");
    ParseField("data", line, tail + "\n\n", b);
    Dispatches(tail + "\n\n", SetField(b, "data", line));
    ArrivedPrefix(text, text + rest, b);
    assert Parse(text, b)[0] == Parse(text + rest, b)[0];
    ParsedWeight(text, b);
    OneLineBreaks(json);
  }

  /** The client sees `m` first. */
  predicate SeenFirst(ms: seq<Message>, m: Message) { ms != [] && ms[0] == m }

  lemma SeenText(s: string, b: Buffers, m: Message)
    requires NoReturns(b) && SeenFirst(Parse(s, b), m)
    ensures OneLine(m.kind) && '\r' !in m.data
  {
    hide Parse;
    ParsedText(s, b);
    assert m in Parse(s, b);
  }

  lemma PlainSpoils(json: string, rest: string, b: Buffers, m: Message)
    requires '\r' !in json && b.data == "" && m.data == json
    requires SeenFirst(Parse("data: " + json + "\n\n" + rest, b), m)
    ensures OneLine(json)
  {
    hide Parse, OneLine;
    if !OneLine(json) { FirstDataWrong(json, rest, b); }
  }

  lemma TypedSpoils(kind: string, json: string, rest: string, m: Message, b: Buffers)
    requires OneLine(kind) && '\r' !in json && m.data == json && b.data == ""
    requires SeenFirst(Parse("event: " + kind + "\n" + ("data: " + json + "\n\n" + rest), b), m)
    ensures OneLine(json)
  {
    hide Parse, OneLine;
    ParseKind(kind, "data: " + json + "\n\n" + rest, b);
    PlainSpoils(json, rest, b.(kind := kind), m);
  }

  /** A wrong event is seen wrong: no text after it can repair the first message. */
  lemma UncleanSpoils(e: Event, rest: string, lastId: string)
    requires SeenFirst(Parse(Format(e) + rest, Reset(lastId)), Expected(e, lastId))
    ensures Clean(e)
  {
    var m, b := Expected(e, lastId), Reset(lastId);
    EmptyOneLine();
    FormatParts(e, rest);
    ExpectedParts(e, lastId);
    hide Parse, SeenFirst, Format, Expected, OneLine;
    SeenText(Format(e) + rest, b, m);
    match e
    case Finished =>
    case Plain(json) => PlainSpoils(json, rest, b, m);
    case Typed(kind, json) => TypedSpoils(kind, json, rest, m, b);
  }

  lemma FormatParts(e: Event, rest: string)
    ensures e.Plain? ==> Format(e) + rest == "data: " + e.json + "\n\n" + rest
    ensures e.Typed? ==> Format(e) + rest == "event: " + e.kind + "\n" + ("data: " + e.json + "\n\n" + rest)
  {}

  lemma ExpectedParts(e: Event, lastId: string)
    ensures !e.Finished? ==> Expected(e, lastId).data == e.json
    ensures e.Typed? && OneLine(Expected(e, lastId).kind) ==> OneLine(e.kind)
  {}

  lemma EmptyOneLine()
    ensures OneLine("")
  {}

  /** A list of events is read back exactly if every one of them is clean. */
  lemma {:induction false} ListRoundTripIff(es: seq<Event>, lastId: string)
    ensures Parse(FormatAll(es), Reset(lastId)) == ExpectedAll(es, lastId) <==>
            forall i :: 0 <= i < |es| ==> Clean(es[i])
  {
    if forall i :: 0 <= i < |es| ==> Clean(es[i]) { RoundTrip(es, lastId); }
    if es != [] && Parse(FormatAll(es), Reset(lastId)) == ExpectedAll(es, lastId) {
      hide Parse;
      UncleanSpoils(es[0], FormatAll(es[1..]), lastId);
      ParseEvent(es[0], FormatAll(es[1..]), lastId);
      assert Parse(FormatAll(es[1..]), Reset(lastId)) ==
          ([Expected(es[0], lastId)] + Parse(FormatAll(es[1..]), Reset(lastId)))[1..];
      ListRoundTripIff(es[1..], lastId);
      assert forall i :: 1 <= i < |es| ==> es[i] == es[1..][i - 1];
    }
  }

  lemma NothingParsed(b: Buffers)
    ensures Parse("", b) == []
  {}

  /** However much of the text has arrived, even half a CR LF, the client has seen the first messages. */
  lemma {:induction false} ArrivedPrefix(t: string, s: string, b: Buffers)
    requires t <= s
    ensures Parse(t, b) <= Parse(s, b)
    decreases |t|
  {
    var n := LineEnd(t);
    if n < |t| {
      assert s[..n] == t[..n];
      LineEndAt(s, n);
      var c := if n == 0 then Reset(b.lastId) else ProcessLine(b, t[..n]);
      ArrivedPrefix(Rest(t, n), Rest(s, n), c);
    }
  }
}
