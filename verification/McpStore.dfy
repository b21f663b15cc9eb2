/**
 MCP server records of each API key in the shared store: validated keys, one document for each
 server, one index set for each API key, and the table they refine.
 */
module McpStore {
  import opened Common
  import opened Redis

  // -------------------------------------------------------------------- keys

  const INVALID := [' ', '\n', '\r', '\t', ':', '*', '?', '[', ']']

  datatype KeyError = EmptyKey | InvalidChar(c: char)

  /** The characters `str.strip` removes. */
  predicate Space(c: char) {
    || '\t' <= c <= '\r' || '\U{1c}' <= c <= ' ' || c == '\U{85}' || c == '\U{a0}' || c == '\U{1680}'
    || '\U{2000}' <= c <= '\U{200a}' || c == '\U{2028}' || c == '\U{2029}' || c == '\U{202f}' || c == '\U{205f}'
    || c == '\U{3000}'
  }

  function FirstInvalid(key: string, chars: seq<char>): Option<KeyError> {
    if chars == [] then None
    else if chars[0] in key then Some(InvalidChar(chars[0]))
    else FirstInvalid(key, chars[1..])
  }

  function ValidateApiKey(key: string): Option<KeyError> {
    if forall i :: 0 <= i < |key| ==> Space(key[i]) then Some(EmptyKey) else FirstInvalid(key, INVALID)
  }

  predicate Good(key: string) { ValidateApiKey(key).None? }

  lemma {:induction false} NoneInvalid(key: string, chars: seq<char>)
    ensures FirstInvalid(key, chars).None? <==> forall c :: c in chars ==> c !in key
  {
    if chars != [] {
      NoneInvalid(key, chars[1..]);
      assert chars == [chars[0]] + chars[1..];
    }
  }

  /** A key passes exactly if it has a visible character and none of the nine special ones. */
  lemma GoodIff(key: string)
    ensures Good(key) <==> (exists i :: 0 <= i < |key| && !Space(key[i])) && forall c :: c in INVALID ==> c !in key
  {
    NoneInvalid(key, INVALID);
  }

  /** The error names the first special character of the list that is in the key; blank keys come first. */
  lemma {:induction false} InvalidIs(key: string, chars: seq<char>, p: nat)
    requires p < |chars| && chars[p] in key && forall q :: 0 <= q < p ==> chars[q] !in key
    ensures FirstInvalid(key, chars) == Some(InvalidChar(chars[p]))
  {
    if p > 0 { InvalidIs(key, chars[1..], p - 1); }
  }

  /** The `p`-th of the special characters is the first of them that the key contains. */
  predicate FirstIn(key: string, p: int) {
    0 <= p < |INVALID| && INVALID[p] in key && forall q :: 0 <= q < p ==> INVALID[q] !in key
  }

  /** A blank key is refused as empty, any other by the first special character in it. */
  lemma ErrorIs(key: string)
    ensures ValidateApiKey(key) == Some(EmptyKey) <==> forall i :: 0 <= i < |key| ==> Space(key[i])
    ensures forall p :: FirstIn(key, p) && ValidateApiKey(key) != Some(EmptyKey) ==>
              ValidateApiKey(key) == Some(InvalidChar(INVALID[p]))
  {
    NoEmptyKey(key, INVALID);
    forall p | FirstIn(key, p) ensures FirstInvalid(key, INVALID) == Some(InvalidChar(INVALID[p])) {
      InvalidIs(key, INVALID, p);
    }
  }

  lemma {:induction false} NoEmptyKey(key: string, chars: seq<char>)
    ensures FirstInvalid(key, chars) != Some(EmptyKey)
  {
    if chars != [] { NoEmptyKey(key, chars[1..]); }
  }

  function ServerKey(apiKey: string, name: string): string { "mcp_server:" + apiKey + ":" + name }

  function IndexKey(apiKey: string): string { "mcp_servers:index:" + apiKey }

  lemma GoodNoColon(key: string)
    requires Good(key)
    ensures ':' !in key
  {
    GoodIff(key);
    assert INVALID[4] == ':';
  }

  /** The split at the first colon after the prefix is unique when the API keys have none. */
  lemma JoinInjective(a: string, x: string, b: string, y: string)
    requires ':' !in a && ':' !in b && a + ":" + x == b + ":" + y
    ensures a == b && x == y
  {
    var s := a + ":" + x;
    assert s[|a|] == ':' && s[|b|] == ':';
    assert forall i :: 0 <= i < |a| ==> s[i] == a[i] != ':';
    assert forall i :: 0 <= i < |b| ==> s[i] == b[i] != ':';
    assert a == s[..|a|] && b == s[..|b|];
    assert x == s[|a| + 1..];
  }

  /** Keys of different servers differ, and no server key is an index key. */
  lemma KeysInjective(a: string, x: string, b: string, y: string)
    requires Good(a) && Good(b)
    ensures ServerKey(a, x) == ServerKey(b, y) ==> a == b && x == y
    ensures IndexKey(a) == IndexKey(b) ==> a == b
    ensures ServerKey(a, x) != IndexKey(b)
  {
    GoodNoColon(a);
    GoodNoColon(b);
    var s, t, p := ServerKey(a, x), ServerKey(b, y), "mcp_server:";
    assert s == p + (a + ":" + x) && t == p + (b + ":" + y);
    assert s[|p|..] == a + ":" + x && t[|p|..] == b + ":" + y;
    if s == t { JoinInjective(a, x, b, y); }
    assert IndexKey(a)[18..] == a && IndexKey(b)[18..] == b;
    assert s[10] == ':' && IndexKey(b)[10] == 's';
  }

  // ------------------------------------------------------------- refinement

  /** What the service is to hold: a record for each API key and name. */
  type Table = map<(string, string), Json>

  ghost predicate NamesOf(t: Table, apiKey: string, names: set<string>) {
    forall n :: n in names <==> (apiKey, n) in t
  }

  /** The stored record of a server. */
  function Record(s: Store, apiKey: string, name: string): Option<Json> {
    match ReplyOf(s, ServerKey(apiKey, name))
    case Got(doc) => if doc.Null? then None else Some(doc)
    case _ => None
  }

  function Lookup(t: Table, apiKey: string, name: string): Option<Json> {
    if (apiKey, name) in t then Some(t[(apiKey, name)]) else None
  }

  /** The index is a set without expiry, or missing. */
  predicate PlainIndex(s: Store, apiKey: string) {
    var e := Live(s, IndexKey(apiKey)); e.Some? ==> e.value.value.Members? && e.value.expiry.None?
  }

  ghost predicate Refines(s: Store, t: Table) {
    && (forall k, n :: (k, n) in t ==> Good(k) && Good(n) && !t[(k, n)].Null?)
    && (forall k, n :: Good(k) && Good(n) ==> ServerOk(s, t, k, n))
    && (forall k :: Good(k) ==> PlainIndex(s, k) && NamesOf(t, k, MembersOf(s, IndexKey(k))))
  }

  predicate ServerOk(s: Store, t: Table, k: string, n: string) {
    Live(s, ServerKey(k, n)) == match Lookup(t, k, n) case Some(doc) => Some(Entry(Doc(doc), None)) case None => None
  }

  lemma PutRefines(s: Store, t: Table, k: string, n: string, doc: Json)
    requires Refines(s, t) && Good(k) && Good(n) && !doc.Null?
    ensures var r := AddMember(Put(s, ServerKey(k, n), Doc(doc), None), IndexKey(k), n);
            Refines(r, t[(k, n) := doc])
    ensures (k, n) in t ==> Refines(Put(s, ServerKey(k, n), Doc(doc), None), t[(k, n) := doc])
  {
    hide Good, ServerKey, IndexKey, Live, Put, AddMember;
    var t' := t[(k, n) := doc];
    var p := Put(s, ServerKey(k, n), Doc(doc), None);
    var r := AddMember(p, IndexKey(k), n);
    forall b, y | Good(b) && Good(y) ensures ServerOk(p, t', b, y) && ServerOk(r, t', b, y) {
      KeysInjective(k, n, b, y);
      KeysInjective(b, y, k, n);
      assert ServerOk(s, t, b, y);
    }
    forall b | Good(b)
      ensures PlainIndex(r, b) && NamesOf(t', b, MembersOf(r, IndexKey(b)))
      ensures (k, n) in t ==> PlainIndex(p, b) && NamesOf(t', b, MembersOf(p, IndexKey(b)))
    {
      KeysInjective(k, n, b, n);
      assert PlainIndex(s, b) && NamesOf(t, b, MembersOf(s, IndexKey(b)));
    }
  }

  lemma DropRefines(s: Store, t: Table, k: string, n: string)
    requires Refines(s, t) && Good(k) && Good(n)
    ensures Refines(Drop(RemoveMember(s, IndexKey(k), n), ServerKey(k, n)), t - {(k, n)})
  {
    hide Good, ServerKey, IndexKey, Live, Drop, RemoveMember;
    var t' := t - {(k, n)};
    var p := RemoveMember(s, IndexKey(k), n);
    var r := Drop(p, ServerKey(k, n));
    forall b, y | Good(b) && Good(y) ensures ServerOk(r, t', b, y) {
      KeysInjective(k, n, b, y);
      KeysInjective(b, y, k, n);
      assert ServerOk(s, t, b, y);
    }
    forall b | Good(b) ensures PlainIndex(r, b) && NamesOf(t', b, MembersOf(r, IndexKey(b))) {
      KeysInjective(k, n, b, n);
      assert PlainIndex(s, b) && NamesOf(t, b, MembersOf(s, IndexKey(b)));
      assert MembersOf(r, IndexKey(b)) == MembersOf(p, IndexKey(b));
    }
  }

  lemma RemoveAbsentRefines(s: Store, t: Table, k: string, n: string)
    requires Refines(s, t) && Good(k) && !Good(n)
    ensures Refines(RemoveMember(s, IndexKey(k), n), t)
  {
    hide Good, ServerKey, IndexKey, Live, RemoveMember;
    var r := RemoveMember(s, IndexKey(k), n);
    forall b, y | Good(b) && Good(y) ensures ServerOk(r, t, b, y) {
      KeysInjective(b, y, k, n);
      assert ServerOk(s, t, b, y);
    }
    forall b | Good(b) ensures PlainIndex(r, b) && NamesOf(t, b, MembersOf(r, IndexKey(b))) {
      KeysInjective(k, n, b, n);
      assert PlainIndex(s, b) && NamesOf(t, b, MembersOf(s, IndexKey(b)));
    }
  }

  // -------------------------------------------------------------- operations

  datatype Op =
    | Create(fields: map<string, Json>)
    | Get
    | Update(change: Json -> map<string, Json>)
    | Delete
    | List

  /** One call; `name` is not used by `List`. */
  datatype Call = Call(op: Op, apiKey: string, name: string)

  datatype Answer =
    | Refused(error: KeyError)
    | Found(record: Option<Json>)
    | Flag(b: bool)
    | Rows(rows: seq<(string, Json)>)

  function Refusal(c: Call): Option<KeyError> {
    if ValidateApiKey(c.apiKey).Some? then ValidateApiKey(c.apiKey)
    else if c.op.List? then None else ValidateApiKey(c.name)
  }

  /** The table after a call. */
  function After(t: Table, c: Call): Table {
    var was := Lookup(t, c.apiKey, c.name);
    if Refusal(c).Some? then t
    else match c.op
      case Create(fields) => if was.Some? then t else t[(c.apiKey, c.name) := Obj(fields)]
      case Update(change) => if was.None? then t else t[(c.apiKey, c.name) := Obj(change(was.value))]
      case Delete => t - {(c.apiKey, c.name)}
      case Get => t
      case List => t
  }

  /** `rows` has every record of the API key once, in any order. */
  ghost predicate Listing(t: Table, apiKey: string, rows: seq<(string, Json)>) {
    && (forall i :: 0 <= i < |rows| ==> (apiKey, rows[i].0) in t && t[(apiKey, rows[i].0)] == rows[i].1)
    && (forall n :: (apiKey, n) in t ==> exists i :: 0 <= i < |rows| && rows[i].0 == n)
    && (forall i, j :: 0 <= i < j < |rows| ==> rows[i].0 != rows[j].0)
  }

  /** What a call answers on table `t`. */
  ghost predicate Answers(t: Table, c: Call, a: Answer) {
    var was := Lookup(t, c.apiKey, c.name);
    if Refusal(c).Some? then a == Refused(Refusal(c).value)
    else match c.op
      case Create(fields) => a == Found(if was.Some? then None else Some(Obj(fields)))
      case Get => a == Found(was)
      case Update(change) => a == Found(if was.None? then None else Some(Obj(change(was.value))))
      case Delete => a == Flag(was.Some?)
      case List => a.Rows? && Listing(t, c.apiKey, a.rows)
  }

  /**
   Of the index names in `done`, every readable record is in `rows` once, and exactly the others
   are gone from the index; nothing else of `s` is changed in `r`.
   */
  ghost predicate Listed(s: Store, r: Store, k: string, done: set<string>, rows: seq<(string, Json)>) {
    && (forall i :: 0 <= i < |rows| ==> rows[i].0 in done && Record(s, k, rows[i].0) == Some(rows[i].1))
    && (forall n :: n in done && Record(s, k, n).Some? ==> exists i :: 0 <= i < |rows| && rows[i].0 == n)
    && (forall i, j :: 0 <= i < j < |rows| ==> rows[i].0 != rows[j].0)
    && (forall n :: n in MembersOf(r, IndexKey(k)) <==>
          n in MembersOf(s, IndexKey(k)) && (n in done ==> Record(s, k, n).Some?))
    && (forall key :: key != IndexKey(k) ==> Live(r, key) == Live(s, key))
    && ((forall n :: n in done ==> Record(s, k, n).Some?) ==> r == s)
  }

  lemma RecordRead(s: Store, k: string, n: string)
    ensures var reply := ReplyOf(s, ServerKey(k, n));
            Record(s, k, n) == if reply.Got? && !reply.doc.Null? then Some(reply.doc) else None
  {}

  lemma StaleStep(s: Store, r: Store, k: string, done: set<string>, rows: seq<(string, Json)>, n: string)
    requires Listed(s, r, k, done, rows) && Record(s, k, n).None?
    ensures Listed(s, RemoveMember(r, IndexKey(k), n), k, done + {n}, rows)
  {
    hide Record, Live, RemoveMember, ServerKey, IndexKey, MembersOf;
  }

  lemma RowStep(s: Store, r: Store, k: string, done: set<string>, rows: seq<(string, Json)>, n: string, doc: Json)
    requires Listed(s, r, k, done, rows) && n !in done && Record(s, k, n) == Some(doc)
    ensures Listed(s, r, k, done + {n}, rows + [(n, doc)])
  {
    hide Record, Live, ServerKey, IndexKey, MembersOf;
    var rows' := rows + [(n, doc)];
    forall y | y in done + {n} && Record(s, k, y).Some? ensures exists i :: 0 <= i < |rows'| && rows'[i].0 == y {
      if y == n { assert rows'[|rows|].0 == y; } else {
        var i :| 0 <= i < |rows| && rows[i].0 == y;
        assert rows'[i].0 == y;
      }
    }
  }

  /** A name list of the set, unless one of them is no valid key. */
  method Ordered(names: set<string>) returns (order: seq<string>, bad: Option<KeyError>)
    ensures bad.Some? <==> exists n :: n in names && !Good(n)
    ensures bad.None? ==> forall n :: n in order <==> n in names
    ensures forall i, j :: 0 <= i < j < |order| ==> order[i] != order[j]
  {
    hide ValidateApiKey;
    order, bad := [], None;
    var rest := names;
    while rest != {}
      invariant rest <= names && forall n :: n in order <==> n in names && n !in rest
      invariant forall n :: n in order ==> Good(n)
      invariant forall i, j :: 0 <= i < j < |order| ==> order[i] != order[j]
    {
      var n :| n in rest;
      if ValidateApiKey(n).Some? { return order, ValidateApiKey(n); }
      order, rest := order + [n], rest - {n};
    }
  }

  /** In a store that refines a table, listing finds every record and nothing stale. */
  lemma NamesGood(s: Store, t: Table, k: string)
    requires Refines(s, t) && Good(k)
    ensures forall n :: n in MembersOf(s, IndexKey(k)) <==> (k, n) in t
    ensures forall n :: (k, n) in t ==> Good(n) && Record(s, k, n) == Some(t[(k, n)])
  {
    hide Good, Live, ServerKey, IndexKey, MembersOf;
    assert NamesOf(t, k, MembersOf(s, IndexKey(k)));
    forall n | (k, n) in t ensures Good(n) && Record(s, k, n) == Some(t[(k, n)]) {
      assert ServerOk(s, t, k, n);
    }
  }

  lemma ListedExact(s: Store, r: Store, t: Table, k: string, rows: seq<(string, Json)>)
    requires Refines(s, t) && Good(k) && Listed(s, r, k, MembersOf(s, IndexKey(k)), rows)
    ensures r == s && Listing(t, k, rows)
  {
    hide Good, Live, ServerKey, IndexKey, MembersOf, Record, Refines;
    NamesGood(s, t, k);
  }

  /** No Redis key outside the server's own and its API key's index is touched. */
  ghost predicate OthersKept(s: Store, r: Store, c: Call) {
    forall key :: key != ServerKey(c.apiKey, c.name) && key != IndexKey(c.apiKey) ==> Live(r, key) == Live(s, key)
  }

  class McpServerConfigService {
    const cache: RedisCache
    ghost var table: Table

    constructor (cache: RedisCache)
      requires Refines(cache.store, map[])
      ensures Valid() && this.cache == cache && table == map[]
    {
      this.cache := cache;
      table := map[];
    }

    ghost predicate Valid()
      reads this, cache
    {
      Refines(cache.store, table)
    }

    method GetServer(apiKey: string, name: string) returns (a: Answer)
      requires Valid()
      ensures Answers(table, Call(Get, apiKey, name), a)
    {
      hide Good, ValidateApiKey, ServerKey, IndexKey, Live;
      if ValidateApiKey(apiKey).Some? { return Refused(ValidateApiKey(apiKey).value); }
      if ValidateApiKey(name).Some? { return Refused(ValidateApiKey(name).value); }
      var raw := cache.GetJson(ServerKey(apiKey, name));
      GoodNow(apiKey);
      GoodNow(name);
      assert ServerOk(cache.store, table, apiKey, name);
      a := Found(if raw.Got? && !raw.doc.Null? then Some(raw.doc) else None);
    }

    method CreateServer(apiKey: string, name: string, fields: map<string, Json>) returns (a: Answer)
      requires Valid()
      modifies this, cache
      ensures Valid() && table == After(old(table), Call(Create(fields), apiKey, name))
      ensures Answers(old(table), Call(Create(fields), apiKey, name), a)
      ensures OthersKept(old(cache.store), cache.store, Call(Create(fields), apiKey, name))
    {
      hide ValidateApiKey, ServerKey, IndexKey, Live, Refines;
      var existing := GetServer(apiKey, name);
      if existing.Refused? || existing.record.Some? {
        return if existing.Refused? then existing else Found(None);
      }
      PutRefines(cache.store, table, apiKey, name, Obj(fields));
      cache.SetJson(ServerKey(apiKey, name), Obj(fields), None);
      cache.AddToSet(IndexKey(apiKey), name);
      table := table[(apiKey, name) := Obj(fields)];
      a := Found(Some(Obj(fields)));
    }

    method UpdateServer(apiKey: string, name: string, change: Json -> map<string, Json>) returns (a: Answer)
      requires Valid()
      modifies this, cache
      ensures Valid() && table == After(old(table), Call(Update(change), apiKey, name))
      ensures Answers(old(table), Call(Update(change), apiKey, name), a)
      ensures OthersKept(old(cache.store), cache.store, Call(Update(change), apiKey, name))
    {
      hide ValidateApiKey, ServerKey, IndexKey, Live, Refines;
      var existing := GetServer(apiKey, name);
      if existing.Refused? || existing.record.None? { return existing; }
      var doc := Obj(change(existing.record.value));
      PutRefines(cache.store, table, apiKey, name, doc);
      cache.SetJson(ServerKey(apiKey, name), doc, None);
      table := table[(apiKey, name) := doc];
      a := Found(Some(doc));
    }

    /** The index is changed before the name is checked. */
    method DeleteServer(apiKey: string, name: string) returns (a: Answer)
      requires Valid()
      modifies this, cache
      ensures Valid() && table == After(old(table), Call(Delete, apiKey, name))
      ensures Answers(old(table), Call(Delete, apiKey, name), a)
      ensures OthersKept(old(cache.store), cache.store, Call(Delete, apiKey, name))
    {
      hide ValidateApiKey, ServerKey, IndexKey, Live, Refines;
      if ValidateApiKey(apiKey).Some? { return Refused(ValidateApiKey(apiKey).value); }
      if Good(name) { DropRefines(cache.store, table, apiKey, name); Deletable(cache.store, table, apiKey, name); }
      else { RemoveAbsentRefines(cache.store, table, apiKey, name); }
      cache.RemoveFromSet(IndexKey(apiKey), name);
      if ValidateApiKey(name).Some? { return Refused(ValidateApiKey(name).value); }
      var removed := cache.Delete(ServerKey(apiKey, name));
      table := table - {(apiKey, name)};
      a := Flag(removed);
    }

    /**
     The names of the index that still have a record, in the set's own order; the others are
     taken out of the index. An index name that is no valid key stops the call.
     */
    method ListServers(apiKey: string) returns (a: Answer)
      modifies cache
      ensures ValidateApiKey(apiKey).Some? ==> a == Refused(ValidateApiKey(apiKey).value)
      ensures a.Refused? ==> cache.store == old(cache.store)
      ensures Good(apiKey) ==> (a.Refused? <==>
              exists n :: n in MembersOf(old(cache.store), IndexKey(apiKey)) && !Good(n))
      ensures !a.Refused? ==>
              var names := MembersOf(old(cache.store), IndexKey(apiKey));
              a.Rows? && Listed(old(cache.store), cache.store, apiKey, names, a.rows)
      ensures old(Valid()) ==> Valid() && Answers(table, Call(List, apiKey, ""), a) && cache.store == old(cache.store)
    {
      hide ValidateApiKey, ServerKey, IndexKey, Live, Refines, Record, Listing;
      if ValidateApiKey(apiKey).Some? { return Refused(ValidateApiKey(apiKey).value); }
      ghost var s := cache.store;
      var index := IndexKey(apiKey);
      var names := cache.SetMembers(index);
      if Refines(s, table) { NamesGood(s, table, apiKey); }
      var order, bad := Ordered(names);
      if bad.Some? { return Refused(bad.value); }
      var keys := seq(|order|, i requires 0 <= i < |order| => ServerKey(apiKey, order[i]));
      var raw := cache.GetManyJson(keys);
      var rows: seq<(string, Json)> := [];
      ghost var done := {};
      for i := 0 to |order|
        invariant Listed(s, cache.store, apiKey, done, rows)
        invariant forall n :: n in done <==> n in order[..i]
      {
        var name := order[i];
        assert keys[i] == ServerKey(apiKey, name);
        RecordRead(s, apiKey, name);
        if raw[i].None? || raw[i].value.Null? {
          StaleStep(s, cache.store, apiKey, done, rows, name);
          cache.RemoveFromSet(index, name);
        } else {
          RowStep(s, cache.store, apiKey, done, rows, name, raw[i].value);
          rows := rows + [(name, raw[i].value)];
        }
        done := done + {name};
        assert order[..i + 1] == order[..i] + [name];
      }
      assert order[..|order|] == order && done == names;
      if Refines(s, table) { ListedExact(s, cache.store, table, apiKey, rows); }
      a := Rows(rows);
    }

    /** Any sequence of calls: the table is the plain replay, and every answer is the table's. */
    method Run(calls: seq<Call>) returns (answers: seq<Answer>)
      requires Valid()
      modifies this, cache
      ensures Valid() && table == Final(old(table), calls)
      ensures |answers| == |calls|
      ensures forall i :: 0 <= i < |calls| ==> Answers(Final(old(table), calls[..i]), calls[i], answers[i])
      ensures forall i :: 0 <= i < |calls| ==> ReadsWrites(old(table), calls, answers, i)
    {
      hide Refines, Answers, After, ReadsWrites;
      answers := [];
      for i := 0 to |calls|
        invariant Valid() && table == Final(old(table), calls[..i]) && |answers| == i
        invariant forall j :: 0 <= j < i ==> Answers(Final(old(table), calls[..j]), calls[j], answers[j])
      {
        var a := Serve(calls[i]);
        answers := answers + [a];
        assert calls[..i + 1][..i] == calls[..i];
      }
      assert calls[..|calls|] == calls;
      forall i: nat | i < |answers| ensures ReadsWrites(old(table), calls, answers, i) {
        ReadYourWrites(old(table), calls, answers, i);
      }
    }

    method Serve(c: Call) returns (a: Answer)
      requires Valid()
      modifies this, cache
      ensures Valid() && table == After(old(table), c) && Answers(old(table), c, a)
    {
      hide Refines, ValidateApiKey;
      match c.op
      case Create(fields) => a := CreateServer(c.apiKey, c.name, fields);
      case Get => a := GetServer(c.apiKey, c.name);
      case Update(change) => a := UpdateServer(c.apiKey, c.name, change);
      case Delete => a := DeleteServer(c.apiKey, c.name);
      case List => a := ListServers(c.apiKey);
    }
  }

  /** The table after all calls. */
  function Final(t: Table, calls: seq<Call>): Table {
    if calls == [] then t else After(Final(t, calls[..|calls| - 1]), calls[|calls| - 1])
  }

  /** A created name is held until it is deleted: the index of its creation is not followed by a deletion. */
  ghost predicate CreatedAt(calls: seq<Call>, k: string, n: string, i: int) {
    && 0 <= i < |calls| && calls[i].op.Create? && calls[i].apiKey == k && calls[i].name == n
    && forall j :: i < j < |calls| ==> !(calls[j].op.Delete? && calls[j].apiKey == k && calls[j].name == n)
  }

  /** Starting empty, exactly the created and not deleted names of valid keys are held. */
  lemma {:induction false} HeldIff(calls: seq<Call>, k: string, n: string)
    ensures (k, n) in Final(map[], calls) <==> Good(k) && Good(n) && exists i :: CreatedAt(calls, k, n, i)
  {
    hide ValidateApiKey;
    if calls != [] {
      var m := |calls| - 1;
      HeldIff(calls[..m], k, n);
      if calls[m].op.Delete? && calls[m].apiKey == k && calls[m].name == n {
        assert forall i :: 0 <= i < m ==> !CreatedAt(calls, k, n, i);
      } else {
        forall i | 0 <= i < m ensures CreatedAt(calls, k, n, i) <==> CreatedAt(calls[..m], k, n, i) {}
        if calls[m].op.Create? && calls[m].apiKey == k && calls[m].name == n {
          assert CreatedAt(calls, k, n, m);
        }
      }
    }
  }

  // ------------------------------------------------- reads and writes in the log

  predicate Concerns(c: Call, k: string, n: string) { c.apiKey == k && c.name == n && !c.op.List? }

  /** A creation or update of the server that was answered with the record. */
  predicate Wrote(c: Call, a: Answer, k: string, n: string) {
    Concerns(c, k, n) && (c.op.Create? || c.op.Update?) && a.Found? && a.record.Some?
  }

  /** The call neither wrote nor deleted the server's record. */
  predicate Quiet(c: Call, a: Answer, k: string, n: string) {
    !Wrote(c, a, k, n) && !(Concerns(c, k, n) && c.op.Delete? && a == Flag(true))
  }

  /** The call `j` is the last before `i` to touch the server's record, and wrote it. */
  ghost predicate LastWrite(calls: seq<Call>, answers: seq<Answer>, i: nat, j: int, k: string, n: string)
    requires i <= |calls| == |answers|
  {
    && 0 <= j < i && Wrote(calls[j], answers[j], k, n)
    && forall l :: j < l < i ==> Quiet(calls[l], answers[l], k, n)
  }

  ghost predicate Untouched(calls: seq<Call>, answers: seq<Answer>, i: nat, k: string, n: string)
    requires i <= |calls| == |answers|
  {
    forall l :: 0 <= l < i ==> Quiet(calls[l], answers[l], k, n)
  }

  /**
   Going by calls and answers alone, the server has the record `doc` before the call `i`: the last
   write was answered with it, or it was there from the start and has not been touched.
   */
  ghost predicate Holds(t: Table, calls: seq<Call>, answers: seq<Answer>, i: nat, k: string, n: string, doc: Json)
    requires i <= |calls| == |answers|
  {
    || (exists j :: LastWrite(calls, answers, i, j, k, n) && answers[j].record == Some(doc))
    || (Untouched(calls, answers, i, k, n) && Lookup(t, k, n) == Some(doc))
  }

  /** The answers are those of the tables between the calls. */
  ghost predicate AnswersOf(t: Table, calls: seq<Call>, answers: seq<Answer>) {
    && |answers| == |calls|
    && forall i :: 0 <= i < |calls| ==> Answers(Final(t, calls[..i]), calls[i], answers[i])
  }

  lemma AfterStep(t: Table, c: Call, a: Answer, k: string, n: string)
    requires Answers(t, c, a)
    ensures Wrote(c, a, k, n) ==> Lookup(After(t, c), k, n) == a.record
    ensures Quiet(c, a, k, n) ==> Lookup(After(t, c), k, n) == Lookup(t, k, n)
    ensures !Wrote(c, a, k, n) && !Quiet(c, a, k, n) ==> Lookup(After(t, c), k, n) == None
  {
    hide ValidateApiKey;
  }

  lemma HoldsStep(t: Table, calls: seq<Call>, answers: seq<Answer>, i: nat, k: string, n: string, doc: Json)
    requires i < |calls| == |answers|
    ensures var c, a := calls[i], answers[i];
            Holds(t, calls, answers, i + 1, k, n, doc) <==>
              if Wrote(c, a, k, n) then a.record == Some(doc)
              else Quiet(c, a, k, n) && Holds(t, calls, answers, i, k, n, doc)
  {
    hide Wrote, Quiet, Lookup;
    var c, a := calls[i], answers[i];
    WroteNotQuiet(c, a, k, n);
    if Wrote(c, a, k, n) {
      assert LastWrite(calls, answers, i + 1, i, k, n);
    } else if Quiet(c, a, k, n) {
      assert forall j :: LastWrite(calls, answers, i + 1, j, k, n) <==> LastWrite(calls, answers, i, j, k, n);
      assert Untouched(calls, answers, i + 1, k, n) <==> Untouched(calls, answers, i, k, n);
    }
  }

  lemma WroteNotQuiet(c: Call, a: Answer, k: string, n: string)
    ensures Wrote(c, a, k, n) ==> !Quiet(c, a, k, n) && a.Found?
  {}

  lemma HoldsAtStart(t: Table, calls: seq<Call>, answers: seq<Answer>, k: string, n: string)
    requires |calls| == |answers|
    ensures forall doc :: Holds(t, calls, answers, 0, k, n, doc) <==> Lookup(Final(t, calls[..0]), k, n) == Some(doc)
  {}

  /** The table before a call has exactly the records that the calls and answers so far tell of. */
  lemma {:induction false} HoldsIff(t: Table, calls: seq<Call>, answers: seq<Answer>, i: nat, k: string, n: string)
    requires i <= |calls| && AnswersOf(t, calls, answers)
    ensures forall doc :: Holds(t, calls, answers, i, k, n, doc) <==> Lookup(Final(t, calls[..i]), k, n) == Some(doc)
  {
    hide Lookup, Answers, After, Wrote, Quiet;
    if i == 0 { HoldsAtStart(t, calls, answers, k, n); } else {
      var c, a, was := calls[i - 1], answers[i - 1], Final(t, calls[..i - 1]);
      HoldsIff(t, calls, answers, i - 1, k, n);
      AfterStep(was, c, a, k, n);
      assert calls[..i][..i - 1] == calls[..i - 1] && Final(t, calls[..i]) == After(was, c);
      forall doc ensures Holds(t, calls, answers, i, k, n, doc) <==> Lookup(After(was, c), k, n) == Some(doc) {
        HoldsStep(t, calls, answers, i - 1, k, n, doc);
      }
    }
  }

  /** What a call answers, in terms of the calls and answers before it. */
  ghost predicate ReadsWrites(t: Table, calls: seq<Call>, answers: seq<Answer>, i: nat)
    requires i < |calls| == |answers|
  {
    var c, a := calls[i], answers[i];
    if Refusal(c).Some? then a == Refused(Refusal(c).value)
    else match c.op
      case Get =>
        a.Found? && forall doc :: Holds(t, calls, answers, i, c.apiKey, c.name, doc) <==> a.record == Some(doc)
      case Create(fields) =>
        if exists doc :: Holds(t, calls, answers, i, c.apiKey, c.name, doc) then a == Found(None)
        else a == Found(Some(Obj(fields)))
      case Update(change) =>
        && a.Found?
        && (forall doc :: Holds(t, calls, answers, i, c.apiKey, c.name, doc) ==> a.record == Some(Obj(change(doc))))
        && (a.record.Some? ==> exists doc :: Holds(t, calls, answers, i, c.apiKey, c.name, doc))
      case Delete => a.Flag? && (a.b <==> exists doc :: Holds(t, calls, answers, i, c.apiKey, c.name, doc))
      case List =>
        && a.Rows?
        && (forall n, doc :: Holds(t, calls, answers, i, c.apiKey, n, doc) <==> (n, doc) in a.rows)
        && forall x, y :: 0 <= x < y < |a.rows| ==> a.rows[x].0 != a.rows[y].0
  }

  lemma ListingIff(t: Table, k: string, rows: seq<(string, Json)>, n: string, doc: Json)
    requires Listing(t, k, rows)
    ensures (n, doc) in rows <==> Lookup(t, k, n) == Some(doc)
  {
    if Lookup(t, k, n) == Some(doc) {
      var i :| 0 <= i < |rows| && rows[i].0 == n;
      assert rows[i] == (n, doc);
    }
  }

  /**
   Reads see the last write: every answer of a run follows from the calls and answers before it,
   with no mention of what is stored.
   */
  lemma ReadYourWrites(t: Table, calls: seq<Call>, answers: seq<Answer>, i: nat)
    requires AnswersOf(t, calls, answers) && i < |calls|
    ensures ReadsWrites(t, calls, answers, i)
  {
    hide Holds, After, Refusal;
    var c, a, was := calls[i], answers[i], Final(t, calls[..i]);
    assert Answers(was, c, a);
    HoldsIff(t, calls, answers, i, c.apiKey, c.name);
    if c.op.List? && Refusal(c).None? {
      hide Listing, Final;
      forall n, doc ensures Holds(t, calls, answers, i, c.apiKey, n, doc) <==> (n, doc) in a.rows {
        HoldsIff(t, calls, answers, i, c.apiKey, n);
        ListingIff(was, c.apiKey, a.rows, n, doc);
      }
      RowsDistinct(was, c.apiKey, a.rows);
    }
  }

  lemma RowsDistinct(t: Table, k: string, rows: seq<(string, Json)>)
    requires Listing(t, k, rows)
    ensures forall x, y :: 0 <= x < y < |rows| ==> rows[x].0 != rows[y].0
  {}

  function OfKey(calls: seq<Call>, k: string): seq<Call> {
    if calls == [] then [] else
      OfKey(calls[..|calls| - 1], k) + if calls[|calls| - 1].apiKey == k then [calls[|calls| - 1]] else []
  }

  lemma AfterOwn(t: Table, u: Table, c: Call, n: string)
    requires Lookup(t, c.apiKey, c.name) == Lookup(u, c.apiKey, c.name)
            && Lookup(t, c.apiKey, n) == Lookup(u, c.apiKey, n)
    ensures Lookup(After(t, c), c.apiKey, n) == Lookup(After(u, c), c.apiKey, n)
  {
    hide ValidateApiKey;
  }

  /** A call for one API key leaves every other's records alone. */
  lemma AfterForeign(t: Table, c: Call, k: string, n: string)
    requires c.apiKey != k
    ensures Lookup(After(t, c), k, n) == Lookup(t, k, n)
  {
    hide ValidateApiKey;
  }

  /** What an API key sees depends on its own calls alone. */
  lemma {:induction false} Isolation(t: Table, calls: seq<Call>, k: string, n: string)
    ensures Lookup(Final(t, calls), k, n) == Lookup(Final(t, OfKey(calls, k)), k, n)
  {
    hide After, Lookup;
    if calls != [] {
      var m, own := |calls| - 1, OfKey(calls, k);
      var c := calls[m];
      Isolation(t, calls[..m], k, n);
      if c.apiKey == k {
        assert own[..|own| - 1] == OfKey(calls[..m], k);
        Isolation(t, calls[..m], k, c.name);
        AfterOwn(Final(t, calls[..m]), Final(t, own[..|own| - 1]), c, n);
      } else {
        assert own == OfKey(calls[..m], k);
        AfterForeign(Final(t, calls[..m]), c, k, n);
      }
    }
  }

  lemma GoodNow(key: string)
    ensures Good(key) <==> ValidateApiKey(key).None?
  {}

  lemma Deletable(s: Store, t: Table, k: string, n: string)
    requires Refines(s, t) && Good(k) && Good(n)
    ensures Live(RemoveMember(s, IndexKey(k), n), ServerKey(k, n)).Some? <==> Lookup(t, k, n).Some?
  {
    hide Good, Live, ServerKey, IndexKey, RemoveMember;
    KeysInjective(k, n, k, n);
    assert ServerOk(s, t, k, n);
  }
}
