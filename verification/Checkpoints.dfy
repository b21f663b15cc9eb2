/**
 File checkpoints in the shared store: a record for each checkpoint, a list for each session and
 a lookup key for each user message, all with one TTL, and what they say of the creation history.
 */
module Checkpoints {
  import opened Common
  import opened Redis
  import opened SessionModel
  import opened Sorting

  datatype Checkpoint = Checkpoint(id: string, session: string, message: string, createdAt: int, files: seq<string>)

  // ------------------------------------------------------------ keys, payload

  function RecordKey(id: string): string { "checkpoint:" + id }
  function ListKey(session: string): string { "checkpoints:" + session }
  function MessageKey(message: string): string { "checkpoint_uuid_index:" + message }

  lemma KeysApart(a: string, b: string)
    ensures RecordKey(a) == RecordKey(b) ==> a == b
    ensures ListKey(a) == ListKey(b) ==> a == b
    ensures MessageKey(a) == MessageKey(b) ==> a == b
    ensures RecordKey(a) != ListKey(b) && RecordKey(a) != MessageKey(b) && ListKey(a) != MessageKey(b)
  {
    assert RecordKey(a)[11..] == a && RecordKey(b)[11..] == b;
    assert ListKey(a)[12..] == a && ListKey(b)[12..] == b;
    assert MessageKey(a)[22..] == a && MessageKey(b)[22..] == b;
    assert RecordKey(a)[10] == ':' && ListKey(a)[10] == ListKey(b)[10] == 's' && MessageKey(b)[10] == '_';
  }

  function DocOf(env: Codec, c: Checkpoint): Json {
    Obj(map["id" := Str(c.id), "session_id" := Str(c.session), "user_message_uuid" := Str(c.message),
            "created_at" := Str(env.iso(c.createdAt)),
            "files_modified" := Arr(seq(|c.files|, i requires 0 <= i < |c.files| => Str(c.files[i])))])
  }

  /** A document without one of the four texts, or with an unreadable time, is no checkpoint. */
  function ParseDoc(env: Codec, j: Json): Option<Checkpoint> {
    if !j.Obj? || "id" !in j.fields || "session_id" !in j.fields || "user_message_uuid" !in j.fields
       || "created_at" !in j.fields
    then None
    else match env.fromIso(TextOf(env, j.fields["created_at"]))
      case None => None
      case Some(t) =>
        var raw := if "files_modified" in j.fields && j.fields["files_modified"].Arr?
                   then j.fields["files_modified"].items else [];
        Some(Checkpoint(TextOf(env, j.fields["id"]), TextOf(env, j.fields["session_id"]),
                        TextOf(env, j.fields["user_message_uuid"]), t,
                        seq(|raw|, i requires 0 <= i < |raw| => TextOf(env, raw[i]))))
  }

  lemma DocRoundTrip(env: Codec, c: Checkpoint)
    requires env.Sound()
    ensures ParseDoc(env, DocOf(env, c)) == Some(c)
  {
    var p := DocOf(env, c);
    var raw := p.fields["files_modified"].items;
    assert seq(|raw|, i requires 0 <= i < |raw| => TextOf(env, raw[i])) == c.files;
  }

  function DocsOf(env: Codec, made: seq<Made>): seq<Json> {
    if made == [] then [] else DocsOf(env, made[..|made| - 1]) + [DocOf(env, made[|made| - 1].checkpoint)]
  }

  /** The checkpoints a list of documents holds; other documents are passed over. */
  function ParseDocs(env: Codec, docs: seq<Json>): seq<Checkpoint> {
    if docs == [] then [] else
      ParseDocs(env, docs[..|docs| - 1]) +
      match ParseDoc(env, docs[|docs| - 1]) case Some(c) => [c] case None => []
  }

  // ---------------------------------------------------------------- history

  /** A checkpoint and the store time it was written at. */
  datatype Made = Made(checkpoint: Checkpoint, at: int)

  function Checkpoints(made: seq<Made>): seq<Checkpoint> {
    if made == [] then [] else Checkpoints(made[..|made| - 1]) + [made[|made| - 1].checkpoint]
  }

  predicate Fresh(m: Made, now: int, ttl: pos) { now < m.at + ttl }

  /** The one made under an id, and the last one made for a message. */
  function WithId(made: seq<Made>, id: string): Option<Made> {
    if made == [] then None
    else if made[|made| - 1].checkpoint.id == id then Some(made[|made| - 1])
    else WithId(made[..|made| - 1], id)
  }

  function ForMessage(made: seq<Made>, message: string): Option<Made> {
    if made == [] then None
    else if made[|made| - 1].checkpoint.message == message then Some(made[|made| - 1])
    else ForMessage(made[..|made| - 1], message)
  }

  /** What the session's list document holds: it starts again when the last one had run out. */
  function Kept(made: seq<Made>, session: string, ttl: pos): seq<Made> {
    if made == [] then [] else
      var m := made[|made| - 1];
      var before := Kept(made[..|made| - 1], session, ttl);
      if m.checkpoint.session != session then before
      else (if before != [] && Fresh(before[|before| - 1], m.at, ttl) then before else []) + [m]
  }

  function RecordEntry(env: Codec, made: seq<Made>, id: string, now: int, ttl: pos): Option<Entry> {
    match WithId(made, id)
    case None => None
    case Some(m) => if Fresh(m, now, ttl) then Some(Entry(Doc(DocOf(env, m.checkpoint)), Some(m.at + ttl))) else None
  }

  function MessageEntry(made: seq<Made>, message: string, now: int, ttl: pos): Option<Entry> {
    match ForMessage(made, message)
    case None => None
    case Some(m) => if Fresh(m, now, ttl) then Some(Entry(Doc(Str(m.checkpoint.id)), Some(m.at + ttl))) else None
  }

  /** What the session's list shows at time `now`: nothing once its last checkpoint has run out. */
  function Current(made: seq<Made>, session: string, now: int, ttl: pos): seq<Made> {
    var kept := Kept(made, session, ttl);
    if kept != [] && Fresh(kept[|kept| - 1], now, ttl) then kept else []
  }

  function ListEntry(env: Codec, made: seq<Made>, session: string, now: int, ttl: pos): Option<Entry> {
    var current := Current(made, session, now, ttl);
    if current == [] then None else
      Some(Entry(Doc(Obj(map["checkpoints" := Arr(DocsOf(env, current))])), Some(current[|current| - 1].at + ttl)))
  }

  ghost predicate RecordsAgree(env: Codec, s: Store, made: seq<Made>, ttl: pos) {
    forall id :: Live(s, RecordKey(id)) == RecordEntry(env, made, id, s.now, ttl)
  }

  ghost predicate MessagesAgree(s: Store, made: seq<Made>, ttl: pos) {
    forall u :: Live(s, MessageKey(u)) == MessageEntry(made, u, s.now, ttl)
  }

  ghost predicate ListsAgree(env: Codec, s: Store, made: seq<Made>, ttl: pos) {
    forall x :: Live(s, ListKey(x)) == ListEntry(env, made, x, s.now, ttl)
  }

  /** Checkpoints were made in the past, one after the other, under ids of their own. */
  ghost predicate History(made: seq<Made>, now: int) {
    && (forall i :: 0 <= i < |made| ==> made[i].at <= now && made[i].checkpoint.id != "")
    && (forall i, j :: 0 <= i < j < |made| ==>
          made[i].at <= made[j].at && made[i].checkpoint.id != made[j].checkpoint.id)
  }

  /** The three kinds of keys hold exactly what the history says. */
  ghost predicate Agrees(env: Codec, s: Store, made: seq<Made>, ttl: pos) {
    && History(made, s.now)
    && RecordsAgree(env, s, made, ttl) && MessagesAgree(s, made, ttl) && ListsAgree(env, s, made, ttl)
  }

  // ------------------------------------------------------ keeping agreement

  /** The store after the three writes of a new checkpoint. */
  function Written(env: Codec, s: Store, c: Checkpoint, before: seq<Json>, ttl: pos): Store {
    var s1 := Put(s, RecordKey(c.id), Doc(DocOf(env, c)), Some(ttl));
    var s2 := Put(s1, ListKey(c.session), Doc(Obj(map["checkpoints" := Arr(before + [DocOf(env, c)])])), Some(ttl));
    Put(s2, MessageKey(c.message), Doc(Str(c.id)), Some(ttl))
  }

  /** The documents in the list of a session, none if there is no list. */
  function Listed(s: Store, session: string): seq<Json> {
    match ReplyOf(s, ListKey(session))
    case Got(Obj(f)) => if "checkpoints" in f && f["checkpoints"].Arr? then f["checkpoints"].items else []
    case _ => []
  }

  lemma KeptSnoc(made: seq<Made>, m: Made, session: string, ttl: pos)
    ensures var before := Kept(made, session, ttl);
            Kept(made + [m], session, ttl) ==
            if m.checkpoint.session != session then before
            else (if before != [] && Fresh(before[|before| - 1], m.at, ttl) then before else []) + [m]
  {
    assert (made + [m])[..|made|] == made;
  }

  lemma DocsSnoc(env: Codec, made: seq<Made>, m: Made)
    ensures DocsOf(env, made + [m]) == DocsOf(env, made) + [DocOf(env, m.checkpoint)]
  {
    assert (made + [m])[..|made|] == made;
  }

  lemma ListedIs(env: Codec, s: Store, made: seq<Made>, ttl: pos, session: string)
    requires ListsAgree(env, s, made, ttl)
    ensures Listed(s, session) == DocsOf(env, Current(made, session, s.now, ttl))
  {
    hide Kept, Live;
    assert Live(s, ListKey(session)) == ListEntry(env, made, session, s.now, ttl);
  }

  lemma ListWritten(env: Codec, s: Store, made: seq<Made>, ttl: pos, m: Made)
    requires ListsAgree(env, s, made, ttl) && m.at == s.now
    ensures ListEntry(env, made + [m], m.checkpoint.session, s.now, ttl) ==
            Some(Entry(Doc(Obj(map["checkpoints" :=
                                     Arr(Listed(s, m.checkpoint.session) + [DocOf(env, m.checkpoint)])])),
                       Some(s.now + ttl)))
  {
    hide ListsAgree, DocOf, DocsOf, Kept, Listed;
    var x := m.checkpoint.session;
    KeptSnoc(made, m, x, ttl);
    ListedIs(env, s, made, ttl, x);
    DocsSnoc(env, Current(made, x, s.now, ttl), m);
  }

  lemma WrittenLists(env: Codec, s: Store, made: seq<Made>, ttl: pos, c: Checkpoint)
    requires ListsAgree(env, s, made, ttl)
    ensures ListsAgree(env, Written(env, s, c, Listed(s, c.session), ttl), made + [Made(c, s.now)], ttl)
  {
    var r, m := Written(env, s, c, Listed(s, c.session), ttl), Made(c, s.now);
    hide Live, Put, DocOf, DocsOf, Kept, Listed, RecordKey, ListKey, MessageKey;
    ListWritten(env, s, made, ttl, m);
    forall x ensures Live(r, ListKey(x)) == ListEntry(env, made + [m], x, r.now, ttl) {
      KeysApart(x, c.session);
      KeysApart(c.id, x);
      KeysApart(x, c.message);
      KeptSnoc(made, m, x, ttl);
      assert Live(s, ListKey(x)) == ListEntry(env, made, x, s.now, ttl);
    }
  }

  lemma LookupSnoc(made: seq<Made>, m: Made, x: string)
    ensures WithId(made + [m], x) == if m.checkpoint.id == x then Some(m) else WithId(made, x)
    ensures ForMessage(made + [m], x) == if m.checkpoint.message == x then Some(m) else ForMessage(made, x)
  {
    assert (made + [m])[..|made|] == made;
  }

  lemma WrittenRecords(env: Codec, s: Store, made: seq<Made>, ttl: pos, c: Checkpoint, before: seq<Json>)
    requires RecordsAgree(env, s, made, ttl)
    ensures RecordsAgree(env, Written(env, s, c, before, ttl), made + [Made(c, s.now)], ttl)
  {
    var r, m := Written(env, s, c, before, ttl), Made(c, s.now);
    hide Live, Put, DocOf, RecordKey, ListKey, MessageKey, WithId, ForMessage;
    forall id ensures Live(r, RecordKey(id)) == RecordEntry(env, made + [m], id, r.now, ttl) {
      KeysApart(id, c.id);
      KeysApart(id, c.session);
      KeysApart(id, c.message);
      LookupSnoc(made, m, id);
      assert Live(s, RecordKey(id)) == RecordEntry(env, made, id, s.now, ttl);
    }
  }

  lemma WrittenMessages(env: Codec, s: Store, made: seq<Made>, ttl: pos, c: Checkpoint, before: seq<Json>)
    requires MessagesAgree(s, made, ttl)
    ensures MessagesAgree(Written(env, s, c, before, ttl), made + [Made(c, s.now)], ttl)
  {
    var r, m := Written(env, s, c, before, ttl), Made(c, s.now);
    hide Live, Put, DocOf, RecordKey, ListKey, MessageKey, WithId, ForMessage;
    forall u ensures Live(r, MessageKey(u)) == MessageEntry(made + [m], u, r.now, ttl) {
      KeysApart(u, c.message);
      KeysApart(c.id, u);
      KeysApart(c.session, u);
      LookupSnoc(made, m, u);
      assert Live(s, MessageKey(u)) == MessageEntry(made, u, s.now, ttl);
    }
  }

  predicate NewId(made: seq<Made>, id: string) {
    id != "" && forall i :: 0 <= i < |made| ==> made[i].checkpoint.id != id
  }

  /** Creating a checkpoint under a new id writes what the longer history says. */
  lemma WrittenAgrees(env: Codec, s: Store, made: seq<Made>, ttl: pos, c: Checkpoint)
    requires Agrees(env, s, made, ttl) && NewId(made, c.id)
    ensures Agrees(env, Written(env, s, c, Listed(s, c.session), ttl), made + [Made(c, s.now)], ttl)
  {
    var before := Listed(s, c.session);
    WrittenNow(env, s, c, before, ttl);
    hide RecordsAgree, MessagesAgree, ListsAgree, Written, Listed;
    WrittenRecords(env, s, made, ttl, c, before);
    WrittenMessages(env, s, made, ttl, c, before);
    WrittenLists(env, s, made, ttl, c);
  }

  lemma WrittenNow(env: Codec, s: Store, c: Checkpoint, before: seq<Json>, ttl: pos)
    ensures Written(env, s, c, before, ttl).now == s.now
  {}

  /** As time passes, the three keys of a checkpoint run out together. */
  lemma TickAgrees(env: Codec, s: Store, made: seq<Made>, ttl: pos, d: nat)
    requires Agrees(env, s, made, ttl)
    ensures Agrees(env, Tick(s, d), made, ttl)
  {
    hide Live, Tick, DocOf, DocsOf, Kept, WithId, ForMessage, RecordKey, ListKey, MessageKey;
    var r := Tick(s, d);
    forall id ensures Live(r, RecordKey(id)) == RecordEntry(env, made, id, r.now, ttl) {
      assert Live(s, RecordKey(id)) == RecordEntry(env, made, id, s.now, ttl);
    }
    forall u ensures Live(r, MessageKey(u)) == MessageEntry(made, u, r.now, ttl) {
      assert Live(s, MessageKey(u)) == MessageEntry(made, u, s.now, ttl);
    }
    forall x ensures Live(r, ListKey(x)) == ListEntry(env, made, x, r.now, ttl) {
      assert Live(s, ListKey(x)) == ListEntry(env, made, x, s.now, ttl);
    }
  }

  // ----------------------------------------------------------------- service

  function IfFresh(o: Option<Made>, now: int, ttl: pos): Option<Checkpoint> {
    if o.Some? && Fresh(o.value, now, ttl) then Some(o.value.checkpoint) else None
  }

  function CreatedAt(c: Checkpoint): int { c.createdAt }

  lemma {:induction false} DocsParse(env: Codec, made: seq<Made>)
    requires env.Sound()
    ensures ParseDocs(env, DocsOf(env, made)) == Checkpoints(made)
  {
    if made != [] {
      var m := made[..|made| - 1];
      DocsParse(env, m);
      DocRoundTrip(env, made[|made| - 1].checkpoint);
      assert DocsOf(env, made)[..|DocsOf(env, made)| - 1] == DocsOf(env, m);
    }
  }

  lemma {:induction false} ForMessageIn(made: seq<Made>, message: string)
    requires ForMessage(made, message).Some?
    ensures exists i :: 0 <= i < |made| && made[i] == ForMessage(made, message).value
  {
    var n := |made| - 1;
    if made[n].checkpoint.message == message { assert made[n] == ForMessage(made, message).value; }
    else {
      ForMessageIn(made[..n], message);
      var i :| 0 <= i < n && made[..n][i] == ForMessage(made, message).value;
      assert made[i] == ForMessage(made, message).value;
    }
  }

  lemma {:induction false} WithIdOf(made: seq<Made>, i: int, now: int)
    requires History(made, now) && 0 <= i < |made|
    ensures WithId(made, made[i].checkpoint.id) == Some(made[i])
  {
    if i < |made| - 1 { WithIdOf(made[..|made| - 1], i, now); }
  }

  class CheckpointService {
    const cache: RedisCache
    const env: Codec
    const ttl: pos
    ghost var made: seq<Made>

    constructor (cache: RedisCache, env: Codec, ttl: pos)
      requires env.Sound() && Agrees(env, cache.store, [], ttl)
      ensures Valid() && this.cache == cache && this.env == env && this.ttl == ttl && made == []
    {
      this.cache, this.env, this.ttl := cache, env, ttl;
      made := [];
    }

    ghost predicate Valid()
      reads this, cache
    {
      env.Sound() && Agrees(env, cache.store, made, ttl)
    }

    method CreateCheckpoint(id: string, session: string, message: string, now: int, files: seq<string>)
        returns (c: Checkpoint)
      requires Valid() && NewId(made, id)
      modifies this, cache
      ensures c == Checkpoint(id, session, message, now, files)
      ensures Valid() && made == old(made) + [Made(c, cache.store.now)] && cache.store.now == old(cache.store.now)
    {
      hide Agrees, Live, Put, DocOf, Listed, RecordKey, ListKey, MessageKey;
      c := Checkpoint(id, session, message, now, files);
      ghost var s := cache.store;
      ListDocument(env, s, made, ttl, c);
      WrittenAgrees(env, s, made, ttl, c);
      cache.SetJson(RecordKey(id), DocOf(env, c), Some(ttl));
      var data := cache.GetJson(ListKey(session));
      var fields := if data.Got? && data.doc.Obj? then data.doc.fields else map[];
      var raw := if "checkpoints" in fields && fields["checkpoints"].Arr? then fields["checkpoints"].items else [];
      cache.SetJson(ListKey(session), Obj(fields["checkpoints" := Arr(raw + [DocOf(env, c)])]), Some(ttl));
      cache.SetJson(MessageKey(message), Str(id), Some(ttl));
      made := made + [Made(c, s.now)];
    }

    method GetCheckpoint(id: string) returns (c: Option<Checkpoint>)
      requires Valid()
      ensures c == IfFresh(WithId(made, id), cache.store.now, ttl)
    {
      hide DocOf, ParseDoc, WithId;
      var data := cache.GetJson(RecordKey(id));
      assert Live(cache.store, RecordKey(id)) == RecordEntry(env, made, id, cache.store.now, ttl);
      if WithId(made, id).Some? { DocRoundTrip(env, WithId(made, id).value.checkpoint); }
      c := if data.Got? then ParseDoc(env, data.doc) else None;
    }

    method GetByUserMessage(message: string) returns (c: Option<Checkpoint>)
      requires Valid()
      ensures c == IfFresh(ForMessage(made, message), cache.store.now, ttl)
    {
      hide DocOf, ParseDoc, WithId, ForMessage;
      var id := cache.GetJson(MessageKey(message));
      assert Live(cache.store, MessageKey(message)) == MessageEntry(made, message, cache.store.now, ttl);
      if ForMessage(made, message).Some? {
        ForMessageIn(made, message);
        var i :| 0 <= i < |made| && made[i] == ForMessage(made, message).value;
        WithIdOf(made, i, cache.store.now);
      }
      c := None;
      if id.Got? && id.doc.Str? && id.doc.text != "" { c := GetCheckpoint(id.doc.text); }
    }

    method ListCheckpoints(session: string) returns (list: seq<Checkpoint>)
      requires Valid()
      ensures list == Sort(CreatedAt, Checkpoints(Current(made, session, cache.store.now, ttl)))
    {
      hide DocOf, ParseDoc, Kept, Sort;
      var data := cache.GetJson(ListKey(session));
      ListedIs(env, cache.store, made, ttl, session);
      var raw := if data.Got? && data.doc.Obj? && "checkpoints" in data.doc.fields
          && data.doc.fields["checkpoints"].Arr?
                 then data.doc.fields["checkpoints"].items else [];
      list := [];
      for i := 0 to |raw|
        invariant list == ParseDocs(env, raw[..i])
      {
        var c := ParseDoc(env, raw[i]);
        if c.Some? { list := list + [c.value]; }
        assert raw[..i + 1][..i] == raw[..i];
      }
      assert raw[..|raw|] == raw == Listed(cache.store, session);
      DocsParse(env, Current(made, session, cache.store.now, ttl));
      list := Sort(CreatedAt, list);
    }

    method ValidateCheckpoint(session: string, id: string) returns (valid: bool)
      requires Valid()
      ensures valid <==>
              IfFresh(WithId(made, id), cache.store.now, ttl).Some? && OfSession(WithId(made, id).value, session)
      ensures valid ==> WithId(made, id).value.checkpoint.id == id
                        && WithId(made, id).value.checkpoint in
                           Sort(CreatedAt, Checkpoints(Current(made, session, cache.store.now, ttl)))
    {
      hide RecordsAgree, MessagesAgree, ListsAgree, WithId, Current, Sort;
      var c := GetCheckpoint(id);
      if c.Some? && c.value.session == session { ValidIsShown(made, cache.store.now, session, id, ttl); }
      valid := c.Some? && c.value.session == session;
    }

    method Advance(d: nat)
      requires Valid()
      modifies cache
      ensures Valid() && cache.store.now == old(cache.store.now) + d
    {
      TickAgrees(env, cache.store, made, ttl, d);
      cache.Advance(d);
    }
  }

  /** What appending to the session's list document writes. */
  lemma ListDocument(env: Codec, s: Store, made: seq<Made>, ttl: pos, c: Checkpoint)
    requires Agrees(env, s, made, ttl)
    ensures var data := ReplyOf(Put(s, RecordKey(c.id), Doc(DocOf(env, c)), Some(ttl)), ListKey(c.session));
            var fields := if data.Got? && data.doc.Obj? then data.doc.fields else map[];
            var raw := if "checkpoints" in fields && fields["checkpoints"].Arr? then fields["checkpoints"].items
                else [];
            raw == Listed(s, c.session) && forall j :: fields["checkpoints" := j] == map["checkpoints" := j]
  {
    hide Kept, DocsOf, Live, Put, RecordKey, ListKey;
    KeysApart(c.id, c.session);
    assert Live(s, ListKey(c.session)) == ListEntry(env, made, c.session, s.now, ttl);
  }

  // ---------------------------------------------------- what the keys promise

  predicate OfSession(m: Made, session: string) { m.checkpoint.session == session }

  lemma SessionIs(m: Made, session: string)
    ensures OfSession(m, session) <==> m.checkpoint.session == session
  {}

  /** `made[i]` is the last checkpoint made for the session. */
  ghost predicate LastAt(made: seq<Made>, session: string, i: int) {
    && 0 <= i < |made| && OfSession(made[i], session)
    && forall j :: i < j < |made| ==> !OfSession(made[j], session)
  }

  lemma LastSnoc(made: seq<Made>, m: Made, session: string, i: int)
    requires 0 <= i < |made|
    ensures LastAt(made + [m], session, i) <==> LastAt(made, session, i) && !OfSession(m, session)
  {
    var all := made + [m];
    assert forall j :: i <= j < |made| ==> all[j] == made[j];
    assert all[|made|] == m;
  }

  /** The last kept checkpoint is the last one made for the session. */
  lemma {:induction false} KeptLast(made: seq<Made>, session: string, ttl: pos)
    ensures var kept := Kept(made, session, ttl);
            if kept == [] then forall i :: 0 <= i < |made| ==> !OfSession(made[i], session)
            else exists i :: LastAt(made, session, i) && made[i] == kept[|kept| - 1]
  {
    if made != [] {
      var n := |made| - 1;
      var m, last := made[..n], made[n];
      KeptLast(m, session, ttl);
      assert made == m + [last];
      hide Kept, Fresh;
      SessionIs(last, session);
      KeptSnoc(m, last, session, ttl);
      var before := Kept(m, session, ttl);
      if OfSession(last, session) {
        assert LastAt(made, session, n);
      } else if before != [] {
        var i :| LastAt(m, session, i) && m[i] == before[|before| - 1];
        LastSnoc(m, last, session, i);
        assert made[i] == m[i];
      }
    }
  }

  /** Before `made[j]` was made, some checkpoint of its session not older than `made[i]` was still fresh. */
  ghost predicate Bridged(made: seq<Made>, i: int, j: int, ttl: pos)
    requires 0 <= i < j < |made|
  {
    exists k :: i <= k < j && OfSession(made[k], made[j].checkpoint.session) && Fresh(made[k], made[j].at, ttl)
  }

  /** No checkpoint of the session was made after the list of `made[i]` had run out. */
  ghost predicate Unbroken(made: seq<Made>, i: int, ttl: pos)
    requires 0 <= i < |made|
  {
    forall j :: i < j < |made| && OfSession(made[j], made[i].checkpoint.session) ==> Bridged(made, i, j, ttl)
  }

  lemma {:induction false} KeptFrom(made: seq<Made>, session: string, ttl: pos)
    ensures forall x :: x in Kept(made, session, ttl) ==> x in made && OfSession(x, session)
  {
    if made != [] {
      KeptFrom(made[..|made| - 1], session, ttl);
      assert made == made[..|made| - 1] + [made[|made| - 1]];
    }
  }

  lemma LastUnbroken(made: seq<Made>, ttl: pos)
    requires made != []
    ensures Unbroken(made, |made| - 1, ttl)
  {}

  lemma UnbrokenSnoc(made: seq<Made>, m: Made, i: int, ttl: pos)
    requires 0 <= i < |made|
    ensures Unbroken(made + [m], i, ttl) <==>
            Unbroken(made, i, ttl) && (OfSession(m, made[i].checkpoint.session) ==> Bridged(made + [m], i, |made|, ttl))
  {
    var all := made + [m];
    forall j | i < j < |made| ensures Bridged(all, i, j, ttl) <==> Bridged(made, i, j, ttl) {
      if Bridged(all, i, j, ttl) {
        var k :| i <= k < j && OfSession(all[k], all[j].checkpoint.session) && Fresh(all[k], all[j].at, ttl);
        assert OfSession(made[k], made[j].checkpoint.session) && Fresh(made[k], made[j].at, ttl);
      }
      if Bridged(made, i, j, ttl) {
        var k :| i <= k < j && OfSession(made[k], made[j].checkpoint.session) && Fresh(made[k], made[j].at, ttl);
        assert OfSession(all[k], all[j].checkpoint.session) && Fresh(all[k], all[j].at, ttl);
      }
    }
    if Unbroken(all, i, ttl) {
      forall j | i < j < |made| && OfSession(made[j], made[i].checkpoint.session) ensures Bridged(made, i, j, ttl) {
        assert Bridged(all, i, j, ttl);
      }
    }
  }

  lemma StillFresh(made: seq<Made>, now: int, j: int, k: int, ttl: pos)
    requires History(made, now) && 0 <= j <= k < |made| && Fresh(made[j], now, ttl)
    ensures Fresh(made[k], now, ttl)
  {}

  /** The list still grows from `before` exactly if a checkpoint from `i` on is fresh enough. */
  lemma BridgedIff(made: seq<Made>, m: Made, i: int, ttl: pos)
    requires History(made + [m], m.at) && 0 <= i < |made| && OfSession(m, made[i].checkpoint.session)
    ensures var before := Kept(made, m.checkpoint.session, ttl);
            before != [] && (Bridged(made + [m], i, |made|, ttl) <==> Fresh(before[|before| - 1], m.at, ttl))
  {
    var all, x := made + [m], m.checkpoint.session;
    KeptLast(made, x, ttl);
    var before := Kept(made, x, ttl);
    hide Kept, Fresh, OfSession;
    SessionIs(m, made[i].checkpoint.session);
    SessionIs(made[i], x);
    var k :| LastAt(made, x, k) && made[k] == before[|before| - 1];
    assert i <= k && all[k] == made[k] && all[|made|] == m;
    if Fresh(made[k], m.at, ttl) { assert Bridged(all, i, |made|, ttl); }
    if Bridged(all, i, |made|, ttl) {
      var j :| i <= j < |made| && OfSession(all[j], x) && Fresh(all[j], m.at, ttl);
      assert OfSession(made[j], x) && j <= k;
      StillFresh(all, m.at, j, k, ttl);
    }
  }

  lemma HistoryParts(made: seq<Made>, now: int)
    requires History(made, now) && made != []
    ensures var n := |made| - 1;
            History(made[..n], now) && History(made, made[n].at) && forall i :: 0 <= i < n ==> made[i] != made[n]
  {}

  lemma KeptStep(made: seq<Made>, last: Made, i: int, ttl: pos)
    requires History(made + [last], last.at) && 0 <= i < |made| && made[i] != last
    requires made[i] in Kept(made, made[i].checkpoint.session, ttl) <==> Unbroken(made, i, ttl)
    ensures made[i] in Kept(made + [last], made[i].checkpoint.session, ttl) <==> Unbroken(made + [last], i, ttl)
  {
    hide History, Kept, Unbroken, Bridged, Fresh, OfSession;
    var x := made[i].checkpoint.session;
    SessionIs(last, x);
    var before := Kept(made, x, ttl);
    KeptSnoc(made, last, x, ttl);
    UnbrokenSnoc(made, last, i, ttl);
    if OfSession(last, x) {
      BridgedIff(made, last, i, ttl);
      assert made[i] in before + [last] <==> made[i] in before;
    }
  }

  /** A checkpoint is in its session's list document exactly if the list never ran out since. */
  lemma {:induction false} KeptIff(made: seq<Made>, now: int, i: int, ttl: pos)
    requires History(made, now) && 0 <= i < |made|
    ensures made[i] in Kept(made, made[i].checkpoint.session, ttl) <==> Unbroken(made, i, ttl)
  {
    HistoryParts(made, now);
    var n := |made| - 1;
    var m, last := made[..n], made[n];
    assert made == m + [last];
    hide History, Kept, Unbroken, Bridged;
    if i == n {
      KeptSnoc(m, last, last.checkpoint.session, ttl);
      LastUnbroken(made, ttl);
    } else {
      KeptIff(m, now, i, ttl);
      KeptStep(m, last, i, ttl);
    }
  }

  /** A checkpoint is shown exactly if the list never ran out since, and the session's last one is fresh. */
  lemma ShownIff(made: seq<Made>, now: int, i: int, last: int, ttl: pos)
    requires History(made, now) && 0 <= i < |made| && LastAt(made, made[i].checkpoint.session, last)
    ensures made[i] in Current(made, made[i].checkpoint.session, now, ttl) <==>
            Unbroken(made, i, ttl) && Fresh(made[last], now, ttl)
  {
    hide History, Kept, Unbroken, OfSession, Fresh;
    KeptIff(made, now, i, ttl);
    KeptLast(made, made[i].checkpoint.session, ttl);
  }

  lemma {:induction false} LastFrom(made: seq<Made>, session: string, i: int) returns (k: int)
    requires 0 <= i < |made| && OfSession(made[i], session)
    ensures i <= k && LastAt(made, session, k)
    decreases |made| - i
  {
    if j :| i < j < |made| && OfSession(made[j], session) { k := LastFrom(made, session, j); } else { k := i; }
  }

  lemma FreshUnbroken(made: seq<Made>, now: int, i: int, ttl: pos)
    requires History(made, now) && 0 <= i < |made| && Fresh(made[i], now, ttl)
    ensures Unbroken(made, i, ttl)
  {
    forall j | i < j < |made| && OfSession(made[j], made[i].checkpoint.session) ensures Bridged(made, i, j, ttl) {
      assert OfSession(made[i], made[j].checkpoint.session) && Fresh(made[i], made[j].at, ttl);
    }
  }

  /** A checkpoint that validates is listed, whatever was made meanwhile. */
  lemma ValidIsListed(made: seq<Made>, now: int, session: string, id: string, ttl: pos)
    requires History(made, now) && WithId(made, id).Some? && Fresh(WithId(made, id).value, now, ttl)
    requires OfSession(WithId(made, id).value, session)
    ensures WithId(made, id).value in Current(made, session, now, ttl)
  {
    var i := IndexOfId(made, id);
    FreshUnbroken(made, now, i, ttl);
    SessionIs(made[i], session);
    var k := LastFrom(made, session, i);
    hide History, Current, Unbroken, Fresh, WithId, OfSession;
    StillFresh(made, now, i, k, ttl);
    ShownIff(made, now, i, k, ttl);
  }

  lemma {:induction false} IndexOfId(made: seq<Made>, id: string) returns (i: int)
    requires WithId(made, id).Some?
    ensures 0 <= i < |made| && made[i] == WithId(made, id).value && made[i].checkpoint.id == id
  {
    i := |made| - 1;
    if made[i].checkpoint.id != id { i := IndexOfId(made[..i], id); }
  }

  /** A validated checkpoint is in what the listing of its session returns. */
  lemma ValidIsShown(made: seq<Made>, now: int, session: string, id: string, ttl: pos)
    requires History(made, now) && WithId(made, id).Some? && Fresh(WithId(made, id).value, now, ttl)
    requires OfSession(WithId(made, id).value, session)
    ensures WithId(made, id).value.checkpoint in Sort(CreatedAt, Checkpoints(Current(made, session, now, ttl)))
    ensures WithId(made, id).value.checkpoint.id == id
  {
    var m, current := WithId(made, id).value, Current(made, session, now, ttl);
    var _ := IndexOfId(made, id);
    ValidIsListed(made, now, session, id, ttl);
    CheckpointsAt(current);
    var i :| 0 <= i < |current| && current[i] == m;
    assert Checkpoints(current)[i] == m.checkpoint;
    SortMembers(CreatedAt, Checkpoints(current), m.checkpoint);
  }

  predicate OldestFirst(made: seq<Made>) {
    forall i, j :: 0 <= i < j < |made| ==> made[i].at <= made[j].at
  }

  lemma {:induction false} KeptOldestFirst(made: seq<Made>, now: int, session: string, ttl: pos)
    requires History(made, now)
    ensures OldestFirst(Kept(made, session, ttl))
  {
    if made != [] {
      var n := |made| - 1;
      KeptOldestFirst(made[..n], now, session, ttl);
      KeptFrom(made[..n], session, ttl);
      var before := Kept(made[..n], session, ttl);
      forall k | 0 <= k < |before| ensures before[k].at <= made[n].at {
        assert before[k] in made[..n];
        var i :| 0 <= i < n && made[..n][i] == before[k];
        assert made[i] == before[k];
      }
    }
  }

  /** Everything a session's list shows still validates exactly if the first checkpoint it shows does. */
  lemma AllShownValidIff(made: seq<Made>, now: int, session: string, ttl: pos)
    requires History(made, now)
    ensures var current := Current(made, session, now, ttl);
            (forall i :: 0 <= i < |current| ==> Fresh(current[i], now, ttl)) <==>
                current == [] || Fresh(current[0], now, ttl)
  {
    KeptOldestFirst(made, now, session, ttl);
  }

  /** A checkpoint that is listed and does not validate: the second one kept the list alive. */
  lemma ListedButExpired() returns (made: seq<Made>)
    ensures |made| == 2 && History(made, 10) && WithId(made, "1") == Some(made[0])
    ensures made[0] in Current(made, "s", 10, 10) && !Fresh(made[0], 10, 10)
  {
    var a, b := Made(Checkpoint("1", "s", "m", 0, []), 0), Made(Checkpoint("2", "s", "n", 9, []), 9);
    made := [a, b];
    assert made[..1] == [a] && [a][..0] == [];
    assert Kept([a], "s", 10) == [a];
    assert Kept(made, "s", 10) == [a] + [b];
    assert made[0] == ([a] + [b])[0];
  }

  /** Lookup by message finds the last checkpoint made for it. */
  lemma {:induction false} LatestForMessage(made: seq<Made>, message: string, i: int)
    requires 0 <= i < |made| && made[i].checkpoint.message == message
    requires forall j :: i < j < |made| ==> made[j].checkpoint.message != message
    ensures ForMessage(made, message) == Some(made[i])
  {
    if i < |made| - 1 { LatestForMessage(made[..|made| - 1], message, i); }
  }

  /** Wall-clock times of the checkpoints do not run backwards. */
  predicate ClockMonotone(made: seq<Made>) {
    forall i, j :: 0 <= i < j < |made| ==> made[i].checkpoint.createdAt <= made[j].checkpoint.createdAt
  }

  lemma {:induction false} KeptMonotone(made: seq<Made>, session: string, ttl: pos)
    requires ClockMonotone(made)
    ensures ClockMonotone(Kept(made, session, ttl))
  {
    if made != [] {
      var n := |made| - 1;
      KeptMonotone(made[..n], session, ttl);
      KeptFrom(made[..n], session, ttl);
      var before := Kept(made[..n], session, ttl);
      forall k | 0 <= k < |before| ensures before[k].checkpoint.createdAt <= made[n].checkpoint.createdAt {
        assert before[k] in made[..n];
        var i :| 0 <= i < n && made[..n][i] == before[k];
        assert made[i] == before[k];
      }
    }
  }

  lemma {:induction false} CheckpointsAt(made: seq<Made>)
    ensures |Checkpoints(made)| == |made|
    ensures forall i :: 0 <= i < |made| ==> Checkpoints(made)[i] == made[i].checkpoint
  {
    if made != [] { CheckpointsAt(made[..|made| - 1]); }
  }

  /** With such a clock the sorted list is simply the list in the order of creation. */
  lemma CreationOrder(made: seq<Made>, session: string, now: int, ttl: pos)
    requires ClockMonotone(made)
    ensures var current := Current(made, session, now, ttl);
            Sort(CreatedAt, Checkpoints(current)) == Checkpoints(current)
  {
    KeptMonotone(made, session, ttl);
    CheckpointsAt(Current(made, session, now, ttl));
    SortFixed(CreatedAt, Checkpoints(Current(made, session, now, ttl)));
  }
}
