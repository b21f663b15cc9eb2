/**
 Session records: the service object, the database row, the cached JSON payload and its parser,
 and the ownership check. Hashing, UUID and timestamp text are function parameters.
 */
module SessionModel {
  import opened Common
  import opened Costs

  /** Library functions the service calls; `Sound` lists everything assumed of them. */
  datatype Codec = Codec(
    hash: string -> string,               // SHA-256 of an API key
    uuid: string -> Option<string>,       // str(UUID(text)), or None for ValueError
    iso: int -> string,                   // datetime.isoformat
    fromIso: string -> Option<int>,       // datetime.fromisoformat, or None for ValueError
    show: Json -> string,                 // str() of a value that is not a string
    number: string -> Option<int>,        // int() of a text, or None for ValueError
    decimal: string -> Option<real>)      // float() of a text, or None for ValueError
  {
    ghost predicate Sound() {
      && (forall t :: fromIso(iso(t)) == Some(t))
      && (forall k :: hash(k) != "")
      && (forall a :: uuid(a).Some? ==> CanonicalText(uuid(a).value) && !("owner:" <= a))
    }

    /** A canonical spelling parses to itself and has no colon. */
    ghost predicate CanonicalText(u: string) { uuid(u) == Some(u) && u != "" && ':' !in u }
  }

  /** A codec that meets the assumptions and, like the real one, takes a second spelling of a UUID. */
  lemma SoundCodecExists() returns (env: Codec)
    ensures env.Sound() && env.uuid("A") == Some("a") && env.CanonicalText("a")
  {
    var sign := (t: int) => if t >= 0 then "+" else "-";
    var iso := (t: int) => sign(t) + seq(if t >= 0 then t else 0 - t, i => '1');
    var fromIso := (s: string) =>
      if s == "" then None else if s[0] == '+' then Some(|s| - 1) else Some(1 - |s|);
    env := Codec(k => "h", a => if a == "a" || a == "A" then Some("a") else None, iso, fromIso,
                 j => "", s => None, s => None);
    forall t ensures env.fromIso(env.iso(t)) == Some(t) {
      assert env.iso(t)[0] == sign(t)[0];
    }
  }

  type Metadata = map<string, Json>

  datatype Session = Session(
    id: string, model: string, status: string, createdAt: int, updatedAt: int,
    turns: int, cost: Option<real>, parent: Option<string>, owner: Option<string>,
    metadata: Option<Metadata>)

  /** A row of the sessions table; the primary key is the canonical UUID text it is stored under. */
  datatype Row = Row(
    model: string, status: string, createdAt: int, updatedAt: int,
    turns: int, cost: Option<real>, parent: Option<string>, owner: Option<string>,
    metadata: Option<Metadata>)

  // ------------------------------------------------------------------ status

  function LowerChar(c: char): char { if 'A' <= c <= 'Z' then c + (32 as char) else c }

  function Lower(s: string): (r: string)
    ensures |r| == |s| && forall i :: 0 <= i < |s| ==> r[i] == LowerChar(s[i])
  {
    if s == "" then "" else [LowerChar(s[0])] + Lower(s[1..])
  }

  function ParseStatus(raw: string): (r: string)
    ensures r in {"active", "completed", "error"}
  {
    if Lower(raw) == "completed" then "completed"
    else if Lower(raw) == "error" then "error"
    else "active"
  }

  lemma LowerFixed(s: string)
    requires forall i :: 0 <= i < |s| ==> LowerChar(s[i]) == s[i]
    ensures Lower(s) == s
  {}

  lemma ActiveLower()
    ensures Lower("active") == "active"
  { hide Lower; var s := "active"; LowerFixed(s); }

  lemma CompletedLower()
    ensures Lower("completed") == "completed"
  { hide Lower; var s := "completed"; LowerFixed(s); }

  lemma ErrorLower()
    ensures Lower("error") == "error"
  { hide Lower; var s := "error"; LowerFixed(s); }

  lemma KnownStatusLower(s: string)
    requires s in {"active", "completed", "error"}
    ensures Lower(s) == s
  {
    hide Lower;
    ActiveLower(); CompletedLower(); ErrorLower();
  }

  /** Normalising twice is normalising once, and the three service statuses are fixed points. */
  lemma ParseStatusStable(raw: string)
    ensures ParseStatus(ParseStatus(raw)) == ParseStatus(raw)
    ensures raw in {"active", "completed", "error"} ==> ParseStatus(raw) == raw
  {
    KnownStatusLower(ParseStatus(raw));
    if raw in {"active", "completed", "error"} { KnownStatusLower(raw); }
  }

  function Capital(c: char): char { if 'a' <= c <= 'z' then c - (32 as char) else c }

  /** The text is the word in any mixture of capitals. */
  predicate Spells(raw: string, word: string) {
    |raw| == |word| && forall i :: 0 <= i < |raw| ==> raw[i] == word[i] || raw[i] == Capital(word[i])
  }

  lemma LowerIff(raw: string, word: string)
    requires forall i :: 0 <= i < |word| ==> 'a' <= word[i] <= 'z'
    ensures Lower(raw) == word <==> Spells(raw, word)
  {
    if Spells(raw, word) {
      assert forall i :: 0 <= i < |raw| ==> Lower(raw)[i] == LowerChar(raw[i]) == word[i];
    }
  }

  /** `completed` and `error` are recognised in any capitals, and everything else counts as active. */
  lemma ParseStatusIff(raw: string)
    ensures ParseStatus(raw) == "completed" <==> Spells(raw, "completed")
    ensures ParseStatus(raw) == "error" <==> Spells(raw, "error")
  {
    var completed, error := "completed", "error";
    LowerIff(raw, completed);
    LowerIff(raw, error);
    hide Lower, Spells;
  }

  // --------------------------------------------------------- row and service object

  function MapRow(id: string, row: Row): Session {
    Session(id, row.model, ParseStatus(row.status), row.createdAt, row.updatedAt,
            row.turns, row.cost, row.parent, row.owner, row.metadata)
  }

  /** Equal up to timestamps: the database and the service each read their own clock. */
  predicate SameButTimes(a: Session, b: Session) {
    a == b.(createdAt := a.createdAt, updatedAt := a.updatedAt)
  }

  // ------------------------------------------------------------ the cached payload

  function OptText(o: Option<string>): Json { if o.Some? then Str(o.value) else Null }

  function OptDec(o: Option<real>): Json { if o.Some? then Dec(o.value) else Null }

  function Payload(env: Codec, s: Session): Json {
    Obj(map[
      "id" := Str(s.id), "model" := Str(s.model), "status" := Str(s.status),
      "created_at" := Str(env.iso(s.createdAt)), "updated_at" := Str(env.iso(s.updatedAt)),
      "total_turns" := Num(s.turns), "total_cost_usd" := OptDec(s.cost),
      "parent_session_id" := OptText(s.parent), "owner_api_key_hash" := OptText(s.owner),
      "session_metadata" := if s.metadata.Some? then Obj(s.metadata.value) else Null])
  }

  function TextOf(env: Codec, j: Json): string { if j.Str? then j.text else env.show(j) }

  function GetOr(m: Metadata, key: string, default: Json): Json { if key in m then m[key] else default }

  function DateOf(env: Codec, j: Json): Option<int> {
    env.fromIso(if j.Null? then "" else TextOf(env, j))
  }

  /** `int(...)` of a float cuts towards zero. */
  function Truncated(x: real): int { if x >= 0.0 then x.Floor else 0 - (0.0 - x).Floor }

  /** `int(...)` of the cached turn count; `None` stands for the ValueError. */
  function TurnsOf(env: Codec, j: Json): Option<int> {
    match j
    case Num(n) => Some(n)
    case Bool(b) => Some(if b then 1 else 0)
    case Dec(x) => Some(Truncated(x))
    case Str(s) => env.number(s)
    case _ => Some(0)
  }

  function CostOf(env: Codec, j: Json): Option<Option<real>> {
    match j
    case Num(n) => Some(Some(n as real))
    case Dec(x) => Some(Some(x))
    case Bool(b) => Some(Some(if b then 1.0 else 0.0))
    case Str(s) => if env.decimal(s).Some? then Some(env.decimal(s)) else None
    case _ => Some(None)
  }

  function TextOrNone(env: Codec, j: Json): Option<string> { if j.Null? then None else Some(TextOf(env, j)) }

  /** Parse a cached payload; `None` when a required part is missing or malformed. */
  function ParseCached(env: Codec, doc: Json): Option<Session> {
    if !doc.Obj? then None
    else
      var m := doc.fields;
      var created := DateOf(env, GetOr(m, "created_at", Null));
      var updated := DateOf(env, GetOr(m, "updated_at", Null));
      var turns := TurnsOf(env, GetOr(m, "total_turns", Num(0)));
      var cost := CostOf(env, GetOr(m, "total_cost_usd", Null));
      var metadata := GetOr(m, "session_metadata", Null);
      if created.None? || updated.None? || turns.None? || cost.None? || "id" !in m || "model" !in m then None
      else Some(Session(
        TextOf(env, m["id"]), TextOf(env, m["model"]),
        ParseStatus(TextOf(env, GetOr(m, "status", Str("active")))),
        created.value, updated.value, turns.value, cost.value,
        TextOrNone(env, GetOr(m, "parent_session_id", Null)),
        TextOrNone(env, GetOr(m, "owner_api_key_hash", Null)),
        if metadata.Obj? then Some(metadata.fields) else None))
  }

  lemma PayloadFields(env: Codec, s: Session)
    ensures Payload(env, s).Obj?
    ensures var m := Payload(env, s).fields;
            && GetOr(m, "created_at", Null) == Str(env.iso(s.createdAt))
            && GetOr(m, "updated_at", Null) == Str(env.iso(s.updatedAt))
            && GetOr(m, "total_turns", Num(0)) == Num(s.turns)
            && GetOr(m, "total_cost_usd", Null) == OptDec(s.cost)
            && GetOr(m, "session_metadata", Null) == (if s.metadata.Some? then Obj(s.metadata.value) else Null)
  {}

  lemma PayloadTexts(env: Codec, s: Session)
    ensures Payload(env, s).Obj?
    ensures var m := Payload(env, s).fields;
            && "id" in m && m["id"] == Str(s.id) && "model" in m && m["model"] == Str(s.model)
            && GetOr(m, "status", Str("active")) == Str(s.status)
            && GetOr(m, "parent_session_id", Null) == OptText(s.parent)
            && GetOr(m, "owner_api_key_hash", Null) == OptText(s.owner)
  {}

  /** Parsing undoes writing: every field survives, the status normalised. */
  lemma PayloadRoundTrip(env: Codec, s: Session)
    requires env.Sound()
    ensures ParseCached(env, Payload(env, s)) == Some(s.(status := ParseStatus(s.status)))
  {
    PayloadFields(env, s);
    PayloadTexts(env, s);
  }

  // ---------------------------------------------------------------- ownership

  /** What reading a session can give its caller. */
  datatype Outcome =
    | Found(session: Session)
    | Absent            // None
    | Refused           // SessionNotFoundError: the key does not own the session
    | Failed            // any other error

  /** An absent and an empty key both mean "no key". */
  function OwnerHash(env: Codec, key: Option<string>): Option<string> {
    if key.Some? && key.value != "" then Some(env.hash(key.value)) else None
  }

  /** No key: allowed. A key: only the session with exactly that hash, and none without a hash. */
  function EnforceOwner(env: Codec, s: Session, key: Option<string>): (r: Outcome)
    ensures r == Found(s) <==> OwnerHash(env, key).None? || (s.owner == OwnerHash(env, key) && s.owner != Some(""))
    ensures r == Found(s) || r == Refused
  {
    if key.None? || key.value == "" then Found(s)
    else if s.owner.None? || s.owner.value == "" then Refused
    else if s.owner.value == env.hash(key.value) then Found(s)
    else Refused
  }

  /** Equal answers, found sessions compared up to timestamps. */
  predicate Agree(a: Outcome, b: Outcome) {
    if a.Found? && b.Found? then SameButTimes(a.session, b.session) else a == b
  }

  type Table = map<string, Row>

  /** Reading the table with no cache at all. */
  function DirectRead(env: Codec, rows: Table, id: string, key: Option<string>): Outcome {
    match env.uuid(id)
    case None => Failed
    case Some(c) => if c in rows then EnforceOwner(env, MapRow(c, rows[c]), key) else Absent
  }

  /** Without a key every session may be seen; with one, those whose owner column has its hash. */
  predicate MaySee(env: Codec, owner: Option<string>, key: Option<string>) {
    key.None? || key.value == "" || (owner == Some(env.hash(key.value)) && owner != Some(""))
  }

  /** The session has the columns of the row but for the times, its status normalised. */
  predicate Shows(x: Session, c: string, row: Row) {
    && x.id == c && x.model == row.model && x.status == ParseStatus(row.status)
    && x.turns == row.turns && x.cost == row.cost
    && x.parent == row.parent && x.owner == row.owner && x.metadata == row.metadata
  }

  /** The answer to a read, case by case, in terms of the row that the id names. */
  predicate Answers(env: Codec, rows: Table, id: string, key: Option<string>, r: Outcome) {
    match env.uuid(id)
    case None => r == Failed
    case Some(c) =>
      if c !in rows then r == Absent
      else if !MaySee(env, rows[c].owner, key) then r == Refused
      else r.Found? && Shows(r.session, c, rows[c])
  }

  /** A read of the table answers so, times included; and so does any answer that agrees with it. */
  lemma DirectReadAnswers(env: Codec, rows: Table, id: string, key: Option<string>, r: Outcome)
    requires Agree(r, DirectRead(env, rows, id, key))
    ensures Answers(env, rows, id, key, r)
    ensures var d := DirectRead(env, rows, id, key);
            d.Found? ==> var row := rows[d.session.id];
                         d.session.createdAt == row.createdAt && d.session.updatedAt == row.updatedAt
  {
    hide ParseStatus;
  }

  // ------------------------------------------------------------------- updates

  datatype Change = Change(status: Option<string>, turns: Option<int>, cost: Option<real>, increment: bool)

  /** The changes `update_session` makes to the session object it read. */
  function ApplyChange(s: Session, u: Change, now: int): Session {
    var turns := if u.turns.Some? then u.turns.value else s.turns;
    s.(status := if u.status.Some? then u.status.value else s.status,
       turns := if u.increment then turns + 1 else turns,
       cost := if u.cost.Some? then u.cost else s.cost,
       updatedAt := now)
  }

  /** The same update on a row alone: what a service without a cache would store, in the column's precision. */
  function ChangeRow(row: Row, u: Change, dbNow: int): Row {
    var turns := if u.turns.Some? then u.turns.value else row.turns;
    row.(status := if u.status.Some? then u.status.value else ParseStatus(row.status),
         turns := if u.increment then turns + 1 else turns,
         cost := if u.cost.Some? then Rounded(u.cost) else row.cost,
         updatedAt := dbNow)
  }

  /** Merge `changes` over the stored metadata. */
  function MergeMetadata(row: Row, changes: Metadata, dbNow: int): Row {
    row.(metadata := Some((if row.metadata.Some? then row.metadata.value else map[]) + changes), updatedAt := dbNow)
  }

  // --------------------------------------------- what changes show, column by column

  /** All columns but the metadata and the time of the last update. */
  predicate SameColumns(a: Row, b: Row) {
    && b.model == a.model && b.status == a.status && b.createdAt == a.createdAt
    && b.turns == a.turns && b.cost == a.cost && b.parent == a.parent && b.owner == a.owner
  }

  function MetadataOf(row: Row): Metadata { if row.metadata.Some? then row.metadata.value else map[] }

  /** The key is in both documents with the same value, or in neither. */
  predicate SameAt(a: Metadata, b: Metadata, k: string) {
    (k in a <==> k in b) && (k in a ==> k in b && b[k] == a[k])
  }

  /** A changed key has its new value, any other key is as stored, the other columns too. */
  lemma MergeIs(row: Row, changes: Metadata, dbNow: int)
    ensures var merged := MergeMetadata(row, changes, dbNow);
            && SameColumns(row, merged) && merged.updatedAt == dbNow && merged.metadata.Some?
            && (forall k :: k in changes ==> SameAt(changes, MetadataOf(merged), k))
            && (forall k :: k !in changes ==> SameAt(MetadataOf(row), MetadataOf(merged), k))
  {}

  /** The row is in code mode under the project, everything else as it was. */
  ghost predicate Promoted(a: Row, b: Row, project: string) {
    var m := MetadataOf(b);
    && SameColumns(a, b)
    && "mode" in m && m["mode"] == Str("code") && "project_id" in m && m["project_id"] == Str(project)
    && forall k :: k != "mode" && k != "project_id" ==> SameAt(MetadataOf(a), m, k)
  }

  /** The row has exactly the given tags in their order, everything else as it was. */
  ghost predicate Tagged(a: Row, b: Row, tags: seq<string>) {
    var m := MetadataOf(b);
    && SameColumns(a, b)
    && "tags" in m && m["tags"].Arr? && |m["tags"].items| == |tags|
    && (forall i :: 0 <= i < |tags| ==> m["tags"].items[i] == Str(tags[i]))
    && forall k :: k != "tags" ==> SameAt(MetadataOf(a), m, k)
  }

  /** Given columns take the given value, a count of turns may grow by one, everything else is as it was. */
  predicate Updated(a: Row, b: Row, u: Change, dbNow: int) {
    && b.model == a.model && b.createdAt == a.createdAt && b.updatedAt == dbNow
    && b.parent == a.parent && b.owner == a.owner && b.metadata == a.metadata
    && b.status == (match u.status case Some(x) => x case None => ParseStatus(a.status))
    && b.turns == (match u.turns case Some(n) => n case None => a.turns) + (if u.increment then 1 else 0)
    && b.cost == (match u.cost case Some(x) => Some(Round(x)) case None => a.cost)
  }

  lemma ChangeIs(row: Row, u: Change, dbNow: int)
    ensures Updated(row, ChangeRow(row, u, dbNow), u, dbNow)
  {
    hide ParseStatus;
  }

  /** The caller gets the row's new columns, with the cost as it was given. */
  predicate ShowsUpdated(x: Session, c: string, b: Row, u: Change) {
    && x.id == c && x.model == b.model && x.status == b.status && x.turns == b.turns
    && x.cost == (if u.cost.Some? then u.cost else b.cost)
    && x.parent == b.parent && x.owner == b.owner && x.metadata == b.metadata
  }

  lemma ChangeShown(seen: Session, c: string, row: Row, u: Change, now: int, dbNow: int, x: Session)
    requires Shows(seen, c, row) && SameButTimes(x, ApplyChange(seen, u, now))
    ensures ShowsUpdated(x, c, ChangeRow(row, u, dbNow), u)
  {
    hide ParseStatus, Round;
  }

  /** Only the one row differs. */
  predicate OnlyRow(rows: Table, rows': Table, c: string) {
    rows'.Keys == rows.Keys && forall d :: d in rows && d != c ==> rows'[d] == rows[d]
  }
}
