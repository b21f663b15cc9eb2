/**
 Cached sessions and owner indexes in the shared store: what it means that they agree with the
 table, and the changes that keep it. How a payload describes its row stays closed in the proofs.
 */
module SessionIndex {
  import opened Common
  import opened Costs
  import opened Redis
  import opened SessionModel

  // -------------------------------------------------------------------- keys

  function SKey(id: string): string { "session:" + id }

  function OKey(h: string): string { "session:owner:" + h }

  lemma KeysApart(a: string, b: string)
    ensures SKey(a) == SKey(b) <==> a == b
    ensures OKey(a) == OKey(b) <==> a == b
    ensures SKey(a) == OKey(b) <==> a == "owner:" + b
  {
    assert SKey(a)[8..] == a && SKey(b)[8..] == b;
    assert OKey(a)[14..] == a && OKey(b)[14..] == b;
    assert OKey(b) == SKey("owner:" + b);
    assert OKey(b)[8..] == "owner:" + b;
  }

  /** Texts that name an index key when used as a session id; no UUID text is one. */
  predicate IndexLike(id: string) { "owner:" <= id }

  lemma IndexLikeIsIndex(id: string)
    requires IndexLike(id)
    ensures SKey(id) == OKey(id[6..])
  {
    KeysApart(id, id[6..]);
    assert id == "owner:" + id[6..];
  }

  /** The cached payload of a session id, and the index set of an owner. */
  function Cached(s: Store, id: string): Option<Entry> { Live(s, SKey(id)) }

  function Index(s: Store, h: string): Option<Entry> { Live(s, OKey(h)) }

  // -------------------------------------------------------------- agreement

  /** The entry is a document that parses to the session its row describes. */
  predicate Describes(env: Codec, id: string, row: Row, e: Entry) {
    && e.value.Doc? && ParseCached(env, e.value.doc).Some?
    && SameButTimes(ParseCached(env, e.value.doc).value, MapRow(id, row))
  }

  function MembersIn(e: Option<Entry>): set<string> {
    if e.Some? && e.value.value.Members? then e.value.value.members else {}
  }

  /** The index of `h` is there, holds `id`, and does not run out before time `x`. */
  predicate InIndex(s: Store, id: string, h: string, x: Option<int>) {
    var e := Index(s, h);
    && e.Some? && id in MembersIn(e)
    && (e.value.expiry.Some? ==> x.Some? && x.value <= e.value.expiry.value)
  }

  /** An entry ends within one TTL from now and describes the row of its id. */
  predicate EntryOk(env: Codec, rows: Table, s: Store, ttl: pos, id: string, e: Entry) {
    e.expiry.Some? && e.expiry.value <= s.now + ttl && id in rows && Describes(env, id, rows[id], e)
  }

  /** Rows are stored under canonical ids, an owner hash is never empty, a cost is one its column holds. */
  ghost predicate TableOk(env: Codec, rows: Table) {
    forall i :: i in rows ==>
        env.CanonicalText(i) && !IndexLike(i) && rows[i].owner != Some("") && Storable(rows[i].cost)
  }

  /** Cached entries describe their rows. */
  ghost predicate Coherent(env: Codec, rows: Table, s: Store, ttl: pos) {
    forall i :: !IndexLike(i) && Cached(s, i).Some? ==> EntryOk(env, rows, s, ttl, i, Cached(s, i).value)
  }

  /** Every cached session is in its owner's index, which outlives it. */
  ghost predicate IndexCovers(rows: Table, s: Store) {
    forall i :: i in rows && Cached(s, i).Some? && rows[i].owner.Some?
      ==> InIndex(s, i, rows[i].owner.value, Cached(s, i).value.expiry)
  }

  /** An index is a set and names only rows of its owner. */
  ghost predicate IndexSound(rows: Table, s: Store) {
    && (forall h :: Index(s, h).Some? ==> Index(s, h).value.value.Members?)
    && (forall h, i :: i in MembersIn(Index(s, h)) ==> i in rows && rows[i].owner == Some(h))
  }

  /** Table, cached sessions and owner indexes agree. */
  ghost predicate Agreeing(env: Codec, rows: Table, s: Store, ttl: pos) {
    TableOk(env, rows) && Coherent(env, rows, s, ttl) && IndexCovers(rows, s) && IndexSound(rows, s)
  }

  /** `r` is `s` with the entry `e` of `id` written and `id` put into its owner's index, both for one TTL. */
  ghost predicate Written(s: Store, r: Store, id: string, owner: Option<string>, e: Entry, end: int) {
    && e.expiry == Some(end) && r.now == s.now
    && (forall i :: !IndexLike(i) ==> Cached(r, i) == if i == id then Some(e) else Cached(s, i))
    && (forall h :: Index(r, h) ==
          if owner == Some(h) then Some(Entry(Members(MembersIn(Index(s, h)) + {id}), Some(end))) else Index(s, h))
  }

  lemma WrittenCoherent(env: Codec, rows: Table, ttl: pos, s: Store, r: Store, id: string, row: Row, e: Entry)
    requires Coherent(env, rows, s, ttl) && !IndexLike(id)
    requires Written(s, r, id, row.owner, e, s.now + ttl) && Describes(env, id, row, e)
    ensures Coherent(env, rows[id := row], r, ttl)
  {
    hide Cached, Index, Describes;
    forall i | !IndexLike(i) && Cached(r, i).Some?
        ensures EntryOk(env, rows[id := row], r, ttl, i, Cached(r, i).value) {
      if i != id { assert Cached(r, i) == Cached(s, i); }
    }
  }

  lemma WrittenCovers(env: Codec, rows: Table, ttl: pos, s: Store, r: Store, id: string, row: Row, e: Entry)
    requires Agreeing(env, rows, s, ttl) && !IndexLike(id)
    requires Written(s, r, id, row.owner, e, s.now + ttl)
    requires id in rows ==> rows[id].owner == row.owner
    ensures IndexCovers(rows[id := row], r)
  {
    hide Cached, Index, Describes;
    var rows' := rows[id := row];
    forall i | i in rows' && Cached(r, i).Some? && rows'[i].owner.Some?
      ensures InIndex(r, i, rows'[i].owner.value, Cached(r, i).value.expiry)
    {
      if i != id {
        var h := rows[i].owner.value;
        assert Cached(r, i) == Cached(s, i);
        assert EntryOk(env, rows, s, ttl, i, Cached(s, i).value);
        assert InIndex(s, i, h, Cached(s, i).value.expiry);
      }
    }
  }

  lemma WrittenSound(rows: Table, s: Store, r: Store, id: string, row: Row, e: Entry, end: int)
    requires IndexSound(rows, s) && Written(s, r, id, row.owner, e, end)
    requires id in rows ==> rows[id].owner == row.owner
    ensures IndexSound(rows[id := row], r)
  {
    hide Cached, Index, Describes;
    forall h, i | i in MembersIn(Index(r, h)) ensures i in rows[id := row] && rows[id := row][i].owner == Some(h) {
      assert i in MembersIn(Index(s, h)) || (i == id && row.owner == Some(h));
    }
  }

  /** Writing a row and caching a session that describes it keeps the agreement. */
  lemma WrittenAgreeing(env: Codec, rows: Table, ttl: pos, s: Store, r: Store, id: string, row: Row, e: Entry)
    requires Agreeing(env, rows, s, ttl) && env.CanonicalText(id) && !IndexLike(id)
    requires row.owner != Some("") && Storable(row.cost)
    requires Written(s, r, id, row.owner, e, s.now + ttl) && Describes(env, id, row, e)
    requires id in rows ==> rows[id].owner == row.owner
    ensures Agreeing(env, rows[id := row], r, ttl)
  {
    hide Cached, Index, Describes, Written, Coherent, IndexCovers, IndexSound;
    WrittenCoherent(env, rows, ttl, s, r, id, row, e);
    WrittenCovers(env, rows, ttl, s, r, id, row, e);
    WrittenSound(rows, s, r, id, row, e, s.now + ttl);
  }

  predicate SmallerIndex(e: Option<Entry>, f: Entry) {
    e.Some? && f.expiry == e.value.expiry && (e.value.value.Members? ==> f.value.Members?)
  }

  /**
   `r` has some of the entries of `s`, none changed but for fewer index members; an index member
   or an index is gone only if its session is not cached any more or not a row any more.
   */
  ghost predicate Shrunk(rows: Table, s: Store, rows': Table, r: Store) {
    && (forall i :: i in rows' ==> i in rows && rows'[i] == rows[i])
    && (forall i :: !IndexLike(i) && Cached(r, i).Some? ==> Cached(r, i) == Cached(s, i) && (i in rows ==> i in rows'))
    && (forall h :: Index(r, h).Some? ==> SmallerIndex(Index(s, h), Index(r, h).value))
    && (forall h, i :: i in MembersIn(Index(r, h)) ==> i in MembersIn(Index(s, h)) && (i in rows ==> i in rows'))
    && (forall h, i :: i in MembersIn(Index(s, h)) && i in rows' && Cached(r, i).Some?
          && InIndex(s, i, h, Cached(r, i).value.expiry)
          ==> Index(r, h).Some? && i in MembersIn(Index(r, h)))
  }

  lemma ShrunkAgreeing(env: Codec, rows: Table, ttl: pos, s: Store, rows': Table, r: Store)
    requires Agreeing(env, rows, s, ttl) && s.now <= r.now && Shrunk(rows, s, rows', r)
    ensures Agreeing(env, rows', r, ttl)
  {
    hide Cached, Index, Describes;
    forall i | !IndexLike(i) && Cached(r, i).Some? ensures EntryOk(env, rows', r, ttl, i, Cached(r, i).value) {
      assert EntryOk(env, rows, s, ttl, i, Cached(s, i).value);
    }
    forall i | i in rows' && Cached(r, i).Some? && rows'[i].owner.Some?
      ensures InIndex(r, i, rows'[i].owner.value, Cached(r, i).value.expiry)
    {
      assert InIndex(s, i, rows[i].owner.value, Cached(s, i).value.expiry);
    }
  }
}
