/**
 What the session cache manager writes and removes, what a read through the cache answers, and
 that cached copies and owner indexes agree with the table after each of these.
 */
module SessionStore {
  import opened Common
  import opened Costs
  import opened Redis
  import opened SessionModel
  import opened SessionIndex

  // -------------------------------------------------------- cached writes

  /** `cache_session`: the payload, then the index entry and the index TTL. */
  function CacheSession(env: Codec, s: Store, session: Session, ttl: pos): Store {
    var s1 := Put(s, SKey(session.id), Doc(Payload(env, session)), Some(ttl));
    if session.owner.Some? && session.owner.value != "" then
      SetExpiry(AddMember(s1, OKey(session.owner.value), session.id), OKey(session.owner.value), ttl)
    else s1
  }

  function NewEntry(env: Codec, session: Session, end: int): Entry {
    Entry(Doc(Payload(env, session)), Some(end))
  }

  lemma CacheSessionAt(env: Codec, s: Store, session: Session, ttl: pos, i: string)
    requires !IndexLike(session.id) && !IndexLike(i)
    ensures CacheSession(env, s, session, ttl).now == s.now
    ensures Cached(CacheSession(env, s, session, ttl), i) ==
            if i == session.id then Some(NewEntry(env, session, s.now + ttl)) else Cached(s, i)
  {
    hide Payload;
    KeysApart(i, session.id);
    if session.owner.Some? { KeysApart(i, session.owner.value); KeysApart(session.id, session.owner.value); }
  }

  lemma CacheIndexAt(env: Codec, s: Store, session: Session, ttl: pos, h: string)
    requires !IndexLike(session.id) && session.owner != Some("")
    requires Index(s, h).Some? ==> Index(s, h).value.value.Members?
    ensures Index(CacheSession(env, s, session, ttl), h) ==
            if session.owner == Some(h) then Some(Entry(Members(MembersIn(Index(s, h)) + {session.id}),
                Some(s.now + ttl)))
            else Index(s, h)
  {
    hide Payload;
    KeysApart(session.id, h);
    var s1 := Put(s, SKey(session.id), Doc(Payload(env, session)), Some(ttl));
    assert Live(s1, OKey(h)) == Live(s, OKey(h));
    if session.owner.Some? {
      KeysApart(h, session.owner.value);
      if session.owner.value == h && Live(s, OKey(h)).None? { assert {} + {session.id} == {session.id}; }
    }
  }

  lemma CacheWritten(env: Codec, rows: Table, s: Store, session: Session, ttl: pos)
    requires !IndexLike(session.id) && session.owner != Some("") && IndexSound(rows, s)
    ensures Written(s, CacheSession(env, s, session, ttl), session.id, session.owner,
                    NewEntry(env, session, s.now + ttl), s.now + ttl)
  {
    hide CacheSession, Cached, Index, Payload;
    var r := CacheSession(env, s, session, ttl);
    CacheSessionAt(env, s, session, ttl, session.id);
    forall i | !IndexLike(i)
      ensures Cached(r, i) == if i == session.id then Some(NewEntry(env, session, s.now + ttl)) else Cached(s, i)
    {
      CacheSessionAt(env, s, session, ttl, i);
    }
    forall h ensures Index(r, h) ==
      if session.owner == Some(h) then Some(Entry(Members(MembersIn(Index(s, h)) + {session.id}), Some(s.now + ttl)))
          else Index(s, h)
    {
      CacheIndexAt(env, s, session, ttl, h);
    }
  }

  lemma NewEntryDescribes(env: Codec, session: Session, row: Row, end: int)
    requires env.Sound() && SameButTimes(session.(status := ParseStatus(session.status)), MapRow(session.id, row))
    ensures Describes(env, session.id, row, NewEntry(env, session, end))
  {
    hide Payload, ParseCached, ParseStatus;
    PayloadRoundTrip(env, session);
  }

  lemma CanonicalNotIndexLike(env: Codec, id: string)
    requires env.Sound() && env.uuid(id) == Some(id)
    ensures env.CanonicalText(id) && !IndexLike(id)
  {}

  /** Writing a row and caching the same session keeps the agreement. */
  lemma WriteThrough(env: Codec, rows: Table, s: Store, session: Session, row: Row, ttl: pos)
    requires env.Sound() && Agreeing(env, rows, s, ttl)
    requires env.uuid(session.id) == Some(session.id) && row.owner != Some("") && Storable(row.cost)
    requires SameButTimes(session.(status := ParseStatus(session.status)), MapRow(session.id, row))
    requires session.id in rows ==> rows[session.id].owner == row.owner
    ensures Agreeing(env, rows[session.id := row], CacheSession(env, s, session, ttl), ttl)
  {
    hide CacheSession, NewEntry, ParseStatus, Describes, Written, Coherent, IndexCovers, IndexSound, TableOk;
    CanonicalNotIndexLike(env, session.id);
    assert session.owner == row.owner;
    CacheWritten(env, rows, s, session, ttl);
    NewEntryDescribes(env, session, row, s.now + ttl);
    var e := NewEntry(env, session, s.now + ttl);
    WrittenAgreeing(env, rows, ttl, s, CacheSession(env, s, session, ttl), session.id, row, e);
  }

  // ----------------------------------------------------------- cached reads

  /** The answer of `get_session`: the cached payload if it is there and parses, else the table. */
  function ReadThrough(env: Codec, rows: Table, s: Store, id: string, key: Option<string>): Outcome {
    match ReplyOf(s, SKey(id))
    case WrongType => Failed
    case Missing => DirectRead(env, rows, id, key)
    case Got(j) =>
      match ParseCached(env, j)
      case Some(session) => EnforceOwner(env, session, key)
      case None => DirectRead(env, rows, id, key)
  }

  ghost predicate Transparent(env: Codec, rows: Table, s: Store) {
    forall id, key :: Agree(ReadThrough(env, rows, s, id, key), DirectRead(env, rows, id, key))
  }

  /** A live document under a session key describes the row of the same id; a set there is an index. */
  lemma CachedEntry(env: Codec, rows: Table, s: Store, ttl: pos, id: string)
    requires env.Sound() && Agreeing(env, rows, s, ttl)
    ensures ReplyOf(s, SKey(id)).WrongType? ==> env.uuid(id).None?
    ensures ReplyOf(s, SKey(id)).Got? ==>
              && id in rows && env.uuid(id) == Some(id) && !IndexLike(id) && rows[id].owner != Some("")
              && Describes(env, id, rows[id], Live(s, SKey(id)).value)
  {
    hide ParseCached, MapRow, SameButTimes, SKey, OKey, IndexCovers;
    if IndexLike(id) {
      IndexLikeIsIndex(id);
      assert Index(s, id[6..]) == Live(s, SKey(id));
    } else if Cached(s, id).Some? {
      assert EntryOk(env, rows, s, ttl, id, Cached(s, id).value);
    }
  }

  lemma SameOwnerAnswer(env: Codec, a: Session, b: Session, key: Option<string>)
    requires SameButTimes(a, b)
    ensures Agree(EnforceOwner(env, a, key), EnforceOwner(env, b, key))
  {}

  lemma ReadAgrees(env: Codec, rows: Table, s: Store, ttl: pos, id: string, key: Option<string>)
    requires env.Sound() && Agreeing(env, rows, s, ttl)
    ensures Agree(ReadThrough(env, rows, s, id, key), DirectRead(env, rows, id, key))
  {
    hide Agreeing, ParseCached, MapRow, SKey, SameButTimes, EnforceOwner;
    CachedEntry(env, rows, s, ttl, id);
    if ReplyOf(s, SKey(id)).Got? {
      SameOwnerAnswer(env, ParseCached(env, Live(s, SKey(id)).value.value.doc).value, MapRow(id, rows[id]), key);
    } else {
      AgreeReflexive(DirectRead(env, rows, id, key));
    }
  }

  lemma AgreeReflexive(a: Outcome)
    ensures Agree(a, a)
  {}

  /** Through an agreeing cache every read, refusals included, is the direct read of the table. */
  lemma AgreeingIsTransparent(env: Codec, rows: Table, s: Store, ttl: pos)
    requires env.Sound() && Agreeing(env, rows, s, ttl)
    ensures Transparent(env, rows, s)
  {
    hide Agreeing, ReadThrough, DirectRead, Agree;
    forall id, key ensures Agree(ReadThrough(env, rows, s, id, key), DirectRead(env, rows, id, key)) {
      ReadAgrees(env, rows, s, ttl, id, key);
    }
  }

  lemma RowFacts(env: Codec, rows: Table, s: Store, ttl: pos, c: string)
    requires Agreeing(env, rows, s, ttl) && c in rows
    ensures env.CanonicalText(c) && rows[c].owner != Some("") && !IndexLike(c) && Storable(rows[c].cost)
  {
    hide Coherent, IndexCovers, IndexSound;
  }

  /** A session that was just read from the table may be put back into the cache. */
  lemma RecacheAgreeing(env: Codec, rows: Table, s: Store, c: string, ttl: pos)
    requires env.Sound() && Agreeing(env, rows, s, ttl) && c in rows
    ensures Agreeing(env, rows, CacheSession(env, s, MapRow(c, rows[c]), ttl), ttl)
  {
    hide CacheSession, Agreeing, ParseStatus;
    ParseStatusStable(rows[c].status);
    RowFacts(env, rows, s, ttl, c);
    WriteThrough(env, rows, s, MapRow(c, rows[c]), rows[c], ttl);
    assert rows[c := rows[c]] == rows;
  }

  // --------------------------------------------------- time and deletion

  /** Time passing, and with it any number of expiries, keeps the agreement. */
  lemma TickAgreeing(env: Codec, rows: Table, s: Store, ttl: pos, d: nat)
    requires Agreeing(env, rows, s, ttl)
    ensures Agreeing(env, rows, Tick(s, d), ttl)
  {
    hide Agreeing, Shrunk;
    TickShrunk(rows, s, d);
    ShrunkAgreeing(env, rows, ttl, s, rows, Tick(s, d));
  }

  lemma TickedEntry(s: Store, d: nat, k: string)
    ensures Live(Tick(s, d), k).Some? ==> Live(Tick(s, d), k) == Live(s, k)
    ensures Live(s, k).Some? && Live(Tick(s, d), k).None? ==>
              Live(s, k).value.expiry.Some? && Live(s, k).value.expiry.value <= s.now + d
  {}

  lemma TickShrunk(rows: Table, s: Store, d: nat)
    ensures Shrunk(rows, s, rows, Tick(s, d))
  {
    hide Live, SKey, OKey, Tick;
    var r := Tick(s, d);
    forall h, i | i in MembersIn(Index(r, h)) ensures i in MembersIn(Index(s, h)) { TickedEntry(s, d, OKey(h)); }
    forall h | Index(r, h).Some? ensures SmallerIndex(Index(s, h), Index(r, h).value) { TickedEntry(s, d, OKey(h)); }
    forall i | Cached(r, i).Some? ensures Cached(r, i) == Cached(s, i) { TickedEntry(s, d, SKey(i)); }
  }

  /** The cache half of a deletion: leave the index, then drop the payload. */
  function Uncache(s: Store, id: string, owner: Option<string>): Store {
    var s1 := if owner.Some? && owner.value != "" then RemoveMember(s, OKey(owner.value), id) else s;
    Drop(s1, SKey(id))
  }

  lemma UncacheAt(s: Store, id: string, owner: Option<string>, i: string)
    requires !IndexLike(id) && !IndexLike(i)
    ensures Uncache(s, id, owner).now == s.now
    ensures Cached(Uncache(s, id, owner), i) == if i == id then None else Cached(s, i)
  {
    KeysApart(i, id);
    if owner.Some? { KeysApart(i, owner.value); }
  }

  lemma UncacheIndexAt(s: Store, id: string, owner: Option<string>, h: string)
    requires !IndexLike(id) && owner != Some("")
    ensures owner != Some(h) ==> Index(Uncache(s, id, owner), h) == Index(s, h)
    ensures owner == Some(h) ==> Index(Uncache(s, id, owner), h) == Live(RemoveMember(s, OKey(h), id), OKey(h))
  {
    KeysApart(id, h);
    if owner.Some? { KeysApart(h, owner.value); }
  }

  lemma UncacheMembers(s: Store, id: string, owner: Option<string>, h: string)
    requires !IndexLike(id) && owner != Some("")
    ensures MembersIn(Index(Uncache(s, id, owner), h)) ==
            MembersIn(Index(s, h)) - (if owner == Some(h) then {id} else {})
    ensures Index(Uncache(s, id, owner), h).Some? ==> SmallerIndex(Index(s, h), Index(Uncache(s, id, owner), h).value)
  {
    hide Uncache;
    UncacheIndexAt(s, id, owner, h);
    assert MembersIn(Index(s, h)) == MembersOf(s, OKey(h));
    assert MembersIn(Live(RemoveMember(s, OKey(h), id), OKey(h))) == MembersOf(RemoveMember(s, OKey(h), id), OKey(h));
  }

  lemma UncacheShrunk(rows: Table, s: Store, id: string, owner: Option<string>, rows': Table)
    requires !IndexLike(id) && owner != Some("")
    requires rows' == rows || (rows' == rows - {id} && id in rows && rows[id].owner == owner)
    requires IndexSound(rows, s)
    ensures Shrunk(rows, s, rows', Uncache(s, id, owner))
  {
    hide Uncache, Cached, Index, MembersIn;
    var r := Uncache(s, id, owner);
    forall i | !IndexLike(i) ensures Cached(r, i) == if i == id then None else Cached(s, i) {
      UncacheAt(s, id, owner, i);
    }
    forall h ensures Index(r, h).Some? ==> SmallerIndex(Index(s, h), Index(r, h).value)
      ensures MembersIn(Index(r, h)) == MembersIn(Index(s, h)) - (if owner == Some(h) then {id} else {})
    {
      UncacheMembers(s, id, owner, h);
    }
    forall h, i | i in MembersIn(Index(s, h)) && i in rows' && Cached(r, i).Some?
        && InIndex(s, i, h, Cached(r, i).value.expiry)
      ensures Index(r, h).Some? && i in MembersIn(Index(r, h))
    {
      MembersPresent(Index(r, h), i);
    }
  }

  lemma MembersPresent(e: Option<Entry>, i: string)
    ensures i in MembersIn(e) ==> e.Some?
  {}

  /** Removing the cached copy of a row, with or without the row, keeps the agreement. */
  lemma UncacheAgreeing(env: Codec, rows: Table, s: Store, id: string, ttl: pos, rows': Table)
    requires env.Sound() && Agreeing(env, rows, s, ttl) && id in rows
    requires rows' == rows || rows' == rows - {id}
    ensures Agreeing(env, rows', Uncache(s, id, rows[id].owner), ttl)
  {
    hide Uncache, Shrunk, Coherent, IndexCovers, IndexSound;
    RowFacts(env, rows, s, ttl, id);
    UncacheAt(s, id, rows[id].owner, id);
    UncacheShrunk(rows, s, id, rows[id].owner, rows');
    ShrunkAgreeing(env, rows, ttl, s, rows', Uncache(s, id, rows[id].owner));
  }

  /** Removing what is not cached: at most an index member goes, and no cached session loses its entry. */
  lemma MissedUncacheAgreeing(env: Codec, rows: Table, s: Store, ttl: pos, id: string, owner: Option<string>)
    requires env.Sound() && Agreeing(env, rows, s, ttl) && Cached(s, id).None?
    requires owner != Some("") && (owner.Some? ==> !IndexLike(id))
    ensures Agreeing(env, rows, Uncache(s, id, owner), ttl)
  {
    hide Uncache, Shrunk, Coherent, IndexCovers, IndexSound, TableOk;
    if IndexLike(id) {
      DropMissing(rows, s, id);
    } else {
      UncacheAt(s, id, owner, id);
      UncacheShrunk(rows, s, id, owner, rows);
    }
    ShrunkAgreeing(env, rows, ttl, s, rows, Uncache(s, id, owner));
  }

  lemma DropMissing(rows: Table, s: Store, id: string)
    requires Cached(s, id).None?
    ensures Uncache(s, id, None).now == s.now && Shrunk(rows, s, rows, Uncache(s, id, None))
  {
    hide SKey, OKey;
    assert forall k :: Live(Uncache(s, id, None), k) == Live(s, k);
  }

  // ------------------------------------------- creation under another spelling

  /** The caller spelled the ids as `str(UUID(...))` prints them. */
  ghost predicate SpelledCanonically(env: Codec, id: string, parent: Option<string>) {
    env.uuid(id) == Some(id) && (parent.Some? ==> env.uuid(parent.value) == Some(parent.value))
  }

  /** The parent column: an empty text counts as no parent, any other is stored in canonical form. */
  function ParentColumn(env: Codec, parent: Option<string>): Option<string> {
    if parent.Some? && parent.value != "" then env.uuid(parent.value) else None
  }

  /** The session object and the row `create_session` makes. */
  function NewSession(env: Codec, id: string, model: string, parent: Option<string>, key: Option<string>,
      now: int): Session {
    Session(id, model, "active", now, now, 0, None, parent, OwnerHash(env, key), None)
  }

  function NewRow(env: Codec, model: string, parent: Option<string>, key: Option<string>, dbNow: int): Row {
    Row(model, "active", dbNow, dbNow, 0, None, ParentColumn(env, parent), OwnerHash(env, key), None)
  }

  lemma CanonicalCreate(env: Codec, rows: Table, s: Store, ttl: pos, id: string, model: string,
                        parent: Option<string>, key: Option<string>, now: int, dbNow: int)
    requires env.Sound() && Agreeing(env, rows, s, ttl)
    requires id !in rows && SpelledCanonically(env, id, parent)
    ensures Agreeing(env, rows[id := NewRow(env, model, parent, key, dbNow)],
                     CacheSession(env, s, NewSession(env, id, model, parent, key, now), ttl), ttl)
  {
    hide CacheSession, Agreeing, ParseStatus;
    ParseStatusStable("active");
    if parent.Some? { assert env.CanonicalText(parent.value); }
    var session, row := NewSession(env, id, model, parent, key, now), NewRow(env, model, parent, key, dbNow);
    WriteThrough(env, rows, s, session, row, ttl);
  }

  lemma OtherSpellingCreate(env: Codec, rows: Table, s: Store, ttl: pos, id: string, model: string,
                            parent: Option<string>, key: Option<string>, now: int, dbNow: int)
    requires env.Sound() && env.uuid(id).Some? && !SpelledCanonically(env, id, parent)
    ensures !Transparent(env, rows[env.uuid(id).value := NewRow(env, model, parent, key, dbNow)],
                         CacheSession(env, s, NewSession(env, id, model, parent, key, now), ttl))
  {
    var c := env.uuid(id).value;
    var session, row := NewSession(env, id, model, parent, key, now), NewRow(env, model, parent, key, dbNow);
    var rows', s' := rows[c := row], CacheSession(env, s, session, ttl);
    CacheSessionAt(env, s, session, ttl, id);
    PayloadRoundTrip(env, session);
    ParseStatusStable("active");
    DifferentSpelling(env, id, model, parent, key, now, dbNow);
    assert ReadThrough(env, rows', s', id, None) == Found(session);
    assert DirectRead(env, rows', id, None) == Found(MapRow(c, row));
  }

  lemma DifferentSpelling(env: Codec, id: string, model: string, parent: Option<string>, key: Option<string>, now: int,
      dbNow: int)
    requires env.Sound() && env.uuid(id).Some? && !SpelledCanonically(env, id, parent)
    ensures !Agree(Found(NewSession(env, id, model, parent, key, now)),
                   Found(MapRow(env.uuid(id).value, NewRow(env, model, parent, key, dbNow))))
  {
    if parent.Some? && parent.value != "" && env.uuid(parent.value).Some? {
      assert env.CanonicalText(env.uuid(parent.value).value);
    }
  }

  /**
   Creation keeps reads transparent exactly when both ids are spelled canonically: under any other
   spelling the cache answers with the caller's spelling, the table with the canonical one.
   */
  lemma CreateTransparentIff(env: Codec, rows: Table, s: Store, ttl: pos, id: string, model: string,
                             parent: Option<string>, key: Option<string>, now: int, dbNow: int)
    requires env.Sound() && Agreeing(env, rows, s, ttl)
    requires env.uuid(id).Some? && env.uuid(id).value !in rows
    ensures Transparent(env, rows[env.uuid(id).value := NewRow(env, model, parent, key, dbNow)],
                        CacheSession(env, s, NewSession(env, id, model, parent, key, now), ttl))
            <==> SpelledCanonically(env, id, parent)
  {
    if SpelledCanonically(env, id, parent) {
      CanonicalCreate(env, rows, s, ttl, id, model, parent, key, now, dbNow);
      AgreeingIsTransparent(env, rows[id := NewRow(env, model, parent, key, dbNow)],
                            CacheSession(env, s, NewSession(env, id, model, parent, key, now), ttl), ttl);
    } else {
      OtherSpellingCreate(env, rows, s, ttl, id, model, parent, key, now, dbNow);
    }
  }

  // ---------------------------------------------- updates with a finer cost

  /** The update's cost, if it has one, is what the column will hold. */
  predicate KeepsCost(u: Change) { Rounded(u.cost) == u.cost }

  /** What the update reads and writes, for a session read from an agreeing cache or table. */
  lemma ChangedRow(rows: Table, c: string, seen: Session, u: Change, now: int, dbNow: int)
    requires c in rows && SameButTimes(seen, MapRow(c, rows[c])) && Storable(rows[c].cost)
    ensures ApplyChange(seen, u, now).updatedAt == now
    ensures var session := ApplyChange(seen, u, now);
            var row := ChangeRow(rows[c], u, dbNow);
            && (Fits(session.cost) <==> Fits(u.cost))
            && SameButTimes(session, ApplyChange(MapRow(c, rows[c]), u, now))
            && (SameButTimes(session.(status := ParseStatus(session.status)), MapRow(c, row)) <==> KeepsCost(u))
            && row == rows[c].(status := session.status, turns := session.turns,
                               cost := if session.cost.Some? then Rounded(session.cost) else rows[c].cost,
                               updatedAt := dbNow)
            && (Fits(u.cost) ==> Storable(row.cost))
  {
    hide ParseStatus, Round;
    if Fits(u.cost) { RoundedStorable(u.cost); }
  }

  lemma CoarseUpdate(env: Codec, rows: Table, s: Store, ttl: pos, c: string, seen: Session, u: Change, now: int,
      dbNow: int)
    requires env.Sound() && Agreeing(env, rows, s, ttl) && c in rows && SameButTimes(seen, MapRow(c, rows[c]))
    requires Fits(u.cost) && KeepsCost(u)
    ensures Agreeing(env, rows[c := ChangeRow(rows[c], u, dbNow)],
                     CacheSession(env, s, ApplyChange(seen, u, now), ttl), ttl)
  {
    hide CacheSession, Agreeing, ParseStatus, KeepsCost, Fits, Storable;
    RowFacts(env, rows, s, ttl, c);
    ChangedRow(rows, c, seen, u, now, dbNow);
    WriteThrough(env, rows, s, ApplyChange(seen, u, now), ChangeRow(rows[c], u, dbNow), ttl);
  }

  lemma FinerUpdate(env: Codec, rows: Table, s: Store, ttl: pos, c: string, seen: Session, u: Change, now: int,
      dbNow: int)
    requires env.Sound() && Agreeing(env, rows, s, ttl) && c in rows && SameButTimes(seen, MapRow(c, rows[c]))
    requires !KeepsCost(u)
    ensures !Transparent(env, rows[c := ChangeRow(rows[c], u, dbNow)],
                         CacheSession(env, s, ApplyChange(seen, u, now), ttl))
  {
    var session, row := ApplyChange(seen, u, now), ChangeRow(rows[c], u, dbNow);
    var rows', s' := rows[c := row], CacheSession(env, s, session, ttl);
    RowFacts(env, rows, s, ttl, c);
    ChangedRow(rows, c, seen, u, now, dbNow);
    CacheSessionAt(env, s, session, ttl, c);
    PayloadRoundTrip(env, session);
    hide CacheSession, Agreeing, ParseStatus, KeepsCost, ParseCached, Payload, ApplyChange, ChangeRow;
    assert ReadThrough(env, rows', s', c, None) == Found(session.(status := ParseStatus(session.status)));
    assert DirectRead(env, rows', c, None) == Found(MapRow(c, row));
  }

  /**
   An update keeps reads transparent exactly when its cost is absent or one the column holds: the
   cache keeps the cost it was given, the table the rounded one.
   */
  lemma UpdateTransparentIff(env: Codec, rows: Table, s: Store, ttl: pos, c: string, seen: Session, u: Change,
      now: int, dbNow: int)
    requires env.Sound() && Agreeing(env, rows, s, ttl) && c in rows && SameButTimes(seen, MapRow(c, rows[c]))
    requires Fits(u.cost)
    ensures Transparent(env, rows[c := ChangeRow(rows[c], u, dbNow)],
                        CacheSession(env, s, ApplyChange(seen, u, now), ttl))
            <==> KeepsCost(u)
  {
    hide CacheSession, Agreeing, KeepsCost, Transparent, ApplyChange, ChangeRow, Fits;
    if KeepsCost(u) {
      CoarseUpdate(env, rows, s, ttl, c, seen, u, now, dbNow);
      AgreeingIsTransparent(env, rows[c := ChangeRow(rows[c], u, dbNow)],
                            CacheSession(env, s, ApplyChange(seen, u, now), ttl), ttl);
    } else {
      FinerUpdate(env, rows, s, ttl, c, seen, u, now, dbNow);
    }
  }
}
