/**
 The session service over the table and the cache, one call at a time. Its contracts speak of the
 table only: whatever the cache holds, every call answers and changes the table as a service
 without a cache would, and leaves cache and indexes in agreement with it.
 */
module SessionService {
  import opened Common
  import opened Costs
  import opened Redis
  import opened SessionModel
  import opened SessionIndex
  import opened SessionStore
  import opened SessionRepo

  // ------------------------------------------------------------ the cache manager

  class SessionCacheManager {
    const env: Codec
    const cache: RedisCache
    const ttl: pos

    constructor (env: Codec, cache: RedisCache, ttl: pos)
      ensures this.env == env && this.cache == cache && this.ttl == ttl
    {
      this.env, this.cache, this.ttl := env, cache, ttl;
    }

    method Store(session: Session)
      modifies cache
      ensures cache.store == CacheSession(env, old(cache.store), session, ttl)
    {
      cache.SetJson(SKey(session.id), Payload(env, session), Some(ttl));
      if session.owner.Some? && session.owner.value != "" {
        cache.AddToSet(OKey(session.owner.value), session.id);
        cache.Expire(OKey(session.owner.value), ttl);
      }
    }

    /** The cached session; a payload that does not parse is deleted. `ok` is false for a set under the key. */
    method Fetch(id: string) returns (ok: bool, session: Option<Session>)
      modifies cache
      ensures ok <==> !ReplyOf(old(cache.store), SKey(id)).WrongType?
      ensures session == match ReplyOf(old(cache.store), SKey(id)) case Got(j) => ParseCached(env, j) case _ => None
      ensures cache.store == old(cache.store) || (ok && session.None? && ReplyOf(old(cache.store), SKey(id)).Got?)
    {
      var reply := cache.GetJson(SKey(id));
      if reply.WrongType? { return false, None; }
      if reply.Missing? || reply.doc == Obj(map[]) {
        hide ParseCached;
        if reply.Got? { EmptyDocument(env); }
        return true, None;
      }
      session := ParseCached(env, reply.doc);
      ok := true;
      if session.None? { var _ := cache.Delete(SKey(id)); }
    }

    method Remove(id: string, owner: Option<string>) returns (removed: bool)
      modifies cache
      ensures cache.store == Uncache(old(cache.store), id, owner)
      ensures (owner.Some? ==> !IndexLike(id)) ==> removed == Cached(old(cache.store), id).Some?
    {
      ghost var before := cache.store;
      if owner.Some? && owner.value != "" { cache.RemoveFromSet(OKey(owner.value), id); }
      if owner.Some? { KeysApart(id, owner.value); }
      removed := cache.Delete(SKey(id));
    }

    /** `list_sessions_for_owner`: index members, one bulk read, the ones that are there and parse. */
    method ListForOwner(h: string) returns (sessions: seq<Session>, ghost ids: seq<string>)
      ensures |ids| == |sessions| && forall i, j :: 0 <= i < j < |ids| ==> ids[i] != ids[j]
      ensures forall i :: 0 <= i < |ids| ==>
                ids[i] in MembersOf(cache.store, OKey(h)) && Readable(env, cache.store, ids[i]) == Some(sessions[i])
      ensures forall id :: id in MembersOf(cache.store, OKey(h)) && Readable(env, cache.store, id).Some? ==> id in ids
    {
      hide ParseCached, SKey, OKey;
      var members := cache.SetMembers(OKey(h));
      var names := Enumerate(members);
      var keys := [];
      for i := 0 to |names|
        invariant |keys| == i && forall k :: 0 <= k < i ==> keys[k] == SKey(names[k])
      {
        keys := keys + [SKey(names[i])];
      }
      var rows := cache.GetManyJson(keys);
      sessions, ids := [], [];
      for i := 0 to |rows|
        invariant |ids| == |sessions| && forall k, j :: 0 <= k < j < |ids| ==> ids[k] != ids[j]
        invariant forall k :: 0 <= k < |ids| ==> ids[k] in names[..i]
        invariant forall k :: 0 <= k < |ids| ==> Readable(env, cache.store, ids[k]) == Some(sessions[k])
        invariant forall k :: 0 <= k < i && Readable(env, cache.store, names[k]).Some? ==> names[k] in ids
      {
        ghost var reply := ReplyOf(cache.store, SKey(names[i]));
        assert rows[i] == if reply.Got? then Some(reply.doc) else None;
        assert names[..i + 1] == names[..i] + [names[i]];
        assert names[i] !in names[..i];
        if rows[i].Some? && rows[i].value != Obj(map[]) {
          var session := ParseCached(env, rows[i].value);
          if session.Some? { sessions, ids := sessions + [session.value], ids + [names[i]]; }
        } else if rows[i].Some? {
          EmptyDocument(env);
        }
      }
    }
  }

  lemma EmptyDocument(env: Codec)
    ensures ParseCached(env, Obj(map[])).None?
  {}

  /** The session that the payload under `id` parses to, if there is one. */
  function Readable(env: Codec, s: Store, id: string): Option<Session> {
    match ReplyOf(s, SKey(id)) case Got(j) => ParseCached(env, j) case _ => None
  }

  /** The members of a set in some order. */
  method Enumerate(members: set<string>) returns (names: seq<string>)
    ensures forall m :: m in names <==> m in members
    ensures forall i, j :: 0 <= i < j < |names| ==> names[i] != names[j]
  {
    names := [];
    var rest := members;
    while rest != {}
      invariant rest <= members
      invariant forall m :: m in names <==> m in members - rest
      invariant forall i, j :: 0 <= i < j < |names| ==> names[i] != names[j]
      decreases rest
    {
      var m :| m in rest;
      assert m !in names;
      names := names + [m];
      rest := rest - {m};
    }
  }

  // ------------------------------------------------------------------ the service

  datatype CreateResult = Created(session: Session) | AlreadyExists | CreateFailed

  datatype DeleteResult = Deleted | NotDeleted | DeleteFailed

  // What a service without a cache does: its answer `r` and the table `rows'` it leaves.

  /** Malformed ids fail, key violations exist already, else the row is there with no turns and no cost. */
  predicate CreateSpec(env: Codec, rows: Table, id: string, model: string, parent: Option<string>, key: Option<string>,
                       now: int, dbNow: int, r: CreateResult, rows': Table) {
    var row := NewRow(env, model, parent, key, dbNow);
    if env.uuid(id).None? || (parent.Some? && parent.value != "" && env.uuid(parent.value).None?)
    then r == CreateFailed && rows' == rows
    else if env.uuid(id).value in rows || !ParentExists(rows, env.uuid(id).value, row)
    then r == AlreadyExists && rows' == rows
    else r == Created(NewSession(env, id, model, parent, key, now)) && rows' == rows[env.uuid(id).value := row]
  }

  predicate UpdateSpec(env: Codec, rows: Table, id: string, u: Change, key: Option<string>, now: int, dbNow: int,
      r: Outcome, rows': Table) {
    match DirectRead(env, rows, id, key)
    case Found(s) =>
      if !Fits(u.cost) then r == Failed && rows' == rows else
      && s.id in rows && r.Found? && SameButTimes(r.session, ApplyChange(s, u, now)) && r.session.updatedAt == now
      && rows' == rows[s.id := ChangeRow(rows[s.id], u, dbNow)]
    case other => r == other && rows' == rows
  }

  predicate MergeSpec(env: Codec, rows: Table, id: string, changes: Metadata, key: Option<string>, dbNow: int,
      r: Outcome, rows': Table) {
    match DirectRead(env, rows, id, key)
    case Found(s) =>
      && s.id in rows && r == Found(MapRow(s.id, MergeMetadata(rows[s.id], changes, dbNow)))
      && rows' == rows[s.id := MergeMetadata(rows[s.id], changes, dbNow)]
    case other => r == other && rows' == rows
  }

  // The same, column by column on the row that the id names.

  /** The id names a row that the key may see. */
  predicate Reaches(env: Codec, rows: Table, id: string, key: Option<string>) {
    env.uuid(id).Some? && env.uuid(id).value in rows && MaySee(env, rows[env.uuid(id).value].owner, key)
  }

  lemma ReachesIff(env: Codec, rows: Table, id: string, key: Option<string>)
    ensures DirectRead(env, rows, id, key).Found? <==> Reaches(env, rows, id, key)
    ensures var d := DirectRead(env, rows, id, key);
            && Answers(env, rows, id, key, d)
            && (d.Found? ==> d.session.id == env.uuid(id).value && Shows(d.session, d.session.id, rows[d.session.id]))
  {
    DirectReadAnswers(env, rows, id, key, DirectRead(env, rows, id, key));
  }

  predicate UpdateShows(env: Codec, rows: Table, id: string, u: Change, key: Option<string>, now: int, dbNow: int,
      r: Outcome, rows': Table) {
    if !Reaches(env, rows, id, key) then Answers(env, rows, id, key, r) && rows' == rows
    else if !Fits(u.cost) then r == Failed && rows' == rows
    else
      var c := env.uuid(id).value;
      && OnlyRow(rows, rows', c) && Updated(rows[c], rows'[c], u, dbNow)
      && r.Found? && ShowsUpdated(r.session, c, rows'[c], u) && r.session.updatedAt == now
  }

  lemma UpdateShown(env: Codec, rows: Table, id: string, u: Change, key: Option<string>, now: int, dbNow: int,
      r: Outcome, rows': Table)
    requires UpdateSpec(env, rows, id, u, key, now, dbNow, r, rows')
    ensures UpdateShows(env, rows, id, u, key, now, dbNow, r, rows')
  {
    ReachesIff(env, rows, id, key);
    if Reaches(env, rows, id, key) && Fits(u.cost) {
      var seen := DirectRead(env, rows, id, key).session;
      ChangeIs(rows[seen.id], u, dbNow);
      ChangeShown(seen, seen.id, rows[seen.id], u, now, dbNow, r.session);
    }
    hide DirectRead, Answers, ApplyChange, ChangeRow, Shows, Updated, ShowsUpdated, SameButTimes;
  }

  /** The row holds the stored metadata with the changes on top, and nothing else changes. */
  ghost predicate MergeShows(env: Codec, rows: Table, id: string, changes: Metadata, key: Option<string>, dbNow: int,
      r: Outcome, rows': Table) {
    if !Reaches(env, rows, id, key) then Answers(env, rows, id, key, r) && rows' == rows
    else
      var c := env.uuid(id).value;
      && OnlyRow(rows, rows', c) && SameColumns(rows[c], rows'[c]) && rows'[c].updatedAt == dbNow
      && (forall k :: k in changes ==> SameAt(changes, MetadataOf(rows'[c]), k))
      && (forall k :: k !in changes ==> SameAt(MetadataOf(rows[c]), MetadataOf(rows'[c]), k))
      && r.Found? && Shows(r.session, c, rows'[c])
  }

  lemma MergeShown(env: Codec, rows: Table, id: string, changes: Metadata, key: Option<string>, dbNow: int,
      r: Outcome, rows': Table)
    requires MergeSpec(env, rows, id, changes, key, dbNow, r, rows')
    ensures MergeShows(env, rows, id, changes, key, dbNow, r, rows')
  {
    ReachesIff(env, rows, id, key);
    if Reaches(env, rows, id, key) { MergeIs(rows[env.uuid(id).value], changes, dbNow); }
    hide DirectRead, Answers, MergeMetadata, SameAt, ParseStatus;
  }

  /** The row is promoted, or nothing changes. */
  ghost predicate PromotionShows(env: Codec, rows: Table, id: string, project: string, key: string,
      r: Outcome, rows': Table) {
    if !Reaches(env, rows, id, Some(key)) then Answers(env, rows, id, Some(key), r) && rows' == rows
    else
      var c := env.uuid(id).value;
      && OnlyRow(rows, rows', c) && Promoted(rows[c], rows'[c], project)
      && r.Found? && Shows(r.session, c, rows'[c])
  }

  /** The row is tagged, or nothing changes. */
  ghost predicate TaggingShows(env: Codec, rows: Table, id: string, tags: seq<string>, key: string,
      r: Outcome, rows': Table) {
    if !Reaches(env, rows, id, Some(key)) then Answers(env, rows, id, Some(key), r) && rows' == rows
    else
      var c := env.uuid(id).value;
      && OnlyRow(rows, rows', c) && Tagged(rows[c], rows'[c], tags)
      && r.Found? && Shows(r.session, c, rows'[c])
  }

  lemma PromotionShown(env: Codec, rows: Table, id: string, project: string, key: string, dbNow: int,
      r: Outcome, rows': Table)
    requires MergeSpec(env, rows, id, Promotion(project), Some(key), dbNow, r, rows')
    ensures PromotionShows(env, rows, id, project, key, r, rows')
  {
    MergeShown(env, rows, id, Promotion(project), Some(key), dbNow, r, rows');
    hide Reaches, Answers, Shows, MergeSpec;
    if Reaches(env, rows, id, Some(key)) {
      var m := MetadataOf(rows'[env.uuid(id).value]);
      assert SameAt(Promotion(project), m, "mode") && SameAt(Promotion(project), m, "project_id");
    }
  }

  lemma TaggingShown(env: Codec, rows: Table, id: string, tags: seq<string>, key: string, dbNow: int,
      r: Outcome, rows': Table)
    requires MergeSpec(env, rows, id, Tagging(tags), Some(key), dbNow, r, rows')
    ensures TaggingShows(env, rows, id, tags, key, r, rows')
  {
    MergeShown(env, rows, id, Tagging(tags), Some(key), dbNow, r, rows');
    hide Reaches, Answers, Shows, MergeSpec;
    if Reaches(env, rows, id, Some(key)) {
      assert SameAt(Tagging(tags), MetadataOf(rows'[env.uuid(id).value]), "tags");
    }
  }

  /** The parent is stored in canonical form, an empty one as none. */
  predicate ParentStored(env: Codec, given: Option<string>, stored: Option<string>) {
    if given.None? || given.value == "" then stored.None? else stored == env.uuid(given.value)
  }

  /** The owner column holds the hash of a key that is not empty. */
  predicate OwnerStored(env: Codec, key: Option<string>, stored: Option<string>) {
    if key.None? || key.value == "" then stored.None? else stored == Some(env.hash(key.value))
  }

  /** A new row is active and empty, and the caller gets it under the ids as they were given. */
  predicate CreateShows(env: Codec, rows: Table, id: string, model: string, parent: Option<string>,
      key: Option<string>, now: int, dbNow: int, r: CreateResult, rows': Table) {
    match r
    case CreateFailed =>
      rows' == rows && (env.uuid(id).None? || (parent.Some? && parent.value != "" && env.uuid(parent.value).None?))
    case AlreadyExists =>
      && rows' == rows && env.uuid(id).Some?
      && (env.uuid(id).value in rows
          || (parent.Some? && parent.value != ""
              && env.uuid(parent.value).Some? && env.uuid(parent.value).value !in rows))
    case Created(x) =>
      && env.uuid(id).Some? && env.uuid(id).value !in rows && rows'.Keys == rows.Keys + {env.uuid(id).value}
      && (forall d :: d in rows ==> rows'[d] == rows[d])
      && var row := rows'[env.uuid(id).value];
      && row.model == x.model == model && row.status == x.status == "active"
      && row.turns == x.turns == 0 && row.cost == x.cost == None && row.metadata == x.metadata == None
      && row.createdAt == row.updatedAt == dbNow && x.createdAt == x.updatedAt == now
      && x.id == id && x.parent == parent && ParentStored(env, parent, row.parent)
      && row.owner == x.owner && OwnerStored(env, key, row.owner)
  }

  lemma CreateShown(env: Codec, rows: Table, id: string, model: string, parent: Option<string>,
      key: Option<string>, now: int, dbNow: int)
    ensures forall r, rows' :: CreateSpec(env, rows, id, model, parent, key, now, dbNow, r, rows') ==>
              CreateShows(env, rows, id, model, parent, key, now, dbNow, r, rows')
  {}

  lemma OwnerAnswer(env: Codec, s: Session, key: Option<string>)
    ensures EnforceOwner(env, s, key) == Found(s) || EnforceOwner(env, s, key) == Refused
  {}

  lemma CanonicalId(env: Codec, id: string, parent: Option<string>)
    requires SpelledCanonically(env, id, parent)
    ensures env.uuid(id) == Some(id)
  {}

  lemma DirectFound(env: Codec, rows: Table, id: string, key: Option<string>)
    ensures DirectRead(env, rows, id, key).Found? ==>
              env.uuid(id).Some? && env.uuid(id).value in rows
              && DirectRead(env, rows, id, key).session == MapRow(env.uuid(id).value, rows[env.uuid(id).value])
  {}

  lemma CachedIsLive(s: Store, id: string)
    ensures ReplyOf(s, SKey(id)).Got? ==> Cached(s, id).Some?
  {}

  lemma IndexMembers(s: Store, h: string)
    ensures MembersOf(s, OKey(h)) == MembersIn(Index(s, h))
  {}

  lemma IndexedSession(env: Codec, rows: Table, s: Store, ttl: pos, h: string, id: string)
    requires env.Sound() && Agreeing(env, rows, s, ttl)
    requires id in MembersOf(s, OKey(h)) && Readable(env, s, id).Some?
    ensures Readable(env, s, id).value.id == id && Readable(env, s, id).value.owner == Some(h)
  {
    hide ParseCached, SKey, OKey;
    IndexMembers(s, h);
    CachedEntry(env, rows, s, ttl, id);
  }

  lemma OwnedIsIndexed(env: Codec, rows: Table, s: Store, ttl: pos, h: string, id: string)
    requires env.Sound() && Agreeing(env, rows, s, ttl)
    requires Readable(env, s, id).Some? && Readable(env, s, id).value.owner == Some(h)
    ensures id in MembersOf(s, OKey(h))
  {
    hide ParseCached, SKey, OKey;
    IndexMembers(s, h);
    CachedEntry(env, rows, s, ttl, id);
    CachedIsLive(s, id);
    assert InIndex(s, id, h, Cached(s, id).value.expiry);
  }

  class SessionService {
    const env: Codec
    const ttl: pos
    const cache: RedisCache
    const repo: SessionRepository
    const manager: SessionCacheManager

    ghost predicate Valid()
      reads cache, repo
    {
      && env.Sound()
      && manager.env == env && manager.cache == cache && manager.ttl == ttl
      && Agreeing(env, repo.rows, cache.store, ttl)
    }

    constructor (env: Codec, ttl: pos)
      requires env.Sound()
      ensures Valid() && this.env == env && this.ttl == ttl
      ensures fresh(cache) && fresh(repo) && repo.rows == map[]
    {
      this.env, this.ttl := env, ttl;
      var c := new RedisCache();
      this.cache := c;
      this.repo := new SessionRepository();
      this.manager := new SessionCacheManager(env, c, ttl);
    }

    /** Time passes; any cached entry and any index may run out. */
    method Advance(d: nat)
      requires Valid()
      modifies cache
      ensures Valid() && cache.store == Tick(old(cache.store), d)
    {
      TickAgreeing(env, repo.rows, cache.store, ttl, d);
      cache.Advance(d);
    }

    /** A session or a refusal, exactly as the table alone would give it; found sessions end up cached. */
    method GetSession(id: string, key: Option<string>) returns (r: Outcome)
      requires Valid()
      modifies cache
      ensures Valid()
      ensures r == ReadThrough(env, repo.rows, old(cache.store), id, key)
      ensures Agree(r, DirectRead(env, repo.rows, id, key))
      ensures Answers(env, repo.rows, id, key, r)
      ensures r.Found? ==> r.session.id in repo.rows && env.uuid(id) == Some(r.session.id)
    {
      hide ParseCached, SKey, Agreeing, EnforceOwner, Answers;
      ghost var s0 := cache.store;
      CachedEntry(env, repo.rows, s0, ttl, id);
      ReadAgrees(env, repo.rows, s0, ttl, id, key);
      DirectReadAnswers(env, repo.rows, id, key, ReadThrough(env, repo.rows, s0, id, key));
      var ok, session := manager.Fetch(id);
      if !ok { return Failed; }
      if session.Some? {
        OwnerAnswer(env, session.value, key);
        return EnforceOwner(env, session.value, key);
      }
      assert ReplyOf(s0, SKey(id)).Missing? && cache.store == s0;
      var c := env.uuid(id);
      if c.None? { return Failed; }
      var row := repo.Get(c.value);
      if row.None? { return Absent; }
      r := EnforceOwner(env, MapRow(c.value, row.value), key);
      OwnerAnswer(env, MapRow(c.value, row.value), key);
      if r.Refused? { return; }
      RecacheAgreeing(env, repo.rows, s0, c.value, ttl);
      manager.Store(MapRow(c.value, row.value));
    }

    /**
     Creation. Its answer and the new table are those of a plain table; the cache agrees with the
     table afterwards, and reads stay transparent, exactly when the ids are spelled canonically.
     */
    method CreateSession(model: string, given: Option<string>, uuid4: string, parent: Option<string>,
        key: Option<string>,
                         now: int, dbNow: int) returns (r: CreateResult)
      requires Valid() && env.CanonicalText(uuid4)
      modifies cache, repo
      ensures var id := if given.Some? then given.value else uuid4;
              && CreateSpec(env, old(repo.rows), id, model, parent, key, now, dbNow, r, repo.rows)
              && CreateShows(env, old(repo.rows), id, model, parent, key, now, dbNow, r, repo.rows)
              && (!r.Created? || SpelledCanonically(env, id, parent) ==> Valid())
              && (r.Created? ==> (Transparent(env, repo.rows, cache.store) <==> SpelledCanonically(env, id, parent)))
    {
      hide Agreeing, CacheSession, Transparent, SpelledCanonically, CreateShows;
      var id := if given.Some? then given.value else uuid4;
      CreateShown(env, repo.rows, id, model, parent, key, now, dbNow);
      var c := env.uuid(id);
      if c.None? { return CreateFailed; }
      if parent.Some? && parent.value != "" && env.uuid(parent.value).None? { return CreateFailed; }
      var row := NewRow(env, model, parent, key, dbNow);
      ghost var rows0, s0 := repo.rows, cache.store;
      var ok := repo.Create(c.value, row);
      if !ok { return AlreadyExists; }
      var session := NewSession(env, id, model, parent, key, now);
      CreateTransparentIff(env, rows0, s0, ttl, id, model, parent, key, now, dbNow);
      if SpelledCanonically(env, id, parent) {
        CanonicalId(env, id, parent);
        CanonicalCreate(env, rows0, s0, ttl, id, model, parent, key, now, dbNow);
      }
      manager.Store(session);
      r := Created(session);
    }

    /**
     A read-modify-write under one id; answer and new row are those of a plain table. The cache
     agrees with the table afterwards, and reads stay transparent, exactly when the column holds
     the cost that was given.
     */
    method UpdateSession(id: string, u: Change, key: Option<string>, now: int, dbNow: int) returns (r: Outcome)
      requires Valid()
      modifies cache, repo
      ensures UpdateSpec(env, old(repo.rows), id, u, key, now, dbNow, r, repo.rows)
      ensures UpdateShows(env, old(repo.rows), id, u, key, now, dbNow, r, repo.rows)
      ensures !r.Found? || KeepsCost(u) ==> Valid()
      ensures r.Found? ==> (Transparent(env, repo.rows, cache.store) <==> KeepsCost(u))
    {
      hide UpdateSpec, UpdateShows, Agreeing, Transparent, KeepsCost;
      r := DoUpdate(id, u, key, now, dbNow);
      UpdateShown(env, old(repo.rows), id, u, key, now, dbNow, r, repo.rows);
    }

    /** What the lock protects: read, change, write the row, write the cache. */
    method DoUpdate(id: string, u: Change, key: Option<string>, now: int, dbNow: int) returns (r: Outcome)
      requires Valid()
      modifies cache, repo
      ensures UpdateSpec(env, old(repo.rows), id, u, key, now, dbNow, r, repo.rows)
      ensures !r.Found? || KeepsCost(u) ==> Valid()
      ensures r.Found? ==> (Transparent(env, repo.rows, cache.store) <==> KeepsCost(u))
    {
      hide Agreeing, DirectRead, CacheSession, ReadThrough, Transparent, KeepsCost, Fits, ApplyChange, ChangeRow;
      r := GetSession(id, key);
      DirectFound(env, repo.rows, id, key);
      if !r.Found? { return; }
      var session := ApplyChange(r.session, u, now);
      var c := env.uuid(id).value;
      ghost var rows0, s1, seen := repo.rows, cache.store, r.session;
      RowFacts(env, rows0, s1, ttl, c);
      ChangedRow(rows0, c, seen, u, now, dbNow);
      var ok, updated := repo.Update(c, Some(session.status), Some(session.turns), session.cost, dbNow);
      if !ok { return Failed; }
      UpdateTransparentIff(env, rows0, s1, ttl, c, seen, u, now, dbNow);
      if KeepsCost(u) { CoarseUpdate(env, rows0, s1, ttl, c, seen, u, now, dbNow); }
      manager.Store(session);
      r := Found(session);
    }

    /** Shared by promotion and tagging: merge over the stored metadata, answer with the new row. */
    method MergeInto(id: string, changes: Metadata, key: Option<string>, dbNow: int) returns (r: Outcome)
      requires Valid()
      modifies cache, repo
      ensures Valid()
      ensures MergeSpec(env, old(repo.rows), id, changes, key, dbNow, r, repo.rows)
      ensures MergeShows(env, old(repo.rows), id, changes, key, dbNow, r, repo.rows)
    {
      hide Agreeing, DirectRead, CacheSession, ReadThrough, MergeShows, Answers, Reaches;
      r := GetSession(id, key);
      DirectFound(env, repo.rows, id, key);
      if !r.Found? {
        MergeShown(env, repo.rows, id, changes, key, dbNow, r, repo.rows);
        return;
      }
      var c := env.uuid(id).value;
      ghost var rows0, s1 := repo.rows, cache.store;
      RowFacts(env, rows0, s1, ttl, c);
      var stored := repo.Get(c);
      var metadata := if stored.Some? && stored.value.metadata.Some? then stored.value.metadata.value else map[];
      var updated := repo.UpdateMetadata(c, metadata + changes, dbNow);
      ParseStatusStable(rows0[c].status);
      WriteThrough(env, rows0, s1, MapRow(c, updated.value), updated.value, ttl);
      manager.Store(MapRow(c, updated.value));
      r := Found(MapRow(c, updated.value));
      MergeShown(env, rows0, id, changes, key, dbNow, r, repo.rows);
    }

    method PromoteSession(id: string, project: string, key: string, dbNow: int) returns (r: Outcome)
      requires Valid()
      modifies cache, repo
      ensures Valid()
      ensures MergeSpec(env, old(repo.rows), id, Promotion(project), Some(key), dbNow, r, repo.rows)
      ensures PromotionShows(env, old(repo.rows), id, project, key, r, repo.rows)
    {
      hide MergeSpec, MergeShows, PromotionShows;
      r := MergeInto(id, Promotion(project), Some(key), dbNow);
      PromotionShown(env, old(repo.rows), id, project, key, dbNow, r, repo.rows);
    }

    method UpdateTags(id: string, tags: seq<string>, key: string, dbNow: int) returns (r: Outcome)
      requires Valid()
      modifies cache, repo
      ensures Valid()
      ensures MergeSpec(env, old(repo.rows), id, Tagging(tags), Some(key), dbNow, r, repo.rows)
      ensures TaggingShows(env, old(repo.rows), id, tags, key, r, repo.rows)
    {
      hide MergeSpec, MergeShows, TaggingShows;
      r := MergeInto(id, Tagging(tags), Some(key), dbNow);
      TaggingShown(env, old(repo.rows), id, tags, key, dbNow, r, repo.rows);
    }

    /**
     Deletion reaches the table exactly when the session is cached at that moment (and no other row
     names it as parent); otherwise the row stays, whatever id was asked for.
     */
    method DeleteSession(id: string) returns (r: DeleteResult)
      requires Valid()
      modifies cache, repo
      ensures Valid()
      ensures r == Deleted <==> Readable(env, old(cache.store), id).Some? && !HasChildren(old(repo.rows), id)
      ensures r == DeleteFailed <==> ReplyOf(old(cache.store), SKey(id)).WrongType?
                                     || (Readable(env, old(cache.store), id).Some? && HasChildren(old(repo.rows), id))
      ensures repo.rows == if r == Deleted then old(repo.rows) - {id} else old(repo.rows)
      ensures r == Deleted ==> id in old(repo.rows)
    {
      hide ParseCached, SKey, OKey, Agreeing, Uncache;
      ghost var rows0, s0 := repo.rows, cache.store;
      CachedEntry(env, rows0, s0, ttl, id);
      var ok, session := manager.Fetch(id);
      if !ok { return DeleteFailed; }
      var owner: Option<string> := None;
      if session.Some? {
        owner := session.value.owner;
        assert owner == rows0[id].owner;
        UncacheAgreeing(env, rows0, s0, id, ttl, rows0);
        UncacheAgreeing(env, rows0, s0, id, ttl, rows0 - {id});
        CachedIsLive(s0, id);
      } else {
        assert cache.store == s0;
        var c := env.uuid(id);
        if c.Some? {
          var row := repo.Get(c.value);
          if row.Some? { owner := row.value.owner; RowFacts(env, rows0, s0, ttl, c.value); }
        }
        MissedUncacheAgreeing(env, rows0, s0, ttl, id, owner);
      }
      var removed := manager.Remove(id, owner);
      if !removed { return NotDeleted; }
      var c := env.uuid(id);
      if c.Some? {
        var removal := repo.Delete(c.value);
        if removal.Referenced? { return DeleteFailed; }
      }
      r := Deleted;
    }

    /** Through the index: exactly the live cached sessions of the owner, each once. */
    method ListForOwner(h: string) returns (sessions: seq<Session>)
      requires Valid()
      ensures forall i, j :: 0 <= i < j < |sessions| ==> sessions[i].id != sessions[j].id
      ensures forall i :: 0 <= i < |sessions| ==>
                && sessions[i].owner == Some(h)
                && Readable(env, cache.store, sessions[i].id) == Some(sessions[i])
      ensures forall id :: Readable(env, cache.store, id).Some? && Readable(env, cache.store, id).value.owner == Some(h)
                ==> exists i :: 0 <= i < |sessions| && sessions[i].id == id
    {
      hide ParseCached, SKey, OKey, Agreeing, Readable;
      ghost var ids;
      sessions, ids := manager.ListForOwner(h);
      forall i | 0 <= i < |ids| ensures sessions[i].id == ids[i] && sessions[i].owner == Some(h) {
        IndexedSession(env, repo.rows, cache.store, ttl, h, ids[i]);
      }
      forall id | Readable(env, cache.store, id).Some? && Readable(env, cache.store, id).value.owner == Some(h)
        ensures exists i :: 0 <= i < |sessions| && sessions[i].id == id
      {
        OwnedIsIndexed(env, repo.rows, cache.store, ttl, h, id);
        var i :| 0 <= i < |ids| && ids[i] == id;
        assert sessions[i].id == id;
      }
    }
  }

  function Promotion(project: string): Metadata { map["mode" := Str("code"), "project_id" := Str(project)] }

  function Tagging(tags: seq<string>): Metadata {
    map["tags" := Arr(seq(|tags|, i requires 0 <= i < |tags| => Str(tags[i])))]
  }

  // --------------------------------------------------------------------- runs

  datatype Call =
    | Wait(d: nat)
    | Get(id: string, key: Option<string>)
    | Create(model: string, given: Option<string>, uuid4: string, parent: Option<string>, key: Option<string>,
             now: int, dbNow: int)
    | Update(id: string, u: Change, key: Option<string>, now: int, dbNow: int)
    | Promote(id: string, project: string, apiKey: string, dbNow: int)
    | Tag(id: string, tags: seq<string>, apiKey: string, dbNow: int)
    | Delete(id: string)

  datatype Answer = Waited | Read(r: Outcome) | Creation(c: CreateResult) | Deletion(d: DeleteResult)

  /** A deletion sees the row only through the cache `s`. */
  function DeleteAnswer(env: Codec, rows: Table, s: Store, id: string): DeleteResult {
    if ReplyOf(s, SKey(id)).WrongType? then DeleteFailed
    else if Readable(env, s, id).None? then NotDeleted
    else if HasChildren(rows, id) then DeleteFailed
    else Deleted
  }

  /** One call of a service that has no cache; only deletions depend on what is cached. */
  predicate PlainStep(env: Codec, rows: Table, s: Store, call: Call, a: Answer, rows': Table) {
    match call
    case Wait(_) => a == Waited && rows' == rows
    case Get(id, key) => a.Read? && Agree(a.r, DirectRead(env, rows, id, key)) && rows' == rows
    case Create(model, given, uuid4, parent, key, now, dbNow) =>
      a.Creation? && CreateSpec(env, rows, IdOf(given, uuid4), model, parent, key, now, dbNow, a.c, rows')
    case Update(id, u, key, now, dbNow) => a.Read? && UpdateSpec(env, rows, id, u, key, now, dbNow, a.r, rows')
    case Promote(id, project, key, dbNow) => a.Read?
        && MergeSpec(env, rows, id, Promotion(project), Some(key), dbNow, a.r, rows')
    case Tag(id, tags, key, dbNow) => a.Read? && MergeSpec(env, rows, id, Tagging(tags), Some(key), dbNow, a.r, rows')
    case Delete(id) =>
      && a == Deletion(DeleteAnswer(env, rows, s, id))
      && rows' == if a.d == Deleted then rows - {id} else rows
  }

  /** Such a step, column by column on the row that the id names. */
  ghost predicate StepShows(env: Codec, rows: Table, call: Call, a: Answer, rows': Table) {
    match call
    case Wait(_) => rows' == rows
    case Get(id, key) => a.Read? && Answers(env, rows, id, key, a.r) && rows' == rows
    case Create(model, given, uuid4, parent, key, now, dbNow) =>
      a.Creation? && CreateShows(env, rows, IdOf(given, uuid4), model, parent, key, now, dbNow, a.c, rows')
    case Update(id, u, key, now, dbNow) => a.Read? && UpdateShows(env, rows, id, u, key, now, dbNow, a.r, rows')
    case Promote(id, project, key, _) => a.Read? && PromotionShows(env, rows, id, project, key, a.r, rows')
    case Tag(id, tags, key, _) => a.Read? && TaggingShows(env, rows, id, tags, key, a.r, rows')
    case Delete(id) => a.Deletion? && rows' == if a.d == Deleted then rows - {id} else rows
  }

  lemma StepShown(env: Codec, rows: Table, s: Store, call: Call, a: Answer, rows': Table)
    requires PlainStep(env, rows, s, call, a, rows')
    ensures StepShows(env, rows, call, a, rows')
  {
    hide CreateSpec, UpdateSpec, MergeSpec, DirectRead, Agree;
    hide Answers, CreateShows, UpdateShows, PromotionShows, TaggingShows;
    match call
    case Get(id, key) => DirectReadAnswers(env, rows, id, key, a.r);
    case Create(model, given, uuid4, parent, key, now, dbNow) =>
      CreateShown(env, rows, IdOf(given, uuid4), model, parent, key, now, dbNow);
    case Update(id, u, key, now, dbNow) => UpdateShown(env, rows, id, u, key, now, dbNow, a.r, rows');
    case Promote(id, project, key, dbNow) => PromotionShown(env, rows, id, project, key, dbNow, a.r, rows');
    case Tag(id, tags, key, dbNow) => TaggingShown(env, rows, id, tags, key, dbNow, a.r, rows');
    case _ =>
  }

  function IdOf(given: Option<string>, uuid4: string): string { if given.Some? then given.value else uuid4 }

  /** A creation under another spelling, or an update with a finer cost, that went through. */
  ghost predicate Breaks(env: Codec, call: Call, a: Answer) {
    match call
    case Create(_, given, uuid4, parent, _, _, _) =>
      a.Creation? && a.c.Created? && !SpelledCanonically(env, IdOf(given, uuid4), parent)
    case Update(_, u, _, _, _) => a.Read? && a.r.Found? && !KeepsCost(u)
    case _ => false
  }

  /** The generated ids of the calls are printed UUIDs. */
  ghost predicate FreshIds(env: Codec, calls: seq<Call>) {
    forall i :: 0 <= i < |calls| && calls[i].Create? ==> env.CanonicalText(calls[i].uuid4)
  }

  /**
   Any run of calls, expiries in between: the answers and tables are those of a service without a
   cache, step by step, up to the first call that breaks transparency, if there is one. After that
   call reads are not transparent; without one, cache, indexes and table agree at the end.
   */
  method Run(service: SessionService, calls: seq<Call>)
    returns (answers: seq<Answer>, ghost tables: seq<Table>, ghost stores: seq<Store>)
    requires service.Valid() && FreshIds(service.env, calls)
    modifies service.cache, service.repo
    ensures var n := |answers|; n <= |calls| && |tables| == |stores| == n + 1
    ensures tables[0] == old(service.repo.rows) && tables[|answers|] == service.repo.rows
    ensures stores[0] == old(service.cache.store) && stores[|answers|] == service.cache.store
    ensures forall i :: 0 <= i < |answers| ==>
              PlainStep(service.env, tables[i], stores[i], calls[i], answers[i], tables[i + 1])
    ensures forall i :: 0 <= i < |answers| - 1 ==> !Breaks(service.env, calls[i], answers[i])
    ensures var n := |answers|;
            if n > 0 && Breaks(service.env, calls[n - 1], answers[n - 1])
            then !Transparent(service.env, service.repo.rows, service.cache.store)
            else n == |calls| && service.Valid()
  {
    hide Agree, CreateSpec, UpdateSpec, MergeSpec, DirectRead, Agreeing, Transparent, Breaks, PlainStep;
    answers, tables, stores := [], [service.repo.rows], [service.cache.store];
    for i := 0 to |calls|
      invariant service.Valid() && |answers| == i && |tables| == |stores| == i + 1
      invariant tables[0] == old(service.repo.rows) && tables[i] == service.repo.rows
      invariant stores[0] == old(service.cache.store) && stores[i] == service.cache.store
      invariant forall k :: 0 <= k < i ==>
                  PlainStep(service.env, tables[k], stores[k], calls[k], answers[k], tables[k + 1])
      invariant forall k :: 0 <= k < i ==> !Breaks(service.env, calls[k], answers[k])
    {
      var a, broken := Serve(service, calls[i]);
      answers, tables, stores := answers + [a], tables + [service.repo.rows], stores + [service.cache.store];
      if broken { return; }
    }
  }

  /** `broken` is computed from the spelling of the ids and the precision of the cost. */
  method Serve(service: SessionService, call: Call) returns (a: Answer, broken: bool)
    requires service.Valid() && (call.Create? ==> service.env.CanonicalText(call.uuid4))
    modifies service.cache, service.repo
    ensures PlainStep(service.env, old(service.repo.rows), old(service.cache.store), call, a, service.repo.rows)
    ensures broken <==> Breaks(service.env, call, a)
    ensures if broken then !Transparent(service.env, service.repo.rows, service.cache.store) else service.Valid()
  {
    hide Agree, CreateSpec, UpdateSpec, MergeSpec, DirectRead, Agreeing, Transparent;
    hide Answers, CreateShows, UpdateShows, PromotionShows, TaggingShows;
    broken := false;
    match call
    case Wait(d) => service.Advance(d); a := Waited;
    case Get(id, key) => var r := service.GetSession(id, key); a := Read(r);
    case Create(model, given, uuid4, parent, key, now, dbNow) =>
      var c := service.CreateSession(model, given, uuid4, parent, key, now, dbNow);
      a := Creation(c);
      var id := IdOf(given, uuid4);
      broken := c.Created? && !(service.env.uuid(id) == Some(id)
                                && (parent.Some? ==> service.env.uuid(parent.value) == parent));
    case Update(id, u, key, now, dbNow) =>
      var r := service.UpdateSession(id, u, key, now, dbNow);
      a := Read(r);
      broken := r.Found? && !KeepsCost(u);
    case Promote(id, project, key, dbNow) => var r := service.PromoteSession(id, project, key, dbNow); a := Read(r);
    case Tag(id, tags, key, dbNow) => var r := service.UpdateTags(id, tags, key, dbNow); a := Read(r);
    case Delete(id) => var d := service.DeleteSession(id); a := Deletion(d);
  }

  lemma CreateOnEmpty(env: Codec, id: string)
    requires env.CanonicalText(id)
    ensures SpelledCanonically(env, id, None)
    ensures forall r, rows' :: CreateSpec(env, map[], id, "sonnet", None, None, 0, 0, r, rows') ==>
            id in rows' && r.Created?
  {}

  /** One TTL later nothing that is cached now can be read. */
  lemma AllExpire(env: Codec, rows: Table, s: Store, ttl: pos, id: string)
    requires Agreeing(env, rows, s, ttl) && !IndexLike(id)
    ensures ReplyOf(Tick(s, ttl), SKey(id)).Missing? && Readable(env, Tick(s, ttl), id).None?
  {
    if Cached(s, id).Some? { assert EntryOk(env, rows, s, ttl, id, Cached(s, id).value); }
  }

  /** A session that is created, runs out of the cache and is deleted: nothing is deleted. */
  method DeletionMissesRow(env: Codec, id: string, ttl: pos) returns (service: SessionService, d: DeleteResult)
    requires env.Sound() && env.CanonicalText(id)
    ensures d == NotDeleted && id in service.repo.rows && service.Valid()
  {
    hide Agreeing, CreateSpec, CreateShows, Transparent, ReadThrough, CacheSession;
    service := new SessionService(env, ttl);
    CreateOnEmpty(env, id);
    CanonicalNotIndexLike(env, id);
    var c := service.CreateSession("sonnet", Some(id), id, None, None, 0, 0);
    AllExpire(env, service.repo.rows, service.cache.store, ttl, id);
    service.Advance(ttl);
    d := service.DeleteSession(id);
  }
}
