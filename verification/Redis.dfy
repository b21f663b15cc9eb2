/**
 The shared Redis store behind every service: string keys holding JSON documents or sets of
 strings, each with an optional expiry, and the adapter class whose methods change it.
 */
module Redis {
  import opened Common

  /** Times to live are positive numbers of clock ticks. */
  type pos = t: int | t > 0 witness 1

  datatype Value = Doc(doc: Json) | Members(members: set<string>)

  datatype Entry = Entry(value: Value, expiry: Option<int>)

  /** `entries` may still hold expired entries; `Live` is what a client can see. */
  datatype Store = Store(entries: map<string, Entry>, now: int)

  function Live(s: Store, key: string): Option<Entry> {
    if key in s.entries && (s.entries[key].expiry.None? || s.now < s.entries[key].expiry.value)
    then Some(s.entries[key]) else None
  }

  function MembersOf(s: Store, key: string): set<string> {
    match Live(s, key)
    case Some(Entry(Members(ms), _)) => ms
    case _ => {}
  }

  function Put(s: Store, key: string, v: Value, ttl: Option<pos>): (r: Store)
    ensures r.now == s.now
    ensures forall k :: k != key ==> Live(r, k) == Live(s, k)
    ensures Live(r, key) == Some(Entry(v, if ttl.Some? then Some(s.now + ttl.value) else None))
  {
    s.(entries := s.entries[key := Entry(v, if ttl.Some? then Some(s.now + ttl.value) else None)])
  }

  function Drop(s: Store, key: string): (r: Store)
    ensures r.now == s.now
    ensures forall k :: Live(r, k) == if k == key then None else Live(s, k)
  {
    s.(entries := s.entries - {key})
  }

  /** SADD: a new set has no expiry, an existing one keeps its own; a document is refused. */
  function AddMember(s: Store, key: string, m: string): (r: Store)
    ensures r.now == s.now
    ensures forall k :: k != key ==> Live(r, k) == Live(s, k)
    ensures Live(s, key).None? ==> Live(r, key) == Some(Entry(Members({m}), None))
    ensures Live(s, key).Some? && Live(s, key).value.value.Members? ==>
              Live(r, key) == Some(Entry(Members(MembersOf(s, key) + {m}), Live(s, key).value.expiry))
  {
    match Live(s, key)
    case None => Put(s, key, Members({m}), None)
    case Some(Entry(Members(ms), x)) => s.(entries := s.entries[key := Entry(Members(ms + {m}), x)])
    case Some(_) => s
  }

  /** SREM: the key goes away with its last member. */
  function RemoveMember(s: Store, key: string, m: string): (r: Store)
    ensures r.now == s.now
    ensures forall k :: k != key ==> Live(r, k) == Live(s, k)
    ensures MembersOf(r, key) == MembersOf(s, key) - {m}
    ensures Live(r, key).Some? ==> Live(s, key).Some? && Live(r, key).value.expiry == Live(s, key).value.expiry
    ensures Live(r, key).Some? ==> Live(r, key).value.value.Members? == Live(s, key).value.value.Members?
  {
    match Live(s, key)
    case Some(Entry(Members(ms), x)) =>
      if ms - {m} == {} then Drop(s, key)
      else s.(entries := s.entries[key := Entry(Members(ms - {m}), x)])
    case _ => s
  }

  function SetExpiry(s: Store, key: string, ttl: pos): (r: Store)
    ensures r.now == s.now
    ensures forall k :: k != key ==> Live(r, k) == Live(s, k)
    ensures Live(s, key).None? ==> Live(r, key).None?
    ensures Live(s, key).Some? ==> Live(r, key) == Some(Entry(Live(s, key).value.value, Some(s.now + ttl)))
  {
    if Live(s, key).Some? then s.(entries := s.entries[key := Live(s, key).value.(expiry := Some(s.now + ttl))]) else s
  }

  /** Time passes: what is seen later was seen before, unchanged. */
  function Tick(s: Store, d: nat): (r: Store)
    ensures r.now == s.now + d
    ensures forall k :: Live(r, k) == (if Live(s, k).Some?
            && (Live(s, k).value.expiry.None? || s.now + d < Live(s, k).value.expiry.value)
                                       then Live(s, k) else None)
  {
    s.(now := s.now + d)
  }

  /** SET NX EX and its compare-and-delete release, on the key of one lock. */
  function TakeLock(s: Store, key: string, token: string, ttl: pos): Store {
    if Live(s, key).Some? then s else Put(s, key, Doc(Str(token)), Some(ttl))
  }

  function FreeLock(s: Store, key: string, token: string): Store {
    if Live(s, key).Some? && Live(s, key).value.value == Doc(Str(token)) then Drop(s, key) else s
  }

  /** A released lock is gone only for its own holder, and a held one cannot be taken. */
  lemma LockRoundTrip(s: Store, key: string, token: string, other: string, ttl: pos)
    requires token != other
    ensures Live(s, key).Some? ==> TakeLock(s, key, token, ttl) == s
    ensures Live(s, key).None? ==>
              var t := TakeLock(s, key, token, ttl);
              && TakeLock(t, key, other, ttl) == t
              && FreeLock(t, key, other) == t
              && (forall k :: Live(FreeLock(t, key, token), k) == Live(s, k))
  {}

  /** What a JSON read can answer; reading a set as a document is an error of the server. */
  datatype Reply = Missing | Got(doc: Json) | WrongType

  function ReplyOf(s: Store, key: string): Reply {
    match Live(s, key)
    case None => Missing
    case Some(Entry(Doc(j), _)) => Got(j)
    case Some(_) => WrongType
  }

  /** The adapter; each method is one atomic server command. */
  class RedisCache {
    var store: Store

    constructor ()
      ensures store == Store(map[], 0)
    {
      store := Store(map[], 0);
    }

    method GetJson(key: string) returns (r: Reply)
      ensures r == ReplyOf(store, key)
    {
      r := ReplyOf(store, key);
    }

    /** Several documents in one command; missing keys and sets answer `None`. */
    method GetManyJson(keys: seq<string>) returns (rows: seq<Option<Json>>)
      ensures |rows| == |keys|
      ensures forall i :: 0 <= i < |keys| ==>
                rows[i] == (if ReplyOf(store, keys[i]).Got? then Some(ReplyOf(store, keys[i]).doc) else None)
    {
      rows := [];
      for i := 0 to |keys|
        invariant |rows| == i
        invariant forall k :: 0 <= k < i ==>
                    rows[k] == (if ReplyOf(store, keys[k]).Got? then Some(ReplyOf(store, keys[k]).doc) else None)
      {
        var r := ReplyOf(store, keys[i]);
        rows := rows + [if r.Got? then Some(r.doc) else None];
      }
    }

    method SetJson(key: string, doc: Json, ttl: Option<pos>)
      modifies this
      ensures store == Put(old(store), key, Doc(doc), ttl)
    {
      store := Put(store, key, Doc(doc), ttl);
    }

    method Delete(key: string) returns (removed: bool)
      modifies this
      ensures removed == Live(old(store), key).Some?
      ensures store == Drop(old(store), key)
    {
      removed := Live(store, key).Some?;
      store := Drop(store, key);
    }

    method Exists(key: string) returns (found: bool)
      ensures found == Live(store, key).Some?
    {
      found := Live(store, key).Some?;
    }

    method AddToSet(key: string, m: string)
      modifies this
      ensures store == AddMember(old(store), key, m)
    {
      store := AddMember(store, key, m);
    }

    method RemoveFromSet(key: string, m: string)
      modifies this
      ensures store == RemoveMember(old(store), key, m)
    {
      store := RemoveMember(store, key, m);
    }

    method SetMembers(key: string) returns (ms: set<string>)
      ensures ms == MembersOf(store, key)
    {
      ms := MembersOf(store, key);
    }

    method Expire(key: string, ttl: pos)
      modifies this
      ensures store == SetExpiry(old(store), key, ttl)
    {
      store := SetExpiry(store, key, ttl);
    }

    method AcquireLock(key: string, ttl: pos, token: string) returns (value: Option<string>)
      modifies this
      ensures store == TakeLock(old(store), "lock:" + key, token, ttl)
      ensures value == (if Live(old(store), "lock:" + key).None? then Some(token) else None)
      ensures value.Some? ==> ReplyOf(store, "lock:" + key) == Got(Str(token))
                              && Live(store, "lock:" + key).value.expiry == Some(store.now + ttl)
      ensures value.None? ==> store == old(store)
    {
      value := if Live(store, "lock:" + key).None? then Some(token) else None;
      store := TakeLock(store, "lock:" + key, token, ttl);
    }

    method ReleaseLock(key: string, value: string) returns (released: bool)
      modifies this
      ensures store == FreeLock(old(store), "lock:" + key, value)
      ensures released <==> ReplyOf(old(store), "lock:" + key) == Got(Str(value))
      ensures released ==> ReplyOf(store, "lock:" + key).Missing?
      ensures !released ==> store == old(store)
      ensures forall k :: k != "lock:" + key ==> Live(store, k) == Live(old(store), k)
    {
      released := ReplyOf(store, "lock:" + key) == Got(Str(value));
      store := FreeLock(store, "lock:" + key, value);
    }

    /** The environment: time passes between commands. */
    method Advance(d: nat)
      modifies this
      ensures store == Tick(old(store), d)
    {
      store := Tick(store, d);
    }
  }
}
