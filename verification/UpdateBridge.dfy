/**
 The concurrent model of `update_session` keeps the columns and the lock key that the update
 touches; here they are related to the session rows and the shared store of the other models.
 */
module UpdateBridge {
  import opened Common
  import opened Costs
  import opened Redis
  import L = LockedUpdates
  import M = SessionModel

  function StatusOf(text: string): L.Status {
    var known := M.ParseStatus(text);
    if known == "completed" then L.Completed else if known == "error" then L.Error else L.Active
  }

  /** The columns of a row that an update may change. */
  function Columns(row: M.Row): L.Row { L.Row(StatusOf(row.status), row.turns, row.cost) }

  function UpdateOf(u: M.Change): L.Update {
    L.Update(if u.status.Some? then Some(StatusOf(u.status.value)) else None, u.turns, u.cost, u.increment)
  }

  /** One update of a stored row is the same update in both models. */
  lemma UpdateProjects(row: M.Row, u: M.Change, dbNow: int)
    ensures Columns(M.ChangeRow(row, u, dbNow)) ==
            L.SqlUpdate(Columns(row), L.Apply(UpdateOf(u), Columns(row))).(
              cost := if u.cost.Some? then Rounded(u.cost) else row.cost)
    ensures Storable(row.cost) ==>
              Columns(M.ChangeRow(row, u, dbNow)) == L.SqlUpdate(Columns(row), L.Apply(UpdateOf(u), Columns(row)))
  {
    M.ParseStatusStable(row.status);
    hide M.ParseStatus, Round;
  }

  /** The lock of the step system as the shared store holds it; `text` prints a token. */
  function LockStore(s: L.State, key: string, text: nat -> string): Store {
    Store(if s.lock.Some? then map[key := Entry(Doc(Str(text(s.lock.value.token))), Some(s.lock.value.expiry))]
        else map[],
          s.now)
  }

  lemma HeldProjects(s: L.State, key: string, text: nat -> string)
    ensures L.LockHeld(s) <==> Live(LockStore(s, key, text), key).Some?
  {}

  /** An acquisition is possible exactly if SET NX EX succeeds, and leaves the same lock. */
  lemma AcquireProjects(s: L.State, c: nat, u: L.Update, key: string, text: nat -> string)
    requires c !in s.clients && s.ttl > 0
    ensures L.Enabled(s, L.Acquire(c, u)) <==> Live(LockStore(s, key, text), key).None?
    ensures L.Enabled(s, L.Acquire(c, u)) ==>
              forall k :: Live(LockStore(L.Do(s, L.Acquire(c, u)), key, text), k) ==
                          Live(TakeLock(LockStore(s, key, text), key, text(s.nextToken), s.ttl), k)
  {
    HeldProjects(s, key, text);
  }

  /** A release is the guarded deletion, as long as different tokens print differently. */
  lemma ReleaseProjects(s: L.State, c: nat, key: string, text: nat -> string)
    requires L.Enabled(s, L.Release(c)) && forall a: nat, b: nat :: text(a) == text(b) ==> a == b
    ensures forall k :: Live(LockStore(L.Do(s, L.Release(c)), key, text), k) ==
                        Live(FreeLock(LockStore(s, key, text), key, text(s.clients[c].token)), k)
  {
    HeldProjects(s, key, text);
  }
}
