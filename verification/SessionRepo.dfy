/** The sessions table: rows under canonical ids, changed by atomic statements. */
module SessionRepo {
  import opened Common
  import opened Costs
  import opened SessionModel

  /** The self-referencing foreign key: a parent must exist, or be the row itself. */
  predicate ParentExists(rows: Table, id: string, row: Row) {
    row.parent.Some? ==> row.parent.value in rows || row.parent.value == id
  }

  predicate HasChildren(rows: Table, id: string) {
    exists c :: c in rows && c != id && rows[c].parent == Some(id)
  }

  /** How a deletion ends. */
  datatype Removal = Removed | NoRow | Referenced

  class SessionRepository {
    var rows: Table

    constructor ()
      ensures rows == map[]
    {
      rows := map[];
    }

    /** INSERT; `false` is the IntegrityError of the primary or the foreign key. */
    method Create(id: string, row: Row) returns (ok: bool)
      modifies this
      ensures ok <==> id !in old(rows) && ParentExists(old(rows), id, row)
      ensures rows == if ok then old(rows)[id := row] else old(rows)
    {
      ok := id !in rows && ParentExists(rows, id, row);
      if ok { rows := rows[id := row]; }
    }

    method Get(id: string) returns (row: Option<Row>)
      ensures row == if id in rows then Some(rows[id]) else None
    {
      row := if id in rows then Some(rows[id]) else None;
    }

    /**
     UPDATE ... RETURNING; arguments that are `None` leave their column alone, a cost is rounded to
     its column. `ok` is false for the error of a cost that does not fit.
     */
    method Update(id: string, status: Option<string>, turns: Option<int>, cost: Option<real>, now: int)
      returns (ok: bool, updated: Option<Row>)
      modifies this
      ensures ok <==> id !in old(rows) || Fits(cost)
      ensures updated.Some? <==> id in old(rows) && ok
      ensures updated.None? ==> rows == old(rows)
      ensures updated.Some? ==>
                && rows == old(rows)[id := updated.value]
                && updated.value == old(rows)[id].(
                     status := if status.Some? then status.value else old(rows)[id].status,
                     turns := if turns.Some? then turns.value else old(rows)[id].turns,
                     cost := if cost.Some? then Rounded(cost) else old(rows)[id].cost,
                     updatedAt := now)
    {
      if id !in rows { return true, None; }
      if !Fits(cost) { return false, None; }
      var row := rows[id].(updatedAt := now);
      if status.Some? { row := row.(status := status.value); }
      if turns.Some? { row := row.(turns := turns.value); }
      if cost.Some? { row := row.(cost := Rounded(cost)); }
      rows := rows[id := row];
      ok, updated := true, Some(row);
    }

    method UpdateMetadata(id: string, metadata: Metadata, now: int) returns (updated: Option<Row>)
      modifies this
      ensures updated.Some? <==> id in old(rows)
      ensures updated.None? ==> rows == old(rows)
      ensures updated.Some? ==>
                && rows == old(rows)[id := updated.value]
                && updated.value == old(rows)[id].(metadata := Some(metadata), updatedAt := now)
    {
      if id !in rows { return None; }
      var row := rows[id].(metadata := Some(metadata), updatedAt := now);
      rows := rows[id := row];
      updated := Some(row);
    }

    /** DELETE; a missing row is no error, a row that others name as parent is an IntegrityError. */
    method Delete(id: string) returns (r: Removal)
      modifies this
      ensures r == (if id !in old(rows) then NoRow else if HasChildren(old(rows), id) then Referenced else Removed)
      ensures rows == if r.Removed? then old(rows) - {id} else old(rows)
    {
      if id !in rows { return NoRow; }
      if HasChildren(rows, id) { return Referenced; }
      rows := rows - {id};
      r := Removed;
    }
  }
}
