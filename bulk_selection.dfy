/** The "remove selected" loop of the client list and the billing-plan list. The grid's selection
    holds row positions; for each of them in turn the row is read from the list as it was when the
    handler started, the backend deletes it by id, and the shown list is set to that same starting
    list without the deleted id. A single try around the loop means the first failure ends it. */
module BulkSelection {

  /** `rows.filter(i => i.id != id)` */
  function Without<T(!new)>(rows: seq<T>, idOf: T -> int, id: int): (r: seq<T>)
    ensures |r| <= |rows|
    ensures forall x :: x in r <==> x in rows && idOf(x) != id
  {
    if rows == [] then []
    else
      var last := rows[|rows| - 1];
      Without(rows[..|rows| - 1], idOf, id) + (if idOf(last) != id then [last] else [])
  }

  /** Processing position p succeeds: it names a row of the starting list (reading `.id` of
      `undefined` throws otherwise) and the backend deletes that row's id. */
  predicate Deletes<T>(rows: seq<T>, idOf: T -> int, deleteOk: int -> bool, p: int) {
    0 <= p < |rows| && deleteOk(idOf(rows[p]))
  }

  /** The loop got through exactly the first `done` positions: each of them succeeded, and the
      next one, if any, failed. */
  predicate StopsAtFirstFailure<T>(rows: seq<T>, idOf: T -> int, deleteOk: int -> bool, positions: seq<int>, done: nat) {
    && done <= |positions|
    && (forall k :: 0 <= k < done ==> Deletes(rows, idOf, deleteOk, positions[k]))
    && (done < |positions| ==> !Deletes(rows, idOf, deleteOk, positions[done]))
  }

  /** The positions the loop started on: those it got through and the one that failed. */
  function Attempted(positions: seq<int>, done: nat): (r: seq<int>)
    requires done <= |positions|
    ensures |r| == if done < |positions| then done + 1 else done
  {
    if done < |positions| then positions[..done + 1] else positions
  }

  /** The ids sent to the delete endpoint for these positions, in order; a position outside the
      list throws before any request. */
  function DeletedIds<T>(rows: seq<T>, idOf: T -> int, positions: seq<int>): (ids: seq<int>)
    ensures |ids| <= |positions|
  {
    if positions == [] then []
    else
      var p := positions[|positions| - 1];
      DeletedIds(rows, idOf, positions[..|positions| - 1]) + (if 0 <= p < |rows| then [idOf(rows[p])] else [])
  }

  /** The shown list after the loop got through `done` positions: the starting list without the
      id of the last row deleted; every earlier deletion is overwritten by the later update. */
  function AfterRemove<T(!new)>(rows: seq<T>, idOf: T -> int, positions: seq<int>, done: nat): seq<T>
    requires done <= |positions|
  {
    if done == 0 || !(0 <= positions[done - 1] < |rows|) then rows
    else Without(rows, idOf, idOf(rows[positions[done - 1]]))
  }

  /** One iteration: read the row's id (`.id` of `undefined` throws when the position is out of
      range) and ask the backend to delete it. */
  method DeleteOne<T>(rows: seq<T>, idOf: T -> int, p: int, deleteOk: int -> bool) returns (ok: bool, sent: seq<int>)
    ensures ok == Deletes(rows, idOf, deleteOk, p)
    ensures sent == if 0 <= p < |rows| then [idOf(rows[p])] else []
  {
    if !(0 <= p < |rows|) {
      return false, [];
    }
    var id := idOf(rows[p]);
    sent := [id];
    ok := deleteOk(id);
  }

  lemma DeletedIdsStep<T>(rows: seq<T>, idOf: T -> int, positions: seq<int>, n: nat)
    requires n < |positions|
    ensures DeletedIds(rows, idOf, positions[..n + 1])
            == DeletedIds(rows, idOf, positions[..n])
               + (if 0 <= positions[n] < |rows| then [idOf(rows[positions[n]])] else [])
  {
    assert positions[..n + 1][..n] == positions[..n];
  }

  /** The loop itself, on the starting list and the selected positions: it returns how many
      positions it got through, the list it shows afterwards and the ids it asked to delete. */
  method RemoveSelected<T(!new)>(rows: seq<T>, idOf: T -> int, positions: seq<int>, deleteOk: int -> bool)
    returns (done: nat, shown: seq<T>, deleted: seq<int>)
    ensures StopsAtFirstFailure(rows, idOf, deleteOk, positions, done)
    ensures shown == AfterRemove(rows, idOf, positions, done)
    ensures deleted == DeletedIds(rows, idOf, Attempted(positions, done))
  {
    done, shown, deleted := 0, rows, [];
    while done < |positions|
      invariant done <= |positions|
      invariant forall k :: 0 <= k < done ==> Deletes(rows, idOf, deleteOk, positions[k])
      invariant shown == AfterRemove(rows, idOf, positions, done)
      invariant deleted == DeletedIds(rows, idOf, positions[..done])
    {
      var p := positions[done];
      var ok, sent := DeleteOne(rows, idOf, p, deleteOk);
      DeletedIdsStep(rows, idOf, positions, done);
      deleted := deleted + sent;
      if !ok {
        return;
      }
      shown := Without(rows, idOf, idOf(rows[p]));
      done := done + 1;
    }
    assert positions[..done] == positions;
  }

  /** After a run that deleted the rows at two or more positions, each earlier-deleted row whose id
      differs from the last one is still shown, although the backend deleted it. */
  lemma EarlierDeletionsStayShown<T(!new)>(rows: seq<T>, idOf: T -> int, deleteOk: int -> bool, positions: seq<int>, done: nat, j: nat)
    requires StopsAtFirstFailure(rows, idOf, deleteOk, positions, done)
    requires j + 1 < done
    requires idOf(rows[positions[j]]) != idOf(rows[positions[done - 1]])
    ensures deleteOk(idOf(rows[positions[j]]))
    ensures rows[positions[j]] in AfterRemove(rows, idOf, positions, done)
  {
    assert Deletes(rows, idOf, deleteOk, positions[j]);
    assert Deletes(rows, idOf, deleteOk, positions[done - 1]);
  }

  /** The last deleted id is gone from the list, and every row with another id is still there. */
  lemma LastDeletionHidden<T(!new)>(rows: seq<T>, idOf: T -> int, deleteOk: int -> bool, positions: seq<int>, done: nat)
    requires StopsAtFirstFailure(rows, idOf, deleteOk, positions, done)
    requires done > 0
    ensures 0 <= positions[done - 1] < |rows|
    ensures forall x :: x in AfterRemove(rows, idOf, positions, done) <==>
                        x in rows && idOf(x) != idOf(rows[positions[done - 1]])
  {
    assert Deletes(rows, idOf, deleteOk, positions[done - 1]);
  }
}
