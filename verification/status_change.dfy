/**
 The status-change transition (`changeStatus`) as a step on an abstract order
 store: a map from order id to order document.
 */
module StatusChange {
  import opened Wrappers
  import opened OrderStatus
  import opened OrderModel

  /** The flash notice the request ends with. */
  datatype Outcome =
    | Denied        // no `orders_view` permission
    | InvalidStatus // the requested status is not a table value
    | NotModified   // no live order with that id, or it already had that status
    | Updated       // the status was written

  datatype ChangeResult = ChangeResult(store: map<string, Order>, outcome: Outcome)

  /** The result of the store's `updateOne`: the new store and its modified count. */
  datatype UpdateResult = UpdateResult(store: map<string, Order>, modifiedCount: nat)

  /**
   `updateOne({_id: id, deleted: false}, {status})`: sets the status of the
   matching live order, counting a modification only when the value differs.
   */
  function UpdateOne(store: map<string, Order>, id: string, status: string): (r: UpdateResult)
    ensures r.store.Keys == store.Keys
    ensures forall k :: k in store && k != id ==> r.store[k] == store[k]
    ensures id in store && !store[id].deleted ==> r.store[id] == store[id].(status := Str(status))
    ensures !(id in store && !store[id].deleted) ==> r.store == store
    ensures r.modifiedCount <= 1
    ensures r.modifiedCount == 1 <==> r.store != store
    ensures WellKeyed(store) ==> WellKeyed(r.store)
  {
    if id in store && !store[id].deleted then
      var updated := store[id].(status := Str(status));
      assert store[id := updated][id] == updated;
      UpdateResult(store[id := updated], if store[id].status == Str(status) then 0 else 1)
    else
      UpdateResult(store, 0)
  }

  /** Whether the request body carries one of the five status values. */
  predicate IsValidRequestStatus(status: Option<string>) {
    status.Some? && IsStatusValue(status.value)
  }

  /**
   `changeStatus`: the permission gate, then validation of the requested
   status, then the update; the outcome reports whether the store changed.
   */
  function ChangeStatus(role: Role, store: map<string, Order>, id: string, status: Option<string>): (r: ChangeResult)
    ensures !HasOrderPermission(role) ==> r == ChangeResult(store, Denied)
    ensures HasOrderPermission(role) && !(status.Some? && status.value in StatusValues) ==>
      r == ChangeResult(store, InvalidStatus)
    ensures r.outcome == Denied <==> !HasOrderPermission(role)
    ensures r.outcome == InvalidStatus <==>
      HasOrderPermission(role) && !(status.Some? && status.value in StatusValues)
    ensures r.outcome == NotModified <==>
      && HasOrderPermission(role) && status.Some? && status.value in StatusValues
      && !(id in store && !store[id].deleted && store[id].status != Str(status.value))
    ensures r.store.Keys == store.Keys
    ensures forall k :: k in store && k != id ==> r.store[k] == store[k]
    ensures id in store ==> r.store[id].(status := store[id].status) == store[id]
    ensures (HasOrderPermission(role) && status.Some? && status.value in StatusValues &&
             id in store && !store[id].deleted) ==> r.store[id].status == Str(status.value)
    ensures r.outcome == Updated <==>
      && HasOrderPermission(role) && status.Some? && status.value in StatusValues
      && id in store && !store[id].deleted && store[id].status != Str(status.value)
    ensures r.outcome == Updated <==> r.store != store
    ensures WellKeyed(store) ==> WellKeyed(r.store)
  {
    IsStatusValueIsTable(status.GetOr(""));
    if !HasOrderPermission(role) then ChangeResult(store, Denied)
    else if !IsValidRequestStatus(status) then ChangeResult(store, InvalidStatus)
    else
      var result := UpdateOne(store, id, status.value);
      ChangeResult(result.store, if result.modifiedCount == 0 then NotModified else Updated)
  }

  /** Repeating a status change writes nothing and reports no modification. */
  lemma ChangeStatusIdempotent(role: Role, store: map<string, Order>, id: string, status: Option<string>)
    requires ChangeStatus(role, store, id, status).outcome != Denied
    requires ChangeStatus(role, store, id, status).outcome != InvalidStatus
    ensures var first := ChangeStatus(role, store, id, status);
            var second := ChangeStatus(role, first.store, id, status);
            second == ChangeResult(first.store, NotModified)
  {
  }
}
