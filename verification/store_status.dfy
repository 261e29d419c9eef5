/**
 * `updateStoreOrderStatus` (src/controllers/orders.seller.controller.js):
 * a seller moves their store's sub-order one step along
 * pending -> confirmed -> prepared, and the parent order's status follows
 * once every store agrees.
 */
module StoreStatusMachine {
  import opened Common
  import opened Orders

  /** The transition table: pending may become confirmed, confirmed may become prepared. */
  predicate AllowedTransition(from: Status, to: Status) {
    (from == Pending && to == Confirmed) || (from == Confirmed && to == Prepared)
  }

  /** Position along the seller-driven path. */
  function Rank(s: Status): int {
    match s
    case Pending => 0
    case Confirmed => 1
    case Prepared => 2
    case _ => -1
  }

  /** The requested status, when it is one of the two a seller may set. */
  function ParseTarget(status: string): (r: Option<Status>)
    ensures r.Some? <==> status == "confirmed" || status == "prepared"
    ensures r.Some? ==> StatusName(r.value) == status && (r.value == Confirmed || r.value == Prepared)
  {
    if status == "confirmed" then Some(Confirmed)
    else if status == "prepared" then Some(Prepared)
    else None
  }

  /** The first store with this id that belongs to `sellerEmail`, or `|stores|`. */
  function OwnedStore(stores: seq<Store>, storeId: Id, sellerEmail: string): (i: nat)
    ensures i <= |stores|
    ensures i < |stores| ==> stores[i].storeId == storeId && stores[i].storeEmail == sellerEmail
    ensures forall k :: 0 <= k < i ==> !(stores[k].storeId == storeId && stores[k].storeEmail == sellerEmail)
  {
    FirstIndex(stores, (s: Store) => s.storeId == storeId && s.storeEmail == sellerEmail)
  }

  predicate AllAt(stores: seq<Store>, s: Status) {
    forall k :: 0 <= k < |stores| ==> stores[k].storeOrderStatus == s
  }

  /** The parent status after a store update: prepared if all stores are, else confirmed if all are, else as before. */
  function RollUp(stores: seq<Store>, current: Status): Status {
    if AllAt(stores, Prepared) then Prepared
    else if AllAt(stores, Confirmed) then Confirmed
    else current
  }

  ghost predicate DistinctStoreIds(stores: seq<Store>) {
    forall k, m :: 0 <= k < m < |stores| ==> stores[k].storeId != stores[m].storeId
  }

  /**
   * The order document after the request, or the failure sent back (no
   * write). The positional update `stores.$` writes to the first store whose
   * id matches, which is the owner check's store whenever store ids are
   * distinct.
   */
  function UpdateStoreOrderStatus(stored: Option<Order>, storeId: Id, status: string,
                                  sellerEmail: string, now: Timestamp): (r: Result<Order>)
    ensures storeId == "" || status == "" ==>
              r == Err(Failure(400, "Store ID and status are required"))
    ensures storeId != "" && status != "" && ParseTarget(status).None? ==>
              r == Err(Failure(400, "Invalid status. Only 'confirmed' and 'prepared' are allowed."))
    ensures storeId != "" && ParseTarget(status).Some? && stored.None? ==>
              r == Err(Failure(404, "Order not found"))
    ensures storeId != "" && ParseTarget(status).Some? && stored.Some? &&
            OwnedStore(stored.value.stores, storeId, sellerEmail) == |stored.value.stores| ==>
              r == Err(Failure(403, "You are not authorized to update this store order"))
    ensures r.Ok? ==>
              && stored.Some? && ParseTarget(status).Some?
              && var o, target := stored.value, ParseTarget(status).value;
                 var owned := OwnedStore(o.stores, storeId, sellerEmail);
                 var j := FindStore(o.stores, storeId);
                 && owned < |o.stores|
                 && AllowedTransition(o.stores[owned].storeOrderStatus, target)
                 && j < |o.stores|
                 && r.value.stores == o.stores[j := o.stores[j].(storeOrderStatus := target, updatedAt := Some(now))]
                 && r.value.orderStatus == RollUp(r.value.stores, o.orderStatus)
                 && r.value.updatedAt == Some(now)
                 && r.value == o.(stores := r.value.stores, orderStatus := r.value.orderStatus, updatedAt := Some(now))
  {
    if storeId == "" || status == "" then Err(Failure(400, "Store ID and status are required"))
    else if ParseTarget(status).None? then
      Err(Failure(400, "Invalid status. Only 'confirmed' and 'prepared' are allowed."))
    else if stored.None? then Err(Failure(404, "Order not found"))
    else
      var o, target := stored.value, ParseTarget(status).value;
      var owned := OwnedStore(o.stores, storeId, sellerEmail);
      if owned == |o.stores| then Err(Failure(403, "You are not authorized to update this store order"))
      else if !AllowedTransition(o.stores[owned].storeOrderStatus, target) then
        Err(Failure(400, "Cannot change status from " + StatusName(o.stores[owned].storeOrderStatus) +
                         " to " + status))
      else
        var written := PositionalWrite(o, storeId, target, now);
        if written == o then Err(Failure(500, "Failed to update order status"))
        else Ok(written.(orderStatus := RollUp(written.stores, o.orderStatus)))
  }

  /** The `stores.$` update: the first store with the id gets the status and timestamp, and so does the order. */
  function PositionalWrite(o: Order, storeId: Id, target: Status, now: Timestamp): (w: Order)
    requires FindStore(o.stores, storeId) < |o.stores|
    ensures var j := FindStore(o.stores, storeId);
            && w.stores == o.stores[j := o.stores[j].(storeOrderStatus := target, updatedAt := Some(now))]
            && w == o.(stores := w.stores, updatedAt := Some(now))
  {
    var j := FindStore(o.stores, storeId);
    o.(stores := o.stores[j := o.stores[j].(storeOrderStatus := target, updatedAt := Some(now))], updatedAt := Some(now))
  }

  /** With distinct store ids, the owner check and the positional update pick the same store. */
  lemma OwnedIsPositional(stores: seq<Store>, storeId: Id, sellerEmail: string)
    requires DistinctStoreIds(stores)
    requires OwnedStore(stores, storeId, sellerEmail) < |stores|
    ensures FindStore(stores, storeId) == OwnedStore(stores, storeId, sellerEmail)
  {
  }

  /**
   * A successful update moves exactly one store, the caller's, exactly one
   * step forward along pending -> confirmed -> prepared; every other store is
   * unchanged.
   */
  lemma {:induction false} StatusMovesOneStepForward(o: Order, storeId: Id, status: string,
                                                     sellerEmail: string, now: Timestamp)
    requires DistinctStoreIds(o.stores)
    requires UpdateStoreOrderStatus(Some(o), storeId, status, sellerEmail, now).Ok?
    ensures var o' := UpdateStoreOrderStatus(Some(o), storeId, status, sellerEmail, now).value;
            var k := OwnedStore(o.stores, storeId, sellerEmail);
            && |o'.stores| == |o.stores|
            && k < |o.stores|
            && o.stores[k].storeEmail == sellerEmail
            && Rank(o'.stores[k].storeOrderStatus) == Rank(o.stores[k].storeOrderStatus) + 1 >= 1
            && (forall m :: 0 <= m < |o.stores| && m != k ==> o'.stores[m] == o.stores[m])
  {
    OwnedIsPositional(o.stores, storeId, sellerEmail);
  }

  /** Repeating a successful request is rejected: a store cannot take the same step twice. */
  lemma RepeatIsRejected(o: Order, storeId: Id, status: string, sellerEmail: string, now: Timestamp)
    requires DistinctStoreIds(o.stores)
    requires UpdateStoreOrderStatus(Some(o), storeId, status, sellerEmail, now).Ok?
    ensures var o' := UpdateStoreOrderStatus(Some(o), storeId, status, sellerEmail, now).value;
            UpdateStoreOrderStatus(Some(o'), storeId, status, sellerEmail, now) ==
              Err(Failure(400, "Cannot change status from " + status + " to " + status))
  {
    var o' := UpdateStoreOrderStatus(Some(o), storeId, status, sellerEmail, now).value;
    var k := OwnedStore(o.stores, storeId, sellerEmail);
    OwnedIsPositional(o.stores, storeId, sellerEmail);
    assert forall m :: 0 <= m < |o.stores| ==> o'.stores[m].storeId == o.stores[m].storeId &&
                                                o'.stores[m].storeEmail == o.stores[m].storeEmail;
    OwnedStoreByKeys(o.stores, o'.stores, storeId, sellerEmail);
  }

  /** The owner's step that the transition table does not allow is refused with a 400 naming both statuses. */
  lemma DisallowedStepIsRefused(o: Order, storeId: Id, status: string, sellerEmail: string, now: Timestamp)
    requires storeId != "" && ParseTarget(status).Some?
    requires OwnedStore(o.stores, storeId, sellerEmail) < |o.stores|
    requires !AllowedTransition(o.stores[OwnedStore(o.stores, storeId, sellerEmail)].storeOrderStatus,
                                ParseTarget(status).value)
    ensures UpdateStoreOrderStatus(Some(o), storeId, status, sellerEmail, now) ==
              Err(Failure(400, "Cannot change status from " +
                               StatusName(o.stores[OwnedStore(o.stores, storeId, sellerEmail)].storeOrderStatus) +
                               " to " + status))
  {
  }

  /** With distinct store ids, the owner's allowed step always succeeds. */
  lemma AllowedStepSucceeds(o: Order, storeId: Id, status: string, sellerEmail: string, now: Timestamp)
    requires storeId != "" && ParseTarget(status).Some?
    requires DistinctStoreIds(o.stores)
    requires OwnedStore(o.stores, storeId, sellerEmail) < |o.stores|
    requires AllowedTransition(o.stores[OwnedStore(o.stores, storeId, sellerEmail)].storeOrderStatus,
                               ParseTarget(status).value)
    ensures UpdateStoreOrderStatus(Some(o), storeId, status, sellerEmail, now).Ok?
  {
    OwnedIsPositional(o.stores, storeId, sellerEmail);
    var j := FindStore(o.stores, storeId);
    assert PositionalWrite(o, storeId, ParseTarget(status).value, now).stores[j].storeOrderStatus !=
           o.stores[j].storeOrderStatus;
  }

  /** A pending store cannot be moved straight to prepared. */
  lemma NoSkipping(o: Order, storeId: Id, sellerEmail: string, now: Timestamp)
    requires storeId != ""
    requires OwnedStore(o.stores, storeId, sellerEmail) < |o.stores|
    requires o.stores[OwnedStore(o.stores, storeId, sellerEmail)].storeOrderStatus == Pending
    ensures UpdateStoreOrderStatus(Some(o), storeId, "prepared", sellerEmail, now) ==
              Err(Failure(400, "Cannot change status from pending to prepared"))
  {
  }

  /**
   * After a successful update the parent agrees with its stores: prepared
   * when all are prepared, confirmed when all are confirmed, and otherwise
   * whatever it was before.
   */
  lemma ParentFollowsStores(o: Order, storeId: Id, status: string, sellerEmail: string, now: Timestamp)
    requires UpdateStoreOrderStatus(Some(o), storeId, status, sellerEmail, now).Ok?
    ensures var o' := UpdateStoreOrderStatus(Some(o), storeId, status, sellerEmail, now).value;
            && (AllAt(o'.stores, Prepared) ==> o'.orderStatus == Prepared)
            && (AllAt(o'.stores, Confirmed) ==> o'.orderStatus == Confirmed)
            && (!AllAt(o'.stores, Prepared) && !AllAt(o'.stores, Confirmed) ==> o'.orderStatus == o.orderStatus)
  {
    var o' := UpdateStoreOrderStatus(Some(o), storeId, status, sellerEmail, now).value;
    if AllAt(o'.stores, Prepared) && AllAt(o'.stores, Confirmed) {
      var k := OwnedStore(o.stores, storeId, sellerEmail);
      assert o'.stores[FindStore(o.stores, storeId)].storeOrderStatus == Prepared;
    }
  }

  /** Lists that agree on ids and owners resolve the owner check to the same position. */
  lemma OwnedStoreByKeys(a: seq<Store>, b: seq<Store>, storeId: Id, sellerEmail: string)
    requires |a| == |b|
    requires forall m :: 0 <= m < |a| ==> a[m].storeId == b[m].storeId && a[m].storeEmail == b[m].storeEmail
    ensures OwnedStore(a, storeId, sellerEmail) == OwnedStore(b, storeId, sellerEmail)
  {
  }
}
