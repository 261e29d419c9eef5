/**
 * The order document as the seller-side order handlers see it
 * (src/controllers/orders.seller.controller.js): an order split into one
 * sub-order per store, each store holding its own line items, status and
 * money fields, plus the order-level totals and the cancellation history.
 */
module Orders {
  import opened Common

  /** Values of `orderStatus` and `storeOrderStatus`. */
  datatype Status = Pending | Confirmed | Prepared | Shipped | Delivered | Cancelled

  function StatusName(s: Status): (name: string)
    ensures name != ""
  {
    match s
    case Pending => "pending"
    case Confirmed => "confirmed"
    case Prepared => "prepared"
    case Shipped => "shipped"
    case Delivered => "delivered"
    case Cancelled => "cancelled"
  }

  datatype PaymentStatus = Unpaid | Paid

  /** The caller's role, as carried by the authenticated request. */
  datatype Role = Customer | Seller | OtherRole(name: string)

  /** `cancelledAt`, `cancellationReason` and `cancelledBy`, written together when a line or store is cancelled. */
  datatype CancellationMark = CancellationMark(cancelledAt: Timestamp, reason: string, cancelledBy: Role)

  /** An order line; `cancellation` is present exactly when its `status` is "cancelled". */
  datatype OrderItem = OrderItem(
    productId: Id, productName: string, color: Attr, size: Attr,
    quantity: int, subtotal: Money, cancellation: Option<CancellationMark>)

  /** One store's sub-order. `platformCommission` is a percentage. */
  datatype Store = Store(
    storeId: Id, storeName: string, storeEmail: string, storeOrderStatus: Status,
    items: seq<OrderItem>, deliveryCharge: Money, storeTotal: Money,
    platformCommission: int, platformCommissionAmount: Money, sellerAmount: Money,
    cancellation: Option<CancellationMark>, updatedAt: Option<Timestamp>)

  /** One line of a cancellation-history entry. */
  datatype CancelledLine = CancelledLine(
    storeId: Id, storeName: string, productId: Id, productName: string,
    color: Option<string>, size: Option<string>, quantity: int, refundAmount: Money)

  datatype HistoryEntry = HistoryEntry(
    cancelledAt: Timestamp, cancelledBy: string, cancelledByRole: Role, reason: string,
    items: seq<CancelledLine>, refundAmount: Money)

  /** The order document; an absent `cashPaymentFee` is 0. */
  datatype Order = Order(
    id: Id, customerEmail: string, orderStatus: Status, paymentStatus: PaymentStatus,
    stores: seq<Store>, itemsTotal: Money, totalDeliveryCharge: Money, cashPaymentFee: Money,
    totalAmount: Money, cancellationHistory: seq<HistoryEntry>,
    cancelledAt: Option<Timestamp>, updatedAt: Option<Timestamp>)

  predicate IsCancelledItem(item: OrderItem) {
    item.cancellation.Some?
  }

  function ActiveSubtotal(item: OrderItem): Money {
    if IsCancelledItem(item) then 0 else item.subtotal
  }

  /** The sum of the subtotals of the lines that are not cancelled. */
  function ActiveItemsTotal(items: seq<OrderItem>): Money {
    SumOf(items, ActiveSubtotal)
  }

  predicate AllItemsCancelled(items: seq<OrderItem>) {
    forall t :: 0 <= t < |items| ==> IsCancelledItem(items[t])
  }

  /**
   * The platform's cut of `total` cents at `percent` percent, rounded to the
   * nearest cent with halves rounded up.
   */
  function Commission(total: Money, percent: int): (c: Money)
    ensures total * percent - 50 < 100 * c <= total * percent + 50
    ensures total >= 0 && 0 <= percent <= 100 ==> 0 <= c <= total
  {
    (total * percent + 50) / 100
  }

  /** The store's money fields agree with its active lines. */
  predicate Consistent(store: Store) {
    && store.storeTotal == ActiveItemsTotal(store.items)
    && store.platformCommissionAmount == Commission(store.storeTotal, store.platformCommission)
    && store.sellerAmount == store.storeTotal - store.platformCommissionAmount
  }

  predicate IsCancelledStore(store: Store) {
    store.storeOrderStatus == Cancelled
  }

  function ActiveStoreTotal(store: Store): Money {
    if IsCancelledStore(store) then 0 else store.storeTotal
  }

  function ActiveDeliveryCharge(store: Store): Money {
    if IsCancelledStore(store) then 0 else store.deliveryCharge
  }

  /** `itemsTotal` recomputed from the stores that are not cancelled. */
  function ItemsTotalOf(stores: seq<Store>): Money {
    SumOf(stores, ActiveStoreTotal)
  }

  /** `totalDeliveryCharge` recomputed from the stores that are not cancelled. */
  function DeliveryTotalOf(stores: seq<Store>): Money {
    SumOf(stores, ActiveDeliveryCharge)
  }

  predicate AllStoresCancelled(stores: seq<Store>) {
    forall k :: 0 <= k < |stores| ==> IsCancelledStore(stores[k])
  }

  /** `findIndex` on the store id: the first store with `storeId`, or `|stores|` when there is none. */
  function FindStore(stores: seq<Store>, storeId: Id): (i: nat)
    ensures i <= |stores|
    ensures i < |stores| ==> stores[i].storeId == storeId
    ensures forall k :: 0 <= k < i ==> stores[k].storeId != storeId
  {
    FirstIndex(stores, (s: Store) => s.storeId == storeId)
  }

  /** Two store lists whose ids agree position by position resolve every id to the same position. */
  lemma FindStoreByIds(a: seq<Store>, b: seq<Store>, storeId: Id)
    requires |a| == |b|
    requires forall k :: 0 <= k < |a| ==> a[k].storeId == b[k].storeId
    ensures FindStore(a, storeId) == FindStore(b, storeId)
  {
    var i, j := FindStore(a, storeId), FindStore(b, storeId);
    if i < j {
      assert b[i].storeId == storeId;
    }
  }

  /** Cancelling one more store lowers the recomputed totals by exactly its total and delivery charge. */
  lemma CancellingStoreLowersTotals(stores: seq<Store>, k: nat, cancelled: Store)
    requires k < |stores| && !IsCancelledStore(stores[k]) && IsCancelledStore(cancelled)
    ensures ItemsTotalOf(stores[k := cancelled]) == ItemsTotalOf(stores) - stores[k].storeTotal
    ensures DeliveryTotalOf(stores[k := cancelled]) == DeliveryTotalOf(stores) - stores[k].deliveryCharge
  {
    SumOfUpdate(stores, k, cancelled, ActiveStoreTotal);
    SumOfUpdate(stores, k, cancelled, ActiveDeliveryCharge);
  }
}
