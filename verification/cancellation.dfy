/**
 * `cancelOrder` (src/controllers/orders.seller.controller.js): a customer
 * or a seller cancels some lines of an order, store by store. Cancelled lines
 * are refunded and restocked, a store whose lines are all cancelled is
 * cancelled with its delivery charge refunded, the surviving stores' money
 * fields and the order totals are recomputed, and one entry is appended to
 * the order's cancellation history.
 *
 * The functions below state what one run computes; `CancelOrder` is the
 * handler's loop over the requests, proved to compute exactly that.
 */
module Cancellation {
  import opened Common
  import opened Orders

  /** One requested line: an explicit index into the store's items, or a (productId, color, size) match. */
  datatype LineRequest = LineRequest(itemIndex: Option<nat>, productId: Id, quantity: int, color: Attr, size: Attr)

  /** The lines requested from one store. */
  datatype StoreRequest = StoreRequest(storeId: Id, items: seq<LineRequest>)

  /** Who asks, why and when. */
  datatype Context = Context(role: Role, email: string, reason: string, now: Timestamp)

  /** The handler's working state: `updatedStores`, product stock, the two refund accumulators and `cancelledItems`. */
  datatype Progress = Progress(
    stores: seq<Store>, stock: map<Id, int>, itemsRefund: Money, deliveryRefund: Money,
    cancelled: seq<CancelledLine>)

  /** The outcome of a successful call: the order document written back and the product stock. */
  datatype Cancellation = Cancellation(order: Order, stock: map<Id, int>)

  /** The characters JavaScript's `trim` removes: white space and line terminators. */
  predicate IsWhiteSpace(c: char) {
    c == ' ' || c == '\t' || c == '\n' || c == '\r' || c == '\U{000B}' || c == '\U{000C}' ||
    c == '\U{00A0}' || c == '\U{1680}' || ('\U{2000}' <= c <= '\U{200A}') || c == '\U{2028}' ||
    c == '\U{2029}' || c == '\U{202F}' || c == '\U{205F}' || c == '\U{3000}' || c == '\U{FEFF}'
  }

  /** A missing reason is the empty string; a reason of only white space is blank too. */
  predicate IsBlank(reason: string) {
    forall k :: 0 <= k < |reason| ==> IsWhiteSpace(reason[k])
  }

  /** The ids of the stores in the order that belong to `email`, in order. */
  function SellerStoreIds(stores: seq<Store>, email: string): (ids: seq<Id>)
    ensures forall id :: id in ids <==> exists k :: 0 <= k < |stores| && stores[k].storeEmail == email && stores[k].storeId == id
  {
    if stores == [] then []
    else
      var rest := SellerStoreIds(stores[1..], email);
      assert forall k :: 1 <= k < |stores| ==> stores[k] == stores[1..][k - 1];
      if stores[0].storeEmail == email then [stores[0].storeId] + rest else rest
  }

  /** The role checks, before anything is changed; `None` lets the request through. */
  function Authorize(order: Order, items: seq<StoreRequest>, ctx: Context): (r: Option<Failure>)
    ensures ctx.role == Customer ==>
              (r.None? <==> order.customerEmail == ctx.email && order.orderStatus == Pending && order.paymentStatus == Unpaid)
    ensures ctx.role == Seller ==>
              (r.None? <==> SellerStoreIds(order.stores, ctx.email) != [] &&
                            forall n :: 0 <= n < |items| ==> items[n].storeId in SellerStoreIds(order.stores, ctx.email))
    ensures ctx.role.OtherRole? ==> r.None?
    ensures r.Some? ==> r.value.status == 400 || r.value.status == 403
  {
    match ctx.role
    case Customer =>
      if order.customerEmail != ctx.email then
        Some(Failure(403, "Forbidden: You can only cancel your own orders"))
      else if order.orderStatus != Pending || order.paymentStatus != Unpaid then
        Some(Failure(400, "Order cannot be cancelled. It has been confirmed or paid."))
      else None
    case Seller =>
      var own := SellerStoreIds(order.stores, ctx.email);
      if own == [] then
        Some(Failure(403, "Forbidden: You don't have any products in this order"))
      else if exists n :: 0 <= n < |items| && items[n].storeId !in own then
        Some(Failure(403, "Forbidden: You can only cancel items from your own store"))
      else None
    case OtherRole(_) => None
  }

  /**
   * A seller gets through exactly when they own a store in the order and
   * every requested store id is the id of one of their stores.
   */
  lemma SellerGetsThrough(order: Order, items: seq<StoreRequest>, ctx: Context)
    requires ctx.role == Seller
    ensures Authorize(order, items, ctx).None? <==>
              && (exists k :: 0 <= k < |order.stores| && order.stores[k].storeEmail == ctx.email)
              && forall n :: 0 <= n < |items| ==>
                   exists k :: 0 <= k < |order.stores| && order.stores[k].storeEmail == ctx.email &&
                               order.stores[k].storeId == items[n].storeId
  {
    var own := SellerStoreIds(order.stores, ctx.email);
    assert own != [] ==> own[0] in own;
    assert forall k :: 0 <= k < |order.stores| && order.stores[k].storeEmail == ctx.email ==>
             order.stores[k].storeId in own;
  }

  /** `color ? item.color === color : !item.color`: a given value must match exactly, an absent one matches only an absent one. */
  predicate AttrSelects(wanted: Attr, actual: Attr) {
    if Truthy(wanted) then actual == Text(wanted.s) else !Truthy(actual)
  }

  predicate Selects(l: LineRequest, item: OrderItem) {
    item.productId == l.productId && AttrSelects(l.color, item.color) && AttrSelects(l.size, item.size)
  }

  /** The first line `l` selects, cancelled or not, or `|items|` (the `-1` of `findIndex`). */
  function FindLine(items: seq<OrderItem>, l: LineRequest): (t: nat)
    ensures t <= |items|
    ensures t < |items| ==> Selects(l, items[t])
    ensures forall u :: 0 <= u < t ==> !Selects(l, items[u])
  {
    FirstIndex(items, (item: OrderItem) => Selects(l, item))
  }

  /** The index a line request resolves to. */
  function TargetIndex(items: seq<OrderItem>, l: LineRequest): nat {
    if l.itemIndex.Some? then l.itemIndex.value else FindLine(items, l)
  }

  /** A request for a line that is out of range, already cancelled, or of another product is skipped. */
  predicate LineDead(items: seq<OrderItem>, l: LineRequest) {
    var t := TargetIndex(items, l);
    t >= |items| || IsCancelledItem(items[t]) || items[t].productId != l.productId
  }

  /** A seller's request for a store that is not theirs, and any customer or seller request for a store that is no longer pending, is skipped. */
  predicate StoreSkipped(store: Store, ctx: Context) {
    (ctx.role == Seller && store.storeEmail != ctx.email) ||
    ((ctx.role == Customer || ctx.role == Seller) && store.storeOrderStatus != Pending)
  }

  /** `$inc` on the product's stock; a product that no longer exists is left alone. */
  function Restock(stock: map<Id, int>, productId: Id, quantity: int): (s: map<Id, int>)
    ensures s.Keys == stock.Keys
    ensures productId in stock ==> s[productId] == stock[productId] + quantity
    ensures forall p :: p in stock && p != productId ==> s[p] == stock[p]
  {
    if productId in stock then stock[productId := stock[productId] + quantity] else stock
  }

  function Mark(ctx: Context): CancellationMark {
    CancellationMark(ctx.now, ctx.reason, ctx.role)
  }

  /** The history line recorded for a cancelled order line. */
  function CancelledLineOf(store: Store, item: OrderItem): (c: CancelledLine)
    ensures c.storeId == store.storeId && c.productId == item.productId
    ensures c.quantity == item.quantity && c.refundAmount == item.subtotal
  {
    CancelledLine(store.storeId, store.storeName, item.productId, item.productName,
                  OrNull(item.color), OrNull(item.size), item.quantity, item.subtotal)
  }

  /** The same lines, ignoring cancellation marks. */
  predicate SameLines(a: seq<OrderItem>, b: seq<OrderItem>) {
    |a| == |b| && forall t :: 0 <= t < |a| ==> a[t].(cancellation := None) == b[t].(cancellation := None)
  }

  /** `b` is `a` after some lines were cancelled: same lines, and a cancelled line is never touched again. */
  predicate LinesEvolve(a: seq<OrderItem>, b: seq<OrderItem>) {
    SameLines(a, b) && forall t :: 0 <= t < |a| && IsCancelledItem(a[t]) ==> b[t] == a[t]
  }

  /** Cancels the line `l` resolves to in store `i`, unless the request is skipped. */
  function CancelLine(p: Progress, i: nat, l: LineRequest, ctx: Context): (q: Progress)
    requires i < |p.stores|
    ensures |q.stores| == |p.stores| && q.stock.Keys == p.stock.Keys
    ensures forall k :: 0 <= k < |p.stores| && k != i ==> q.stores[k] == p.stores[k]
    ensures q.stores[i] == p.stores[i].(items := q.stores[i].items)
    ensures LinesEvolve(p.stores[i].items, q.stores[i].items)
    ensures q.deliveryRefund == p.deliveryRefund
  {
    var store := p.stores[i];
    if LineDead(store.items, l) then p
    else
      var t := TargetIndex(store.items, l);
      var item := store.items[t];
      Progress(p.stores[i := store.(items := store.items[t := item.(cancellation := Some(Mark(ctx)))])],
               Restock(p.stock, l.productId, l.quantity),
               p.itemsRefund + item.subtotal,
               p.deliveryRefund,
               p.cancelled + [CancelledLineOf(store, item)])
  }

  /** The inner loop over one store's requested lines, in request order. */
  function CancelLines(p: Progress, i: nat, ls: seq<LineRequest>, ctx: Context): (q: Progress)
    requires i < |p.stores|
    ensures |q.stores| == |p.stores| && q.stock.Keys == p.stock.Keys
    ensures forall k :: 0 <= k < |p.stores| && k != i ==> q.stores[k] == p.stores[k]
    ensures q.stores[i] == p.stores[i].(items := q.stores[i].items)
    ensures LinesEvolve(p.stores[i].items, q.stores[i].items)
    ensures q.deliveryRefund == p.deliveryRefund
  {
    if ls == [] then p
    else CancelLine(CancelLines(p, i, ls[..|ls| - 1], ctx), i, ls[|ls| - 1], ctx)
  }

  /**
   * After its lines: a store whose lines are all cancelled is cancelled and its
   * delivery charge refunded; otherwise its total, commission and seller
   * amount are recomputed from its active lines.
   */
  function SettleStore(p: Progress, i: nat, ctx: Context): (q: Progress)
    requires i < |p.stores|
    ensures |q.stores| == |p.stores|
    ensures forall k :: 0 <= k < |p.stores| && k != i ==> q.stores[k] == p.stores[k]
    ensures q.stores[i].items == p.stores[i].items
    ensures q.stores[i].storeId == p.stores[i].storeId && q.stores[i].storeEmail == p.stores[i].storeEmail
    ensures IsCancelledStore(q.stores[i]) <==> AllItemsCancelled(p.stores[i].items) || IsCancelledStore(p.stores[i])
    ensures AllItemsCancelled(p.stores[i].items) ==> q.deliveryRefund == p.deliveryRefund + p.stores[i].deliveryCharge
    ensures !AllItemsCancelled(p.stores[i].items) ==> q.deliveryRefund == p.deliveryRefund && Consistent(q.stores[i])
    ensures q.stock == p.stock && q.itemsRefund == p.itemsRefund && q.cancelled == p.cancelled
  {
    var store := p.stores[i];
    if AllItemsCancelled(store.items) then
      p.(stores := p.stores[i := store.(storeOrderStatus := Cancelled, cancellation := Some(Mark(ctx)))],
         deliveryRefund := p.deliveryRefund + store.deliveryCharge)
    else
      var total := ActiveItemsTotal(store.items);
      var commission := Commission(total, store.platformCommission);
      p.(stores := p.stores[i := store.(storeTotal := total, platformCommissionAmount := commission,
                                        sellerAmount := total - commission)])
  }

  /** One store request: find the store, skip it or cancel its lines and settle it. */
  function CancelInStore(p: Progress, r: StoreRequest, ctx: Context): (q: Progress)
    ensures |q.stores| == |p.stores| && q.stock.Keys == p.stock.Keys
  {
    var i := FindStore(p.stores, r.storeId);
    if i == |p.stores| || StoreSkipped(p.stores[i], ctx) then p
    else SettleStore(CancelLines(p, i, r.items, ctx), i, ctx)
  }

  /** The outer loop over the store requests, in request order. */
  function CancelAll(p: Progress, rs: seq<StoreRequest>, ctx: Context): (q: Progress)
    ensures |q.stores| == |p.stores| && q.stock.Keys == p.stock.Keys
  {
    if rs == [] then p
    else CancelInStore(CancelAll(p, rs[..|rs| - 1], ctx), rs[|rs| - 1], ctx)
  }

  /**
   * Which cash-fee rule a run of the handler follows: the one the handler
   * is written with, or the corrected one (see `FeeRefund`).
   */
  datatype FeeRule = AsWritten | Corrected

  /**
   * The corrected fee rule: the cash-handling fee is refunded when this
   * cancellation leaves every store cancelled and did not find them all
   * cancelled already.
   */
  function FeeRefund(before: seq<Store>, after: seq<Store>, fee: Money): (f: Money)
    ensures f != 0 ==> f == fee && AllStoresCancelled(after) && !AllStoresCancelled(before)
    ensures AllStoresCancelled(after) && !AllStoresCancelled(before) ==> f == fee
  {
    if AllStoresCancelled(after) && !AllStoresCancelled(before) && fee != 0 then fee else 0
  }

  /** The fee refund as the handler writes it: whenever every store ends up cancelled. */
  function FeeRefundAsWritten(after: seq<Store>, fee: Money): (f: Money)
    ensures f != 0 <==> AllStoresCancelled(after) && fee != 0
    ensures f != 0 ==> f == fee
    ensures AllStoresCancelled(after) ==> f == fee
  {
    if AllStoresCancelled(after) && fee != 0 then fee else 0
  }

  /** The fee refunded under `rule`, from the stores before and after the run. */
  function FeeRefundUnder(rule: FeeRule, before: seq<Store>, after: seq<Store>, fee: Money): (f: Money)
    ensures rule == AsWritten ==> f == FeeRefundAsWritten(after, fee)
    ensures rule == Corrected ==> f == FeeRefund(before, after, fee)
  {
    match rule
    case AsWritten => FeeRefundAsWritten(after, fee)
    case Corrected => FeeRefund(before, after, fee)
  }

  /** The two rules differ only when every store was cancelled before the run and the fee is not zero. */
  lemma FeeRulesAgree(before: seq<Store>, after: seq<Store>, fee: Money)
    requires !AllStoresCancelled(before) || fee == 0
    ensures FeeRefundAsWritten(after, fee) == FeeRefund(before, after, fee)
  {
  }

  /** The order written back: recomputed totals, one more history entry, and the order-level status. */
  function Finish(order: Order, p: Progress, ctx: Context, rule: FeeRule): (o: Order)
    ensures o.stores == p.stores
    ensures |o.cancellationHistory| == |order.cancellationHistory| + 1
    ensures o.cancellationHistory[..|order.cancellationHistory|] == order.cancellationHistory
    ensures o.cancellationHistory[|order.cancellationHistory|].items == p.cancelled
    ensures o.cancellationHistory[|order.cancellationHistory|].refundAmount ==
              p.itemsRefund + p.deliveryRefund + FeeRefundUnder(rule, order.stores, p.stores, order.cashPaymentFee)
    ensures o.itemsTotal == ItemsTotalOf(p.stores) && o.totalDeliveryCharge == DeliveryTotalOf(p.stores)
    ensures o.totalAmount == o.itemsTotal + o.totalDeliveryCharge +
                             (if AllStoresCancelled(p.stores) then 0 else order.cashPaymentFee)
    ensures AllStoresCancelled(p.stores) ==> o.orderStatus == Cancelled && o.cancelledAt == Some(ctx.now)
    ensures !AllStoresCancelled(p.stores) ==> o.orderStatus == order.orderStatus && o.cancelledAt == order.cancelledAt
    ensures o.updatedAt == Some(ctx.now)
    ensures o == order.(stores := o.stores, itemsTotal := o.itemsTotal, totalDeliveryCharge := o.totalDeliveryCharge,
                        totalAmount := o.totalAmount, cancellationHistory := o.cancellationHistory,
                        orderStatus := o.orderStatus, cancelledAt := o.cancelledAt, updatedAt := o.updatedAt)
  {
    var all := AllStoresCancelled(p.stores);
    var refund := p.itemsRefund + p.deliveryRefund + FeeRefundUnder(rule, order.stores, p.stores, order.cashPaymentFee);
    var itemsTotal := ItemsTotalOf(p.stores);
    var deliveryTotal := DeliveryTotalOf(p.stores);
    var entry := HistoryEntry(ctx.now, ctx.email, ctx.role, ctx.reason, p.cancelled, refund);
    order.(stores := p.stores,
           itemsTotal := itemsTotal,
           totalDeliveryCharge := deliveryTotal,
           totalAmount := itemsTotal + deliveryTotal + (if all then 0 else order.cashPaymentFee),
           updatedAt := Some(ctx.now),
           cancellationHistory := order.cancellationHistory + [entry],
           orderStatus := if all then Cancelled else order.orderStatus,
           cancelledAt := if all then Some(ctx.now) else order.cancelledAt)
  }

  function Start(order: Order, stock: map<Id, int>): Progress {
    Progress(order.stores, stock, 0, 0, [])
  }

  /**
   * What one call computes under a fee rule: a failure (nothing written,
   * stock untouched) or the new order and stock. The handler as written is
   * `rule == AsWritten`.
   */
  function CancelOrderSpec(stored: Option<Order>, stock: map<Id, int>, items: seq<StoreRequest>, ctx: Context,
                           rule: FeeRule): (r: Result<Cancellation>)
    ensures items == [] ==> r == Err(Failure(400, "Please provide items to cancel"))
    ensures items != [] && IsBlank(ctx.reason) ==> r == Err(Failure(400, "Please provide a cancellation reason"))
    ensures items != [] && !IsBlank(ctx.reason) && stored.None? ==> r == Err(Failure(404, "Order not found"))
    ensures stored.Some? && Authorize(stored.value, items, ctx).Some? ==> r.Err?
    ensures r.Ok? <==> items != [] && !IsBlank(ctx.reason) && stored.Some? && Authorize(stored.value, items, ctx).None?
    ensures r.Ok? ==> r.value.stock.Keys == stock.Keys && |r.value.order.stores| == |stored.value.stores|
  {
    if items == [] then Err(Failure(400, "Please provide items to cancel"))
    else if IsBlank(ctx.reason) then Err(Failure(400, "Please provide a cancellation reason"))
    else if stored.None? then Err(Failure(404, "Order not found"))
    else
      var order := stored.value;
      match Authorize(order, items, ctx)
      case Some(failure) => Err(failure)
      case None =>
        var p := CancelAll(Start(order, stock), items, ctx);
        Ok(Cancellation(Finish(order, p, ctx, rule), p.stock))
  }

  /** The handler as written: validation, the role checks, then the loop over the requested stores. */
  method CancelOrder(stored: Option<Order>, stock: map<Id, int>, items: seq<StoreRequest>, ctx: Context)
    returns (r: Result<Cancellation>)
    ensures r == CancelOrderSpec(stored, stock, items, ctx, AsWritten)
  {
    if items == [] {
      return Err(Failure(400, "Please provide items to cancel"));
    }
    if IsBlank(ctx.reason) {
      return Err(Failure(400, "Please provide a cancellation reason"));
    }
    if stored.None? {
      return Err(Failure(404, "Order not found"));
    }
    var order := stored.value;
    var denied := CheckRole(order, items, ctx);
    if denied.Some? {
      return Err(denied.value);
    }
    var updatedStores, newStock, itemsRefund, deliveryRefund, cancelledItems := CancelEachStore(order, stock, items, ctx);
    r := Ok(Cancellation(Finish(order, Progress(updatedStores, newStock, itemsRefund, deliveryRefund, cancelledItems),
                                ctx, AsWritten),
                         newStock));
  }

  /** The outer loop over the store requests, from the order's stores, the stock and empty accumulators. */
  method CancelEachStore(order: Order, stock: map<Id, int>, items: seq<StoreRequest>, ctx: Context)
    returns (updatedStores: seq<Store>, newStock: map<Id, int>, itemsRefund: Money, deliveryRefund: Money,
             cancelledItems: seq<CancelledLine>)
    ensures Progress(updatedStores, newStock, itemsRefund, deliveryRefund, cancelledItems) ==
            CancelAll(Start(order, stock), items, ctx)
  {
    updatedStores, newStock, itemsRefund, deliveryRefund, cancelledItems := order.stores, stock, 0, 0, [];
    var n := 0;
    while n < |items|
      invariant 0 <= n <= |items|
      invariant Progress(updatedStores, newStock, itemsRefund, deliveryRefund, cancelledItems) ==
                CancelAll(Start(order, stock), items[..n], ctx)
    {
      assert items[..n + 1][..n] == items[..n];
      updatedStores, newStock, itemsRefund, deliveryRefund, cancelledItems :=
        CancelStoreRequest(updatedStores, newStock, itemsRefund, deliveryRefund, cancelledItems, items[n], ctx);
      n := n + 1;
    }
    assert items[..|items|] == items;
  }

  /** The role checks of the handler, with the seller's loop over the requested store ids. */
  method CheckRole(order: Order, items: seq<StoreRequest>, ctx: Context) returns (denied: Option<Failure>)
    ensures denied == Authorize(order, items, ctx)
  {
    if ctx.role == Customer {
      if order.customerEmail != ctx.email {
        return Some(Failure(403, "Forbidden: You can only cancel your own orders"));
      }
      if order.orderStatus != Pending || order.paymentStatus != Unpaid {
        return Some(Failure(400, "Order cannot be cancelled. It has been confirmed or paid."));
      }
    } else if ctx.role == Seller {
      var sellerStoreIds := SellerStoreIds(order.stores, ctx.email);
      if sellerStoreIds == [] {
        return Some(Failure(403, "Forbidden: You don't have any products in this order"));
      }
      var n := 0;
      while n < |items|
        invariant 0 <= n <= |items|
        invariant forall k :: 0 <= k < n ==> items[k].storeId in sellerStoreIds
      {
        if items[n].storeId !in sellerStoreIds {
          return Some(Failure(403, "Forbidden: You can only cancel items from your own store"));
        }
        n := n + 1;
      }
    }
    return None;
  }

  /** One pass of the outer loop: the requested store's lines, then its settlement. */
  method CancelStoreRequest(updatedStores: seq<Store>, stock: map<Id, int>, itemsRefund: Money,
                            deliveryRefund: Money, cancelledItems: seq<CancelledLine>,
                            cancelRequest: StoreRequest, ctx: Context)
    returns (stores': seq<Store>, stock': map<Id, int>, itemsRefund': Money, deliveryRefund': Money,
             cancelledItems': seq<CancelledLine>)
    ensures Progress(stores', stock', itemsRefund', deliveryRefund', cancelledItems') ==
            CancelInStore(Progress(updatedStores, stock, itemsRefund, deliveryRefund, cancelledItems), cancelRequest, ctx)
  {
    stores', stock', itemsRefund', deliveryRefund', cancelledItems' :=
      updatedStores, stock, itemsRefund, deliveryRefund, cancelledItems;
    var storeIndex := FindStore(updatedStores, cancelRequest.storeId);
    if storeIndex == |updatedStores| || StoreSkipped(updatedStores[storeIndex], ctx) {
      return;
    }
    var store;
    store, stock', itemsRefund', cancelledItems' :=
      CancelRequestedLines(updatedStores, storeIndex, stock, itemsRefund, deliveryRefund, cancelledItems,
                           cancelRequest.items, ctx);
    ghost var lined := Progress(updatedStores[storeIndex := store], stock', itemsRefund', deliveryRefund', cancelledItems');
    if AllItemsCancelled(store.items) {
      deliveryRefund' := deliveryRefund' + store.deliveryCharge;
      store := store.(storeOrderStatus := Cancelled, cancellation := Some(Mark(ctx)));
    } else {
      var newStoreTotal := ActiveItemsTotal(store.items);
      var commission := Commission(newStoreTotal, store.platformCommission);
      store := store.(storeTotal := newStoreTotal, platformCommissionAmount := commission,
                      sellerAmount := newStoreTotal - commission);
    }
    stores' := updatedStores[storeIndex := store];
    assert Progress(stores', stock', itemsRefund', deliveryRefund', cancelledItems') == SettleStore(lined, storeIndex, ctx);
  }

  /** The inner loop: each requested line of the store at `storeIndex`, in request order. */
  method CancelRequestedLines(updatedStores: seq<Store>, storeIndex: nat, stock: map<Id, int>, itemsRefund: Money,
                              ghost deliveryRefund: Money, cancelledItems: seq<CancelledLine>,
                              productsToCancel: seq<LineRequest>, ctx: Context)
    returns (store: Store, stock': map<Id, int>, itemsRefund': Money, cancelledItems': seq<CancelledLine>)
    requires storeIndex < |updatedStores|
    ensures Progress(updatedStores[storeIndex := store], stock', itemsRefund', deliveryRefund, cancelledItems') ==
            CancelLines(Progress(updatedStores, stock, itemsRefund, deliveryRefund, cancelledItems),
                        storeIndex, productsToCancel, ctx)
  {
    ghost var before := Progress(updatedStores, stock, itemsRefund, deliveryRefund, cancelledItems);
    store, stock', itemsRefund', cancelledItems' := updatedStores[storeIndex], stock, itemsRefund, cancelledItems;
    var m := 0;
    while m < |productsToCancel|
      invariant 0 <= m <= |productsToCancel|
      invariant Progress(updatedStores[storeIndex := store], stock', itemsRefund', deliveryRefund, cancelledItems') ==
                CancelLines(before, storeIndex, productsToCancel[..m], ctx)
    {
      assert productsToCancel[..m + 1][..m] == productsToCancel[..m];
      var productCancel := productsToCancel[m];
      ghost var prev := Progress(updatedStores[storeIndex := store], stock', itemsRefund', deliveryRefund, cancelledItems');
      assert CancelLines(before, storeIndex, productsToCancel[..m + 1], ctx) == CancelLine(prev, storeIndex, productCancel, ctx);
      var itemIdx := TargetIndex(store.items, productCancel);
      if itemIdx < |store.items| && !IsCancelledItem(store.items[itemIdx]) &&
         store.items[itemIdx].productId == productCancel.productId {
        var item := store.items[itemIdx];
        itemsRefund' := itemsRefund' + item.subtotal;
        stock' := Restock(stock', productCancel.productId, productCancel.quantity);
        cancelledItems' := cancelledItems' + [CancelledLineOf(store, item)];
        store := store.(items := store.items[itemIdx := item.(cancellation := Some(Mark(ctx)))]);
        assert prev.stores[storeIndex := store] == updatedStores[storeIndex := store];
      }
      m := m + 1;
    }
    assert productsToCancel[..|productsToCancel|] == productsToCancel;
  }
}
