/**
 * What a cancellation guarantees, proved about the functions of module
 * `Cancellation` (and so, through `CancelOrder`'s postcondition, about the
 * handler): the refund accounts for exactly the money taken off the order,
 * stock comes back for exactly the lines recorded as cancelled, and
 * repeating a request changes nothing.
 */
module CancellationProofs {
  import opened Common
  import opened Orders
  import opened Cancellation

  function RefundAmountOf(c: CancelledLine): Money {
    c.refundAmount
  }

  /** The sum of the refunds recorded on history lines. */
  function Refunds(cs: seq<CancelledLine>): Money {
    SumOf(cs, RefundAmountOf)
  }

  /** Customers and sellers: the roles whose requests only touch stores that are still pending. */
  predicate Guarded(ctx: Context) {
    ctx.role == Customer || ctx.role == Seller
  }

  predicate StoreTotalAgrees(store: Store) {
    store.storeTotal == ActiveItemsTotal(store.items)
  }

  /** Every store that is not cancelled has a total equal to the sum of its active lines. */
  predicate ActiveTotalsAgree(stores: seq<Store>) {
    forall k :: 0 <= k < |stores| && !IsCancelledStore(stores[k]) ==> StoreTotalAgrees(stores[k])
  }

  /** The order's totals are the ones its stores imply. */
  predicate OrderTotalsAgree(o: Order) {
    && ActiveTotalsAgree(o.stores)
    && o.itemsTotal == ItemsTotalOf(o.stores)
    && o.totalDeliveryCharge == DeliveryTotalOf(o.stores)
    && o.totalAmount == o.itemsTotal + o.totalDeliveryCharge +
                        (if AllStoresCancelled(o.stores) then 0 else o.cashPaymentFee)
  }

  /** Lines that are all cancelled have no active total. */
  lemma {:induction false} NoActiveTotal(items: seq<OrderItem>)
    requires AllItemsCancelled(items)
    ensures ActiveItemsTotal(items) == 0
  {
    if items != [] {
      assert AllItemsCancelled(items[1..]) by {
        forall t | 0 <= t < |items[1..]| ensures IsCancelledItem(items[1..][t]) {
          assert items[1..][t] == items[t + 1];
        }
      }
      NoActiveTotal(items[1..]);
    }
  }

  /**
   * Cancelling one line moves its subtotal from the store's active total to
   * the item refund, and records it on a history line.
   */
  lemma CancelLineBalance(p: Progress, i: nat, l: LineRequest, ctx: Context)
    requires i < |p.stores|
    ensures var q := CancelLine(p, i, l, ctx);
            && q.itemsRefund + ActiveItemsTotal(q.stores[i].items) == p.itemsRefund + ActiveItemsTotal(p.stores[i].items)
            && q.itemsRefund - Refunds(q.cancelled) == p.itemsRefund - Refunds(p.cancelled)
  {
    var items := p.stores[i].items;
    if !LineDead(items, l) {
      var t := TargetIndex(items, l);
      SumOfUpdate(items, t, items[t].(cancellation := Some(Mark(ctx))), ActiveSubtotal);
      SumOfSnoc(p.cancelled, CancelledLineOf(p.stores[i], items[t]), RefundAmountOf);
    }
  }

  lemma {:induction false} CancelLinesBalance(p: Progress, i: nat, ls: seq<LineRequest>, ctx: Context)
    requires i < |p.stores|
    ensures var q := CancelLines(p, i, ls, ctx);
            && q.itemsRefund + ActiveItemsTotal(q.stores[i].items) == p.itemsRefund + ActiveItemsTotal(p.stores[i].items)
            && q.itemsRefund - Refunds(q.cancelled) == p.itemsRefund - Refunds(p.cancelled)
  {
    if ls != [] {
      CancelLinesBalance(p, i, ls[..|ls| - 1], ctx);
      CancelLineBalance(CancelLines(p, i, ls[..|ls| - 1], ctx), i, ls[|ls| - 1], ctx);
    }
  }

  /**
   * For a customer or seller, one store request moves exactly as much money
   * out of the recomputed item and delivery totals as it adds to the two
   * refunds, keeps every active store's total in line with its lines, and
   * leaves cancelled stores alone.
   */
  lemma CancelInStoreBalance(p: Progress, r: StoreRequest, ctx: Context)
    requires Guarded(ctx) && ActiveTotalsAgree(p.stores)
    ensures var q := CancelInStore(p, r, ctx);
            && ActiveTotalsAgree(q.stores)
            && q.itemsRefund + ItemsTotalOf(q.stores) == p.itemsRefund + ItemsTotalOf(p.stores)
            && q.deliveryRefund + DeliveryTotalOf(q.stores) == p.deliveryRefund + DeliveryTotalOf(p.stores)
            && q.itemsRefund - Refunds(q.cancelled) == p.itemsRefund - Refunds(p.cancelled)
            && (forall k :: 0 <= k < |p.stores| && IsCancelledStore(p.stores[k]) ==> q.stores[k] == p.stores[k])
  {
    var i := FindStore(p.stores, r.storeId);
    if i < |p.stores| && !StoreSkipped(p.stores[i], ctx) {
      var lined := CancelLines(p, i, r.items, ctx);
      CancelLinesShiftsTotals(p, i, r.items, ctx);
      SettleBalance(lined, i, ctx);
    }
  }

  /** The inner loop on a pending store leaves the recomputed totals as they were, the store's own total still stale. */
  lemma CancelLinesShiftsTotals(p: Progress, i: nat, ls: seq<LineRequest>, ctx: Context)
    requires i < |p.stores| && !IsCancelledStore(p.stores[i]) && ActiveTotalsAgree(p.stores)
    ensures var q := CancelLines(p, i, ls, ctx);
            && q.itemsRefund + ActiveItemsTotal(q.stores[i].items) == p.itemsRefund + p.stores[i].storeTotal
            && ItemsTotalOf(q.stores) == ItemsTotalOf(p.stores)
            && DeliveryTotalOf(q.stores) == DeliveryTotalOf(p.stores)
            && q.deliveryRefund == p.deliveryRefund
            && q.itemsRefund - Refunds(q.cancelled) == p.itemsRefund - Refunds(p.cancelled)
            && !IsCancelledStore(q.stores[i])
            && (forall k :: 0 <= k < |p.stores| && k != i ==> q.stores[k] == p.stores[k])
  {
    var q := CancelLines(p, i, ls, ctx);
    CancelLinesBalance(p, i, ls, ctx);
    assert q.stores == p.stores[i := q.stores[i]];
    SumOfUpdate(p.stores, i, q.stores[i], ActiveStoreTotal);
    SumOfUpdate(p.stores, i, q.stores[i], ActiveDeliveryCharge);
  }

  /** Settling a pending store moves its stale total out of the order totals exactly as far as the refunds grow. */
  lemma SettleBalance(p: Progress, i: nat, ctx: Context)
    requires i < |p.stores| && !IsCancelledStore(p.stores[i])
    requires forall k :: 0 <= k < |p.stores| && k != i && !IsCancelledStore(p.stores[k]) ==> StoreTotalAgrees(p.stores[k])
    ensures var q := SettleStore(p, i, ctx);
            && ActiveTotalsAgree(q.stores)
            && ItemsTotalOf(q.stores) == ItemsTotalOf(p.stores) - p.stores[i].storeTotal + ActiveItemsTotal(p.stores[i].items)
            && q.deliveryRefund + DeliveryTotalOf(q.stores) == p.deliveryRefund + DeliveryTotalOf(p.stores)
            && q.itemsRefund == p.itemsRefund && q.cancelled == p.cancelled
            && (forall k :: 0 <= k < |p.stores| && k != i ==> q.stores[k] == p.stores[k])
  {
    var q := SettleStore(p, i, ctx);
    assert q.stores == p.stores[i := q.stores[i]];
    SumOfUpdate(p.stores, i, q.stores[i], ActiveStoreTotal);
    SumOfUpdate(p.stores, i, q.stores[i], ActiveDeliveryCharge);
    if AllItemsCancelled(p.stores[i].items) {
      NoActiveTotal(p.stores[i].items);
    }
  }

  lemma {:induction false} CancelAllBalance(p: Progress, rs: seq<StoreRequest>, ctx: Context)
    requires Guarded(ctx) && ActiveTotalsAgree(p.stores)
    ensures var q := CancelAll(p, rs, ctx);
            && ActiveTotalsAgree(q.stores)
            && q.itemsRefund + ItemsTotalOf(q.stores) == p.itemsRefund + ItemsTotalOf(p.stores)
            && q.deliveryRefund + DeliveryTotalOf(q.stores) == p.deliveryRefund + DeliveryTotalOf(p.stores)
            && q.itemsRefund - Refunds(q.cancelled) == p.itemsRefund - Refunds(p.cancelled)
            && (forall k :: 0 <= k < |p.stores| && IsCancelledStore(p.stores[k]) ==> q.stores[k] == p.stores[k])
  {
    if rs != [] {
      CancelAllBalance(p, rs[..|rs| - 1], ctx);
      CancelInStoreBalance(CancelAll(p, rs[..|rs| - 1], ctx), rs[|rs| - 1], ctx);
    }
  }

  /**
   * A customer's or seller's cancellation conserves money: the new order
   * total plus the refund recorded in the new history entry is the old order
   * total. The refund is the recorded lines' refunds, plus the delivery
   * charges taken off the order, plus the fee when the order becomes fully
   * cancelled; and the new order's totals again agree with its stores.
   * The handler as written keeps this only when the order was not already
   * fully cancelled or carries no fee.
   */
  lemma CancellationConservesMoney(o: Order, stock: map<Id, int>, items: seq<StoreRequest>, ctx: Context,
                                   rule: FeeRule)
    requires Guarded(ctx) && OrderTotalsAgree(o)
    requires rule == Corrected || !AllStoresCancelled(o.stores) || o.cashPaymentFee == 0
    requires CancelOrderSpec(Some(o), stock, items, ctx, rule).Ok?
    ensures var o' := CancelOrderSpec(Some(o), stock, items, ctx, rule).value.order;
            var entry := o'.cancellationHistory[|o.cancellationHistory|];
            && OrderTotalsAgree(o')
            && o'.totalAmount + entry.refundAmount == o.totalAmount
            && entry.refundAmount == Refunds(entry.items) + (o.totalDeliveryCharge - o'.totalDeliveryCharge) +
                                     FeeRefund(o.stores, o'.stores, o.cashPaymentFee)
  {
    var p := CancelAll(Start(o, stock), items, ctx);
    CancelAllBalance(Start(o, stock), items, ctx);
    assert Refunds([]) == 0;
    if AllStoresCancelled(o.stores) {
      assert AllStoresCancelled(p.stores) by {
        forall k | 0 <= k < |p.stores| ensures IsCancelledStore(p.stores[k]) {
          assert IsCancelledStore(o.stores[k]);
        }
      }
    }
    if rule == AsWritten {
      FeeRulesAgree(o.stores, p.stores, o.cashPaymentFee);
    }
  }

  // ---------------------------------------------------------------------
  // Frame: what a store request may change

  lemma LinesEvolveTransitive(a: seq<OrderItem>, b: seq<OrderItem>, c: seq<OrderItem>)
    requires LinesEvolve(a, b) && LinesEvolve(b, c)
    ensures LinesEvolve(a, c)
  {
  }

  /** A line request resolves to the same index in lines that differ only in cancellation marks. */
  lemma TargetIndexOfSameLines(a: seq<OrderItem>, b: seq<OrderItem>, l: LineRequest)
    requires SameLines(a, b)
    ensures TargetIndex(a, l) == TargetIndex(b, l)
  {
    assert forall t :: 0 <= t < |a| ==> (Selects(l, a[t]) <==> Selects(l, b[t])) by {
      forall t | 0 <= t < |a| ensures Selects(l, a[t]) <==> Selects(l, b[t]) {
        assert a[t].(cancellation := None).productId == a[t].productId;
        assert b[t].(cancellation := None).color == b[t].color;
      }
    }
  }

  /** A skipped line request stays skipped however the lines evolve. */
  lemma DeadStaysDead(a: seq<OrderItem>, b: seq<OrderItem>, l: LineRequest)
    requires LinesEvolve(a, b) && LineDead(a, l)
    ensures LineDead(b, l)
  {
    TargetIndexOfSameLines(a, b, l);
    var t := TargetIndex(a, l);
    if t < |a| {
      assert a[t].(cancellation := None).productId == a[t].productId;
      assert b[t].(cancellation := None).productId == b[t].productId;
    }
  }

  /** A store request changes at most the store it names, and that one only by cancelling lines, its status and its money fields. */
  lemma CancelInStoreFrame(p: Progress, r: StoreRequest, ctx: Context)
    ensures var q := CancelInStore(p, r, ctx);
            var i := FindStore(p.stores, r.storeId);
            && (forall k :: 0 <= k < |p.stores| && k != i ==> q.stores[k] == p.stores[k])
            && (forall k :: 0 <= k < |p.stores| ==>
                  && q.stores[k].storeId == p.stores[k].storeId
                  && q.stores[k].storeEmail == p.stores[k].storeEmail
                  && LinesEvolve(p.stores[k].items, q.stores[k].items))
  {
    var i := FindStore(p.stores, r.storeId);
    if i < |p.stores| && !StoreSkipped(p.stores[i], ctx) {
      var lined := CancelLines(p, i, r.items, ctx);
      assert lined.stores[i].storeId == p.stores[i].storeId;
    }
  }

  // ---------------------------------------------------------------------
  // Repeating a request

  /** A store request that would change nothing: its store is missing or skipped, or every line it asks for is already skipped and the store's money fields are up to date. */
  predicate Inert(stores: seq<Store>, r: StoreRequest, ctx: Context) {
    var i := FindStore(stores, r.storeId);
    || i == |stores|
    || StoreSkipped(stores[i], ctx)
    || ((forall n :: 0 <= n < |r.items| ==> LineDead(stores[i].items, r.items[n])) &&
        !AllItemsCancelled(stores[i].items) && Consistent(stores[i]))
  }

  lemma {:induction false} DeadLinesChangeNothing(p: Progress, i: nat, ls: seq<LineRequest>, ctx: Context)
    requires i < |p.stores|
    requires forall n :: 0 <= n < |ls| ==> LineDead(p.stores[i].items, ls[n])
    ensures CancelLines(p, i, ls, ctx) == p
  {
    if ls != [] {
      DeadLinesChangeNothing(p, i, ls[..|ls| - 1], ctx);
    }
  }

  /** An inert request leaves the working state exactly as it was. */
  lemma InertChangesNothing(p: Progress, r: StoreRequest, ctx: Context)
    requires Inert(p.stores, r, ctx)
    ensures CancelInStore(p, r, ctx) == p
  {
    var i := FindStore(p.stores, r.storeId);
    if i < |p.stores| && !StoreSkipped(p.stores[i], ctx) {
      DeadLinesChangeNothing(p, i, r.items, ctx);
      assert p.stores[i := p.stores[i]] == p.stores;
    }
  }

  /** After the inner loop every requested line is skipped: it was skipped already or has just been cancelled. */
  lemma {:induction false} RequestedLinesDead(p: Progress, i: nat, ls: seq<LineRequest>, ctx: Context)
    requires i < |p.stores|
    ensures forall n :: 0 <= n < |ls| ==> LineDead(CancelLines(p, i, ls, ctx).stores[i].items, ls[n])
  {
    if ls != [] {
      var mid := CancelLines(p, i, ls[..|ls| - 1], ctx);
      var q := CancelLines(p, i, ls, ctx);
      var l := ls[|ls| - 1];
      RequestedLinesDead(p, i, ls[..|ls| - 1], ctx);
      forall n | 0 <= n < |ls| ensures LineDead(q.stores[i].items, ls[n]) {
        if n < |ls| - 1 {
          assert ls[n] == ls[..|ls| - 1][n];
          DeadStaysDead(mid.stores[i].items, q.stores[i].items, ls[n]);
        } else if !LineDead(mid.stores[i].items, l) {
          TargetIndexOfSameLines(mid.stores[i].items, q.stores[i].items, l);
        }
      }
    }
  }

  /** For a customer or seller, a request that has been processed is inert. */
  lemma ProcessedIsInert(p: Progress, r: StoreRequest, ctx: Context)
    requires Guarded(ctx)
    ensures Inert(CancelInStore(p, r, ctx).stores, r, ctx)
  {
    var i := FindStore(p.stores, r.storeId);
    var q := CancelInStore(p, r, ctx);
    CancelInStoreFrame(p, r, ctx);
    FindStoreByIds(p.stores, q.stores, r.storeId);
    if i < |p.stores| && !StoreSkipped(p.stores[i], ctx) {
      RequestedLinesDead(p, i, r.items, ctx);
    }
  }

  /** For a customer or seller, an inert request stays inert whatever other request is processed. */
  lemma InertStaysInert(p: Progress, r: StoreRequest, other: StoreRequest, ctx: Context)
    requires Guarded(ctx) && Inert(p.stores, r, ctx)
    ensures Inert(CancelInStore(p, other, ctx).stores, r, ctx)
  {
    var q := CancelInStore(p, other, ctx);
    var i := FindStore(p.stores, r.storeId);
    var j := FindStore(p.stores, other.storeId);
    CancelInStoreFrame(p, other, ctx);
    FindStoreByIds(p.stores, q.stores, r.storeId);
    if i < |p.stores| && i == j && !StoreSkipped(p.stores[i], ctx) {
      var lined := CancelLines(p, i, other.items, ctx);
      forall n | 0 <= n < |r.items| ensures LineDead(q.stores[i].items, r.items[n]) {
        DeadStaysDead(p.stores[i].items, lined.stores[i].items, r.items[n]);
      }
    }
  }

  /** After a run of a customer's or seller's requests, each of them is inert. */
  lemma {:induction false} RunLeavesInert(p: Progress, rs: seq<StoreRequest>, ctx: Context)
    requires Guarded(ctx)
    ensures forall n :: 0 <= n < |rs| ==> Inert(CancelAll(p, rs, ctx).stores, rs[n], ctx)
  {
    if rs != [] {
      var front := rs[..|rs| - 1];
      var mid := CancelAll(p, front, ctx);
      RunLeavesInert(p, front, ctx);
      forall n | 0 <= n < |rs| ensures Inert(CancelAll(p, rs, ctx).stores, rs[n], ctx) {
        if n < |rs| - 1 {
          assert rs[n] == front[n];
          InertStaysInert(mid, rs[n], rs[|rs| - 1], ctx);
        } else {
          ProcessedIsInert(mid, rs[n], ctx);
        }
      }
    }
  }

  /** A run of inert requests leaves the working state exactly as it was. */
  lemma {:induction false} InertRunChangesNothing(p: Progress, rs: seq<StoreRequest>, ctx: Context)
    requires forall n :: 0 <= n < |rs| ==> Inert(p.stores, rs[n], ctx)
    ensures CancelAll(p, rs, ctx) == p
  {
    if rs != [] {
      assert forall n :: 0 <= n < |rs| - 1 ==> rs[..|rs| - 1][n] == rs[n];
      InertRunChangesNothing(p, rs[..|rs| - 1], ctx);
      InertChangesNothing(p, rs[|rs| - 1], ctx);
    }
  }

  /** Whether a request is inert depends on the caller, not on the reason or the time. */
  lemma InertForSameCaller(stores: seq<Store>, r: StoreRequest, ctx: Context, ctx': Context)
    requires ctx'.role == ctx.role && ctx'.email == ctx.email
    requires Inert(stores, r, ctx)
    ensures Inert(stores, r, ctx')
  {
  }

  /**
   * Re-cancellation cancels nothing for customers and sellers: when the same
   * caller sends the same request again (at any time, with any reason), no
   * line is cancelled or restocked, and the order changes only by one history
   * entry without lines and its timestamps. The entry's refund is whatever
   * the fee rule pays on an unchanged store list: nothing under the corrected
   * rule, the fee under the rule as written once every store is cancelled.
   */
  lemma RepeatedCancellationChangesNothing(o: Order, stock: map<Id, int>, items: seq<StoreRequest>,
                                           ctx: Context, ctx': Context, rule: FeeRule)
    requires Guarded(ctx) && ctx'.role == ctx.role && ctx'.email == ctx.email
    requires CancelOrderSpec(Some(o), stock, items, ctx, rule).Ok?
    requires CancelOrderSpec(Some(CancelOrderSpec(Some(o), stock, items, ctx, rule).value.order),
                             CancelOrderSpec(Some(o), stock, items, ctx, rule).value.stock, items, ctx', rule).Ok?
    ensures var first := CancelOrderSpec(Some(o), stock, items, ctx, rule).value;
            var second := CancelOrderSpec(Some(first.order), first.stock, items, ctx', rule).value;
            var fee := FeeRefundUnder(rule, first.order.stores, first.order.stores, first.order.cashPaymentFee);
            && second.stock == first.stock
            && second.order == first.order.(
                 cancellationHistory := first.order.cancellationHistory +
                                        [HistoryEntry(ctx'.now, ctx'.email, ctx'.role, ctx'.reason, [], fee)],
                 updatedAt := Some(ctx'.now),
                 cancelledAt := if AllStoresCancelled(first.order.stores) then Some(ctx'.now)
                                else first.order.cancelledAt)
  {
    var first := CancelOrderSpec(Some(o), stock, items, ctx, rule).value;
    var p := CancelAll(Start(o, stock), items, ctx);
    RunLeavesInert(Start(o, stock), items, ctx);
    forall n | 0 <= n < |items| ensures Inert(p.stores, items[n], ctx') {
      InertForSameCaller(p.stores, items[n], ctx, ctx');
    }
    InertRunChangesNothing(Start(first.order, first.stock), items, ctx');
  }

  // ---------------------------------------------------------------------
  // Stock

  function RestockedFor(productId: Id): CancelledLine -> int {
    (c: CancelledLine) => if c.productId == productId then c.quantity else 0
  }

  /** The quantity of `productId` on the given history lines. */
  function Restocked(cs: seq<CancelledLine>, productId: Id): int {
    SumOf(cs, RestockedFor(productId))
  }

  /**
   * One line request: a skipped one changes nothing at all; otherwise the line
   * becomes cancelled, its product's stock rises by the requested quantity,
   * its subtotal joins the item refund, and one history line records it.
   */
  lemma CancelLineEffect(p: Progress, i: nat, l: LineRequest, ctx: Context)
    requires i < |p.stores|
    ensures LineDead(p.stores[i].items, l) ==> CancelLine(p, i, l, ctx) == p
    ensures !LineDead(p.stores[i].items, l) ==>
              var q, t := CancelLine(p, i, l, ctx), TargetIndex(p.stores[i].items, l);
              && IsCancelledItem(q.stores[i].items[t])
              && (l.productId in p.stock ==> q.stock[l.productId] == p.stock[l.productId] + l.quantity)
              && (forall id :: id in p.stock && id != l.productId ==> q.stock[id] == p.stock[id])
              && q.itemsRefund == p.itemsRefund + p.stores[i].items[t].subtotal
              && q.cancelled == p.cancelled + [CancelledLineOf(p.stores[i], p.stores[i].items[t])]
  {
  }

  /** The request asks back the quantity the line it resolves to holds. */
  predicate LineHonest(items: seq<OrderItem>, l: LineRequest) {
    var t := TargetIndex(items, l);
    t < |items| ==> l.quantity == items[t].quantity
  }

  predicate RequestHonest(stores: seq<Store>, r: StoreRequest) {
    var i := FindStore(stores, r.storeId);
    i < |stores| ==> forall n :: 0 <= n < |r.items| ==> LineHonest(stores[i].items, r.items[n])
  }

  /** From `p` to `q`, each product's stock rose by the quantity of that product on the new history lines. */
  predicate StockBalanced(p: Progress, q: Progress) {
    && q.stock.Keys == p.stock.Keys
    && forall id :: id in p.stock ==> q.stock[id] - Restocked(q.cancelled, id) == p.stock[id] - Restocked(p.cancelled, id)
  }

  lemma LineHonestForSameLines(a: seq<OrderItem>, b: seq<OrderItem>, l: LineRequest)
    requires SameLines(a, b) && LineHonest(a, l)
    ensures LineHonest(b, l)
  {
    TargetIndexOfSameLines(a, b, l);
    var t := TargetIndex(a, l);
    if t < |a| {
      assert a[t].(cancellation := None).quantity == a[t].quantity;
      assert b[t].(cancellation := None).quantity == b[t].quantity;
    }
  }

  lemma CancelLineStock(p: Progress, i: nat, l: LineRequest, ctx: Context)
    requires i < |p.stores| && LineHonest(p.stores[i].items, l)
    ensures StockBalanced(p, CancelLine(p, i, l, ctx))
  {
    var items := p.stores[i].items;
    if !LineDead(items, l) {
      var line := CancelledLineOf(p.stores[i], items[TargetIndex(items, l)]);
      forall id | id in p.stock
        ensures Restocked(p.cancelled + [line], id) == Restocked(p.cancelled, id) + RestockedFor(id)(line)
      {
        SumOfSnoc(p.cancelled, line, RestockedFor(id));
      }
    }
  }

  lemma {:induction false} CancelLinesStock(p: Progress, i: nat, ls: seq<LineRequest>, ctx: Context)
    requires i < |p.stores|
    requires forall n :: 0 <= n < |ls| ==> LineHonest(p.stores[i].items, ls[n])
    ensures StockBalanced(p, CancelLines(p, i, ls, ctx))
  {
    if ls != [] {
      var mid := CancelLines(p, i, ls[..|ls| - 1], ctx);
      assert forall n :: 0 <= n < |ls| - 1 ==> ls[..|ls| - 1][n] == ls[n];
      CancelLinesStock(p, i, ls[..|ls| - 1], ctx);
      LineHonestForSameLines(p.stores[i].items, mid.stores[i].items, ls[|ls| - 1]);
      CancelLineStock(mid, i, ls[|ls| - 1], ctx);
    }
  }

  lemma CancelInStoreStock(p: Progress, r: StoreRequest, ctx: Context)
    requires RequestHonest(p.stores, r)
    ensures StockBalanced(p, CancelInStore(p, r, ctx))
  {
    var i := FindStore(p.stores, r.storeId);
    if i < |p.stores| && !StoreSkipped(p.stores[i], ctx) {
      CancelLinesStock(p, i, r.items, ctx);
    }
  }

  /** Honesty of a request survives the processing of any request, since lines keep their products and quantities. */
  lemma HonestStaysHonest(p: Progress, r: StoreRequest, other: StoreRequest, ctx: Context)
    requires RequestHonest(p.stores, r)
    ensures RequestHonest(CancelInStore(p, other, ctx).stores, r)
  {
    var q := CancelInStore(p, other, ctx);
    CancelInStoreFrame(p, other, ctx);
    FindStoreByIds(p.stores, q.stores, r.storeId);
    var i := FindStore(p.stores, r.storeId);
    if i < |p.stores| {
      forall n | 0 <= n < |r.items| ensures LineHonest(q.stores[i].items, r.items[n]) {
        LineHonestForSameLines(p.stores[i].items, q.stores[i].items, r.items[n]);
      }
    }
  }

  lemma {:induction false} HonestThroughRun(p: Progress, rs: seq<StoreRequest>, r: StoreRequest, ctx: Context)
    requires RequestHonest(p.stores, r)
    ensures RequestHonest(CancelAll(p, rs, ctx).stores, r)
  {
    if rs != [] {
      HonestThroughRun(p, rs[..|rs| - 1], r, ctx);
      HonestStaysHonest(CancelAll(p, rs[..|rs| - 1], ctx), r, rs[|rs| - 1], ctx);
    }
  }

  lemma {:induction false} CancelAllStock(p: Progress, rs: seq<StoreRequest>, ctx: Context)
    requires forall n :: 0 <= n < |rs| ==> RequestHonest(p.stores, rs[n])
    ensures StockBalanced(p, CancelAll(p, rs, ctx))
  {
    if rs != [] {
      var front := rs[..|rs| - 1];
      var mid := CancelAll(p, front, ctx);
      assert forall n :: 0 <= n < |front| ==> front[n] == rs[n];
      CancelAllStock(p, front, ctx);
      HonestThroughRun(p, front, rs[|rs| - 1], ctx);
      CancelInStoreStock(mid, rs[|rs| - 1], ctx);
    }
  }

  /**
   * Stock conservation: when every request asks back the quantity its line
   * holds, each product's stock rises by exactly the quantity of that product
   * on the lines the new history entry records as cancelled, and no other
   * product's stock moves.
   */
  lemma StockComesBackForCancelledLines(o: Order, stock: map<Id, int>, items: seq<StoreRequest>, ctx: Context,
                                        rule: FeeRule)
    requires forall n :: 0 <= n < |items| ==> RequestHonest(o.stores, items[n])
    requires CancelOrderSpec(Some(o), stock, items, ctx, rule).Ok?
    ensures var c := CancelOrderSpec(Some(o), stock, items, ctx, rule).value;
            var entry := c.order.cancellationHistory[|o.cancellationHistory|];
            && c.stock.Keys == stock.Keys
            && forall id :: id in stock ==> c.stock[id] == stock[id] + Restocked(entry.items, id)
  {
    CancelAllStock(Start(o, stock), items, ctx);
    assert forall id :: Restocked([], id) == 0;
  }

  // ---------------------------------------------------------------------
  // The cash fee on a repeated cancellation

  /**
   * As written, the handler refunds the cash fee again when a caller repeats
   * a cancellation that left every store cancelled: nothing is cancelled and
   * the order total does not move, yet the new history entry records the fee
   * as refunded.
   */
  lemma FeeRefundedAgainAsWritten(o: Order, stock: map<Id, int>, items: seq<StoreRequest>, ctx: Context, ctx': Context)
    requires Guarded(ctx) && ctx'.role == ctx.role && ctx'.email == ctx.email
    requires o.cashPaymentFee != 0
    requires CancelOrderSpec(Some(o), stock, items, ctx, AsWritten).Ok?
    requires AllStoresCancelled(CancelOrderSpec(Some(o), stock, items, ctx, AsWritten).value.order.stores)
    requires CancelOrderSpec(Some(CancelOrderSpec(Some(o), stock, items, ctx, AsWritten).value.order),
                             CancelOrderSpec(Some(o), stock, items, ctx, AsWritten).value.stock, items, ctx',
                             AsWritten).Ok?
    ensures var first := CancelOrderSpec(Some(o), stock, items, ctx, AsWritten).value;
            var second := CancelOrderSpec(Some(first.order), first.stock, items, ctx', AsWritten).value;
            var entry := second.order.cancellationHistory[|first.order.cancellationHistory|];
            && entry.items == []
            && entry.refundAmount == o.cashPaymentFee
            && second.order.totalAmount == first.order.totalAmount
  {
    RepeatedCancellationChangesNothing(o, stock, items, ctx, ctx', AsWritten);
  }

  // The concrete instance of the finding: an order whose only store, "s1",
  // was cancelled by its seller, with a cash fee of 50.00, and the seller
  // sending the same line request again.

  function SampleMark(): CancellationMark {
    CancellationMark("2024-01-01T00:00:00.000Z", "out of stock", Seller)
  }

  function SampleStore(): Store {
    Store("s1", "Shop", "seller@example.com", Cancelled, [OrderItem("p1", "Mug", Absent, Absent, 1, 1000, Some(SampleMark()))],
          300, 0, 10, 0, 0, Some(SampleMark()), None)
  }

  function SampleOrder(): Order {
    Order("o1", "customer@example.com", Cancelled, Unpaid, [SampleStore()], 0, 0, 5000, 0, [],
          Some("2024-01-01T00:00:00.000Z"), None)
  }

  function SampleSeller(): Context {
    Context(Seller, "seller@example.com", "again", "2024-01-02T00:00:00.000Z")
  }

  function SampleRequests(): seq<StoreRequest> {
    [StoreRequest("s1", [LineRequest(Some(0), "p1", 1, Absent, Absent)])]
  }

  /** The sample request passes every check and then changes nothing, because its store is already cancelled. */
  lemma SampleRequestIsAcceptedAndInert(stock: map<Id, int>)
    ensures OrderTotalsAgree(SampleOrder())
    ensures !IsBlank(SampleSeller().reason)
    ensures Authorize(SampleOrder(), SampleRequests(), SampleSeller()).None?
    ensures AllStoresCancelled(SampleOrder().stores)
    ensures CancelAll(Start(SampleOrder(), stock), SampleRequests(), SampleSeller()) == Start(SampleOrder(), stock)
  {
    var o, ctx, items, store := SampleOrder(), SampleSeller(), SampleRequests(), SampleStore();
    assert SumOf([store], ActiveStoreTotal) == ActiveStoreTotal(store) + SumOf([store][1..], ActiveStoreTotal);
    assert SumOf([store], ActiveDeliveryCharge) == ActiveDeliveryCharge(store) + SumOf([store][1..], ActiveDeliveryCharge);
    assert ItemsTotalOf(o.stores) == 0 && DeliveryTotalOf(o.stores) == 0;
    assert !IsWhiteSpace(ctx.reason[0]);
    assert SellerStoreIds(o.stores, ctx.email) == ["s1"];
    assert FindStore(o.stores, "s1") == 0;
    assert StoreSkipped(store, ctx);
    assert items[..0] == [];
  }

  /**
   * On the sample, the handler as written records 50.00 refunded with no
   * line cancelled and no change to the order total; the corrected rule
   * records nothing.
   */
  lemma ReCancellingCancelledOrderRefundsFee(stock: map<Id, int>)
    ensures var asWritten := CancelOrderSpec(Some(SampleOrder()), stock, SampleRequests(), SampleSeller(), AsWritten);
            var corrected := CancelOrderSpec(Some(SampleOrder()), stock, SampleRequests(), SampleSeller(), Corrected);
            && OrderTotalsAgree(SampleOrder())
            && asWritten.Ok? && corrected.Ok?
            && asWritten.value.order.totalAmount == SampleOrder().totalAmount
            && asWritten.value.order.cancellationHistory[0].items == []
            && asWritten.value.order.cancellationHistory[0].refundAmount == 5000
            && corrected.value.order.cancellationHistory[0].refundAmount == 0
  {
    SampleRequestIsAcceptedAndInert(stock);
  }

  /**
   * With the corrected fee rule, which refunds the fee only when this
   * cancellation is the one that leaves every store cancelled, a repeated
   * cancellation refunds nothing at all.
   */
  lemma RepeatedCancellationRefundsNothing(o: Order, stock: map<Id, int>, items: seq<StoreRequest>,
                                           ctx: Context, ctx': Context)
    requires Guarded(ctx) && ctx'.role == ctx.role && ctx'.email == ctx.email
    requires CancelOrderSpec(Some(o), stock, items, ctx, Corrected).Ok?
    requires CancelOrderSpec(Some(CancelOrderSpec(Some(o), stock, items, ctx, Corrected).value.order),
                             CancelOrderSpec(Some(o), stock, items, ctx, Corrected).value.stock, items, ctx',
                             Corrected).Ok?
    ensures var first := CancelOrderSpec(Some(o), stock, items, ctx, Corrected).value;
            var second := CancelOrderSpec(Some(first.order), first.stock, items, ctx', Corrected).value;
            var entry := second.order.cancellationHistory[|first.order.cancellationHistory|];
            entry.refundAmount == 0 && entry.items == [] && second.order.totalAmount == first.order.totalAmount
  {
    RepeatedCancellationChangesNothing(o, stock, items, ctx, ctx', Corrected);
  }
}
