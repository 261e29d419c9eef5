/**
 * The shopping cart of one customer (src/controllers/cart.controller.js).
 *
 * Each handler reads the customer's cart document, works on its `items`
 * list and writes the list back. A handler is modelled as a function (or a
 * method, where the source changes the list step by step) from the stored
 * document, `None` when the customer has no cart yet, to the document it
 * writes, or to the failure it answers with (and then it writes nothing).
 */
module Cart {
  import opened Common

  /** A cart line: the product, how many, and the optional colour and size variant. */
  datatype CartItem = CartItem(productId: Id, quantity: int, color: Attr, size: Attr)

  /** The stored cart document. `createdAt` is missing on a document first written by `clearCart`. */
  datatype CartDoc = CartDoc(items: seq<CartItem>, createdAt: Option<Timestamp>, updatedAt: Timestamp)

  /** The identity of a line: the product and its colour and size after `|| null`. */
  datatype Key = Key(productId: Id, color: Option<string>, size: Option<string>)

  /** A line named by a request: `productId`, `color` and `size` as sent by the client. */
  datatype LineRef = LineRef(productId: Id, color: Attr, size: Attr)

  /** A line of the customer's local (logged-out) cart, merged in by `syncCart`. */
  datatype LocalItem = LocalItem(productId: Id, quantity: int, color: Attr, size: Attr)

  function KeyOf(item: CartItem): Key {
    Key(item.productId, OrNull(item.color), OrNull(item.size))
  }

  /** The search item a request builds: `{productId, color: color || null, size: size || null}`. */
  function RefKey(ref: LineRef): Key {
    Key(ref.productId, OrNull(ref.color), OrNull(ref.size))
  }

  /** `itemsMatch`: same product, and `color || null` and `size || null` equal. */
  predicate ItemsMatch(a: CartItem, b: CartItem) {
    && a.productId == b.productId
    && OrNull(a.color) == OrNull(b.color)
    && OrNull(a.size) == OrNull(b.size)
  }

  /** Matching is equality of keys, hence reflexive and symmetric. */
  lemma ItemsMatchIsKeyEquality(a: CartItem, b: CartItem)
    ensures ItemsMatch(a, b) <==> KeyOf(a) == KeyOf(b)
    ensures ItemsMatch(a, a)
    ensures ItemsMatch(a, b) <==> ItemsMatch(b, a)
  {
  }

  /** An absent, a null and an empty colour (or size) are the same variant. */
  lemma FalsyVariantsMatch(a: CartItem, b: CartItem)
    requires a.productId == b.productId
    requires !Truthy(a.color) && !Truthy(b.color) && !Truthy(a.size) && !Truthy(b.size)
    ensures ItemsMatch(a, b)
  {
  }

  /** The items of a stored cart; a customer without a cart has none. */
  function Lines(stored: Option<CartDoc>): seq<CartItem> {
    if stored.Some? then stored.value.items else []
  }

  /** The line `addProductOnCart` and `syncCart` append: colour and size are kept only when truthy. */
  function NewLine(productId: Id, quantity: int, color: Attr, size: Attr): (item: CartItem)
    ensures KeyOf(item) == Key(productId, OrNull(color), OrNull(size))
    ensures item.quantity == quantity
  {
    CartItem(productId, quantity, if Truthy(color) then color else Absent, if Truthy(size) then size else Absent)
  }

  /** Writes `items` with `upsert`: a new document also receives `createdAt`. */
  function Save(stored: Option<CartDoc>, items: seq<CartItem>, now: Timestamp): (doc: CartDoc)
    ensures doc.items == items && doc.updatedAt == now
    ensures doc.createdAt == if stored.Some? then stored.value.createdAt else Some(now)
  {
    if stored.Some? then stored.value.(items := items, updatedAt := now) else CartDoc(items, Some(now), now)
  }

  /** The invariant of a cart: no two lines match each other. */
  ghost predicate Unique(items: seq<CartItem>) {
    forall i, j :: 0 <= i < j < |items| ==> KeyOf(items[i]) != KeyOf(items[j])
  }

  function Keys(items: seq<CartItem>): set<Key> {
    set i | 0 <= i < |items| :: KeyOf(items[i])
  }

  function QtyFor(k: Key): CartItem -> int {
    (item: CartItem) => if KeyOf(item) == k then item.quantity else 0
  }

  /** The quantity the cart holds of the variant `k`, over all lines with that key. */
  function QtyOf(items: seq<CartItem>, k: Key): int {
    SumOf(items, QtyFor(k))
  }

  /** `items.findIndex(item => itemsMatch(item, search))`, with |items| for "not found". */
  function FindMatch(items: seq<CartItem>, k: Key): (i: nat)
    ensures i <= |items|
    ensures i < |items| ==> KeyOf(items[i]) == k
    ensures forall j :: 0 <= j < i ==> KeyOf(items[j]) != k
  {
    FirstIndex(items, (item: CartItem) => KeyOf(item) == k)
  }

  /** In a cart without duplicates, the quantity of a present variant is that of its one line. */
  lemma {:induction false} QtyOfUniqueLine(items: seq<CartItem>, i: nat)
    requires Unique(items) && i < |items|
    ensures QtyOf(items, KeyOf(items[i])) == items[i].quantity
  {
    var k := KeyOf(items[i]);
    var f := QtyFor(k);
    var g := (item: CartItem) => 0;
    var rest := items[..i] + items[i + 1..];
    assert items == items[..i] + [items[i]] + items[i + 1..];
    SumOfAppend(items[..i] + [items[i]], items[i + 1..], f);
    SumOfAppend(items[..i], [items[i]], f);
    assert [items[i]][1..] == [];
    SumOfSame(items[..i], f, g);
    SumOfSame(items[i + 1..], f, g);
    ZeroSum(items[..i]);
    ZeroSum(items[i + 1..]);
  }

  lemma {:induction false} ZeroSum(s: seq<CartItem>)
    ensures SumOf(s, (item: CartItem) => 0) == 0
  {
    if s != [] {
      ZeroSum(s[1..]);
    }
  }

  /**
   * One merge step of `addProductOnCart` (lines 77-87) and of `syncCart`
   * (lines 272-290): the first matching line grows by the line's quantity;
   * without a match the line is appended.
   */
  function Merge(items: seq<CartItem>, line: CartItem): (r: seq<CartItem>)
    ensures (exists i :: 0 <= i < |items| && KeyOf(items[i]) == KeyOf(line)) ==> |r| == |items|
    ensures (forall i :: 0 <= i < |items| ==> KeyOf(items[i]) != KeyOf(line)) ==> r == items + [line]
    ensures FindMatch(items, KeyOf(line)) < |items| ==>
              var i := FindMatch(items, KeyOf(line));
              r == items[i := items[i].(quantity := items[i].quantity + line.quantity)]
    ensures forall i :: 0 <= i < |items| ==>
              r[i] == items[i] ||
              (KeyOf(items[i]) == KeyOf(line) && r[i] == items[i].(quantity := items[i].quantity + line.quantity))
  {
    var i := FindMatch(items, KeyOf(line));
    if i < |items| then items[i := items[i].(quantity := items[i].quantity + line.quantity)]
    else items + [line]
  }

  /** A merge adds the line's quantity to its variant and to no other. */
  lemma MergeQuantity(items: seq<CartItem>, line: CartItem, k: Key)
    ensures QtyOf(Merge(items, line), k) == QtyOf(items, k) + (if KeyOf(line) == k then line.quantity else 0)
  {
    var i := FindMatch(items, KeyOf(line));
    if i < |items| {
      SumOfUpdate(items, i, items[i].(quantity := items[i].quantity + line.quantity), QtyFor(k));
    } else {
      SumOfSnoc(items, line, QtyFor(k));
    }
  }

  /** A merge keeps every existing key in place and adds the line's key. */
  lemma MergeKeys(items: seq<CartItem>, line: CartItem)
    ensures |items| <= |Merge(items, line)|
    ensures forall i :: 0 <= i < |items| ==> KeyOf(Merge(items, line)[i]) == KeyOf(items[i])
    ensures Keys(Merge(items, line)) == Keys(items) + {KeyOf(line)}
  {
    var r := Merge(items, line);
    var i := FindMatch(items, KeyOf(line));
    if i < |items| {
      assert KeyOf(r[i]) == KeyOf(line);
      assert forall j :: 0 <= j < |r| ==> KeyOf(r[j]) == KeyOf(items[j]);
    } else {
      assert KeyOf(r[|items|]) == KeyOf(line);
    }
  }

  /** Merging never creates two matching lines. */
  lemma MergeKeepsUnique(items: seq<CartItem>, line: CartItem)
    requires Unique(items)
    ensures Unique(Merge(items, line))
  {
    var r := Merge(items, line);
    var i := FindMatch(items, KeyOf(line));
    if i < |items| {
      assert forall j :: 0 <= j < |r| ==> KeyOf(r[j]) == KeyOf(items[j]);
    } else {
      forall a, b | 0 <= a < b < |r| ensures KeyOf(r[a]) != KeyOf(r[b]) {
        if b == |items| {
          assert r[b] == line && r[a] == items[a];
        }
      }
    }
  }

  /** `getCartProducts`: a customer without a cart gets an empty one created, and an empty list. */
  function GetCartProducts(stored: Option<CartDoc>, now: Timestamp): (r: (seq<CartItem>, CartDoc))
    ensures stored.None? ==> r.0 == [] && r.1 == CartDoc([], Some(now), now)
    ensures stored.Some? ==> r.0 == stored.value.items && r.1 == stored.value
  {
    if stored.None? then ([], CartDoc([], Some(now), now)) else (stored.value.items, stored.value)
  }

  /**
   * `addProductOnCart`: a missing product id or a falsy quantity is refused;
   * otherwise the line is merged into the (possibly new) cart.
   */
  method AddProductOnCart(stored: Option<CartDoc>, productId: Id, quantity: int, color: Attr, size: Attr, now: Timestamp)
    returns (r: Result<CartDoc>)
    ensures productId == "" || quantity == 0 ==> r == Err(Failure(400, "Product ID and quantity are required"))
    ensures productId != "" && quantity != 0 ==>
              r == Ok(Save(stored, Merge(Lines(stored), NewLine(productId, quantity, color, size)), now))
    ensures r.Ok? ==>
              var k := Key(productId, OrNull(color), OrNull(size));
              && (forall k' :: QtyOf(r.value.items, k') == QtyOf(Lines(stored), k') + (if k' == k then quantity else 0))
              && Keys(r.value.items) == Keys(Lines(stored)) + {k}
              && (Unique(Lines(stored)) ==> Unique(r.value.items))
  {
    if productId == "" || quantity == 0 {
      return Err(Failure(400, "Product ID and quantity are required"));
    }
    var newItem := NewLine(productId, quantity, color, size);
    var items := MergeInPlace(Lines(stored), newItem);
    forall k' ensures QtyOf(items, k') == QtyOf(Lines(stored), k') + (if k' == KeyOf(newItem) then quantity else 0) {
      MergeQuantity(Lines(stored), newItem, k');
    }
    MergeKeys(Lines(stored), newItem);
    if Unique(Lines(stored)) {
      MergeKeepsUnique(Lines(stored), newItem);
    }
    r := Ok(Save(stored, items, now));
  }

  /**
   * `updateCartItem`: sets the quantity of the matching line exactly.
   * `quantity` is `None` when the body has none.
   */
  method UpdateCartItem(stored: Option<CartDoc>, productId: Id, quantity: Option<int>, color: Attr, size: Attr, now: Timestamp)
    returns (r: Result<CartDoc>)
    ensures productId == "" || quantity.None? ==> r == Err(Failure(400, "Product ID and quantity are required"))
    ensures productId != "" && quantity.Some? && quantity.value < 1 ==> r == Err(Failure(400, "Quantity must be at least 1"))
    ensures productId != "" && quantity.Some? && quantity.value >= 1 && stored.None? ==>
              r == Err(Failure(404, "Cart not found"))
    ensures productId != "" && quantity.Some? && quantity.value >= 1 && stored.Some? ==>
              var k := Key(productId, OrNull(color), OrNull(size));
              var items := stored.value.items;
              if k !in Keys(items) then r == Err(Failure(404, "Item not found in cart"))
              else
                && r.Ok? && r.value.updatedAt == now && r.value.createdAt == stored.value.createdAt
                && r.value.items == items[FindMatch(items, k) := items[FindMatch(items, k)].(quantity := quantity.value)]
                && |r.value.items| == |items|
                && (forall i :: 0 <= i < |items| ==> KeyOf(r.value.items[i]) == KeyOf(items[i]))
                && (forall i :: 0 <= i < |items| && r.value.items[i] != items[i] ==> KeyOf(items[i]) == k)
                && (forall k' :: k' != k ==> QtyOf(r.value.items, k') == QtyOf(items, k'))
                && (Unique(items) ==> Unique(r.value.items) && QtyOf(r.value.items, k) == quantity.value)
  {
    if productId == "" || quantity.None? {
      return Err(Failure(400, "Product ID and quantity are required"));
    }
    if quantity.value < 1 {
      return Err(Failure(400, "Quantity must be at least 1"));
    }
    if stored.None? {
      return Err(Failure(404, "Cart not found"));
    }
    var items := stored.value.items;
    var k := Key(productId, OrNull(color), OrNull(size));
    var itemIndex := FindMatch(items, k);
    if itemIndex < |items| {
      var old_items := items;
      items := items[itemIndex := items[itemIndex].(quantity := quantity.value)];
      forall k' ensures QtyOf(items, k') == QtyOf(old_items, k') - QtyFor(k')(old_items[itemIndex]) + QtyFor(k')(items[itemIndex]) {
        SumOfUpdate(old_items, itemIndex, items[itemIndex], QtyFor(k'));
      }
      if Unique(old_items) {
        assert forall i :: 0 <= i < |items| ==> KeyOf(items[i]) == KeyOf(old_items[i]);
        QtyOfUniqueLine(items, itemIndex);
      }
      r := Ok(stored.value.(items := items, updatedAt := now));
    } else {
      assert k !in Keys(items);
      r := Err(Failure(404, "Item not found in cart"));
    }
  }

  /** `items.filter(item => !itemsMatch(item, search))`. */
  function RemoveMatching(items: seq<CartItem>, k: Key): (r: seq<CartItem>)
    ensures |r| <= |items|
    ensures forall x :: x in r <==> x in items && KeyOf(x) != k
    ensures k !in Keys(r)
  {
    if items == [] then []
    else if KeyOf(items[0]) == k then RemoveMatching(items[1..], k)
    else [items[0]] + RemoveMatching(items[1..], k)
  }

  /** Removing keeps the surviving lines in their original order: it distributes over concatenation. */
  lemma {:induction false} RemoveMatchingAppend(a: seq<CartItem>, b: seq<CartItem>, k: Key)
    ensures RemoveMatching(a + b, k) == RemoveMatching(a, k) + RemoveMatching(b, k)
  {
    if a == [] {
      assert a + b == b;
    } else {
      assert (a + b)[0] == a[0] && (a + b)[1..] == a[1..] + b;
      RemoveMatchingAppend(a[1..], b, k);
    }
  }

  /** Removing a key that no line carries leaves the list as it is. */
  lemma {:induction false} RemoveAbsentKey(items: seq<CartItem>, k: Key)
    requires k !in Keys(items)
    ensures RemoveMatching(items, k) == items
  {
    if items != [] {
      assert KeyOf(items[0]) in Keys(items);
      assert Keys(items[1..]) <= Keys(items) by {
        forall x | x in Keys(items[1..]) ensures x in Keys(items) {
          var j :| 0 <= j < |items[1..]| && KeyOf(items[1..][j]) == x;
          assert KeyOf(items[j + 1]) == x;
        }
      }
      RemoveAbsentKey(items[1..], k);
    }
  }

  /** Removal is idempotent. */
  lemma RemoveMatchingIdempotent(items: seq<CartItem>, k: Key)
    ensures RemoveMatching(RemoveMatching(items, k), k) == RemoveMatching(items, k)
  {
    RemoveAbsentKey(RemoveMatching(items, k), k);
  }

  /** `removeFromCart`: removes every line of the variant; an absent variant is not an error. */
  function RemoveFromCart(stored: Option<CartDoc>, ref: LineRef, now: Timestamp): (r: Result<CartDoc>)
    ensures stored.None? ==> r == Err(Failure(404, "Cart not found"))
    ensures stored.Some? ==> r.Ok? && r.value.updatedAt == now && r.value.createdAt == stored.value.createdAt
    ensures r.Ok? ==> RefKey(ref) !in Keys(r.value.items)
    ensures r.Ok? ==> forall x :: x in r.value.items <==> x in Lines(stored) && KeyOf(x) != RefKey(ref)
    ensures r.Ok? ==> r.value.items == RemoveMatching(Lines(stored), RefKey(ref))
  {
    if stored.None? then Err(Failure(404, "Cart not found"))
    else Ok(stored.value.(items := RemoveMatching(stored.value.items, RefKey(ref)), updatedAt := now))
  }

  /** `clearCart`: an upsert of the empty list (a new document gets no `createdAt`). */
  function ClearCart(stored: Option<CartDoc>, now: Timestamp): (doc: CartDoc)
    ensures doc.items == [] && doc.updatedAt == now
    ensures doc.createdAt == if stored.Some? then stored.value.createdAt else None
  {
    if stored.Some? then stored.value.(items := [], updatedAt := now) else CartDoc([], None, now)
  }

  function LocalLine(l: LocalItem): CartItem {
    NewLine(l.productId, l.quantity, l.color, l.size)
  }

  function LocalQtyFor(k: Key): LocalItem -> int {
    (l: LocalItem) => if KeyOf(LocalLine(l)) == k then l.quantity else 0
  }

  /** The total quantity the local cart holds of variant `k`. */
  function LocalQty(locals: seq<LocalItem>, k: Key): int {
    SumOf(locals, LocalQtyFor(k))
  }

  function LocalKeys(locals: seq<LocalItem>): set<Key> {
    set i | 0 <= i < |locals| :: KeyOf(LocalLine(locals[i]))
  }

  /** `findIndex`, then `quantity +=` on the match or `push` of the line: the source's in-place step computes `Merge`. */
  method MergeInPlace(before: seq<CartItem>, line: CartItem) returns (after: seq<CartItem>)
    ensures after == Merge(before, line)
  {
    after := before;
    var existing := FindMatch(after, KeyOf(line));
    if existing < |after| {
      after := after[existing := after[existing].(quantity := after[existing].quantity + line.quantity)];
    } else {
      after := after + [line];
    }
  }

  /** What `syncCart` has established after merging the first `n` local lines into `server`. */
  ghost predicate SyncedPrefix(server: seq<CartItem>, items: seq<CartItem>, localItems: seq<LocalItem>, n: nat)
    requires n <= |localItems|
  {
    && (forall k :: QtyOf(items, k) == QtyOf(server, k) + LocalQty(localItems[..n], k))
    && Keys(items) == Keys(server) + LocalKeys(localItems[..n])
    && |server| <= |items| <= |server| + n
    && (forall i :: 0 <= i < |server| ==> KeyOf(items[i]) == KeyOf(server[i]))
    && (Unique(server) ==> Unique(items))
  }

  lemma LocalKeysSnoc(localItems: seq<LocalItem>, n: nat)
    requires n < |localItems|
    ensures LocalKeys(localItems[..n + 1]) == LocalKeys(localItems[..n]) + {KeyOf(LocalLine(localItems[n]))}
  {
    var pre := localItems[..n + 1];
    assert pre[n] == localItems[n];
    forall x | x in LocalKeys(pre) ensures x in LocalKeys(localItems[..n]) + {KeyOf(LocalLine(localItems[n]))} {
      var j :| 0 <= j < |pre| && KeyOf(LocalLine(pre[j])) == x;
      if j < n {
        assert pre[j] == localItems[..n][j];
      }
    }
    forall x | x in LocalKeys(localItems[..n]) ensures x in LocalKeys(pre) {
      var j :| 0 <= j < n && KeyOf(LocalLine(localItems[..n][j])) == x;
      assert pre[j] == localItems[..n][j];
    }
  }

  /** Merging the next local line extends what has been established by one line. */
  lemma SyncStep(server: seq<CartItem>, items: seq<CartItem>, localItems: seq<LocalItem>, n: nat)
    requires n < |localItems| && SyncedPrefix(server, items, localItems, n)
    ensures SyncedPrefix(server, Merge(items, LocalLine(localItems[n])), localItems, n + 1)
  {
    SyncStepQuantity(server, items, localItems, n);
    MergeKeys(items, LocalLine(localItems[n]));
    LocalKeysSnoc(localItems, n);
    if Unique(server) {
      MergeKeepsUnique(items, LocalLine(localItems[n]));
    }
  }

  /** The quantity half of `SyncStep`: each variant gains exactly the local line's quantity when it is that line's. */
  lemma SyncStepQuantity(server: seq<CartItem>, items: seq<CartItem>, localItems: seq<LocalItem>, n: nat)
    requires n < |localItems|
    requires forall k :: QtyOf(items, k) == QtyOf(server, k) + LocalQty(localItems[..n], k)
    ensures forall k :: QtyOf(Merge(items, LocalLine(localItems[n])), k) ==
                        QtyOf(server, k) + LocalQty(localItems[..n + 1], k)
  {
    var line := LocalLine(localItems[n]);
    assert localItems[..n + 1] == localItems[..n] + [localItems[n]];
    forall k ensures QtyOf(Merge(items, line), k) == QtyOf(server, k) + LocalQty(localItems[..n + 1], k) {
      MergeQuantity(items, line, k);
      SumOfSnoc(localItems[..n], localItems[n], LocalQtyFor(k));
    }
  }

  /** The server lines after merging in the local lines one by one, in order. */
  function MergeAll(server: seq<CartItem>, locals: seq<LocalItem>): seq<CartItem> {
    if locals == [] then server
    else Merge(MergeAll(server, locals[..|locals| - 1]), LocalLine(locals[|locals| - 1]))
  }

  lemma {:induction false} MergeAllSynced(server: seq<CartItem>, localItems: seq<LocalItem>, n: nat)
    requires n <= |localItems|
    ensures SyncedPrefix(server, MergeAll(server, localItems[..n]), localItems, n)
  {
    if n == 0 {
      assert localItems[..0] == [];
      assert LocalKeys([]) == {};
    } else {
      MergeAllSynced(server, localItems, n - 1);
      assert localItems[..n][..n - 1] == localItems[..n - 1];
      SyncStep(server, MergeAll(server, localItems[..n - 1]), localItems, n - 1);
    }
  }

  /** The whole local cart merged in: quantities add up, keys unite, server lines keep their places. */
  lemma MergeAllFolds(server: seq<CartItem>, localItems: seq<LocalItem>)
    ensures var items := MergeAll(server, localItems);
            && (forall k :: QtyOf(items, k) == QtyOf(server, k) + LocalQty(localItems, k))
            && Keys(items) == Keys(server) + LocalKeys(localItems)
            && |server| <= |items| <= |server| + |localItems|
            && (forall i :: 0 <= i < |server| ==> KeyOf(items[i]) == KeyOf(server[i]))
            && (Unique(server) ==> Unique(items))
  {
    MergeAllSynced(server, localItems, |localItems|);
    assert localItems[..|localItems|] == localItems;
  }

  /**
   * `syncCart`: folds the local cart into the server cart line by line, as
   * `addProductOnCart` does, and upserts the result.
   */
  method SyncCart(stored: Option<CartDoc>, localItems: seq<LocalItem>, now: Timestamp) returns (doc: CartDoc)
    ensures doc == Save(stored, MergeAll(Lines(stored), localItems), now)
    ensures doc.updatedAt == now
    ensures doc.createdAt == if stored.Some? then stored.value.createdAt else Some(now)
    ensures forall k :: QtyOf(doc.items, k) == QtyOf(Lines(stored), k) + LocalQty(localItems, k)
    ensures Keys(doc.items) == Keys(Lines(stored)) + LocalKeys(localItems)
    ensures |Lines(stored)| <= |doc.items| <= |Lines(stored)| + |localItems|
    ensures forall i :: 0 <= i < |Lines(stored)| ==> KeyOf(doc.items[i]) == KeyOf(Lines(stored)[i])
    ensures Unique(Lines(stored)) ==> Unique(doc.items)
  {
    var server := Lines(stored);
    var items := server;
    var n := 0;
    assert localItems[..0] == [];
    while n < |localItems|
      invariant 0 <= n <= |localItems|
      invariant items == MergeAll(server, localItems[..n])
    {
      items := MergeInPlace(items, LocalLine(localItems[n]));
      assert localItems[..n + 1][..n] == localItems[..n];
      n := n + 1;
    }
    assert localItems[..n] == localItems;
    MergeAllFolds(server, localItems);
    doc := Save(stored, items, now);
  }

  /** A catalogue entry, as `getCartDetails` projects it. */
  datatype Product = Product(id: Id, name: string, price: Money, discount: int, images: seq<string>,
                             stock: int, storeName: string, storeId: Id)

  /** A cart line joined with its product. */
  datatype DetailedLine = DetailedLine(item: CartItem, product: Product)

  /** `productList.find(p => p._id === id)`. */
  function FindProduct(productList: seq<Product>, id: Id): (r: Option<Product>)
    ensures r.Some? ==> r.value in productList && r.value.id == id
    ensures r.None? <==> forall p :: p in productList ==> p.id != id
  {
    if productList == [] then None
    else if productList[0].id == id then Some(productList[0])
    else FindProduct(productList[1..], id)
  }

  function ItemsOf(lines: seq<DetailedLine>): seq<CartItem> {
    if lines == [] then [] else [lines[0].item] + ItemsOf(lines[1..])
  }

  /** The `map`/`filter` join of cart lines with the fetched products. */
  function Join(items: seq<CartItem>, productList: seq<Product>): (r: seq<DetailedLine>)
    ensures |r| <= |items|
    ensures forall i :: 0 <= i < |r| ==> FindProduct(productList, r[i].item.productId) == Some(r[i].product)
  {
    if items == [] then []
    else
      var rest := Join(items[1..], productList);
      match FindProduct(productList, items[0].productId)
      case None => rest
      case Some(p) => [DetailedLine(items[0], p)] + rest
  }

  /** The cart lines whose product was fetched, in cart order. */
  function FetchedLines(items: seq<CartItem>, productList: seq<Product>): seq<CartItem> {
    if items == [] then []
    else (if FindProduct(productList, items[0].productId).Some? then [items[0]] else []) +
         FetchedLines(items[1..], productList)
  }

  /** The join pairs exactly the fetched lines with their products. */
  lemma {:induction false} JoinKeepsFetched(items: seq<CartItem>, productList: seq<Product>)
    ensures ItemsOf(Join(items, productList)) == FetchedLines(items, productList)
  {
    if items != [] {
      JoinKeepsFetched(items[1..], productList);
      var rest := Join(items[1..], productList);
      match FindProduct(productList, items[0].productId)
      case None =>
      case Some(p) =>
        assert ([DetailedLine(items[0], p)] + rest)[1..] == rest;
    }
  }

  /** A line is kept exactly when its product was fetched; when every product was, all lines are kept. */
  lemma {:induction false} FetchedLinesMembers(items: seq<CartItem>, productList: seq<Product>)
    ensures forall x :: x in FetchedLines(items, productList) <==> x in items && FindProduct(productList, x.productId).Some?
    ensures (forall x :: x in items ==> FindProduct(productList, x.productId).Some?) ==> FetchedLines(items, productList) == items
  {
    if items != [] {
      FetchedLinesMembers(items[1..], productList);
      assert items == [items[0]] + items[1..];
      if forall x :: x in items ==> FindProduct(productList, x.productId).Some? {
        assert forall x :: x in items[1..] ==> x in items;
      }
    }
  }

  /** The join keeps cart order: it distributes over concatenation. */
  lemma {:induction false} JoinAppend(a: seq<CartItem>, b: seq<CartItem>, productList: seq<Product>)
    ensures Join(a + b, productList) == Join(a, productList) + Join(b, productList)
  {
    if a == [] {
      assert a + b == b;
    } else {
      assert (a + b)[0] == a[0] && (a + b)[1..] == a[1..] + b;
      JoinAppend(a[1..], b, productList);
    }
  }

  /** `getCartDetails`: an absent or empty cart gives the empty list, otherwise the join. */
  function GetCartDetails(stored: Option<CartDoc>, productList: seq<Product>): (r: seq<DetailedLine>)
    ensures |r| <= |Lines(stored)|
    ensures ItemsOf(r) == FetchedLines(Lines(stored), productList)
    ensures forall i :: 0 <= i < |r| ==> FindProduct(productList, r[i].item.productId) == Some(r[i].product)
    ensures forall x :: x in ItemsOf(r) <==> x in Lines(stored) && FindProduct(productList, x.productId).Some?
    ensures (forall x :: x in Lines(stored) ==> FindProduct(productList, x.productId).Some?) ==> ItemsOf(r) == Lines(stored)
  {
    if stored.None? || stored.value.items == [] then []
    else
      JoinKeepsFetched(stored.value.items, productList);
      FetchedLinesMembers(stored.value.items, productList);
      Join(stored.value.items, productList)
  }

  /** The lines that match none of `keys`. */
  function KeepUnlisted(items: seq<CartItem>, keys: set<Key>): seq<CartItem> {
    if items == [] then []
    else if KeyOf(items[0]) in keys then KeepUnlisted(items[1..], keys)
    else [items[0]] + KeepUnlisted(items[1..], keys)
  }

  /** The repeated `filter` of `removeCartItems`, one pass per requested line. */
  function RemoveEach(items: seq<CartItem>, refs: seq<LineRef>): seq<CartItem>
    decreases refs
  {
    if refs == [] then items else RemoveEach(RemoveMatching(items, RefKey(refs[0])), refs[1..])
  }

  function RefKeys(refs: seq<LineRef>): set<Key> {
    set i | 0 <= i < |refs| :: RefKey(refs[i])
  }

  lemma {:induction false} KeepUnlistedAfterRemove(items: seq<CartItem>, k: Key, keys: set<Key>)
    ensures KeepUnlisted(RemoveMatching(items, k), keys) == KeepUnlisted(items, keys + {k})
  {
    if items != [] {
      KeepUnlistedAfterRemove(items[1..], k, keys);
    }
  }

  lemma {:induction false} KeepNothingListed(items: seq<CartItem>)
    ensures KeepUnlisted(items, {}) == items
  {
    if items != [] {
      KeepNothingListed(items[1..]);
    }
  }

  /** The successive passes of `removeCartItems` amount to one filter by all the requested keys. */
  lemma {:induction false} RemoveEachIsOneFilter(items: seq<CartItem>, refs: seq<LineRef>, removed: set<Key>)
    ensures KeepUnlisted(RemoveEach(items, refs), removed) == KeepUnlisted(items, removed + RefKeys(refs))
    decreases refs
  {
    if refs == [] {
      assert removed + RefKeys(refs) == removed;
    } else {
      var k := RefKey(refs[0]);
      RemoveEachIsOneFilter(RemoveMatching(items, k), refs[1..], removed);
      KeepUnlistedAfterRemove(items, k, removed + RefKeys(refs[1..]));
      assert removed + RefKeys(refs[1..]) + {k} == removed + RefKeys(refs) by {
        forall x | x in RefKeys(refs) ensures x in RefKeys(refs[1..]) + {k} {
          var j :| 0 <= j < |refs| && RefKey(refs[j]) == x;
          if j > 0 {
            assert refs[1..][j - 1] == refs[j];
          }
        }
        forall x | x in RefKeys(refs[1..]) ensures x in RefKeys(refs) {
          var j :| 0 <= j < |refs[1..]| && RefKey(refs[1..][j]) == x;
          assert refs[j + 1] == refs[1..][j];
        }
      }
    }
  }

  /** A line survives the filter exactly when its key is not listed; order is kept. */
  lemma {:induction false} KeepUnlistedMembers(items: seq<CartItem>, keys: set<Key>)
    ensures forall x :: x in KeepUnlisted(items, keys) <==> x in items && KeyOf(x) !in keys
    ensures |KeepUnlisted(items, keys)| <= |items|
  {
    if items != [] {
      KeepUnlistedMembers(items[1..], keys);
      assert items == [items[0]] + items[1..];
    }
  }

  /**
   * `removeCartItems`: an empty request is refused; otherwise the cart keeps
   * exactly the lines that match none of the requested ones, in order.
   */
  function RemoveCartItems(stored: Option<CartDoc>, itemsToRemove: seq<LineRef>, now: Timestamp): (r: Result<CartDoc>)
    ensures itemsToRemove == [] ==> r == Err(Failure(400, "Items to remove are required"))
    ensures itemsToRemove != [] && stored.None? ==> r == Err(Failure(404, "Cart not found"))
    ensures itemsToRemove != [] && stored.Some? ==>
              r.Ok? && r.value.updatedAt == now && r.value.createdAt == stored.value.createdAt &&
              r.value.items == KeepUnlisted(stored.value.items, RefKeys(itemsToRemove))
  {
    if itemsToRemove == [] then Err(Failure(400, "Items to remove are required"))
    else if stored.None? then Err(Failure(404, "Cart not found"))
    else
      var items := RemoveEach(stored.value.items, itemsToRemove);
      RemoveEachIsOneFilter(stored.value.items, itemsToRemove, {});
      KeepNothingListed(items);
      assert {} + RefKeys(itemsToRemove) == RefKeys(itemsToRemove);
      Ok(stored.value.(items := items, updatedAt := now))
  }
}
