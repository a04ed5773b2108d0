/** What the specification functions of module Cart promise: how the product
    map resolves repeated IDs, exactly when the stock check passes and which
    error it reports, how the total adds up and matches the line items, and what
    the write-backs leave in the product table. */
module CartProperties {
  import opened Types
  import opened Stores
  import opened Cart

  // ---------------------------------------------------------------------------
  // The product map (service.go:23-26)
  // ---------------------------------------------------------------------------

  /** The map has exactly the IDs of the products in the slice. */
  lemma {:induction false} ProductMapDomain(products: seq<Product>, id: int)
    ensures id in ProductMap(products) <==> exists i :: 0 <= i < |products| && products[i].id == id
  {
    if products != [] {
      var prefix := products[..|products| - 1];
      ProductMapDomain(prefix, id);
      if id in ProductMap(prefix) {
        var i :| 0 <= i < |prefix| && prefix[i].id == id;
        assert products[i].id == id;
      }
      if exists i :: 0 <= i < |products| && products[i].id == id {
        var i :| 0 <= i < |products| && products[i].id == id;
        if i < |prefix| {
          assert prefix[i].id == id;
        }
      }
    }
  }

  /** An entry that no later entry repeats is the one the map holds: the later entry wins. */
  lemma {:induction false} ProductMapLaterWins(products: seq<Product>, i: int)
    requires 0 <= i < |products|
    requires forall j :: i < j < |products| ==> products[j].id != products[i].id
    ensures products[i].id in ProductMap(products)
    ensures ProductMap(products)[products[i].id] == products[i]
  {
    if i < |products| - 1 {
      var prefix := products[..|products| - 1];
      ProductMapLaterWins(prefix, i);
    }
  }

  // ---------------------------------------------------------------------------
  // The stock check (service.go:68-85)
  // ---------------------------------------------------------------------------

  lemma {:induction false} FirstShortagePasses(items: seq<CartItem>, productMap: map<int, Product>)
    ensures FirstShortage(items, productMap).Pass? <==>
            forall i :: 0 <= i < |items| ==> ItemInStock(items[i], productMap)
    decreases |items|
  {
    if items != [] {
      FirstShortagePasses(items[1..], productMap);
      assert forall i :: 1 <= i < |items| ==> items[i] == items[1..][i - 1];
    }
  }

  /** The check passes exactly when the cart is non-empty and every item is in
      the map with at least as much stock as it asks for. */
  lemma {:induction false} StockCheckPasses(items: seq<CartItem>, productMap: map<int, Product>)
    ensures StockCheck(items, productMap).Pass? <==>
            items != [] && forall i :: 0 <= i < |items| ==> ItemInStock(items[i], productMap)
  {
    FirstShortagePasses(items, productMap);
  }

  /** A non-empty cart fails with the error of its first failing item, and with
      no other: a missing product is reported as not found, too little stock as out of stock. */
  lemma {:induction false} StockCheckFirstFailure(items: seq<CartItem>, productMap: map<int, Product>, k: int)
    requires 0 <= k < |items| && !ItemInStock(items[k], productMap)
    requires forall j :: 0 <= j < k ==> ItemInStock(items[j], productMap)
    ensures StockCheck(items, productMap) == Fail(ItemError(items[k], productMap))
    ensures items[k].productId !in productMap ==> StockCheck(items, productMap) == Fail(ProductNotFound(items[k].productId))
    ensures items[k].productId in productMap ==> StockCheck(items, productMap) == Fail(OutOfStock(items[k].productId))
    decreases k
  {
    if k > 0 {
      assert forall j :: 0 <= j < k - 1 ==> items[1..][j] == items[j + 1];
      StockCheckFirstFailure(items[1..], productMap, k - 1);
    }
  }

  /** The only errors the check reports are the empty cart and an error of one of the items. */
  lemma {:induction false} StockCheckErrors(items: seq<CartItem>, productMap: map<int, Product>)
    ensures StockCheck(items, productMap).Fail? ==>
            (items == [] && StockCheck(items, productMap).error == EmptyCart) ||
            (exists k :: 0 <= k < |items| && !ItemInStock(items[k], productMap) &&
                         StockCheck(items, productMap).error == ItemError(items[k], productMap))
  {
    if items != [] && StockCheck(items, productMap).Fail? {
      StockCheckPasses(items, productMap);
      var k := FirstFailing(items, productMap);
      StockCheckFirstFailure(items, productMap, k);
    }
  }

  /** The first position whose item fails the check, given that one does. */
  function FirstFailing(items: seq<CartItem>, productMap: map<int, Product>): (k: int)
    requires exists i :: 0 <= i < |items| && !ItemInStock(items[i], productMap)
    ensures 0 <= k < |items| && !ItemInStock(items[k], productMap)
    ensures forall j :: 0 <= j < k ==> ItemInStock(items[j], productMap)
    decreases |items|
  {
    if !ItemInStock(items[0], productMap) then 0
    else
      assert exists i :: 0 <= i < |items[1..]| && !ItemInStock(items[1..][i], productMap) by {
        var i :| 0 <= i < |items| && !ItemInStock(items[i], productMap);
        assert items[1..][i - 1] == items[i];
      }
      1 + FirstFailing(items[1..], productMap)
  }

  /** The check is per item: a cart passes exactly when it is non-empty and each
      of its items would pass alone, so quantities of repeated IDs are not added up. */
  lemma {:induction false} StockCheckPerItem(items: seq<CartItem>, productMap: map<int, Product>)
    ensures StockCheck(items, productMap).Pass? <==>
            items != [] && forall i :: 0 <= i < |items| ==> StockCheck([items[i]], productMap).Pass?
  {
    StockCheckPasses(items, productMap);
    forall i | 0 <= i < |items|
      ensures StockCheck([items[i]], productMap).Pass? <==> ItemInStock(items[i], productMap)
    {
      StockCheckPasses([items[i]], productMap);
    }
  }

  /** Example: two items of 3 units each pass against a stock of 5. */
  lemma RepeatedIdsNotSummed()
    ensures var stock := map[1 := Product(1, "mug", "", "", 1000, 5, "")];
            StockCheck([CartItem(1, 3), CartItem(1, 3)], stock) == Pass
  {
  }

  /** Example: the check itself lets zero and negative quantities through. */
  lemma NonPositiveQuantitiesPass()
    ensures var stock := map[1 := Product(1, "mug", "", "", 1000, 0, "")];
            StockCheck([CartItem(1, 0), CartItem(1, -2)], stock) == Pass
  {
  }

  // ---------------------------------------------------------------------------
  // The total (service.go:87-95) and the line items (service.go:56-63)
  // ---------------------------------------------------------------------------

  /** The total of a cart is the total of its first part plus that of the rest. */
  lemma {:induction false} TotalPriceAppend(a: seq<CartItem>, b: seq<CartItem>, productMap: map<int, Product>)
    ensures TotalPrice(a + b, productMap) == TotalPrice(a, productMap) + TotalPrice(b, productMap)
    decreases |b|
  {
    if b == [] {
      assert a + b == a;
    } else {
      var b' := b[..|b| - 1];
      assert (a + b)[..|a + b| - 1] == a + b';
      TotalPriceAppend(a, b', productMap);
    }
  }

  /** The total of one item is its snapshot price times its quantity; so the
      total is the sum, item by item, and 0 for an empty cart. */
  lemma {:induction false} TotalPriceCons(item: CartItem, rest: seq<CartItem>, productMap: map<int, Product>)
    ensures TotalPrice([item] + rest, productMap) ==
            Lookup(productMap, item.productId).price * item.quantity + TotalPrice(rest, productMap)
  {
    TotalPriceAppend([item], rest, productMap);
    assert [item][..0] == [];
  }

  /** The sum of price times quantity over order items. */
  function LineTotal(lines: seq<OrderItem>): int
    decreases |lines|
  {
    if lines == [] then 0
    else LineTotal(lines[..|lines| - 1]) + lines[|lines| - 1].price * lines[|lines| - 1].quantity
  }

  /** The order's total equals the sum of its line items' price times quantity. */
  lemma {:induction false} OrderTotalMatchesLineItems(lines: seq<OrderItem>, items: seq<CartItem>,
                                                      productMap: map<int, Product>, orderId: int)
    requires |lines| == |items|
    requires forall k :: 0 <= k < |items| ==> lines[k] == LineItem(items[k], productMap, orderId)
    ensures LineTotal(lines) == TotalPrice(items, productMap)
    decreases |items|
  {
    if items != [] {
      var n := |items| - 1;
      OrderTotalMatchesLineItems(lines[..n], items[..n], productMap, orderId);
    }
  }

  /** When every line-item call succeeded, the rows inserted are exactly the
      line items, one per cart item, in cart order. */
  lemma {:induction false} AllLineItemsStored(log: seq<Attempt<OrderItem>>, items: seq<CartItem>,
                                              productMap: map<int, Product>, orderId: int)
    requires InsertedLineItems(log, items, productMap, orderId)
    requires forall k :: 0 <= k < |log| ==> log[k].ok
    ensures |Stored(log)| == |items|
    ensures forall k :: 0 <= k < |items| ==> Stored(log)[k] == LineItem(items[k], productMap, orderId)
    ensures LineTotal(Stored(log)) == TotalPrice(items, productMap)
    decreases |log|
  {
    if log != [] {
      var n := |log| - 1;
      AllLineItemsStored(log[..n], items[..n], productMap, orderId);
    }
    OrderTotalMatchesLineItems(Stored(log), items, productMap, orderId);
  }

  /** Whatever fails, the rows inserted are some of the requests, never more. */
  lemma {:induction false} StoredAtMost(log: seq<Attempt<OrderItem>>)
    ensures |Stored(log)| <= |log|
    ensures forall x :: x in Stored(log) ==> exists k :: 0 <= k < |log| && log[k].request == x
    decreases |log|
  {
    if log != [] {
      var n := |log| - 1;
      StoredAtMost(log[..n]);
      forall x | x in Stored(log)
        ensures exists k :: 0 <= k < |log| && log[k].request == x
      {
        if x in Stored(log[..n]) {
          var k :| 0 <= k < n && log[..n][k].request == x;
          assert log[k].request == x;
        } else {
          assert log[n].request == x;
        }
      }
    }
  }

  // ---------------------------------------------------------------------------
  // The stock write-back (service.go:37-42)
  // ---------------------------------------------------------------------------

  /** Updates never add or remove products, nor change when a product was created. */
  lemma {:induction false} ApplyUpdatesKeys(table: map<int, Product>, log: seq<Attempt<Product>>)
    ensures ApplyUpdates(table, log).Keys == table.Keys
    ensures forall id :: id in table ==>
              ApplyUpdates(table, log)[id].id == table[id].id &&
              ApplyUpdates(table, log)[id].createdAt == table[id].createdAt
    decreases |log|
  {
    if log != [] {
      ApplyUpdatesKeys(table, log[..|log| - 1]);
    }
  }

  /** A product no successful call names keeps its row. */
  lemma {:induction false} ApplyUpdatesUntouched(table: map<int, Product>, log: seq<Attempt<Product>>, id: int)
    requires id in table
    requires forall j :: 0 <= j < |log| && log[j].ok ==> log[j].request.id != id
    ensures id in ApplyUpdates(table, log) && ApplyUpdates(table, log)[id] == table[id]
    decreases |log|
  {
    if log != [] {
      ApplyUpdatesUntouched(table, log[..|log| - 1], id);
    }
  }

  /** The last successful call on a product decides its row; earlier calls on it leave no trace
      but the creation time, which no call changes. */
  lemma {:induction false} ApplyUpdatesLastWins(table: map<int, Product>, log: seq<Attempt<Product>>, k: int)
    requires 0 <= k < |log| && log[k].ok && log[k].request.id in table
    requires forall j :: k < j < |log| && log[j].ok ==> log[j].request.id != log[k].request.id
    ensures var id := log[k].request.id;
            id in ApplyUpdates(table, log) &&
            ApplyUpdates(table, log)[id] == Updated(table[id], log[k].request)
    decreases |log|
  {
    var id := log[k].request.id;
    var n := |log| - 1;
    if k < n {
      ApplyUpdatesLastWins(table, log[..n], k);
    } else {
      ApplyUpdatesKeys(table, log[..n]);
      var before := ApplyUpdates(table, log[..n]);
      assert Updated(before[id], log[k].request) == Updated(table[id], log[k].request);
    }
  }

  /** Every record of the product map is stored under its own ID. */
  lemma {:induction false} ProductMapKeyedById(products: seq<Product>)
    ensures KeyedById(ProductMap(products))
    decreases |products|
  {
    if products != [] {
      ProductMapKeyedById(products[..|products| - 1]);
    }
  }

  /** After the write-backs, a product whose last write-back (item `k`) was
      stored holds the snapshot's name, description, image and price and the
      snapshot's quantity minus item `k`'s quantity: each write starts from the
      snapshot, so for repeated IDs only the last item's quantity is taken off. */
  lemma {:induction false} StockAfterWriteBack(table: map<int, Product>, log: seq<Attempt<Product>>,
                            items: seq<CartItem>, products: seq<Product>, k: int)
    requires WroteBack(log, items, ProductMap(products))
    requires StockCheck(items, ProductMap(products)).Pass?
    requires KeyedById(table)
    requires 0 <= k < |items| && log[k].ok && items[k].productId in table
    requires forall j :: k < j < |items| && log[j].ok ==> items[j].productId != items[k].productId
    ensures var id, snapshot := items[k].productId, Lookup(ProductMap(products), items[k].productId);
            id in ApplyUpdates(table, log) &&
            ApplyUpdates(table, log)[id] ==
              snapshot.(quantity := Wrap64(snapshot.quantity - items[k].quantity), createdAt := table[id].createdAt)
  {
    var productMap := ProductMap(products);
    StockCheckPasses(items, productMap);
    ProductMapKeyedById(products);
    assert ItemInStock(items[k], productMap);
    forall j | k < j < |items| && log[j].ok
      ensures log[j].request.id != log[k].request.id
    {
      assert ItemInStock(items[j], productMap);
    }
    ApplyUpdatesLastWins(table, log, k);
  }

  /** A checkout in which every write-back was stored, the cart names each
      product once with a positive quantity, and the table agreed with the
      snapshot, takes off each product exactly the quantity asked for. */
  lemma {:induction false} CheckoutDecrementsStock(table: map<int, Product>, log: seq<Attempt<Product>>,
                                items: seq<CartItem>, products: seq<Product>)
    requires WroteBack(log, items, ProductMap(products))
    requires StockCheck(items, ProductMap(products)).Pass?
    requires forall k :: 0 <= k < |log| ==> log[k].ok
    requires KeyedById(table)
    requires forall j, k :: 0 <= j < k < |items| ==> items[j].productId != items[k].productId
    requires forall k :: 0 <= k < |items| ==> items[k].quantity > 0
    requires forall k :: 0 <= k < |items| ==> items[k].productId in table && items[k].productId in ProductMap(products) &&
                                              table[items[k].productId] == ProductMap(products)[items[k].productId]
    requires forall p :: p in products ==> IsInt64(p.quantity)
    ensures forall k :: 0 <= k < |items| ==>
              items[k].productId in ApplyUpdates(table, log) &&
              ApplyUpdates(table, log)[items[k].productId].quantity == table[items[k].productId].quantity - items[k].quantity &&
              ApplyUpdates(table, log)[items[k].productId].quantity >= 0
  {
    var productMap := ProductMap(products);
    StockCheckPasses(items, productMap);
    forall k | 0 <= k < |items|
      ensures items[k].productId in ApplyUpdates(table, log)
      ensures ApplyUpdates(table, log)[items[k].productId].quantity == table[items[k].productId].quantity - items[k].quantity
      ensures ApplyUpdates(table, log)[items[k].productId].quantity >= 0
    {
      StockAfterWriteBack(table, log, items, products, k);
      ProductMapMember(products, items[k].productId);
      ValidatedWriteBackExact(items[k], productMap);
    }
  }

  /** A record of the map is one of the products. */
  lemma {:induction false} ProductMapMember(products: seq<Product>, id: int)
    requires id in ProductMap(products)
    ensures ProductMap(products)[id] in products
    decreases |products|
  {
    var n := |products| - 1;
    if id != products[n].id {
      ProductMapMember(products[..n], id);
    }
  }

  /** Example: two items of 2 and 3 units against a stock of 5 leave 2 in stock, not 0. */
  lemma RepeatedIdsLastWriteWins()
    ensures var snapshot := map[1 := Product(1, "mug", "", "", 1000, 5, "")];
            var items := [CartItem(1, 2), CartItem(1, 3)];
            var log := [Attempt(WriteBack(items[0], snapshot), true), Attempt(WriteBack(items[1], snapshot), true)];
            1 in ApplyUpdates(snapshot, log) && ApplyUpdates(snapshot, log)[1].quantity == 2
  {
    var snapshot := map[1 := Product(1, "mug", "", "", 1000, 5, "")];
    var items := [CartItem(1, 2), CartItem(1, 3)];
    var log := [Attempt(WriteBack(items[0], snapshot), true), Attempt(WriteBack(items[1], snapshot), true)];
    ApplyUpdatesLastWins(snapshot, log, 1);
  }

  /** A validated item (positive quantity, enough stock in range of Go's int)
      is written back with its stock reduced exactly, never below zero. */
  lemma {:induction false} ValidatedWriteBackExact(item: CartItem, productMap: map<int, Product>)
    requires item.quantity > 0 && ItemInStock(item, productMap)
    requires IsInt64(productMap[item.productId].quantity)
    ensures WriteBack(item, productMap).quantity == productMap[item.productId].quantity - item.quantity
    ensures 0 <= WriteBack(item, productMap).quantity < productMap[item.productId].quantity
  {
  }

  // ---------------------------------------------------------------------------
  // A client of the checkout
  // ---------------------------------------------------------------------------

  /** Two checkouts against one product of 5 units at 10.00: a cart of 2 units
      is priced 20.00 and, where the stores accept the calls, leaves 3 units and
      a pending order with one line item; a cart of 10 units is out of stock and
      leaves both stores untouched. */
  method CheckoutExamples() {
    var mug := Product(1, "mug", "", "", 1000, 5, "");
    assert ProductMap([mug]) == map[1 := mug];

    var products := new ProductStore(map[1 := mug]);
    var orders := new OrderStore(1);
    var handler := new Handler(products, orders);
    var orderId, total, err := handler.CreateOrder([mug], [CartItem(1, 2)], 42);
    assert |products.log| == 1 && products.log[0].request == mug.(quantity := 3);
    if products.log[0].ok {
      assert products.products[1].quantity == 3;
    }
    if err.Pass? {
      assert orderId == 1 && total == 2000;
      assert orders.orders == [Order(1, 42, 2000, "pending", "123 Main St", "")];
      assert orders.itemLog[0].request == OrderItem(0, 1, 1, 2, 1000, "");
      if orders.itemLog[0].ok {
        assert orders.orderItems == [OrderItem(0, 1, 1, 2, 1000, "")];
      }
    } else {
      assert orderId == 0 && total == 0 && orders.orders == [];
    }

    var products2 := new ProductStore(map[1 := mug]);
    var orders2 := new OrderStore(1);
    var handler2 := new Handler(products2, orders2);
    var orderId2, total2, err2 := handler2.CreateOrder([mug], [CartItem(1, 10)], 42);
    assert err2 == Fail(OutOfStock(1)) && orderId2 == 0 && total2 == 0;
    assert products2.products[1].quantity == 5 && products2.log == [] && orders2.orders == [];
  }
}
