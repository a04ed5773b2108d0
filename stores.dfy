/** The two stores the checkout calls (types/types.go:65-74), as abstract state.
    Any call may fail, as a database call may; which calls fail is not up to the
    caller, so each store decides it nondeterministically and records every call
    it received, with its outcome, in a log. */
module Stores {
  import opened Types

  /** One call a store received, and whether it reported success. */
  datatype Attempt<T> = Attempt(request: T, ok: bool)

  /** The row that `UPDATE products SET name, description, image, price, quantity
      WHERE id = p.id` leaves: every column but the creation time comes from `p`. */
  function Updated(row: Product, p: Product): Product {
    row.(name := p.name, description := p.description, image := p.image,
         price := p.price, quantity := p.quantity)
  }

  /** One successful update: a missing ID matches no row and changes nothing. */
  function ApplyUpdate(table: map<int, Product>, p: Product): map<int, Product> {
    if p.id in table then table[p.id := Updated(table[p.id], p)] else table
  }

  /** The product table after the calls of `log`, in order; a failed call changes nothing. */
  function ApplyUpdates(table: map<int, Product>, log: seq<Attempt<Product>>): map<int, Product>
    decreases |log|
  {
    if log == [] then table
    else
      var before := ApplyUpdates(table, log[..|log| - 1]);
      var last := log[|log| - 1];
      if last.ok then ApplyUpdate(before, last.request) else before
  }

  /** The rows that the successful calls of `log` inserted, in order. */
  function Stored<T>(log: seq<Attempt<T>>): seq<T>
    decreases |log|
  {
    if log == [] then []
    else
      var last := log[|log| - 1];
      Stored(log[..|log| - 1]) + (if last.ok then [last.request] else [])
  }

  /** One more call extends the fold by one step. */
  lemma {:induction false} ApplyUpdatesSnoc(table: map<int, Product>, log: seq<Attempt<Product>>, a: Attempt<Product>)
    ensures ApplyUpdates(table, log + [a]) ==
            if a.ok then ApplyUpdate(ApplyUpdates(table, log), a.request) else ApplyUpdates(table, log)
  {
    assert (log + [a])[..|log|] == log;
  }

  /** One more call inserts its request if, and only if, it succeeded. */
  lemma {:induction false} StoredSnoc<T>(log: seq<Attempt<T>>, a: Attempt<T>)
    ensures Stored(log + [a]) == Stored(log) + (if a.ok then [a.request] else [])
  {
    assert (log + [a])[..|log|] == log;
  }

  /** Every row sits under its own ID, as rows of a table keyed by its `id` column do. */
  predicate KeyedById(table: map<int, Product>) {
    forall id :: id in table ==> table[id].id == id
  }

  /** The product store: the products table, keyed by ID, and the log of
      `UpdateProduct` calls (service/product/store.go:66-72). */
  class ProductStore {
    var products: map<int, Product>
    var log: seq<Attempt<Product>>

    /** The table is keyed by its `id` column. */
    ghost predicate Valid()
      reads this
    {
      KeyedById(products)
    }

    constructor (initial: map<int, Product>)
      requires KeyedById(initial)
      ensures Valid()
      ensures products == initial && log == []
    {
      products := initial;
      log := [];
    }

    method UpdateProduct(p: Product) returns (err: Outcome)
      requires Valid()
      modifies this
      ensures Valid()
      ensures log == old(log) + [Attempt(p, err.Pass?)]
      ensures err.Fail? ==> err.error == StoreFailure
      ensures products == if err.Pass? then ApplyUpdate(old(products), p) else old(products)
    {
      var ok: bool :| true;
      if ok {
        products := ApplyUpdate(products, p);
        err := Pass;
      } else {
        err := Fail(StoreFailure);
      }
      log := log + [Attempt(p, ok)];
    }
  }

  /** The order store: the orders table, whose IDs come from a counter, the
      log of `CreateOrder` calls, the order-items table and the log of
      `CreateOrderItem` calls. */
  class OrderStore {
    var orders: seq<Order>
    var nextId: int
    var orderLog: seq<Attempt<Order>>
    var orderItems: seq<OrderItem>
    var itemLog: seq<Attempt<OrderItem>>

    constructor (firstId: int)
      ensures orders == [] && nextId == firstId && orderLog == []
      ensures orderItems == [] && itemLog == []
    {
      orders, nextId, orderLog := [], firstId, [];
      orderItems, itemLog := [], [];
    }

    /** Inserts `o` under a fresh ID and returns that ID, or fails, returning 0
        and storing nothing; either way the call is logged. */
    method CreateOrder(o: Order) returns (id: int, err: Outcome)
      modifies this
      ensures orderLog == old(orderLog) + [Attempt(o, err.Pass?)]
      ensures err.Pass? ==> id == old(nextId) && nextId == id + 1 && orders == old(orders) + [o.(id := id)]
      ensures err.Fail? ==> id == 0 && err.error == StoreFailure && orders == old(orders) && nextId == old(nextId)
      ensures orderItems == old(orderItems) && itemLog == old(itemLog)
    {
      var ok: bool :| true;
      orderLog := orderLog + [Attempt(o, ok)];
      if ok {
        id := nextId;
        orders := orders + [o.(id := id)];
        nextId := nextId + 1;
        err := Pass;
      } else {
        id, err := 0, Fail(StoreFailure);
      }
    }

    method CreateOrderItem(item: OrderItem) returns (err: Outcome)
      modifies this
      ensures itemLog == old(itemLog) + [Attempt(item, err.Pass?)]
      ensures err.Fail? ==> err.error == StoreFailure
      ensures orderItems == if err.Pass? then old(orderItems) + [item] else old(orderItems)
      ensures orders == old(orders) && nextId == old(nextId) && orderLog == old(orderLog)
    {
      var ok: bool :| true;
      if ok {
        orderItems := orderItems + [item];
        err := Pass;
      } else {
        err := Fail(StoreFailure);
      }
      itemLog := itemLog + [Attempt(item, ok)];
    }
  }
}
