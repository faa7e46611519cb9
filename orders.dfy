/** The store-level effect of the cart views (myapp/views.py) on the sequence of orders:
    get or create a customer's open order, apply an `updateItem` request to it, and check
    it out in `processOrder`. The store invariant is that every customer has at most one
    open order, that every order's lines are valid and that an order holds a transaction
    id exactly when it is complete. */
module Orders {
  import opened Models
  import opened Cart

  predicate IsOpenOrderOf(o: Order, c: CustomerId)
  {
    o.customer == c && !o.complete
  }

  /** The index of customer c's open order, as `Order.objects.get(customer=c, complete=False)` finds it. */
  function FindOpenOrder(orders: seq<Order>, c: CustomerId): (r: Option<nat>)
    ensures r.Some? ==> r.value < |orders| && IsOpenOrderOf(orders[r.value], c)
    ensures r.None? <==> forall k :: 0 <= k < |orders| ==> !IsOpenOrderOf(orders[k], c)
  {
    if orders == [] then None
    else if IsOpenOrderOf(orders[0], c) then Some(0)
    else match FindOpenOrder(orders[1..], c)
      case None => None
      case Some(i) => Some(i + 1)
  }

  predicate AtMostOneOpenOrder(orders: seq<Order>)
  {
    forall j, k :: 0 <= j < k < |orders| && orders[j].customer == orders[k].customer ==>
      orders[j].complete || orders[k].complete
  }

  predicate ValidOrder(catalog: seq<Product>, o: Order)
  {
    ValidLines(catalog, o.lines) && (o.complete <==> o.transactionId.Some?)
  }

  predicate StoreInvariant(catalog: seq<Product>, orders: seq<Order>)
  {
    AtMostOneOpenOrder(orders) && forall k :: 0 <= k < |orders| ==> ValidOrder(catalog, orders[k])
  }

  /** The orders after get-or-create: unchanged when an open order exists, else one new order appended. */
  function WithOpenOrder(orders: seq<Order>, c: CustomerId): (r: seq<Order>)
    ensures |r| == |orders| || |r| == |orders| + 1
  {
    if FindOpenOrder(orders, c).Some? then orders else orders + [NewOrder(c)]
  }

  /** The index of the open order that get-or-create returns. */
  function OpenIndex(orders: seq<Order>, c: CustomerId): (i: nat)
    ensures i <= |orders|
  {
    match FindOpenOrder(orders, c)
    case Some(i) => i
    case None => |orders|
  }

  /** Get-or-create yields exactly one open order for c, keeps every earlier order and
      the invariant, and adds an order only when c had none open. */
  lemma GetOrCreateSpec(catalog: seq<Product>, orders: seq<Order>, c: CustomerId)
    requires StoreInvariant(catalog, orders)
    ensures var os, i := WithOpenOrder(orders, c), OpenIndex(orders, c);
            && StoreInvariant(catalog, os)
            && i < |os| && IsOpenOrderOf(os[i], c)
            && (forall k :: 0 <= k < |os| && IsOpenOrderOf(os[k], c) ==> k == i)
            && os[..|orders|] == orders
            && (|os| == |orders| + 1 <==> FindOpenOrder(orders, c).None?)
            && (FindOpenOrder(orders, c).None? ==> os[|orders|] == NewOrder(c))
            && (|os| == |orders| || |os| == |orders| + 1)
  {
    var os := WithOpenOrder(orders, c);
    if FindOpenOrder(orders, c).None? {
      assert os[..|orders|] == orders;
      forall k | 0 <= k < |os| ensures ValidOrder(catalog, os[k]) {
        if k < |orders| { assert os[k] == orders[k]; }
      }
    }
  }

  /** The orders after one `updateItem` request for a product that exists. */
  function UpdateItemOrders(orders: seq<Order>, c: CustomerId, pid: ProductId, action: string): (r: seq<Order>)
    ensures |r| == |WithOpenOrder(orders, c)|
  {
    var os, i := WithOpenOrder(orders, c), OpenIndex(orders, c);
    if i < |os| then os[i := os[i].(lines := UpdateLines(os[i].lines, pid, action))] else os
  }

  /** `updateItem` keeps the store invariant (one open order per customer, no line with a
      quantity <= 0), changes only c's open order, never touches a completed order, and
      applies `UpdateLines` to that open order's lines. */
  lemma UpdateItemPreservesInvariant(catalog: seq<Product>, orders: seq<Order>, c: CustomerId,
                                     pid: ProductId, action: string)
    requires StoreInvariant(catalog, orders) && FindProduct(catalog, pid).Some?
    ensures var r, i := UpdateItemOrders(orders, c, pid, action), OpenIndex(orders, c);
            && StoreInvariant(catalog, r)
            && i < |r| && IsOpenOrderOf(r[i], c)
            && r[i].lines == UpdateLines(WithOpenOrder(orders, c)[i].lines, pid, action)
            && (|r| == |orders| || |r| == |orders| + 1)
            && (forall k :: 0 <= k < |orders| && k != i ==> r[k] == orders[k])
            && (forall k :: 0 <= k < |orders| && orders[k].complete ==> r[k] == orders[k])
  {
    GetOrCreateSpec(catalog, orders, c);
    var os, i := WithOpenOrder(orders, c), OpenIndex(orders, c);
    var r := UpdateItemOrders(orders, c, pid, action);
    UpdateLinesValid(catalog, os[i].lines, pid, action);
    assert forall k :: 0 <= k < |orders| ==> os[k] == orders[k];
    forall k | 0 <= k < |r| ensures ValidOrder(catalog, r[k]) {
      if k != i { assert r[k] == os[k]; }
    }
    forall j, k | 0 <= j < k < |r| && r[j].customer == r[k].customer
      ensures r[j].complete || r[k].complete
    {
      assert r[j].complete == os[j].complete && r[j].customer == os[j].customer;
      assert r[k].complete == os[k].complete && r[k].customer == os[k].customer;
    }
  }

  /** `updateItem` changes c's unit count by `ItemsDelta` and its cart total by the
      product's price times that delta. */
  lemma UpdateItemTotals(catalog: seq<Product>, orders: seq<Order>, c: CustomerId,
                         pid: ProductId, action: string)
    requires StoreInvariant(catalog, orders) && FindProduct(catalog, pid).Some?
    ensures var before, after := WithOpenOrder(orders, c), UpdateItemOrders(orders, c, pid, action);
            var i := OpenIndex(orders, c);
            && i < |before| && i < |after|
            && AllProductsPresent(catalog, before[i].lines)
            && AllProductsPresent(catalog, after[i].lines)
            && CartItems(after[i].lines) ==
               CartItems(before[i].lines) + ItemsDelta(before[i].lines, pid, action)
            && CartTotal(catalog, after[i].lines) ==
               CartTotal(catalog, before[i].lines) + PriceOf(catalog, pid) * ItemsDelta(before[i].lines, pid, action)
  {
    GetOrCreateSpec(catalog, orders, c);
    var os, i := WithOpenOrder(orders, c), OpenIndex(orders, c);
    assert ValidOrder(catalog, os[i]);
    UpdateLinesCartItems(os[i].lines, pid, action);
    UpdateLinesCartTotal(catalog, os[i].lines, pid, action);
  }

  /** The orders after `processOrder` by customer c: the open order is fetched or created,
      and it is saved as complete with the transaction id only when the submitted total
      equals its cart total; otherwise nothing about it is saved. */
  function CheckoutOrders(catalog: seq<Product>, orders: seq<Order>, c: CustomerId,
                          submittedTotal: int, transactionId: string): (r: seq<Order>)
    requires StoreInvariant(catalog, orders)
    ensures |r| == |WithOpenOrder(orders, c)|
  {
    GetOrCreateSpec(catalog, orders, c);
    var os, i := WithOpenOrder(orders, c), OpenIndex(orders, c);
    assert ValidOrder(catalog, os[i]);
    if submittedTotal == CartTotal(catalog, os[i].lines)
    then os[i := os[i].(complete := true, transactionId := Some(transactionId))]
    else os
  }

  /** Checkout completes the open order and stores the transaction id exactly when the
      submitted total matches; on a mismatch the open order stays open without an id.
      Every other order is untouched and the invariant is kept. */
  lemma CheckoutSpec(catalog: seq<Product>, orders: seq<Order>, c: CustomerId,
                     submittedTotal: int, transactionId: string)
    requires StoreInvariant(catalog, orders)
    ensures var os, i := WithOpenOrder(orders, c), OpenIndex(orders, c);
            var r := CheckoutOrders(catalog, orders, c, submittedTotal, transactionId);
            && StoreInvariant(catalog, r)
            && i < |os| == |r|
            && AllProductsPresent(catalog, os[i].lines)
            && r[i].lines == os[i].lines && r[i].customer == c
            && (r[i].complete <==> submittedTotal == CartTotal(catalog, os[i].lines))
            && (r[i].transactionId == if r[i].complete then Some(transactionId) else None)
            && (submittedTotal != CartTotal(catalog, os[i].lines) ==> r == os)
            && (forall k :: 0 <= k < |r| && k != i ==> r[k] == os[k])
            && os[..|orders|] == orders
  {
    GetOrCreateSpec(catalog, orders, c);
    var os, i := WithOpenOrder(orders, c), OpenIndex(orders, c);
    var r := CheckoutOrders(catalog, orders, c, submittedTotal, transactionId);
    assert ValidOrder(catalog, os[i]);
    forall k | 0 <= k < |r| ensures ValidOrder(catalog, r[k]) {
      if k != i { assert r[k] == os[k]; }
    }
    forall j, k | 0 <= j < k < |r| && r[j].customer == r[k].customer
      ensures r[j].complete || r[k].complete
    {
      if j != i { assert r[j] == os[j]; }
      if k != i { assert r[k] == os[k]; }
    }
  }

  /** An empty cart submitted with a total of 0 completes. */
  lemma CheckoutEmptyCart(catalog: seq<Product>, orders: seq<Order>, c: CustomerId, transactionId: string)
    requires StoreInvariant(catalog, orders)
    requires FindOpenOrder(orders, c).None? || orders[FindOpenOrder(orders, c).value].lines == []
    ensures var r := CheckoutOrders(catalog, orders, c, 0, transactionId);
            var i := OpenIndex(orders, c);
            i < |r| && r[i].complete && r[i].transactionId == Some(transactionId)
  {
    CheckoutSpec(catalog, orders, c, 0, transactionId);
  }

  /** After a successful checkout c has no open order, so the next cart request creates one. */
  lemma CheckoutClosesCart(catalog: seq<Product>, orders: seq<Order>, c: CustomerId,
                           submittedTotal: int, transactionId: string)
    requires StoreInvariant(catalog, orders)
    requires submittedTotal == CartTotal(catalog, WithOpenOrder(orders, c)[OpenIndex(orders, c)].lines)
    ensures FindOpenOrder(CheckoutOrders(catalog, orders, c, submittedTotal, transactionId), c).None?
  {
    CheckoutSpec(catalog, orders, c, submittedTotal, transactionId);
    GetOrCreateSpec(catalog, orders, c);
  }
}
