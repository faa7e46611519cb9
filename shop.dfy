/** The request handlers of the cart (myapp/views.py) as methods of one in-memory store.
    The catalog is fixed; the orders and shipping addresses are the rows the handlers
    create, update and delete. An order's position in `orders` is its primary key. */
module Views {
  import opened Models
  import opened Cart
  import opened Orders

  const ItemUpdatedReply: string := "Item was added"
  const OrderPlacedReply: string := "Order placed successfully!"
  const NotLoggedInReply: string := "User is not logged in"

  /** The JSON replies of the handlers; `ProductDoesNotExist` is the exception that
      `Product.objects.get` raises for an unknown id. */
  datatype Reply = Message(message: string) | Error(error: string) | ProductDoesNotExist

  /** The `shipping` part of a checkout submission. */
  datatype ShippingInfo = ShippingInfo(address: string, city: string, state: string, zipcode: string)

  class Shop {
    const catalog: seq<Product>
    var orders: seq<Order>
    var addresses: seq<ShippingAddress>

    ghost predicate Valid()
      reads this
    {
      && UniqueIds(catalog)
      && StoreInvariant(catalog, orders)
      && forall k :: 0 <= k < |addresses| ==> addresses[k].order < |orders|
    }

    constructor (catalog: seq<Product>)
      requires UniqueIds(catalog)
      ensures Valid()
      ensures this.catalog == catalog && orders == [] && addresses == []
    {
      this.catalog := catalog;
      orders := [];
      addresses := [];
    }

    /** `Order.objects.get_or_create(customer=customer, complete=False)`. */
    method GetOrCreateOpenOrder(customer: CustomerId) returns (index: nat, created: bool)
      requires Valid()
      modifies this
      ensures Valid()
      ensures created <==> FindOpenOrder(old(orders), customer).None?
      ensures orders == if created then old(orders) + [NewOrder(customer)] else old(orders)
      ensures index < |orders| && IsOpenOrderOf(orders[index], customer)
      ensures forall k :: 0 <= k < |orders| && IsOpenOrderOf(orders[k], customer) ==> k == index
      ensures orders == WithOpenOrder(old(orders), customer) && index == OpenIndex(old(orders), customer)
      ensures addresses == old(addresses)
    {
      GetOrCreateSpec(catalog, orders, customer);
      var found := FindOpenOrder(orders, customer);
      if found.Some? {
        index, created := found.value, false;
      } else {
        orders := orders + [NewOrder(customer)];
        index, created := |orders| - 1, true;
      }
    }

    /** `updateItem`: add one unit of a product to the customer's cart, or remove one. */
    method UpdateItem(customer: CustomerId, productId: ProductId, action: string) returns (reply: Reply)
      requires Valid()
      modifies this
      ensures Valid()
      ensures FindProduct(catalog, productId).None? ==> reply == ProductDoesNotExist && orders == old(orders)
      ensures FindProduct(catalog, productId).Some? ==>
                && reply == Message(ItemUpdatedReply)
                && orders == UpdateItemOrders(old(orders), customer, productId, action)
      ensures addresses == old(addresses)
    {
      var product := FindProduct(catalog, productId);
      if product.None? {
        return ProductDoesNotExist;
      }
      ghost var before := orders;
      var index, _ := GetOrCreateOpenOrder(customer);
      ghost var os := orders;
      var order := orders[index];
      var lines := order.lines;
      // OrderItem.objects.get_or_create(order=order, product=product)
      var i: nat;
      var found := FindLine(lines, productId);
      if found.Some? {
        i := found.value;
      } else {
        lines := lines + [NewOrderItem(productId)];
        orders := orders[index := order.(lines := lines)];
        i := |lines| - 1;
        assert orders == os[index := order.(lines := lines)];
      }
      ghost var withLine := lines;
      // += 1 for "add", -= 1 for "remove"
      var quantity := Adjust(lines[i].quantity, action);
      // orderItem.save()
      lines := lines[i := lines[i].(quantity := quantity)];
      orders := orders[index := order.(lines := lines)];
      assert orders == os[index := order.(lines := lines)];
      if quantity <= 0 {
        // orderItem.delete()
        lines := RemoveLine(lines, i);
        orders := orders[index := order.(lines := lines)];
        assert orders == os[index := order.(lines := lines)];
      }
      assert lines == SaveLine(withLine, i, quantity);
      assert lines == UpdateLines(order.lines, productId, action);
      UpdateItemPreservesInvariant(catalog, before, customer, productId, action);
      assert orders == UpdateItemOrders(before, customer, productId, action);
      reply := Message(ItemUpdatedReply);
    }

    /** `processOrder`: check out the customer's open order against the submitted total. */
    method ProcessOrder(user: Option<CustomerId>, submittedTotal: int, transactionId: string,
                        shipping: Option<ShippingInfo>) returns (reply: Reply)
      requires Valid()
      modifies this
      ensures Valid()
      ensures user.None? ==>
                reply == Error(NotLoggedInReply) && orders == old(orders) && addresses == old(addresses)
      ensures user.Some? ==>
                && reply == Message(OrderPlacedReply)
                && orders == CheckoutOrders(catalog, old(orders), user.value, submittedTotal, transactionId)
      ensures user.Some? && shipping.None? ==> addresses == old(addresses)
      ensures user.Some? && shipping.Some? ==>
                addresses == old(addresses) +
                  [ShippingAddress(user.value, OpenIndex(old(orders), user.value), shipping.value.address,
                                   shipping.value.city, shipping.value.state, shipping.value.zipcode)]
    {
      if user.None? {
        return Error(NotLoggedInReply);
      }
      var customer := user.value;
      ghost var before := orders;
      CheckoutSpec(catalog, before, customer, submittedTotal, transactionId);
      var index, _ := GetOrCreateOpenOrder(customer);
      var order := orders[index];
      // the id is set on the order object, but only the matching branch saves it
      order := order.(transactionId := Some(transactionId));
      assert ValidOrder(catalog, orders[index]);
      if submittedTotal == CartTotal(catalog, order.lines) {
        order := order.(complete := true);
        orders := orders[index := order];
      }
      if shipping.Some? {
        var info := shipping.value;
        addresses := addresses + [ShippingAddress(customer, index, info.address, info.city, info.state, info.zipcode)];
      }
      reply := Message(OrderPlacedReply);
    }
  }
}
