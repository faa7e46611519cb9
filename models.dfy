/** The shop's persisted entities (myapp/models.py) and the values derived from them:
    the display name of a customer, the total of one order line and the two cart sums. */
module Models {

  datatype Option<T> = None | Some(value: T)

  type ProductId = nat
  type CustomerId = nat

  /** A registered customer; both fields are nullable character fields. */
  datatype Customer = Customer(name: Option<string>, email: Option<string>)

  const UnnamedCustomer: string := "Unnamed Customer"

  /** `Customer.__str__`: the name when it is set and non-empty, otherwise a fixed label. */
  function CustomerLabel(c: Customer): (r: string)
    ensures r != ""
    ensures c.name.Some? && c.name.value != "" ==> r == c.name.value
    ensures c.name.None? || c.name.value == "" ==> r == UnnamedCustomer
  {
    if c.name.Some? && c.name.value != "" then c.name.value else UnnamedCustomer
  }

  /** A catalog entry; the price is held exactly, in the smallest currency unit. */
  datatype Product = Product(id: ProductId, name: string, price: int)

  /** One line of an order: a product and a quantity. */
  datatype OrderItem = OrderItem(product: ProductId, quantity: int)

  /** An order is the customer's cart while `complete` is false. */
  datatype Order = Order(customer: CustomerId, complete: bool, transactionId: Option<string>,
                         lines: seq<OrderItem>)

  /** A delivery address recorded at checkout; `order` is the index of the order in the store. */
  datatype ShippingAddress = ShippingAddress(customer: CustomerId, order: nat, address: string,
                                             city: string, state: string, zipcode: string)

  /** A freshly created order row: the field defaults of `Order`. */
  function NewOrder(c: CustomerId): (o: Order)
    ensures o.customer == c && !o.complete && o.transactionId.None? && o.lines == []
  {
    Order(c, false, None, [])
  }

  /** A freshly created line row: the field default of `OrderItem.quantity`. */
  function NewOrderItem(p: ProductId): (item: OrderItem)
    ensures item.product == p && item.quantity == 0
  {
    OrderItem(p, 0)
  }

  /** The product with primary key `id` (the first one, should ids repeat). */
  function FindProduct(catalog: seq<Product>, id: ProductId): (r: Option<Product>)
    ensures r.Some? <==> exists k :: 0 <= k < |catalog| && catalog[k].id == id
    ensures r.Some? ==> r.value in catalog && r.value.id == id
  {
    if catalog == [] then None
    else if catalog[0].id == id then Some(catalog[0])
    else FindProduct(catalog[1..], id)
  }

  predicate AllProductsPresent(catalog: seq<Product>, lines: seq<OrderItem>)
  {
    forall k :: 0 <= k < |lines| ==> FindProduct(catalog, lines[k].product).Some?
  }

  predicate UniqueIds(catalog: seq<Product>)
  {
    forall j, k :: 0 <= j < k < |catalog| ==> catalog[j].id != catalog[k].id
  }

  /** `OrderItem.get_total`: defined only when the line's product exists. */
  function LineTotal(catalog: seq<Product>, item: OrderItem): (r: int)
    requires FindProduct(catalog, item.product).Some?
    ensures exists p :: p in catalog && p.id == item.product && r == p.price * item.quantity
    ensures UniqueIds(catalog) ==>
              forall k :: 0 <= k < |catalog| && catalog[k].id == item.product ==>
                            r == catalog[k].price * item.quantity
  {
    var p := FindProduct(catalog, item.product).value;
    assert UniqueIds(catalog) ==>
             forall k :: 0 <= k < |catalog| && catalog[k].id == item.product ==> catalog[k] == p;
    p.price * item.quantity
  }

  /** `Order.get_cart_items`: the number of units in the order. */
  function CartItems(lines: seq<OrderItem>): (r: int)
    ensures lines == [] ==> r == 0
    ensures (forall k :: 0 <= k < |lines| ==> lines[k].quantity > 0) ==> r >= |lines|
  {
    if lines == [] then 0 else lines[0].quantity + CartItems(lines[1..])
  }

  /** `Order.get_cart_total`: the order's price; every line's product must exist. */
  function CartTotal(catalog: seq<Product>, lines: seq<OrderItem>): (r: int)
    requires AllProductsPresent(catalog, lines)
    ensures lines == [] ==> r == 0
    ensures ((forall k :: 0 <= k < |catalog| ==> catalog[k].price >= 0) &&
             (forall k :: 0 <= k < |lines| ==> lines[k].quantity >= 0)) ==> r >= 0
  {
    if lines == [] then 0
    else
      assert AllProductsPresent(catalog, lines[1..]) by {
        forall k | 0 <= k < |lines[1..]| ensures FindProduct(catalog, lines[1..][k].product).Some? {
          assert lines[1..][k] == lines[k + 1];
        }
      }
      LineTotal(catalog, lines[0]) + CartTotal(catalog, lines[1..])
  }

  /** `Order.shipping`: the property never looks at the lines and is always false. */
  function Shipping(o: Order): (r: bool)
    ensures !r
  {
    false
  }

  lemma {:induction false} CartItemsConcat(a: seq<OrderItem>, b: seq<OrderItem>)
    ensures CartItems(a + b) == CartItems(a) + CartItems(b)
  {
    if a == [] {
      assert a + b == b;
    } else {
      assert (a + b)[1..] == a[1..] + b;
      CartItemsConcat(a[1..], b);
    }
  }

  lemma AllProductsPresentConcat(catalog: seq<Product>, a: seq<OrderItem>, b: seq<OrderItem>)
    ensures AllProductsPresent(catalog, a + b) <==>
            AllProductsPresent(catalog, a) && AllProductsPresent(catalog, b)
  {
    if AllProductsPresent(catalog, a + b) {
      forall k | 0 <= k < |a| ensures FindProduct(catalog, a[k].product).Some? {
        assert (a + b)[k] == a[k];
      }
      forall k | 0 <= k < |b| ensures FindProduct(catalog, b[k].product).Some? {
        assert (a + b)[|a| + k] == b[k];
      }
    }
    if AllProductsPresent(catalog, a) && AllProductsPresent(catalog, b) {
      forall k | 0 <= k < |a + b| ensures FindProduct(catalog, (a + b)[k].product).Some? {
        if k < |a| { assert (a + b)[k] == a[k]; } else { assert (a + b)[k] == b[k - |a|]; }
      }
    }
  }

  lemma {:induction false} CartTotalConcat(catalog: seq<Product>, a: seq<OrderItem>, b: seq<OrderItem>)
    requires AllProductsPresent(catalog, a) && AllProductsPresent(catalog, b)
    ensures AllProductsPresent(catalog, a + b)
    ensures CartTotal(catalog, a + b) == CartTotal(catalog, a) + CartTotal(catalog, b)
  {
    AllProductsPresentConcat(catalog, a, b);
    if a == [] {
      assert a + b == b;
    } else {
      assert (a + b)[1..] == a[1..] + b;
      AllProductsPresentConcat(catalog, [a[0]], a[1..]);
      assert [a[0]] + a[1..] == a;
      CartTotalConcat(catalog, a[1..], b);
    }
  }

  /** Adding a line with quantity q raises the unit count by q. */
  lemma CartItemsAppend(lines: seq<OrderItem>, item: OrderItem)
    ensures CartItems(lines + [item]) == CartItems(lines) + item.quantity
  {
    CartItemsConcat(lines, [item]);
  }

  /** Adding a line with quantity q raises the total by price * q. */
  lemma CartTotalAppend(catalog: seq<Product>, lines: seq<OrderItem>, item: OrderItem)
    requires AllProductsPresent(catalog, lines) && FindProduct(catalog, item.product).Some?
    ensures AllProductsPresent(catalog, lines + [item])
    ensures CartTotal(catalog, lines + [item]) == CartTotal(catalog, lines) + LineTotal(catalog, item)
  {
    CartTotalConcat(catalog, lines, [item]);
  }

  /** Deleting line i lowers the unit count by that line's quantity. */
  lemma CartItemsRemoveAt(lines: seq<OrderItem>, i: nat)
    requires i < |lines|
    ensures CartItems(lines[..i] + lines[i + 1..]) == CartItems(lines) - lines[i].quantity
  {
    assert lines == lines[..i] + ([lines[i]] + lines[i + 1..]);
    CartItemsConcat(lines[..i], [lines[i]] + lines[i + 1..]);
    CartItemsConcat([lines[i]], lines[i + 1..]);
    CartItemsConcat(lines[..i], lines[i + 1..]);
  }

  /** Changing the quantity of line i changes the unit count by the difference. */
  lemma CartItemsSetAt(lines: seq<OrderItem>, i: nat, q: int)
    requires i < |lines|
    ensures CartItems(lines[i := lines[i].(quantity := q)]) == CartItems(lines) - lines[i].quantity + q
  {
    var updated := lines[i := lines[i].(quantity := q)];
    assert updated == lines[..i] + ([updated[i]] + lines[i + 1..]);
    assert lines == lines[..i] + ([lines[i]] + lines[i + 1..]);
    CartItemsConcat(lines[..i], [lines[i]] + lines[i + 1..]);
    CartItemsConcat([lines[i]], lines[i + 1..]);
    CartItemsConcat(lines[..i], [updated[i]] + lines[i + 1..]);
    CartItemsConcat([updated[i]], lines[i + 1..]);
  }

  /** Deleting line i lowers the total by that line's total. */
  lemma CartTotalRemoveAt(catalog: seq<Product>, lines: seq<OrderItem>, i: nat)
    requires i < |lines| && AllProductsPresent(catalog, lines)
    ensures AllProductsPresent(catalog, lines[..i] + lines[i + 1..])
    ensures CartTotal(catalog, lines[..i] + lines[i + 1..]) ==
            CartTotal(catalog, lines) - LineTotal(catalog, lines[i])
  {
    var rest := [lines[i]] + lines[i + 1..];
    assert lines == lines[..i] + rest;
    AllProductsPresentConcat(catalog, lines[..i], rest);
    AllProductsPresentConcat(catalog, [lines[i]], lines[i + 1..]);
    CartTotalConcat(catalog, lines[..i], rest);
    CartTotalConcat(catalog, [lines[i]], lines[i + 1..]);
    CartTotalConcat(catalog, lines[..i], lines[i + 1..]);
  }

  /** Changing the quantity of line i changes the total by price times the difference. */
  lemma CartTotalSetAt(catalog: seq<Product>, lines: seq<OrderItem>, i: nat, q: int)
    requires i < |lines| && AllProductsPresent(catalog, lines)
    ensures AllProductsPresent(catalog, lines[i := lines[i].(quantity := q)])
    ensures CartTotal(catalog, lines[i := lines[i].(quantity := q)]) ==
            CartTotal(catalog, lines) - LineTotal(catalog, lines[i]) +
            LineTotal(catalog, lines[i].(quantity := q))
  {
    var updated := lines[i := lines[i].(quantity := q)];
    var rest := [lines[i]] + lines[i + 1..];
    var rest' := [updated[i]] + lines[i + 1..];
    assert lines == lines[..i] + rest;
    assert updated == lines[..i] + rest';
    AllProductsPresentConcat(catalog, lines[..i], rest);
    AllProductsPresentConcat(catalog, [lines[i]], lines[i + 1..]);
    AllProductsPresentConcat(catalog, [updated[i]], lines[i + 1..]);
    AllProductsPresentConcat(catalog, lines[..i], rest');
    CartTotalConcat(catalog, lines[..i], rest);
    CartTotalConcat(catalog, [lines[i]], lines[i + 1..]);
    CartTotalConcat(catalog, lines[..i], rest');
    CartTotalConcat(catalog, [updated[i]], lines[i + 1..]);
  }
}
