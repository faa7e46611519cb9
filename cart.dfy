/** The line-level half of `updateItem` (myapp/views.py): get or create the order's line
    for a product at quantity 0, apply the action, save, and delete the line when its
    quantity is no longer positive. `Quantities` is the order's lines seen as a map from
    product to quantity. */
module Cart {
  import opened Models

  const AddAction: string := "add"
  const RemoveAction: string := "remove"

  /** The index of the line for product `pid`, as `OrderItem.objects.get(order, product)` finds it. */
  function FindLine(lines: seq<OrderItem>, pid: ProductId): (r: Option<nat>)
    ensures r.Some? ==> r.value < |lines| && lines[r.value].product == pid
    ensures r.Some? ==> forall k :: 0 <= k < r.value ==> lines[k].product != pid
    ensures r.None? <==> forall k :: 0 <= k < |lines| ==> lines[k].product != pid
  {
    if lines == [] then None
    else if lines[0].product == pid then Some(0)
    else match FindLine(lines[1..], pid)
      case None => None
      case Some(i) => Some(i + 1)
  }

  /** No two lines of one order name the same product. */
  predicate DistinctProducts(lines: seq<OrderItem>)
  {
    forall j, k :: 0 <= j < k < |lines| ==> lines[j].product != lines[k].product
  }

  /** No stored line has a quantity of zero or less. */
  predicate NoEmptyLines(lines: seq<OrderItem>)
  {
    forall k :: 0 <= k < |lines| ==> lines[k].quantity > 0
  }

  predicate ValidLines(catalog: seq<Product>, lines: seq<OrderItem>)
  {
    DistinctProducts(lines) && NoEmptyLines(lines) && AllProductsPresent(catalog, lines)
  }

  /** The quantity change of one request: +1 for "add", -1 for "remove", none otherwise. */
  function Adjust(quantity: int, action: string): (r: int)
    ensures quantity - 1 <= r <= quantity + 1
    ensures action != AddAction && action != RemoveAction ==> r == quantity
  {
    if action == AddAction then quantity + 1
    else if action == RemoveAction then quantity - 1
    else quantity
  }

  function RemoveLine(lines: seq<OrderItem>, i: nat): (r: seq<OrderItem>)
    requires i < |lines|
    ensures |r| == |lines| - 1
  {
    lines[..i] + lines[i + 1..]
  }

  /** Save line i with quantity q, then delete it if q <= 0. */
  function SaveLine(lines: seq<OrderItem>, i: nat, q: int): (r: seq<OrderItem>)
    requires i < |lines|
    ensures q <= 0 ==> |r| == |lines| - 1
    ensures q > 0 ==> |r| == |lines|
  {
    if q <= 0 then RemoveLine(lines, i) else lines[i := lines[i].(quantity := q)]
  }

  /** The lines of the order after one `updateItem` request for product `pid`. */
  function UpdateLines(lines: seq<OrderItem>, pid: ProductId, action: string): (r: seq<OrderItem>)
    ensures |lines| - 1 <= |r| <= |lines| + 1
  {
    match FindLine(lines, pid)
    case Some(i) => SaveLine(lines, i, Adjust(lines[i].quantity, action))
    case None => SaveLine(lines + [NewOrderItem(pid)], |lines|, Adjust(0, action))
  }

  /** The lines as a map from product to quantity (the first line of a product wins). */
  function Quantities(lines: seq<OrderItem>): (m: map<ProductId, int>)
  {
    if lines == [] then map[]
    else Quantities(lines[1..])[lines[0].product := lines[0].quantity]
  }

  /** The quantity the map view holds for `pid`, 0 when there is no line. */
  function QuantityOf(lines: seq<OrderItem>, pid: ProductId): (q: int)
  {
    var m := Quantities(lines);
    if pid in m then m[pid] else 0
  }

  /** The effect of one request on the map view: the reference definition of `UpdateLines`. */
  function UpdateQuantities(m: map<ProductId, int>, pid: ProductId, action: string): (r: map<ProductId, int>)
    ensures r - {pid} == m - {pid}
    ensures pid in r ==> r[pid] > 0
  {
    var q := Adjust(if pid in m then m[pid] else 0, action);
    if q <= 0 then m - {pid} else m[pid := q]
  }

  /** The map view has an entry for exactly the products that have a line. */
  lemma {:induction false} QuantitiesHas(lines: seq<OrderItem>, pid: ProductId)
    ensures pid in Quantities(lines) <==> FindLine(lines, pid).Some?
  {
    if lines != [] {
      QuantitiesHas(lines[1..], pid);
    }
  }

  lemma {:induction false} QuantitiesAt(lines: seq<OrderItem>, i: nat)
    requires DistinctProducts(lines) && i < |lines|
    ensures lines[i].product in Quantities(lines)
    ensures Quantities(lines)[lines[i].product] == lines[i].quantity
  {
    if i > 0 {
      assert lines[1..][i - 1] == lines[i];
      QuantitiesAt(lines[1..], i - 1);
    }
  }

  lemma {:induction false} QuantitiesSet(lines: seq<OrderItem>, i: nat, q: int)
    requires DistinctProducts(lines) && i < |lines|
    ensures Quantities(lines[i := lines[i].(quantity := q)]) == Quantities(lines)[lines[i].product := q]
  {
    var updated := lines[i := lines[i].(quantity := q)];
    if i > 0 {
      assert updated[1..] == lines[1..][i - 1 := lines[i].(quantity := q)];
      QuantitiesSet(lines[1..], i - 1, q);
    } else {
      assert updated[1..] == lines[1..];
    }
  }

  lemma {:induction false} QuantitiesRemove(lines: seq<OrderItem>, i: nat)
    requires DistinctProducts(lines) && i < |lines|
    ensures Quantities(RemoveLine(lines, i)) == Quantities(lines) - {lines[i].product}
  {
    var p0, q0 := lines[0].product, lines[0].quantity;
    var rest := Quantities(lines[1..]);
    if i > 0 {
      var removed := RemoveLine(lines, i);
      assert removed == [lines[0]] + RemoveLine(lines[1..], i - 1);
      assert removed[1..] == RemoveLine(lines[1..], i - 1);
      assert lines[1..][i - 1] == lines[i];
      QuantitiesRemove(lines[1..], i - 1);
      assert p0 != lines[i].product;
      assert Quantities(removed) == (rest - {lines[i].product})[p0 := q0];
      assert (rest - {lines[i].product})[p0 := q0] == rest[p0 := q0] - {lines[i].product};
    } else {
      assert RemoveLine(lines, i) == lines[1..];
      QuantitiesHas(lines[1..], p0);
      assert p0 !in rest;
      assert rest[p0 := q0] - {p0} == rest;
    }
  }

  lemma {:induction false} QuantitiesAppend(lines: seq<OrderItem>, item: OrderItem)
    requires forall k :: 0 <= k < |lines| ==> lines[k].product != item.product
    ensures Quantities(lines + [item]) == Quantities(lines)[item.product := item.quantity]
  {
    if lines != [] {
      assert (lines + [item])[1..] == lines[1..] + [item];
      QuantitiesAppend(lines[1..], item);
    } else {
      assert (lines + [item])[1..] == [];
    }
  }

  lemma DistinctProductsAppend(lines: seq<OrderItem>, item: OrderItem)
    requires DistinctProducts(lines)
    requires forall k :: 0 <= k < |lines| ==> lines[k].product != item.product
    ensures DistinctProducts(lines + [item])
  {
  }

  /** With distinct products, the line for `pid` is the one FindLine returns. */
  lemma FindLineUnique(lines: seq<OrderItem>, i: nat)
    requires DistinctProducts(lines) && i < |lines|
    ensures FindLine(lines, lines[i].product) == Some(i)
  {
  }

  lemma DistinctProductsRemove(lines: seq<OrderItem>, i: nat)
    requires DistinctProducts(lines) && i < |lines|
    ensures DistinctProducts(RemoveLine(lines, i))
  {
    var r := RemoveLine(lines, i);
    forall j, k | 0 <= j < k < |r| ensures r[j].product != r[k].product {
      var j' := if j < i then j else j + 1;
      var k' := if k < i then k else k + 1;
      assert r[j] == lines[j'] && r[k] == lines[k'];
    }
  }

  /** Saving line i keeps the products distinct and updates or drops its map entry. */
  lemma SaveLineQuantities(lines: seq<OrderItem>, i: nat, q: int)
    requires DistinctProducts(lines) && i < |lines|
    ensures DistinctProducts(SaveLine(lines, i, q))
    ensures Quantities(SaveLine(lines, i, q)) ==
            if q <= 0 then Quantities(lines) - {lines[i].product}
            else Quantities(lines)[lines[i].product := q]
  {
    if q <= 0 {
      QuantitiesRemove(lines, i);
      DistinctProductsRemove(lines, i);
    } else {
      QuantitiesSet(lines, i, q);
    }
  }

  /** `UpdateLines` agrees with the map-level definition on every order with distinct lines. */
  lemma UpdateLinesRefines(lines: seq<OrderItem>, pid: ProductId, action: string)
    requires DistinctProducts(lines)
    ensures DistinctProducts(UpdateLines(lines, pid, action))
    ensures Quantities(UpdateLines(lines, pid, action)) == UpdateQuantities(Quantities(lines), pid, action)
  {
    match FindLine(lines, pid)
    case Some(i) =>
      QuantitiesAt(lines, i);
      SaveLineQuantities(lines, i, Adjust(lines[i].quantity, action));
    case None =>
      var ls := lines + [NewOrderItem(pid)];
      DistinctProductsAppend(lines, NewOrderItem(pid));
      QuantitiesAppend(lines, NewOrderItem(pid));
      QuantitiesHas(lines, pid);
      SaveLineQuantities(ls, |lines|, Adjust(0, action));
      assert ls[|lines|].product == pid;
      assert Quantities(lines)[pid := 0] - {pid} == Quantities(lines) - {pid};
  }

  /** "add" raises the product's quantity by exactly one; an absent line is created and ends at 1. */
  lemma UpdateLinesAdd(lines: seq<OrderItem>, pid: ProductId)
    requires DistinctProducts(lines) && NoEmptyLines(lines)
    ensures Quantities(UpdateLines(lines, pid, AddAction)) ==
            Quantities(lines)[pid := QuantityOf(lines, pid) + 1]
    ensures pid !in Quantities(lines) ==> Quantities(UpdateLines(lines, pid, AddAction))[pid] == 1
  {
    UpdateLinesRefines(lines, pid, AddAction);
    QuantitiesHas(lines, pid);
    if pid in Quantities(lines) {
      QuantitiesAt(lines, FindLine(lines, pid).value);
    }
    assert Adjust(QuantityOf(lines, pid), AddAction) == QuantityOf(lines, pid) + 1 > 0;
  }

  /** "remove" lowers the quantity by exactly one and deletes a line that reaches zero;
      removing a product that has no line leaves it without one. */
  lemma UpdateLinesRemove(lines: seq<OrderItem>, pid: ProductId)
    requires DistinctProducts(lines)
    ensures Quantities(UpdateLines(lines, pid, RemoveAction)) ==
            if QuantityOf(lines, pid) - 1 <= 0 then Quantities(lines) - {pid}
            else Quantities(lines)[pid := QuantityOf(lines, pid) - 1]
    ensures pid !in Quantities(lines) ==> UpdateLines(lines, pid, RemoveAction) == lines
  {
    UpdateLinesRefines(lines, pid, RemoveAction);
    assert Adjust(QuantityOf(lines, pid), RemoveAction) == QuantityOf(lines, pid) - 1;
    QuantitiesHas(lines, pid);
    if pid !in Quantities(lines) {
      assert RemoveLine(lines + [NewOrderItem(pid)], |lines|) == lines;
    }
  }

  /** Any other action leaves an existing line as it is, and the line created at 0 for an
      absent product is deleted again: the lines do not change at all. */
  lemma UpdateLinesOther(lines: seq<OrderItem>, pid: ProductId, action: string)
    requires NoEmptyLines(lines)
    requires action != AddAction && action != RemoveAction
    ensures UpdateLines(lines, pid, action) == lines
  {
    match FindLine(lines, pid)
    case Some(i) =>
      assert lines[i := lines[i].(quantity := lines[i].quantity)] == lines;
    case None =>
      assert RemoveLine(lines + [NewOrderItem(pid)], |lines|) == lines;
  }

  /** Saving line i keeps every line's product in the catalog, products distinct, and,
      when line i was the only one that could be non-positive, no line non-positive. */
  lemma SaveLineValid(catalog: seq<Product>, lines: seq<OrderItem>, i: nat, q: int)
    requires DistinctProducts(lines) && AllProductsPresent(catalog, lines) && i < |lines|
    requires forall k :: 0 <= k < |lines| && k != i ==> lines[k].quantity > 0
    ensures ValidLines(catalog, SaveLine(lines, i, q))
  {
    SaveLineQuantities(lines, i, q);
    var r := SaveLine(lines, i, q);
    if q <= 0 {
      CartTotalRemoveAt(catalog, lines, i);
      forall k | 0 <= k < |r| ensures r[k].quantity > 0 {
        if k < i { assert r[k] == lines[k]; } else { assert r[k] == lines[k + 1]; }
      }
    } else {
      CartTotalSetAt(catalog, lines, i, q);
    }
  }

  /** The new line a request appends for an absent product is saved under the same rules. */
  lemma AppendedLineValid(catalog: seq<Product>, lines: seq<OrderItem>, pid: ProductId)
    requires ValidLines(catalog, lines) && FindProduct(catalog, pid).Some?
    requires FindLine(lines, pid).None?
    ensures DistinctProducts(lines + [NewOrderItem(pid)])
    ensures AllProductsPresent(catalog, lines + [NewOrderItem(pid)])
    ensures forall k :: 0 <= k < |lines| ==> (lines + [NewOrderItem(pid)])[k].quantity > 0
  {
    DistinctProductsAppend(lines, NewOrderItem(pid));
    CartTotalAppend(catalog, lines, NewOrderItem(pid));
  }

  /** After a request the touched product has no line with quantity <= 0, and the
      invariants of the order's lines are kept. */
  lemma UpdateLinesValid(catalog: seq<Product>, lines: seq<OrderItem>, pid: ProductId, action: string)
    requires ValidLines(catalog, lines) && FindProduct(catalog, pid).Some?
    ensures ValidLines(catalog, UpdateLines(lines, pid, action))
  {
    match FindLine(lines, pid)
    case Some(i) =>
      SaveLineValid(catalog, lines, i, Adjust(lines[i].quantity, action));
    case None =>
      AppendedLineValid(catalog, lines, pid);
      SaveLineValid(catalog, lines + [NewOrderItem(pid)], |lines|, Adjust(0, action));
  }

  /** The change in `get_cart_items` caused by one request on valid lines. */
  function ItemsDelta(lines: seq<OrderItem>, pid: ProductId, action: string): (d: int)
  {
    if action == AddAction then 1
    else if action == RemoveAction && FindLine(lines, pid).Some? then -1
    else 0
  }

  /** Saving line i with q moves the unit count from its old quantity to q, or to 0 when deleted. */
  lemma SaveLineCartItems(lines: seq<OrderItem>, i: nat, q: int)
    requires i < |lines|
    ensures CartItems(SaveLine(lines, i, q)) == CartItems(lines) - lines[i].quantity + (if q <= 0 then 0 else q)
  {
    if q <= 0 { CartItemsRemoveAt(lines, i); } else { CartItemsSetAt(lines, i, q); }
  }

  /** `get_cart_items` moves by +1 on "add", by -1 on "remove" of a present product,
      and not at all otherwise. */
  lemma UpdateLinesCartItems(lines: seq<OrderItem>, pid: ProductId, action: string)
    requires NoEmptyLines(lines)
    ensures CartItems(UpdateLines(lines, pid, action)) == CartItems(lines) + ItemsDelta(lines, pid, action)
  {
    match FindLine(lines, pid)
    case Some(i) =>
      assert lines[i].quantity > 0;
      SaveLineCartItems(lines, i, Adjust(lines[i].quantity, action));
    case None =>
      assert (lines + [NewOrderItem(pid)])[|lines|] == NewOrderItem(pid);
      CartItemsAppend(lines, NewOrderItem(pid));
      SaveLineCartItems(lines + [NewOrderItem(pid)], |lines|, Adjust(0, action));
  }

  /** The price of the product a line refers to (the line's product must exist). */
  function PriceOf(catalog: seq<Product>, pid: ProductId): (price: int)
    requires FindProduct(catalog, pid).Some?
  {
    FindProduct(catalog, pid).value.price
  }

  /** A line's total is its product's price times its quantity. */
  lemma LineTotalIsPriceTimesQuantity(catalog: seq<Product>, item: OrderItem)
    requires FindProduct(catalog, item.product).Some?
    ensures LineTotal(catalog, item) == PriceOf(catalog, item.product) * item.quantity
  {
  }

  lemma MulSub(a: int, b: int, c: int)
    ensures a * (b - c) == a * b - a * c
  {
  }

  /** Deleting line i lowers the total by its product's price times its quantity. */
  lemma RemoveLineCartTotal(catalog: seq<Product>, lines: seq<OrderItem>, i: nat)
    requires AllProductsPresent(catalog, lines) && i < |lines|
    ensures AllProductsPresent(catalog, RemoveLine(lines, i))
    ensures CartTotal(catalog, RemoveLine(lines, i)) ==
            CartTotal(catalog, lines) - PriceOf(catalog, lines[i].product) * lines[i].quantity
  {
    CartTotalRemoveAt(catalog, lines, i);
    LineTotalIsPriceTimesQuantity(catalog, lines[i]);
  }

  /** Setting line i to quantity q moves the total by its product's price times the change. */
  lemma SetLineCartTotal(catalog: seq<Product>, lines: seq<OrderItem>, i: nat, q: int)
    requires AllProductsPresent(catalog, lines) && i < |lines|
    ensures AllProductsPresent(catalog, lines[i := lines[i].(quantity := q)])
    ensures CartTotal(catalog, lines[i := lines[i].(quantity := q)]) ==
            CartTotal(catalog, lines) + PriceOf(catalog, lines[i].product) * (q - lines[i].quantity)
  {
    CartTotalSetAt(catalog, lines, i, q);
    LineTotalIsPriceTimesQuantity(catalog, lines[i]);
    LineTotalIsPriceTimesQuantity(catalog, lines[i].(quantity := q));
    MulSub(PriceOf(catalog, lines[i].product), q, lines[i].quantity);
  }

  /** Saving line i with q moves the total by the price times the change in its quantity. */
  lemma SaveLineCartTotal(catalog: seq<Product>, lines: seq<OrderItem>, i: nat, q: int)
    requires AllProductsPresent(catalog, lines) && i < |lines|
    ensures AllProductsPresent(catalog, SaveLine(lines, i, q))
    ensures CartTotal(catalog, SaveLine(lines, i, q)) ==
            CartTotal(catalog, lines) +
            PriceOf(catalog, lines[i].product) * ((if q <= 0 then 0 else q) - lines[i].quantity)
  {
    var price, qty := PriceOf(catalog, lines[i].product), lines[i].quantity;
    if q <= 0 {
      RemoveLineCartTotal(catalog, lines, i);
      MulSub(price, 0, qty);
    } else {
      SetLineCartTotal(catalog, lines, i, q);
    }
  }

  /** `get_cart_total` moves by the product's price times the same delta. */
  lemma UpdateLinesCartTotal(catalog: seq<Product>, lines: seq<OrderItem>, pid: ProductId, action: string)
    requires ValidLines(catalog, lines) && FindProduct(catalog, pid).Some?
    ensures AllProductsPresent(catalog, UpdateLines(lines, pid, action))
    ensures CartTotal(catalog, UpdateLines(lines, pid, action)) ==
            CartTotal(catalog, lines) + PriceOf(catalog, pid) * ItemsDelta(lines, pid, action)
  {
    var d := ItemsDelta(lines, pid, action);
    var price := PriceOf(catalog, pid);
    var ls, i, q;
    if FindLine(lines, pid).Some? {
      ls, i := lines, FindLine(lines, pid).value;
      q := Adjust(lines[i].quantity, action);
    } else {
      ls, i := lines + [NewOrderItem(pid)], |lines|;
      q := Adjust(0, action);
      CartTotalAppend(catalog, lines, NewOrderItem(pid));
      assert LineTotal(catalog, NewOrderItem(pid)) == price * 0 == 0;
    }
    assert UpdateLines(lines, pid, action) == SaveLine(ls, i, q);
    assert CartTotal(catalog, ls) == CartTotal(catalog, lines);
    assert (if q <= 0 then 0 else q) - ls[i].quantity == d;
    SaveLineCartTotal(catalog, ls, i, q);
  }

  /** Removing a product right after adding it restores the lines exactly. */
  lemma AddThenRemove(lines: seq<OrderItem>, pid: ProductId)
    requires DistinctProducts(lines) && NoEmptyLines(lines)
    ensures UpdateLines(UpdateLines(lines, pid, AddAction), pid, RemoveAction) == lines
  {
    var added := UpdateLines(lines, pid, AddAction);
    match FindLine(lines, pid)
    case Some(i) =>
      assert added == lines[i := lines[i].(quantity := lines[i].quantity + 1)];
      FindLineUnique(added, i);
      assert added[i := added[i].(quantity := lines[i].quantity)] == lines;
    case None =>
      assert added == lines + [OrderItem(pid, 1)];
      DistinctProductsAppend(lines, OrderItem(pid, 1));
      FindLineUnique(added, |lines|);
      assert RemoveLine(added, |lines|) == lines;
  }
}
