/**
 * The client routes that change the shop's tables step by step: the three
 * cart handlers and `create_order`. `Store` holds the product table, the
 * database cart lines, the next line id the database would assign, this
 * session's guest cart and the orders; every method does what its handler
 * does, and its contract ties the new state to the pure transition in
 * `CartLedger` or `Checkout`, whose lemmas carry the properties.
 */
module ClientStore {
  import opened Common
  import opened Seqs
  import opened CartLedger
  import opened Checkout
  import OrderTotals

  class Store {
    var products: map<int, Product>
    var items: seq<CartItem>
    var nextItemId: int
    var guest: seq<GuestItem>
    var orders: seq<Order>

    /** The cart tables as one value. */
    ghost function Cart(): Ledger
      reads this
    {
      Ledger(products, items, nextItemId, guest)
    }

    ghost predicate Valid()
      reads this
    {
      CartLedger.Valid(Cart()) && NumbersDistinct(orders)
    }

    constructor (catalog: map<int, Product>)
      ensures Cart() == Ledger(catalog, [], 1, []) && orders == []
      ensures Valid()
    {
      products := catalog;
      items := [];
      nextItemId := 1;
      guest := [];
      orders := [];
    }

    /** `client_cart_add`. */
    method Add(user: Option<int>, productId: int, qty: int) returns (status: Status)
      requires Valid()
      modifies this
      ensures (status, Cart()) == CartAdd(old(Cart()), user, productId, qty)
      ensures orders == old(orders)
      ensures Valid()
    {
      CartAddKeepsValid(Cart(), user, productId, qty);
      if productId !in products || !products[productId].active {
        return NotFound404;
      }
      var product := products[productId];
      if product.stock < qty {
        return BadRequest400;
      }
      if user.Some? {
        var line := Find(items, IsLine(user.value, productId));
        if line.Some? {
          var it := items[line.value];
          var q := it.quantity + qty;
          items := items[line.value := it.(quantity := q, totalPrice := it.unitPrice * q)];
        } else {
          items := items + [CartItem(nextItemId, user.value, productId, qty, product.price, product.price * qty)];
          nextItemId := nextItemId + 1;
        }
      } else {
        var entry := Find(guest, GuestHasProduct(productId));
        if entry.Some? {
          var g := guest[entry.value];
          guest := guest[entry.value := g.(quantity := g.quantity + qty)];
        } else {
          guest := guest + [GuestItem(NextGuestId(guest), productId, qty)];
        }
      }
      products := products[productId := product.(stock := product.stock - qty)];
      return Ok200;
    }

    /** `client_cart_remove`. */
    method Remove(user: Option<int>, itemId: int) returns (status: Status)
      requires Valid()
      modifies this
      ensures (status, Cart()) == CartRemove(old(Cart()), user, itemId)
      ensures orders == old(orders)
      ensures Valid()
    {
      CartRemoveKeepsValid(Cart(), user, itemId);
      if user.Some? {
        var found := Find(items, HasId(itemId));
        if found.None? {
          return InternalError500;
        }
        var k := found.value;
        var it := items[k];
        if it.owner != user.value {
          return Forbidden403;
        }
        products := Restock(products, it.productId, it.quantity);
        items := items[..k] + items[k + 1..];
      } else {
        var found := Find(guest, GuestHasId(itemId));
        if found.None? {
          return NotFound404;
        }
        var g := guest[found.value];
        products := Restock(products, g.productId, g.quantity);
        guest := Filter(guest, GuestKeeps(itemId));
      }
      return Ok200;
    }

    /** `client_cart_update`. */
    method Update(user: Option<int>, itemId: int, qty: int) returns (status: Status)
      requires Valid()
      modifies this
      ensures (status, Cart()) == CartUpdate(old(Cart()), user, itemId, qty)
      ensures orders == old(orders)
      ensures Valid()
    {
      CartUpdateKeepsValid(Cart(), user, itemId, qty);
      if user.Some? {
        var found := Find(items, HasId(itemId));
        if found.None? {
          return InternalError500;
        }
        var k := found.value;
        var it := items[k];
        if it.owner != user.value {
          return Forbidden403;
        }
        if qty <= 0 {
          products := Restock(products, it.productId, it.quantity);
          items := items[..k] + items[k + 1..];
        } else {
          var delta := qty - it.quantity;
          if delta > 0 && (it.productId !in products || products[it.productId].stock < delta) {
            return BadRequest400;
          }
          products := Restock(products, it.productId, -delta);
          items := items[k := it.(quantity := qty, totalPrice := it.unitPrice * qty)];
        }
      } else {
        var found := Find(guest, GuestHasId(itemId));
        if found.None? {
          return NotFound404;
        }
        var k := found.value;
        var g := guest[k];
        if qty <= 0 {
          products := Restock(products, g.productId, g.quantity);
          guest := Filter(guest, GuestKeeps(itemId));
        } else {
          var delta := qty - g.quantity;
          if delta > 0 && (g.productId !in products || products[g.productId].stock < delta) {
            return BadRequest400;
          }
          products := Restock(products, g.productId, -delta);
          guest := guest[k := g.(quantity := qty)];
        }
      }
      return Ok200;
    }

    /**
     * `create_order` for user `u`: `draws` are the suffixes the random
     * generator produces in turn, and the loop keeps drawing while the order
     * number is taken.
     */
    method CreateOrder(u: int, date: string, draws: seq<nat>, address: Option<string>, data: OrderData)
      returns (status: Status, number: Option<string>)
      requires Valid()
      requires exists i :: 0 <= i < |draws| && Unused(orders, date)(draws[i])
      modifies this
      ensures (status, Cart(), orders) == Checkout.CreateOrder(old(Cart()), old(orders), u, date, draws, address, data)
      ensures status == Ok200 <==> number.Some?
      ensures number.Some? ==> number.value == orders[|orders| - 1].number
      ensures Valid()
    {
      CreateOrderKeepsValid(Cart(), orders, u, date, draws, address, data);
      CreateOrderKeepsNumbersDistinct(Cart(), orders, u, date, draws, address, data);
      var after: Ledger;
      status, after, orders, number := PlaceOrder(Ledger(products, items, nextItemId, guest), orders, u, date, draws, address, data);
      products, items, nextItemId, guest := after.products, after.items, after.nextItemId, after.guest;
    }
  }

  /** The steps of `create_order` on the tables as values. */
  method PlaceOrder(l: Ledger, orders: seq<Order>, u: int, date: string, draws: seq<nat>, address: Option<string>, data: OrderData)
    returns (status: Status, l': Ledger, orders': seq<Order>, number: Option<string>)
    requires exists i :: 0 <= i < |draws| && Unused(orders, date)(draws[i])
    ensures (status, l', orders') == Checkout.CreateOrder(l, orders, u, date, draws, address, data)
    ensures status == Ok200 <==> number.Some?
    ensures number.Some? ==> number.value == orders'[|orders'| - 1].number
  {
    var mine := Filter(l.items, OwnedBy(u));
    if mine == [] {
      return BadRequest400, l, orders, None;
    }
    var subtotal := CreateOrderSubtotal(l.products, mine);
    if subtotal.None? {
      return InternalError500, l, orders, None;
    }
    var k := DrawOrderNumber(orders, date, draws);
    var candidate := OrderNumber(date, draws[k]);
    var lines := BuildOrderLines(l.products, mine);
    var order := Order(candidate, u, "pending", OrderTotals.ServerTotals(subtotal.value), address,
                       PaymentMethodOf(data), NotesOf(data), lines);
    l', orders' := l.(items := Filter(l.items, NotOwnedBy(u))), orders + [order];
    assert orders'[|orders'| - 1] == order;
    return Ok200, l', orders', Some(candidate);
  }

  /**
   * The order-number loop: the index of the first draw whose number is not
   * taken, which is where `while Order.query.filter_by(...).first()` stops.
   */
  method DrawOrderNumber(orders: seq<Order>, date: string, draws: seq<nat>) returns (k: nat)
    requires exists i :: 0 <= i < |draws| && Unused(orders, date)(draws[i])
    ensures k < |draws| && !NumberTaken(orders, OrderNumber(date, draws[k]))
    ensures forall j :: 0 <= j < k ==> NumberTaken(orders, OrderNumber(date, draws[j]))
    ensures FirstIndex(draws, Unused(orders, date)) == Some(k)
  {
    k := 0;
    var candidate := OrderNumber(date, draws[0]);
    while NumberTaken(orders, candidate)
      invariant 0 <= k < |draws| && candidate == OrderNumber(date, draws[k])
      invariant forall j :: 0 <= j < k ==> !Unused(orders, date)(draws[j])
      decreases |draws| - k
    {
      k := k + 1;
      candidate := OrderNumber(date, draws[k]);
    }
    assert Unused(orders, date)(draws[k]);
    FirstIndexAt(draws, Unused(orders, date), k);
  }

  /** The order lines, one per cart line whose product still exists, in cart order. */
  method BuildOrderLines(products: map<int, Product>, mine: seq<CartItem>) returns (lines: seq<OrderLine>)
    ensures lines == OrderLines(products, mine)
  {
    lines := [];
    for i := 0 to |mine|
      invariant lines == OrderLines(products, mine[..i])
    {
      assert mine[..i + 1][..i] == mine[..i];
      var it := mine[i];
      if it.productId in products {
        lines := lines + [OrderLine(it.productId, it.quantity, it.unitPrice, it.unitPrice * it.quantity)];
      }
    }
    assert mine[..|mine|] == mine;
  }
}
