/**
 * `create_order`: turning a signed-in user's cart into an order. The cart
 * must hold at least one line; the subtotal reads each line's price snapshot
 * (or the product's price when the snapshot is 0); the order number is "ORD",
 * the date and a random suffix in [1000, 9999], drawn again while the number
 * is taken; the order lines are built from the cart lines before those are
 * deleted, and the stock is not touched (the units were reserved when they
 * went into the cart).
 */
module Checkout {
  import opened Common
  import opened Seqs
  import opened Text
  import opened CartLedger
  import OrderTotals

  /**
   * An order as the corrected `create_order` stores it. `totals` is the
   * whole record the handler computes; the order table has a column for its
   * total only, and passing the other three is what makes the handler as
   * written fail (see `CreateOrderAsWritten`).
   */
  datatype Order = Order(
    number: string,
    owner: int,
    status: string,
    totals: OrderTotals.Totals,
    shippingAddress: Option<string>,
    paymentMethod: string,
    notes: string,
    lines: seq<OrderLine>)

  /** The `payment_method` and `notes` keys of the request body, when present. */
  datatype OrderData = OrderData(paymentMethod: Option<string>, notes: Option<string>)

  const DefaultPaymentMethod: string := "Tarjeta de crédito"

  /** `data.get('payment_method', 'Tarjeta de crédito')`. */
  function PaymentMethodOf(data: OrderData): string {
    if data.paymentMethod.Some? then data.paymentMethod.value else DefaultPaymentMethod
  }

  /** `data.get('notes', '')`. */
  function NotesOf(data: OrderData): string {
    if data.notes.Some? then data.notes.value else ""
  }

  /** `f"ORD{timestamp}{random_suffix}"`, with the date already formatted as yyyymmdd. */
  function OrderNumber(date: string, suffix: nat): (n: string)
    ensures |n| >= 4 + |date| && n[..3] == "ORD" && n[3..3 + |date|] == date
  {
    "ORD" + date + NatToString(suffix)
  }

  predicate NumberTaken(orders: seq<Order>, number: string) {
    exists i :: 0 <= i < |orders| && orders[i].number == number
  }

  /** A draw whose order number is still free. */
  function Unused(orders: seq<Order>, date: string): nat -> bool {
    (d: nat) => !NumberTaken(orders, OrderNumber(date, d))
  }

  /** No two orders share a number. */
  ghost predicate NumbersDistinct(orders: seq<Order>) {
    forall i, j :: 0 <= i < j < |orders| ==> orders[i].number != orders[j].number
  }

  /**
   * `create_order` for user `u`. `draws` are the successive results of
   * `random.randint(1000, 9999)`; the handler loops until one gives a free
   * number, so one of them must.
   */
  function CreateOrder(l: Ledger, orders: seq<Order>, u: int, date: string, draws: seq<nat>,
                       address: Option<string>, data: OrderData): (Status, Ledger, seq<Order>)
    requires exists i :: 0 <= i < |draws| && Unused(orders, date)(draws[i])
  {
    var mine := Filter(l.items, OwnedBy(u));
    if mine == [] then (BadRequest400, l, orders)
    else
      var subtotal := CreateOrderSubtotal(l.products, mine);
      if subtotal.None? then (InternalError500, l, orders)
      else
        var k := FirstIndex(draws, Unused(orders, date)).value;
        var order := Order(OrderNumber(date, draws[k]), u, "pending", OrderTotals.ServerTotals(subtotal.value),
                           address, PaymentMethodOf(data), NotesOf(data), OrderLines(l.products, mine));
        (Ok200, l.(items := Filter(l.items, NotOwnedBy(u))), orders + [order])
  }

  /**
   * `create_order` as written: the order is built with the keywords
   * `subtotal`, `shipping_cost` and `tax_amount`, which are not columns of
   * the order table, so the constructor raises, the handler rolls back and
   * answers 500 for every cart that reaches it; an empty cart still gets 400.
   */
  function CreateOrderAsWritten(l: Ledger, orders: seq<Order>, u: int, date: string, draws: seq<nat>,
                                address: Option<string>, data: OrderData): (Status, Ledger, seq<Order>)
    requires exists i :: 0 <= i < |draws| && Unused(orders, date)(draws[i])
  {
    var mine := Filter(l.items, OwnedBy(u));
    if mine == [] then (BadRequest400, l, orders)
    else (InternalError500, l, orders)
  }

  /**
   * As written no order is ever created: a user with a cart line gets 500,
   * one without gets 400, the tables never change, and every request the
   * corrected creation accepts is refused.
   */
  lemma CreateOrderFailsAsWritten(l: Ledger, orders: seq<Order>, u: int, date: string, draws: seq<nat>,
                                  address: Option<string>, data: OrderData)
    requires exists i :: 0 <= i < |draws| && Unused(orders, date)(draws[i])
    ensures CreateOrderAsWritten(l, orders, u, date, draws, address, data).0 == InternalError500
            <==> exists i :: 0 <= i < |l.items| && l.items[i].owner == u
    ensures CreateOrderAsWritten(l, orders, u, date, draws, address, data).1 == l
    ensures CreateOrderAsWritten(l, orders, u, date, draws, address, data).2 == orders
    ensures CreateOrder(l, orders, u, date, draws, address, data).0 == Ok200 ==>
              CreateOrderAsWritten(l, orders, u, date, draws, address, data).0 == InternalError500
  {
    var mine := Filter(l.items, OwnedBy(u));
    if mine != [] {
      assert mine[0] in mine;
    } else {
      forall i | 0 <= i < |l.items| ensures l.items[i].owner != u {
        assert l.items[i] in l.items;
      }
    }
  }

  /** A suffix drawn from [1000, 9999] always has four digits. */
  lemma SuffixHasFourDigits(d: nat)
    requires 1000 <= d <= 9999
    ensures |NatToString(d)| == 4
  {
    assert NatToString(d) == NatToString(d / 10) + [('0' as int + d % 10) as char];
    assert NatToString(d / 10) == NatToString(d / 100) + [('0' as int + (d / 10) % 10) as char];
    assert NatToString(d / 100) == NatToString(d / 1000) + [('0' as int + (d / 100) % 10) as char];
  }

  /** For a fixed date, different suffixes give different order numbers. */
  lemma OrderNumberInjective(date: string, d1: nat, d2: nat)
    requires d1 != d2
    ensures OrderNumber(date, d1) != OrderNumber(date, d2)
  {
    if OrderNumber(date, d1) == OrderNumber(date, d2) {
      var prefix := "ORD" + date;
      assert OrderNumber(date, d1)[|prefix|..] == NatToString(d1);
      assert OrderNumber(date, d2)[|prefix|..] == NatToString(d2);
      DigitsValueOfNatToString(d1);
      DigitsValueOfNatToString(d2);
    }
  }

  /** A user with no cart line gets 400 and nothing changes. */
  lemma CreateOrderRejectsEmptyCart(l: Ledger, orders: seq<Order>, u: int, date: string, draws: seq<nat>,
                                    address: Option<string>, data: OrderData)
    requires exists i :: 0 <= i < |draws| && Unused(orders, date)(draws[i])
    ensures CreateOrder(l, orders, u, date, draws, address, data).0 == BadRequest400
            <==> forall i :: 0 <= i < |l.items| ==> l.items[i].owner != u
    ensures CreateOrder(l, orders, u, date, draws, address, data).0 != Ok200 ==>
              CreateOrder(l, orders, u, date, draws, address, data).1 == l
              && CreateOrder(l, orders, u, date, draws, address, data).2 == orders
  {
    var mine := Filter(l.items, OwnedBy(u));
    if mine != [] {
      assert mine[0] in mine;
    } else {
      forall i | 0 <= i < |l.items| ensures l.items[i].owner != u {
        assert l.items[i] in l.items;
      }
    }
  }

  /**
   * A successful order: one order is appended, in state "pending", for `u`,
   * whose number is the first drawn number not already taken; its totals are
   * the server's totals of the cart's subtotal and its lines are built from
   * the user's cart lines; afterwards the user has no cart line, every other
   * user's lines are as they were, and no stock moves.
   */
  lemma CreateOrderOutcome(l: Ledger, orders: seq<Order>, u: int, date: string, draws: seq<nat>,
                           address: Option<string>, data: OrderData)
    requires exists i :: 0 <= i < |draws| && Unused(orders, date)(draws[i])
    requires CreateOrder(l, orders, u, date, draws, address, data).0 == Ok200
    ensures var (_, l', orders') := CreateOrder(l, orders, u, date, draws, address, data);
      var mine := Filter(l.items, OwnedBy(u));
      && |orders'| == |orders| + 1 && orders'[..|orders|] == orders
      && orders'[|orders|].owner == u && orders'[|orders|].status == "pending"
      && orders'[|orders|].shippingAddress == address
      && orders'[|orders|].paymentMethod == (if data.paymentMethod.Some? then data.paymentMethod.value else "Tarjeta de crédito")
      && orders'[|orders|].notes == (if data.notes.Some? then data.notes.value else "")
      && !NumberTaken(orders, orders'[|orders|].number)
      && (exists k :: 0 <= k < |draws| && orders'[|orders|].number == OrderNumber(date, draws[k])
            && forall j :: 0 <= j < k ==> NumberTaken(orders, OrderNumber(date, draws[j])))
      && CreateOrderSubtotal(l.products, mine).Some?
      && orders'[|orders|].totals == OrderTotals.ServerTotals(CreateOrderSubtotal(l.products, mine).value)
      && orders'[|orders|].lines == OrderLines(l.products, mine)
      && l'.products == l.products && l'.guest == l.guest && l'.nextItemId == l.nextItemId
      && (forall i :: 0 <= i < |l'.items| ==> l'.items[i].owner != u)
      && l'.items == Filter(l.items, NotOwnedBy(u))
  {
    var k := FirstIndex(draws, Unused(orders, date)).value;
    assert forall j :: 0 <= j < k ==> !Unused(orders, date)(draws[j]);
  }

  /** Order numbers stay distinct. */
  lemma CreateOrderKeepsNumbersDistinct(l: Ledger, orders: seq<Order>, u: int, date: string, draws: seq<nat>,
                                        address: Option<string>, data: OrderData)
    requires NumbersDistinct(orders)
    requires exists i :: 0 <= i < |draws| && Unused(orders, date)(draws[i])
    ensures NumbersDistinct(CreateOrder(l, orders, u, date, draws, address, data).2)
  {
  }

  /** The cart invariant survives the deletion of the user's lines. */
  lemma CreateOrderKeepsValid(l: Ledger, orders: seq<Order>, u: int, date: string, draws: seq<nat>,
                              address: Option<string>, data: OrderData)
    requires Valid(l)
    requires exists i :: 0 <= i < |draws| && Unused(orders, date)(draws[i])
    ensures Valid(CreateOrder(l, orders, u, date, draws, address, data).1)
  {
    ItemsValidFilter(l.items, l.nextItemId, NotOwnedBy(u));
  }

  /**
   * When every line of the cart keeps a non-zero snapshot of an existing
   * product, the stored subtotal is the sum of the order lines' totals.
   */
  lemma StoredSubtotalIsSumOfLines(l: Ledger, orders: seq<Order>, u: int, date: string, draws: seq<nat>,
                                   address: Option<string>, data: OrderData)
    requires exists i :: 0 <= i < |draws| && Unused(orders, date)(draws[i])
    requires forall i :: 0 <= i < |l.items| && l.items[i].owner == u ==>
               l.items[i].productId in l.products && l.items[i].unitPrice != 0
    requires CreateOrder(l, orders, u, date, draws, address, data).0 == Ok200
    ensures var o := CreateOrder(l, orders, u, date, draws, address, data).2[|orders|];
            o.totals.subtotal == SumOf(o.lines, LineTotal) && |o.lines| == |Filter(l.items, OwnedBy(u))|
  {
    var mine := Filter(l.items, OwnedBy(u));
    forall i | 0 <= i < |mine| ensures mine[i].productId in l.products && mine[i].unitPrice != 0 {
      assert OwnedBy(u)(mine[i]);
    }
    StoredSubtotalMatchesLines(l.products, mine);
  }

  /**
   * A line whose snapshot is 0 is priced at the product's price in the
   * subtotal (`unit_price or product.price`) but at 0 in its order line
   * (`unit_price if unit_price is not None`), so the two disagree.
   */
  lemma ZeroSnapshotSubtotalDiffers(products: map<int, Product>, it: CartItem)
    requires it.unitPrice == 0 && it.productId in products
    requires products[it.productId].price * it.quantity != 0
    ensures CreateOrderSubtotal(products, [it]) == Some(products[it.productId].price * it.quantity)
    ensures SumOf(OrderLines(products, [it]), LineTotal) == 0
    ensures CreateOrderSubtotal(products, [it]).value != SumOf(OrderLines(products, [it]), LineTotal)
  {
    assert [it][..0] == [];
    assert OrderLines(products, [it]) == [OrderLine(it.productId, it.quantity, 0, 0)];
    SumOfAppend([], OrderLine(it.productId, it.quantity, 0, 0), LineTotal);
  }
}
