/**
 * The order-total rule of the shop, in whole pesos: a 15 000 shipping fee
 * below a 200 000 subtotal, 19 % tax (IVA), and their sum. The server
 * (checkout page, `create_order`, `Order.to_dict`) truncates the tax and
 * charges shipping on a zero subtotal; the browser scripts round the tax and
 * charge no shipping on a zero subtotal. Both versions are here, with the
 * lemmas that say exactly where they part.
 */
module OrderTotals {
  import opened Common
  import opened Text
  import CopFormat

  const ShippingFee: int := 15000
  const FreeShippingFrom: int := 200000
  const TaxPercent: int := 19

  datatype Totals = Totals(subtotal: int, shipping: int, tax: int, total: int)

  /** Integer division rounding toward zero, as Python's `int()` of a quotient does. */
  function TruncDiv(a: int, b: int): (q: int)
    requires b > 0
    ensures a >= 0 ==> q * b <= a < q * b + b
    ensures a < 0 ==> q * b - b < a <= q * b
  {
    if a >= 0 then a / b else -((-a) / b)
  }

  /** Server tax: `int(subtotal * 0.19)`, the 19 % truncated toward zero. */
  function ServerTax(subtotal: int): (t: int)
  {
    TruncDiv(TaxPercent * subtotal, 100)
  }

  /** Browser tax: `Math.round(subtotal * 0.19)`, the 19 % rounded half up. */
  function ClientTax(subtotal: int): (t: int)
  {
    CopFormat.JsRound((TaxPercent * subtotal) as real / 100.0)
  }

  /** Server shipping: charged on every subtotal below the threshold, zero included. */
  function ServerShipping(subtotal: int): (f: int)
  {
    if subtotal < FreeShippingFrom then ShippingFee else 0
  }

  /** Browser shipping: charged only on a positive subtotal below the threshold. */
  function ClientShipping(subtotal: int): (f: int)
  {
    if subtotal > 0 && subtotal < FreeShippingFrom then ShippingFee else 0
  }

  /** The server's totals for a subtotal (checkout page, `create_order`, `Order.to_dict`). */
  function ServerTotals(subtotal: int): (t: Totals)
    ensures t.subtotal == subtotal && t.total == t.subtotal + t.shipping + t.tax
    ensures t.shipping == ShippingFee <==> subtotal < FreeShippingFrom
    ensures t.shipping == 0 <==> subtotal >= FreeShippingFrom
    ensures subtotal >= 0 ==> 0 <= 100 * t.tax <= TaxPercent * subtotal < 100 * t.tax + 100
  {
    var shipping := ServerShipping(subtotal);
    var tax := ServerTax(subtotal);
    Totals(subtotal, shipping, tax, subtotal + shipping + tax)
  }

  /** The browser's totals for a subtotal (catalog, checkout and product-detail scripts). */
  function ClientTotals(subtotal: int): (t: Totals)
    ensures t.subtotal == subtotal && t.total == t.subtotal + t.shipping + t.tax
    ensures t.shipping == ShippingFee <==> 0 < subtotal < FreeShippingFrom
    ensures t.shipping == 0 <==> (subtotal <= 0 || subtotal >= FreeShippingFrom)
    ensures 2 * TaxPercent * subtotal - 100 < 200 * t.tax <= 2 * TaxPercent * subtotal + 100
  {
    var shipping := ClientShipping(subtotal);
    var tax := ClientTax(subtotal);
    Totals(subtotal, shipping, tax, subtotal + shipping + tax)
  }

  /** The checkout page writes the tax as `int(subtotal * 0.19) if subtotal else 0`. */
  function CheckoutPageTotals(subtotal: int): (t: Totals)
  {
    var shipping := if subtotal < FreeShippingFrom then ShippingFee else 0;
    var tax := if subtotal != 0 then TruncDiv(TaxPercent * subtotal, 100) else 0;
    Totals(subtotal, shipping, tax, subtotal + shipping + tax)
  }

  /** The checkout page and `create_order` charge the same on every subtotal. */
  lemma CheckoutPageAgreesWithCreateOrder(subtotal: int)
    ensures CheckoutPageTotals(subtotal) == ServerTotals(subtotal)
  {
  }

  /** An empty cart: the server still charges 15 000 shipping, the browser shows all zeros. */
  lemma EmptyCartTotals()
    ensures ServerTotals(0) == Totals(0, ShippingFee, 0, ShippingFee)
    ensures ClientTotals(0) == Totals(0, 0, 0, 0)
  {
  }

  /** Shipping agrees between server and browser exactly on positive subtotals. */
  lemma ShippingAgreesIffPositive(subtotal: int)
    ensures ServerShipping(subtotal) == ClientShipping(subtotal) <==> subtotal > 0
  {
  }

  /**
   * On a non-negative subtotal the browser's tax is the server's or one peso
   * more, and one more exactly when the dropped fraction is at least a half.
   */
  lemma {:induction false} ClientTaxAtMostOnePesoMore(subtotal: int)
    requires subtotal >= 0
    ensures ClientTax(subtotal) - ServerTax(subtotal) in {0, 1}
    ensures ClientTax(subtotal) == ServerTax(subtotal) + 1 <==> (TaxPercent * subtotal) % 100 >= 50
  {
    var a := TaxPercent * subtotal;
    var q, r := a / 100, a % 100;
    assert a == 100 * q + r && 0 <= r < 100;
    assert ServerTax(subtotal) == q;
    var x := a as real / 100.0;
    assert x + 1.0 / 2.0 == q as real + (r + 50) as real / 100.0;
    if r >= 50 {
      assert q as real + 1.0 <= x + 1.0 / 2.0 < q as real + 2.0;
      assert ClientTax(subtotal) == q + 1;
    } else {
      assert q as real <= x + 1.0 / 2.0 < q as real + 1.0;
      assert ClientTax(subtotal) == q;
    }
  }

  /** The two totals coincide on a positive subtotal whose 19 % drops less than half a peso. */
  lemma TotalsAgreeWhenTaxFractionSmall(subtotal: int)
    requires subtotal > 0 && (TaxPercent * subtotal) % 100 < 50
    ensures ServerTotals(subtotal) == ClientTotals(subtotal)
  {
    ClientTaxAtMostOnePesoMore(subtotal);
  }

  // ----- Order.to_dict -----

  /** An order line as stored: its `total_price` in pesos. */
  datatype OrderItem = OrderItem(productId: int, quantity: int, unitPrice: int, totalPrice: int)

  function SumTotalPrices(items: seq<OrderItem>): (s: int)
  {
    if items == [] then 0 else SumTotalPrices(items[..|items| - 1]) + items[|items| - 1].totalPrice
  }

  /** `total_amount` is a nullable float column. */
  datatype OrderRecord = OrderRecord(status: string, totalAmount: Option<real>, items: seq<OrderItem>)

  datatype OrderView = OrderView(
    itemsCount: nat,
    subtotal: int,
    shippingCost: int,
    taxAmount: int,
    totalAmountCop: int,
    statusDisplay: string)

  /** The Spanish label of a known status. */
  function StatusLabel(status: string): (r: Option<string>)
    ensures r.Some? <==> status in {"pending", "processing", "shipped", "delivered", "cancelled"}
  {
    if status == "pending" then Some("Pendiente")
    else if status == "processing" then Some("En Proceso")
    else if status == "shipped" then Some("Enviado")
    else if status == "delivered" then Some("Entregado")
    else if status == "cancelled" then Some("Cancelado")
    else None
  }

  /**
   * Python's `str.title()` on ASCII text: a letter is upper-cased when it
   * follows a non-letter (or starts the text) and lower-cased otherwise.
   */
  function Title(s: string): (r: string)
    ensures |r| == |s|
    ensures forall i :: 0 <= i < |s| && (i == 0 || !IsLetter(s[i - 1])) ==> r[i] == UpperChar(s[i])
    ensures forall i :: 0 < i < |s| && IsLetter(s[i - 1]) ==> r[i] == LowerChar(s[i])
  {
    seq(|s|, i requires 0 <= i < |s| => TitleChar(s, i))
  }

  function TitleChar(s: string, i: nat): char
    requires i < |s|
  {
    if i == 0 || !IsLetter(s[i - 1]) then UpperChar(s[i]) else LowerChar(s[i])
  }

  /** `Order.to_dict`, limited to the derived fields. */
  function ToDict(o: OrderRecord): (v: OrderView)
    ensures v.itemsCount == |o.items|
    ensures v.subtotal == SumTotalPrices(o.items)
    ensures v.shippingCost == ServerShipping(v.subtotal) && v.taxAmount == ServerTax(v.subtotal)
    ensures o.totalAmount.Some? ==> v.totalAmountCop == CopFormat.RoundHalfEven(o.totalAmount.value)
    ensures o.totalAmount.None? ==> v.totalAmountCop == ServerTotals(v.subtotal).total
    ensures StatusLabel(o.status).Some? ==> v.statusDisplay == StatusLabel(o.status).value
    ensures StatusLabel(o.status).None? ==> v.statusDisplay == Title(o.status)
  {
    var subtotal := SumTotalPrices(o.items);
    var t := ServerTotals(subtotal);
    OrderView(
      |o.items|,
      subtotal,
      t.shipping,
      t.tax,
      if o.totalAmount.Some? then CopFormat.RoundHalfEven(o.totalAmount.value) else t.total,
      if StatusLabel(o.status).Some? then StatusLabel(o.status).value else Title(o.status))
  }

  /** An order with no items still reports a 15 000 shipping cost. */
  lemma ItemlessOrderReportsShipping(status: string, amount: Option<real>)
    ensures ToDict(OrderRecord(status, amount, [])).subtotal == 0
    ensures ToDict(OrderRecord(status, amount, [])).shippingCost == ShippingFee
  {
  }

  /**
   * The stored total wins: `total_amount_cop` is the rounded stored amount
   * whatever the items now add up to, so it matches the recomputed total only
   * when the stored amount does.
   */
  lemma StoredTotalWins(o: OrderRecord, n: int)
    requires o.totalAmount == Some(n as real)
    ensures ToDict(o).totalAmountCop == n
    ensures ToDict(o).totalAmountCop == ServerTotals(ToDict(o).subtotal).total
            <==> n == ServerTotals(SumTotalPrices(o.items)).total
  {
    CopFormat.RoundsFixIntegers(n);
  }

  predicate IsPending(status: string) {
    status == "pending"
  }

  predicate IsProcessing(status: string) {
    status == "processing"
  }

  predicate IsCompleted(status: string) {
    status in {"shipped", "delivered"}
  }

  /** Pending, processing and completed are mutually exclusive, and a labelled status is one of them or cancelled. */
  lemma StatusPredicatesPartition(status: string)
    ensures !(IsPending(status) && IsCompleted(status))
    ensures !(IsProcessing(status) && IsCompleted(status))
    ensures StatusLabel(status).Some? <==>
              IsPending(status) || IsProcessing(status) || IsCompleted(status) || status == "cancelled"
  {
  }
}
