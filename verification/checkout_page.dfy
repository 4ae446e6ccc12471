/**
 * The checkout page script (checkout.js): the quantity buttons, the totals
 * recomputed from the `.cart-item` rows on the page, the free-shipping banner
 * and the cart subtitle. The page is given as the list of its rows; each row
 * holds what the script reads from its price element and its quantity
 * element, so the loops over `querySelectorAll('.cart-item')` become loops
 * over that list.
 */
module CheckoutPage {
  import opened Common
  import opened Seqs
  import opened Text
  import opened CopFormat
  import opened OrderTotals
  import CartLedger

  /** A row's `.item-price` element: its `data-unit-price` attribute (None when absent) and its text. */
  datatype PriceCell = PriceCell(unitPriceAttr: Option<string>, text: string)

  /** A `.cart-item` row: its price element and the text of its `.quantity-value` element, when present. */
  datatype CartRow = CartRow(price: Option<PriceCell>, quantityText: Option<string>)

  /** `text.replace(/[^\d]/g, '')`: the decimal digits of `s`, in order. */
  function KeepDigits(s: string): (r: string)
    ensures |r| <= |s|
    ensures forall i :: 0 <= i < |r| ==> IsDigit(r[i])
  {
    if s == [] then [] else (if IsDigit(s[0]) then [s[0]] else []) + KeepDigits(s[1..])
  }

  lemma {:induction false} KeepDigitsAppend(a: string, b: string)
    ensures KeepDigits(a + b) == KeepDigits(a) + KeepDigits(b)
    decreases |a|
  {
    if a != [] {
      assert (a + b)[1..] == a[1..] + b;
      KeepDigitsAppend(a[1..], b);
    } else {
      assert a + b == b;
    }
  }

  lemma {:induction false} KeepDigitsOfDigits(d: string)
    requires forall i :: 0 <= i < |d| ==> IsDigit(d[i])
    ensures KeepDigits(d) == d
    decreases |d|
  {
    if d != [] {
      KeepDigitsOfDigits(d[1..]);
    }
  }

  lemma {:induction false} KeepDigitsOfSpaces(s: string)
    requires forall i :: 0 <= i < |s| ==> IsSpace(s[i])
    ensures KeepDigits(s) == []
    decreases |s|
  {
    if s != [] {
      KeepDigitsOfSpaces(s[1..]);
    }
  }

  /** Removing the '.' separators of a grouped digit string gives the digits back. */
  lemma {:induction false} KeepDigitsOfGroup(d: string)
    requires forall i :: 0 <= i < |d| ==> IsDigit(d[i])
    ensures KeepDigits(Group(d)) == d
    decreases |d|
  {
    if |d| <= 3 {
      KeepDigitsOfDigits(d);
    } else {
      var head, tail := d[..|d| - 3], d[|d| - 3..];
      var g := Group(head);
      KeepDigitsOfGroup(head);
      KeepDigitsOfDigits(tail);
      assert KeepDigits(".") == [];
      KeepDigitsAppend(g, ".");
      assert KeepDigits(g + ".") == head;
      KeepDigitsAppend(g + ".", tail);
      GroupUnfold(d);
      assert head + tail == d;
    }
  }

  lemma {:induction false} KeepDigitsOfTrimStart(s: string)
    ensures KeepDigits(TrimStart(s)) == KeepDigits(s)
    decreases |s|
  {
    if s != [] && IsSpace(s[0]) {
      KeepDigitsOfTrimStart(s[1..]);
      assert !IsDigit(s[0]);
    }
  }

  lemma KeepDigitsOfTrimEnd(t: string)
    ensures KeepDigits(TrimEnd(t)) == KeepDigits(t)
  {
    var r := TrimEnd(t);
    assert t == r + t[|r|..];
    KeepDigitsAppend(r, t[|r|..]);
    KeepDigitsOfSpaces(t[|r|..]);
  }

  /** Trimming first does not change the digits that are kept. */
  lemma KeepDigitsOfTrim(s: string)
    ensures KeepDigits(Trim(s)) == KeepDigits(s)
  {
    KeepDigitsOfTrimStart(s);
    KeepDigitsOfTrimEnd(TrimStart(s));
  }

  /**
   * The text the unit price is read from: the `data-unit-price` attribute, or,
   * when it is missing, empty or "0", the digits of the trimmed price text.
   */
  function UnitPriceText(cell: PriceCell): (r: string)
    ensures cell.unitPriceAttr.None? || cell.unitPriceAttr.value in {"", "0"} ==>
              forall i :: 0 <= i < |r| ==> IsDigit(r[i])
  {
    if cell.unitPriceAttr.None? || cell.unitPriceAttr.value == "" || cell.unitPriceAttr.value == "0" then
      KeepDigits(Trim(cell.text))
    else cell.unitPriceAttr.value
  }

  /** `parseFloat(s) || 0` and `parseInt(s) || 0` on text without a decimal part. */
  function NumberOrZero(s: string): (n: int)
    ensures ParseLeadingInt(s).None? ==> n == 0
  {
    if ParseLeadingInt(s).Some? then ParseLeadingInt(s).value else 0
  }

  function UnitPrice(cell: PriceCell): int {
    NumberOrZero(UnitPriceText(cell))
  }

  /** What a row adds to the subtotal: unit price times quantity, 0 when either element is missing. */
  function RowAmount(row: CartRow): int {
    if row.price.Some? && row.quantityText.Some? then UnitPrice(row.price.value) * NumberOrZero(row.quantityText.value)
    else 0
  }

  /** What a row adds to the cart count: its quantity, 0 when the element is missing. */
  function RowUnits(row: CartRow): int {
    if row.quantityText.Some? then NumberOrZero(row.quantityText.value) else 0
  }

  /**
   * With no `data-unit-price`, a price the server printed with `format_cop`
   * reads back as the same number of pesos.
   */
  lemma PriceTextReadsBack(n: nat, attr: Option<string>)
    requires attr.None? || attr.value in {"", "0"}
    ensures UnitPrice(PriceCell(attr, FormatCop(Converts(n as real)))) == n
  {
    RoundsFixIntegers(n);
    var d := NatToString(n);
    var text := FormatCop(Converts(n as real));
    assert GroupedInt(n) == Group(d);
    assert text == "$" + Group(d);
    KeepDigitsOfTrim(text);
    KeepDigitsAppend("$", Group(d));
    KeepDigitsOfGroup(d);
    assert KeepDigits("$") == [];
    ParseSignedDigits(n);
    assert UnitPriceText(PriceCell(attr, text)) == d;
  }

  /** A usable `data-unit-price` wins over the text, whatever the text says. */
  lemma AttributeWins(attr: string, text1: string, text2: string)
    requires attr != "" && attr != "0"
    ensures UnitPrice(PriceCell(Some(attr), text1)) == UnitPrice(PriceCell(Some(attr), text2)) == NumberOrZero(attr)
  {
  }

  /**
   * Whether the free-shipping banner is on the page after `updateTotals`:
   * `before` says whether it was, `summaryPresent` whether there is an
   * `.order-summary` to attach a new one to.
   */
  function BannerShown(before: bool, summaryPresent: bool, subtotal: int): bool {
    var shipping := ClientShipping(subtotal);
    if subtotal >= FreeShippingFrom && shipping == 0 then before || summaryPresent
    else if before && shipping > 0 then false
    else before
  }

  /**
   * The banner appears only from 200 000 up and goes only when shipping is
   * charged: below 200 000 a banner already there survives exactly when the
   * subtotal is not positive (no shipping is charged then either).
   */
  lemma BannerRule(before: bool, summaryPresent: bool, subtotal: int)
    ensures BannerShown(before, summaryPresent, subtotal)
            == if subtotal >= FreeShippingFrom then before || summaryPresent else before && subtotal <= 0
    ensures BannerShown(before, summaryPresent, subtotal) ==> ClientTotals(subtotal).shipping == 0
  {
  }

  /**
   * `updateTotals`: the four totals written to the page and whether the
   * banner is there afterwards. An empty page shows zeros and returns before
   * the banner code.
   */
  method UpdateTotals(rows: seq<CartRow>, bannerBefore: bool, summaryPresent: bool)
    returns (shown: Totals, banner: bool)
    ensures rows == [] ==> shown == Totals(0, 0, 0, 0) && banner == bannerBefore
    ensures rows != [] ==> shown == ClientTotals(SumOf(rows, RowAmount))
    ensures rows != [] ==> banner == BannerShown(bannerBefore, summaryPresent, SumOf(rows, RowAmount))
  {
    if |rows| == 0 {
      return Totals(0, 0, 0, 0), bannerBefore;
    }
    var subtotal := SumRows(rows);
    var shipping := if subtotal > 0 && subtotal < FreeShippingFrom then ShippingFee else 0;
    var tax := ClientTax(subtotal);
    shown := Totals(subtotal, shipping, tax, subtotal + shipping + tax);
    banner := bannerBefore;
    if subtotal >= FreeShippingFrom && shipping == 0 {
      if !bannerBefore && summaryPresent {
        banner := true;
      }
    } else if bannerBefore && shipping > 0 {
      banner := false;
    }
  }

  /** The `forEach` over the rows in `updateTotals`: the subtotal it accumulates. */
  method SumRows(rows: seq<CartRow>) returns (subtotal: int)
    ensures subtotal == SumOf(rows, RowAmount)
  {
    subtotal := 0;
    var i := 0;
    while i < |rows|
      invariant 0 <= i <= |rows|
      invariant subtotal == SumOf(rows[..i], RowAmount)
    {
      var row := rows[i];
      assert rows[..i + 1] == rows[..i] + [row];
      SumOfAppend(rows[..i], row, RowAmount);
      var amount := ReadRow(row);
      subtotal := subtotal + amount;
      i := i + 1;
    }
    assert rows[..|rows|] == rows;
  }

  /** One pass of the `forEach` in `updateTotals`: what the row adds to the subtotal. */
  method ReadRow(row: CartRow) returns (amount: int)
    ensures amount == RowAmount(row)
  {
    amount := 0;
    if row.price.Some? && row.quantityText.Some? {
      var cell := row.price.value;
      var unitPriceText := if cell.unitPriceAttr.Some? then cell.unitPriceAttr.value else "";
      if unitPriceText == "" || unitPriceText == "0" {
        unitPriceText := KeepDigits(Trim(cell.text));
      }
      var unitPrice := NumberOrZero(unitPriceText);
      var quantity := NumberOrZero(row.quantityText.value);
      amount := unitPrice * quantity;
    }
  }

  /** The subtitle `updateCartCount` writes for `n` units. */
  function CartSubtitle(n: int): string {
    IntToString(n) + " " + (if n == 1 then "producto" else "productos") + " en tu carrito"
  }

  /** The noun is singular exactly when the count is 1. */
  lemma SubtitleNoun(n: int)
    ensures var k := |IntToString(n)|;
            CartSubtitle(n)[k + 1..k + 9] == "producto"
            && (CartSubtitle(n)[k + 9] == 's' <==> n != 1)
  {
  }

  /** `updateCartCount`: the number of units on the page and the subtitle it writes. */
  method UpdateCartCount(rows: seq<CartRow>) returns (count: int, subtitle: string)
    ensures count == SumOf(rows, RowUnits)
    ensures subtitle == CartSubtitle(count)
  {
    count := 0;
    for i := 0 to |rows|
      invariant count == SumOf(rows[..i], RowUnits)
    {
      assert rows[..i + 1] == rows[..i] + [rows[i]];
      SumOfAppend(rows[..i], rows[i], RowUnits);
      if rows[i].quantityText.Some? {
        count := count + NumberOrZero(rows[i].quantityText.value);
      }
    }
    assert rows[..|rows|] == rows;
    subtitle := CartSubtitle(count);
  }

  /**
   * What `updateQuantity` sends: nothing when the quantity would not change,
   * a PUT with the new quantity otherwise; a displayed quantity that is not a
   * number makes the new quantity NaN, which is sent as `null`.
   */
  datatype QuantityPut = NoPut | Put(quantity: int) | PutNull

  function QuantityChange(currentText: string, change: int): (r: QuantityPut)
    ensures r.Put? ==> r.quantity >= 0
  {
    if ParseLeadingInt(currentText).None? then PutNull
    else
      var current := ParseLeadingInt(currentText).value;
      var newQty := if current + change > 0 then current + change else 0;
      if newQty == current then NoPut else Put(newQty)
  }

  /**
   * newQty = max(0, current + change); no request exactly when that equals
   * the displayed quantity, otherwise a PUT with it.
   */
  lemma QuantityChangeRule(currentText: string, change: int)
    requires ParseLeadingInt(currentText).Some?
    ensures var current := ParseLeadingInt(currentText).value;
            var newQty := if current + change > 0 then current + change else 0;
            && (QuantityChange(currentText, change) == NoPut <==> (change == 0 && current >= 0) || (current == 0 && change <= 0))
            && (QuantityChange(currentText, change) != NoPut ==> QuantityChange(currentText, change) == Put(newQty))
  {
  }

  /**
   * A PUT of 0 (the "-" button on a line of one unit) is handled by the
   * server exactly as the removal of the line, and the page reloads.
   */
  lemma PutZeroRemovesLine(currentText: string, change: int, l: CartLedger.Ledger, user: Option<int>, itemId: int)
    requires QuantityChange(currentText, change) == Put(0)
    ensures CartLedger.CartUpdate(l, user, itemId, 0) == CartLedger.CartRemove(l, user, itemId)
    ensures ParseLeadingInt(currentText).value != 0 && ParseLeadingInt(currentText).value + change <= 0
  {
    CartLedger.UpdateToZeroIsRemove(l, user, itemId, 0);
  }
}
