/**
 * The cart sidebar and quantity controls of the product page
 * (product_detail.js). The script keeps the cart it last fetched from
 * `/client/cart` in a global, renders it with the browser's totals, and shows
 * a badge with the number of units. `DetailPage` holds that global, the
 * totals and badge last written, and the quantity input of the page.
 */
module ProductDetail {
  import opened Common
  import opened Seqs
  import opened OrderTotals
  import opened CartLedger

  // ----- what `/client/cart` returns -----

  /**
   * One entry of the `items` list of the cart payload; None is a key the
   * entry does not have (`typeof it.x === 'undefined'`).
   */
  datatype ServerItem = ServerItem(
    id: int,
    unitPrice: Option<int>,
    price: Option<int>,
    totalPrice: Option<int>,
    quantity: Option<int>)

  /** The entries for a signed-in user's lines: lines whose product is gone are skipped. */
  function UserPayload(products: map<int, Product>, lines: seq<CartItem>): (r: seq<ServerItem>)
    ensures |r| <= |lines|
  {
    if lines == [] then []
    else
      var rest := UserPayload(products, lines[..|lines| - 1]);
      var it := lines[|lines| - 1];
      if it.productId in products then
        rest + [ServerItem(it.id, Some(it.unitPrice), Some(it.unitPrice), Some(it.totalPrice), Some(it.quantity))]
      else rest
  }

  /** The entries for the guest cart: only `price` and `quantity`, no snapshot and no total. */
  function GuestPayload(products: map<int, Product>, guest: seq<GuestItem>): (r: seq<ServerItem>)
    ensures |r| <= |guest|
  {
    if guest == [] then []
    else
      var rest := GuestPayload(products, guest[..|guest| - 1]);
      var g := guest[|guest| - 1];
      if g.productId in products then
        rest + [ServerItem(g.id, None, Some(products[g.productId].price), None, Some(g.quantity))]
      else rest
  }

  /** `client_get_cart`: the items of the caller's cart. */
  function CartPayload(l: Ledger, user: Option<int>): seq<ServerItem> {
    if user.Some? then UserPayload(l.products, Filter(l.items, OwnedBy(user.value)))
    else GuestPayload(l.products, l.guest)
  }

  // ----- the sidebar cart -----

  /** An entry of the script's `cart` after `fetchCartFromServer`. */
  datatype DetailLine = DetailLine(id: int, unitPrice: int, totalPrice: Option<int>, quantity: Option<int>)

  /** The `payload.items.map(...)` step for one entry. */
  function MapItem(it: ServerItem): DetailLine {
    DetailLine(it.id,
               if it.unitPrice.Some? then it.unitPrice.value else if it.price.Some? then it.price.value else 0,
               it.totalPrice,
               it.quantity)
  }

  function MapPayload(items: seq<ServerItem>): (r: seq<DetailLine>)
    ensures |r| == |items|
    ensures forall i :: 0 <= i < |items| ==> r[i] == MapItem(items[i])
  {
    seq(|items|, i requires 0 <= i < |items| => MapItem(items[i]))
  }

  /**
   * The unit price prefers the `unit_price` snapshot, then `price`, then 0;
   * the total and the quantity are carried over, a missing total as null.
   */
  lemma MappingPrefersSnapshot(it: ServerItem)
    ensures it.unitPrice.Some? ==> MapItem(it).unitPrice == it.unitPrice.value
    ensures it.unitPrice.None? && it.price.Some? ==> MapItem(it).unitPrice == it.price.value
    ensures it.unitPrice.None? && it.price.None? ==> MapItem(it).unitPrice == 0
    ensures MapItem(it).totalPrice == it.totalPrice && MapItem(it).quantity == it.quantity && MapItem(it).id == it.id
  {
  }

  /** A line's amount: its total when there is one, else unit price times quantity, 0 when that is NaN. */
  function Amount(d: DetailLine): int {
    if d.totalPrice.Some? then d.totalPrice.value
    else if d.quantity.Some? then d.unitPrice * d.quantity.value
    else 0
  }

  /** `it.quantity || 0`, on the script's cart and on the payload. */
  function Units(d: DetailLine): int {
    if d.quantity.Some? then d.quantity.value else 0
  }

  function ItemUnits(it: ServerItem): int {
    if it.quantity.Some? then it.quantity.value else 0
  }

  /** The three figures the sidebar shows; the tax is added into the total but not shown. */
  datatype SidebarTotals = SidebarTotals(subtotal: int, shipping: int, total: int)

  function Sidebar(subtotal: int): (s: SidebarTotals)
    ensures s.subtotal == subtotal
    ensures s.total == subtotal + s.shipping + ClientTax(subtotal)
    ensures s.shipping == ClientTotals(subtotal).shipping && s.total == ClientTotals(subtotal).total
  {
    var shipping := if subtotal < FreeShippingFrom && subtotal > 0 then ShippingFee else 0;
    SidebarTotals(subtotal, shipping, subtotal + shipping + ClientTax(subtotal))
  }

  lemma {:induction false} MapPayloadSnoc(items: seq<ServerItem>, x: ServerItem)
    ensures MapPayload(items + [x]) == MapPayload(items) + [MapItem(x)]
  {
  }

  /**
   * For a signed-in user, the amounts of the fetched lines are the totals of
   * the order lines `create_order` would build from the same cart lines.
   */
  lemma {:induction false} UserAmountsAreLineTotals(products: map<int, Product>, lines: seq<CartItem>)
    requires forall i :: 0 <= i < |lines| ==> lines[i].totalPrice == lines[i].unitPrice * lines[i].quantity
    ensures SumOf(MapPayload(UserPayload(products, lines)), Amount) == SumOf(OrderLines(products, lines), LineTotal)
    decreases |lines|
  {
    if lines != [] {
      var init := lines[..|lines| - 1];
      var it := lines[|lines| - 1];
      UserAmountsAreLineTotals(products, init);
      if it.productId in products {
        var entry := ServerItem(it.id, Some(it.unitPrice), Some(it.unitPrice), Some(it.totalPrice), Some(it.quantity));
        MapPayloadSnoc(UserPayload(products, init), entry);
        SumOfAppend(MapPayload(UserPayload(products, init)), MapItem(entry), Amount);
        SumOfAppend(OrderLines(products, init), OrderLine(it.productId, it.quantity, it.unitPrice, it.unitPrice * it.quantity), LineTotal);
      }
    }
  }

  /**
   * The subtotal the sidebar shows a signed-in user is the subtotal
   * `create_order` charges, as long as every line has its product and a
   * non-zero price snapshot.
   */
  lemma SidebarSubtotalIsOrderSubtotal(l: Ledger, u: int)
    requires Valid(l)
    requires forall i :: 0 <= i < |l.items| && l.items[i].owner == u ==>
               l.items[i].productId in l.products && l.items[i].unitPrice != 0
    ensures CreateOrderSubtotal(l.products, Filter(l.items, OwnedBy(u)))
            == Some(SumOf(MapPayload(CartPayload(l, Some(u))), Amount))
  {
    var mine := Filter(l.items, OwnedBy(u));
    forall i | 0 <= i < |mine|
      ensures mine[i].productId in l.products && mine[i].unitPrice != 0
      ensures mine[i].totalPrice == mine[i].unitPrice * mine[i].quantity
    {
      assert OwnedBy(u)(mine[i]);
    }
    UserAmountsAreLineTotals(l.products, mine);
    StoredSubtotalMatchesLines(l.products, mine);
  }

  /** For a guest, each fetched line is worth the product's current price times its quantity. */
  lemma {:induction false} GuestAmountsUseCurrentPrice(products: map<int, Product>, guest: seq<GuestItem>)
    ensures SumOf(MapPayload(GuestPayload(products, guest)), Amount)
            == SumOf(guest, (g: GuestItem) => if g.productId in products then products[g.productId].price * g.quantity else 0)
    decreases |guest|
  {
    var f := (g: GuestItem) => if g.productId in products then products[g.productId].price * g.quantity else 0;
    if guest != [] {
      var init := guest[..|guest| - 1];
      var g := guest[|guest| - 1];
      GuestAmountsUseCurrentPrice(products, init);
      if g.productId in products {
        var entry := ServerItem(g.id, None, Some(products[g.productId].price), None, Some(g.quantity));
        MapPayloadSnoc(GuestPayload(products, init), entry);
        SumOfAppend(MapPayload(GuestPayload(products, init)), MapItem(entry), Amount);
      }
    }
  }

  /**
   * `updateCartBadge` on the fetched cart and `refreshCartBadge` on the same
   * payload show the same number.
   */
  lemma {:induction false} BadgesAgree(items: seq<ServerItem>)
    ensures SumOf(MapPayload(items), Units) == SumOf(items, ItemUnits)
    decreases |items|
  {
    if items != [] {
      var init := items[..|items| - 1];
      var x := items[|items| - 1];
      BadgesAgree(init);
      assert items == init + [x];
      MapPayloadSnoc(init, x);
      SumOfAppend(MapPayload(init), MapItem(x), Units);
    }
  }

  /** The `payload.items.map(...)` loop. */
  method MapItems(items: seq<ServerItem>) returns (mapped: seq<DetailLine>)
    ensures mapped == MapPayload(items)
  {
    mapped := [];
    for i := 0 to |items|
      invariant mapped == MapPayload(items[..i])
    {
      assert items[..i + 1] == items[..i] + [items[i]];
      MapPayloadSnoc(items[..i], items[i]);
      mapped := mapped + [MapItem(items[i])];
    }
    assert items[..|items|] == items;
  }

  // ----- the quantity of a sidebar line -----

  /** The `#qty-<id>` element: absent, or present with its text. */
  datatype QtyElement = NoQtyElement | QtyText(text: string)

  /** The quantity the sidebar's `updateQuantity` starts from; None is NaN. */
  function CurrentQuantity(cart: seq<DetailLine>, itemId: int, dom: QtyElement): (r: Option<int>)
    ensures (exists i :: 0 <= i < |cart| && cart[i].id == itemId) ==> var k := FirstIndex(cart, (d: DetailLine) => d.id == itemId).value;
              cart[k].quantity.Some? && cart[k].quantity.value != 0 ==> r == cart[k].quantity
  {
    var fromDom :=
      match dom
      case NoQtyElement => Some(1)
      case QtyText(t) => if t == [] then Some(1) else CopFormat.ParseLeadingInt(t);
    var k := FirstIndex(cart, (d: DetailLine) => d.id == itemId);
    if k.Some? && cart[k.value].quantity.Some? && cart[k.value].quantity.value != 0 then cart[k.value].quantity
    else fromDom
  }

  /** The quantity `updateQuantity` always PUTs: max(0, current + change), null when current is NaN. */
  function QuantityToPut(cart: seq<DetailLine>, itemId: int, dom: QtyElement, change: int): (r: Option<int>)
    ensures r.Some? ==> r.value >= 0
    ensures r.None? <==> CurrentQuantity(cart, itemId, dom).None?
  {
    var current := CurrentQuantity(cart, itemId, dom);
    if current.None? then None
    else if current.value + change > 0 then Some(current.value + change) else Some(0)
  }

  /**
   * A line of the fetched cart with a non-zero quantity decides the request
   * whatever the page shows, and a request that takes it to 0 or below is,
   * for the server, the removal of the line.
   */
  lemma CartEntryDecides(cart: seq<DetailLine>, itemId: int, dom1: QtyElement, dom2: QtyElement, change: int,
                         l: Ledger, user: Option<int>)
    requires exists i :: 0 <= i < |cart| && cart[i].id == itemId && cart[i].quantity.Some? && cart[i].quantity.value != 0
    requires forall i, j :: 0 <= i < j < |cart| ==> cart[i].id != cart[j].id
    ensures QuantityToPut(cart, itemId, dom1, change) == QuantityToPut(cart, itemId, dom2, change)
    ensures QuantityToPut(cart, itemId, dom1, change) == Some(0) ==>
              CartUpdate(l, user, itemId, 0) == CartRemove(l, user, itemId)
  {
    var i :| 0 <= i < |cart| && cart[i].id == itemId && cart[i].quantity.Some? && cart[i].quantity.value != 0;
    var k := FirstIndex(cart, (d: DetailLine) => d.id == itemId).value;
    assert k == i;
    UpdateToZeroIsRemove(l, user, itemId, 0);
  }

  // ----- the quantity input of the product page -----

  /** `increaseQuantity`: one more while below the maximum; NaN on either side compares false. */
  function Increased(value: Option<int>, max: Option<int>): Option<int> {
    if value.Some? && max.Some? && value.value < max.value then Some(value.value + 1) else value
  }

  /** `decreaseQuantity`: one less while above the minimum. */
  function Decreased(value: Option<int>, min: Option<int>): Option<int> {
    if value.Some? && min.Some? && value.value > min.value then Some(value.value - 1) else value
  }

  /** Both buttons move the value by one at most and never take it out of [min, max]. */
  lemma StepsStayInRange(v: int, min: int, max: int)
    requires min <= v <= max
    ensures var up := Increased(Some(v), Some(max)); up.Some? && min <= up.value <= max && up.value - v in {0, 1}
    ensures var down := Decreased(Some(v), Some(min)); down.Some? && min <= down.value <= max && v - down.value in {0, 1}
    ensures Increased(Some(v), Some(max)) == Some(v) <==> v == max
    ensures Decreased(Some(v), Some(min)) == Some(v) <==> v == min
  {
  }

  class DetailPage {
    var cart: seq<DetailLine>
    var shown: SidebarTotals
    var badgeCount: int
    var badgeVisible: bool
    var quantityValue: Option<int>
    var quantityMin: Option<int>
    var quantityMax: Option<int>

    constructor (value: Option<int>, min: Option<int>, max: Option<int>)
      ensures cart == [] && shown == SidebarTotals(0, 0, 0) && badgeCount == 0 && !badgeVisible
      ensures quantityValue == value && quantityMin == min && quantityMax == max
    {
      cart := [];
      shown := SidebarTotals(0, 0, 0);
      badgeCount := 0;
      badgeVisible := false;
      quantityValue := value;
      quantityMin := min;
      quantityMax := max;
    }

    /** `fetchCartFromServer`: `payload` is None when the answer has no items or the request fails. */
    method FetchCart(payload: Option<seq<ServerItem>>)
      modifies this
      ensures cart == (if payload.Some? then MapPayload(payload.value) else [])
      ensures shown == old(shown) && badgeCount == old(badgeCount) && badgeVisible == old(badgeVisible)
      ensures quantityValue == old(quantityValue) && quantityMin == old(quantityMin) && quantityMax == old(quantityMax)
    {
      if payload.None? {
        cart := [];
        return;
      }
      cart := MapItems(payload.value);
    }

    /**
     * The totals part of `renderCart`: an empty cart returns before the
     * totals, which keep what they showed.
     */
    method RenderTotals()
      modifies this
      ensures cart == [] ==> shown == old(shown)
      ensures cart != [] ==> shown == Sidebar(SumOf(cart, Amount))
      ensures cart == old(cart) && badgeCount == old(badgeCount) && badgeVisible == old(badgeVisible)
      ensures quantityValue == old(quantityValue) && quantityMin == old(quantityMin) && quantityMax == old(quantityMax)
    {
      if |cart| == 0 {
        return;
      }
      var subtotal := Sum(cart, Amount);
      var shipping := if subtotal < FreeShippingFrom && subtotal > 0 then ShippingFee else 0;
      var tax := ClientTax(subtotal);
      shown := SidebarTotals(subtotal, shipping, subtotal + shipping + tax);
    }

    /** `updateCartBadge`: the units of the fetched cart; the badge shows iff there are any. */
    method UpdateBadge()
      modifies this
      ensures badgeCount == SumOf(cart, Units) && badgeVisible == (badgeCount > 0)
      ensures cart == old(cart) && shown == old(shown)
      ensures quantityValue == old(quantityValue) && quantityMin == old(quantityMin) && quantityMax == old(quantityMax)
    {
      var total := Sum(cart, Units);
      badgeCount := total;
      badgeVisible := total > 0;
    }

    /** `refreshCartBadge`: the same count taken from a fresh payload; a failed request changes nothing. */
    method RefreshBadge(payload: Option<seq<ServerItem>>)
      modifies this
      ensures payload.Some? ==> badgeCount == SumOf(payload.value, ItemUnits) && badgeVisible == (badgeCount > 0)
      ensures payload.None? ==> badgeCount == old(badgeCount) && badgeVisible == old(badgeVisible)
      ensures cart == old(cart) && shown == old(shown)
      ensures quantityValue == old(quantityValue) && quantityMin == old(quantityMin) && quantityMax == old(quantityMax)
    {
      if payload.Some? {
        var total := Sum(payload.value, ItemUnits);
        badgeCount := total;
        badgeVisible := total > 0;
      }
    }

    method IncreaseQuantity()
      modifies this
      ensures quantityValue == Increased(old(quantityValue), quantityMax)
      ensures cart == old(cart) && shown == old(shown) && badgeCount == old(badgeCount) && badgeVisible == old(badgeVisible)
      ensures quantityMin == old(quantityMin) && quantityMax == old(quantityMax)
    {
      if quantityValue.Some? && quantityMax.Some? && quantityValue.value < quantityMax.value {
        quantityValue := Some(quantityValue.value + 1);
      }
    }

    method DecreaseQuantity()
      modifies this
      ensures quantityValue == Decreased(old(quantityValue), quantityMin)
      ensures cart == old(cart) && shown == old(shown) && badgeCount == old(badgeCount) && badgeVisible == old(badgeVisible)
      ensures quantityMin == old(quantityMin) && quantityMax == old(quantityMax)
    {
      if quantityValue.Some? && quantityMin.Some? && quantityValue.value > quantityMin.value {
        quantityValue := Some(quantityValue.value - 1);
      }
    }
  }
}
