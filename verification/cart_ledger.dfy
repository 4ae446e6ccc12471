/**
 * The cart stock-reservation ledger of the client routes: adding to a cart,
 * changing a line's quantity and removing a line move units between a
 * product's `stock_quantity` and the cart lines, for the database cart of a
 * signed-in user and for the session cart of a guest. Each route is a pure
 * transition here, returning the answer's status and the new ledger; the
 * lemmas prove that every transition keeps stock plus reserved units
 * constant, keeps every line's `total_price` equal to unit price times
 * quantity, and keeps line ids distinct.
 */
module CartLedger {
  import opened Common
  import opened Seqs

  /** The columns of a product the cart routes read or write (prices in pesos). */
  datatype Product = Product(price: int, stock: int, active: bool)

  /** A database cart line; `owner` is the user whose cart holds it (one cart per user). */
  datatype CartItem = CartItem(id: int, owner: int, productId: int, quantity: int, unitPrice: int, totalPrice: int)

  /** An entry of the session's `guest_cart` list. */
  datatype GuestItem = GuestItem(id: int, productId: int, quantity: int)

  /** The tables the cart routes touch, and this session's guest cart. */
  datatype Ledger = Ledger(
    products: map<int, Product>,
    items: seq<CartItem>,
    nextItemId: int,
    guest: seq<GuestItem>)

  // ----- reservation sums -----

  function ItemQty(p: int): CartItem -> int {
    (it: CartItem) => if it.productId == p then it.quantity else 0
  }

  function GuestQty(p: int): GuestItem -> int {
    (g: GuestItem) => if g.productId == p then g.quantity else 0
  }

  /** Units of product `p` held by database cart lines. */
  function Reserved(items: seq<CartItem>, p: int): int {
    SumOf(items, ItemQty(p))
  }

  /** Units of product `p` held by the guest cart. */
  function GuestReserved(guest: seq<GuestItem>, p: int): int {
    SumOf(guest, GuestQty(p))
  }

  /** Stock plus every unit reserved in a cart: the quantity the routes must conserve. */
  function Held(l: Ledger, p: int): int
    requires p in l.products
  {
    l.products[p].stock + Reserved(l.items, p) + GuestReserved(l.guest, p)
  }

  // ----- lookups -----

  function IsLine(owner: int, p: int): CartItem -> bool {
    (it: CartItem) => it.owner == owner && it.productId == p
  }

  function HasId(id: int): CartItem -> bool {
    (it: CartItem) => it.id == id
  }

  function GuestHasId(id: int): GuestItem -> bool {
    (g: GuestItem) => g.id == id
  }

  function GuestHasProduct(p: int): GuestItem -> bool {
    (g: GuestItem) => g.productId == p
  }

  function GuestKeeps(id: int): GuestItem -> bool {
    (g: GuestItem) => g.id != id
  }

  /**
   * `max([i['id'] for i in guest], default=0) + 1`. Guest ids are only ever
   * made here, starting at 1, so every id in a guest cart is positive and
   * the next one is above them all. Starting the maximum from 1 agrees with
   * the source on every such cart; only a cart holding nothing but
   * non-positive ids, which never occurs, would tell them apart.
   */
  function NextGuestId(guest: seq<GuestItem>): (r: int)
    ensures r >= 1
    ensures forall i :: 0 <= i < |guest| ==> guest[i].id < r
    ensures r == 1 || exists i :: 0 <= i < |guest| && guest[i].id == r - 1
  {
    if guest == [] then 1
    else
      var before := NextGuestId(guest[..|guest| - 1]);
      var last := guest[|guest| - 1].id + 1;
      assert forall i :: 0 <= i < |guest| - 1 ==> guest[..|guest| - 1][i] == guest[i];
      if last > before then last else before
  }

  // ----- invariant -----

  /** Database lines: ids below the next id and distinct, one line per user and product, totals consistent. */
  ghost predicate ItemsValid(items: seq<CartItem>, nextItemId: int) {
    && (forall i :: 0 <= i < |items| ==> items[i].id < nextItemId)
    && (forall i, j :: 0 <= i < j < |items| ==> items[i].id != items[j].id)
    && (forall i, j :: 0 <= i < j < |items| ==>
          items[i].owner != items[j].owner || items[i].productId != items[j].productId)
    && (forall i :: 0 <= i < |items| ==> items[i].totalPrice == items[i].unitPrice * items[i].quantity)
  }

  /** Guest entries: distinct ids and at most one entry per product. */
  ghost predicate GuestValid(guest: seq<GuestItem>) {
    && (forall i, j :: 0 <= i < j < |guest| ==> guest[i].id != guest[j].id)
    && (forall i, j :: 0 <= i < j < |guest| ==> guest[i].productId != guest[j].productId)
  }

  ghost predicate Valid(l: Ledger) {
    ItemsValid(l.items, l.nextItemId) && GuestValid(l.guest)
  }

  /** The product map after `stock_quantity += n` on `p`, when `p` exists. */
  function Restock(products: map<int, Product>, p: int, n: int): (r: map<int, Product>)
    ensures r.Keys == products.Keys
    ensures p in products ==> r[p] == products[p].(stock := products[p].stock + n)
    ensures forall q :: q in products && q != p ==> r[q] == products[q]
  {
    if p in products then products[p := products[p].(stock := products[p].stock + n)] else products
  }

  // ----- the three routes -----

  /** `client_cart_add`: `user` is None for an anonymous visitor. */
  function CartAdd(l: Ledger, user: Option<int>, productId: int, qty: int): (Status, Ledger)
  {
    if productId !in l.products || !l.products[productId].active then (NotFound404, l)
    else if l.products[productId].stock < qty then (BadRequest400, l)
    else
      var products := Restock(l.products, productId, -qty);
      if user.Some? then
        var line := FirstIndex(l.items, IsLine(user.value, productId));
        if line.Some? then
          // The handler checks the stock a second time here; the first check already passed.
          var it := l.items[line.value];
          var q := it.quantity + qty;
          (Ok200, l.(products := products, items := l.items[line.value := it.(quantity := q, totalPrice := it.unitPrice * q)]))
        else
          var price := l.products[productId].price;
          var newLine := CartItem(l.nextItemId, user.value, productId, qty, price, price * qty);
          (Ok200, l.(products := products, items := l.items + [newLine], nextItemId := l.nextItemId + 1))
      else
        var entry := FirstIndex(l.guest, GuestHasProduct(productId));
        if entry.Some? then
          var g := l.guest[entry.value];
          (Ok200, l.(products := products, guest := l.guest[entry.value := g.(quantity := g.quantity + qty)]))
        else
          (Ok200, l.(products := products, guest := l.guest + [GuestItem(NextGuestId(l.guest), productId, qty)]))
  }

  /** `client_cart_remove`. */
  function CartRemove(l: Ledger, user: Option<int>, itemId: int): (Status, Ledger)
  {
    if user.Some? then
      var found := FirstIndex(l.items, HasId(itemId));
      if found.None? then (InternalError500, l)
      else
        var k := found.value;
        var it := l.items[k];
        if it.owner != user.value then (Forbidden403, l)
        else (Ok200, l.(products := Restock(l.products, it.productId, it.quantity),
                        items := l.items[..k] + l.items[k + 1..]))
    else
      var found := FirstIndex(l.guest, GuestHasId(itemId));
      if found.None? then (NotFound404, l)
      else
        var g := l.guest[found.value];
        (Ok200, l.(products := Restock(l.products, g.productId, g.quantity),
                   guest := Filter(l.guest, GuestKeeps(itemId))))
  }

  /** `client_cart_update`: a quantity of zero or less deletes the line. */
  function CartUpdate(l: Ledger, user: Option<int>, itemId: int, qty: int): (Status, Ledger)
  {
    if user.Some? then
      var found := FirstIndex(l.items, HasId(itemId));
      if found.None? then (InternalError500, l)
      else
        var k := found.value;
        var it := l.items[k];
        if it.owner != user.value then (Forbidden403, l)
        else if qty <= 0 then
          (Ok200, l.(products := Restock(l.products, it.productId, it.quantity),
                     items := l.items[..k] + l.items[k + 1..]))
        else
          var delta := qty - it.quantity;
          if delta > 0 && (it.productId !in l.products || l.products[it.productId].stock < delta) then
            (BadRequest400, l)
          else
            (Ok200, l.(products := Restock(l.products, it.productId, -delta),
                       items := l.items[k := it.(quantity := qty, totalPrice := it.unitPrice * qty)]))
    else
      var found := FirstIndex(l.guest, GuestHasId(itemId));
      if found.None? then (NotFound404, l)
      else
        var k := found.value;
        var g := l.guest[k];
        if qty <= 0 then
          (Ok200, l.(products := Restock(l.products, g.productId, g.quantity),
                     guest := Filter(l.guest, GuestKeeps(itemId))))
        else
          var delta := qty - g.quantity;
          if delta > 0 && (g.productId !in l.products || l.products[g.productId].stock < delta) then
            (BadRequest400, l)
          else
            (Ok200, l.(products := Restock(l.products, g.productId, -delta),
                       guest := l.guest[k := g.(quantity := qty)]))
  }

  // ----- helper facts about the sums -----

  lemma ReservedUpdate(items: seq<CartItem>, k: nat, it: CartItem, p: int)
    requires k < |items|
    ensures Reserved(items[k := it], p) == Reserved(items, p) - ItemQty(p)(items[k]) + ItemQty(p)(it)
  {
    SumOfUpdate(items, k, it, ItemQty(p));
  }

  lemma ReservedRemove(items: seq<CartItem>, k: nat, p: int)
    requires k < |items|
    ensures Reserved(items[..k] + items[k + 1..], p) == Reserved(items, p) - ItemQty(p)(items[k])
  {
    SumOfRemove(items, k, ItemQty(p));
  }

  lemma ReservedAppend(items: seq<CartItem>, it: CartItem, p: int)
    ensures Reserved(items + [it], p) == Reserved(items, p) + ItemQty(p)(it)
  {
    SumOfAppend(items, it, ItemQty(p));
  }

  lemma GuestReservedUpdate(guest: seq<GuestItem>, k: nat, g: GuestItem, p: int)
    requires k < |guest|
    ensures GuestReserved(guest[k := g], p) == GuestReserved(guest, p) - GuestQty(p)(guest[k]) + GuestQty(p)(g)
  {
    SumOfUpdate(guest, k, g, GuestQty(p));
  }

  lemma GuestReservedAppend(guest: seq<GuestItem>, g: GuestItem, p: int)
    ensures GuestReserved(guest + [g], p) == GuestReserved(guest, p) + GuestQty(p)(g)
  {
    SumOfAppend(guest, g, GuestQty(p));
  }

  /** With distinct ids, the comprehension that drops one id removes exactly that entry. */
  lemma GuestFilterRemovesOne(guest: seq<GuestItem>, k: nat, id: int)
    requires k < |guest| && guest[k].id == id
    requires forall i, j :: 0 <= i < j < |guest| ==> guest[i].id != guest[j].id
    ensures Filter(guest, GuestKeeps(id)) == guest[..k] + guest[k + 1..]
  {
    FilterDropsOne(guest, k, GuestKeeps(id));
  }

  lemma GuestReservedRemove(guest: seq<GuestItem>, k: nat, id: int, p: int)
    requires k < |guest| && guest[k].id == id
    requires forall i, j :: 0 <= i < j < |guest| ==> guest[i].id != guest[j].id
    ensures GuestReserved(Filter(guest, GuestKeeps(id)), p) == GuestReserved(guest, p) - GuestQty(p)(guest[k])
  {
    GuestFilterRemovesOne(guest, k, id);
    SumOfRemove(guest, k, GuestQty(p));
  }

  // ----- conservation -----

  /**
   * Adding to a cart keeps stock plus reserved units constant for every
   * product, whatever the sign of the quantity (the route does not check
   * that it is positive), and a rejected add changes nothing.
   */
  lemma CartAddConserves(l: Ledger, user: Option<int>, productId: int, qty: int)
    ensures CartAdd(l, user, productId, qty).1.products.Keys == l.products.Keys
    ensures CartAdd(l, user, productId, qty).0 != Ok200 ==> CartAdd(l, user, productId, qty).1 == l
    ensures forall p :: p in l.products ==> Held(CartAdd(l, user, productId, qty).1, p) == Held(l, p)
  {
    var (s, l') := CartAdd(l, user, productId, qty);
    if s == Ok200 {
      forall p | p in l.products ensures Held(l', p) == Held(l, p) {
        if user.Some? {
          var line := FirstIndex(l.items, IsLine(user.value, productId));
          if line.Some? {
            var it := l.items[line.value];
            var q := it.quantity + qty;
            ReservedUpdate(l.items, line.value, it.(quantity := q, totalPrice := it.unitPrice * q), p);
          } else {
            var price := l.products[productId].price;
            ReservedAppend(l.items, CartItem(l.nextItemId, user.value, productId, qty, price, price * qty), p);
          }
        } else {
          var entry := FirstIndex(l.guest, GuestHasProduct(productId));
          if entry.Some? {
            var g := l.guest[entry.value];
            GuestReservedUpdate(l.guest, entry.value, g.(quantity := g.quantity + qty), p);
          } else {
            GuestReservedAppend(l.guest, GuestItem(NextGuestId(l.guest), productId, qty), p);
          }
        }
      }
    }
  }

  /** Removing a line gives its whole quantity back to stock, for every product. */
  lemma CartRemoveConserves(l: Ledger, user: Option<int>, itemId: int)
    requires Valid(l)
    ensures CartRemove(l, user, itemId).1.products.Keys == l.products.Keys
    ensures CartRemove(l, user, itemId).0 != Ok200 ==> CartRemove(l, user, itemId).1 == l
    ensures forall p :: p in l.products ==> Held(CartRemove(l, user, itemId).1, p) == Held(l, p)
  {
    var (s, l') := CartRemove(l, user, itemId);
    if s == Ok200 {
      forall p | p in l.products ensures Held(l', p) == Held(l, p) {
        if user.Some? {
          var k := FirstIndex(l.items, HasId(itemId)).value;
          ReservedRemove(l.items, k, p);
        } else {
          var k := FirstIndex(l.guest, GuestHasId(itemId)).value;
          GuestReservedRemove(l.guest, k, itemId, p);
        }
      }
    }
  }

  /** Changing a quantity moves exactly the difference between stock and the line. */
  lemma CartUpdateConserves(l: Ledger, user: Option<int>, itemId: int, qty: int)
    requires Valid(l)
    ensures CartUpdate(l, user, itemId, qty).1.products.Keys == l.products.Keys
    ensures CartUpdate(l, user, itemId, qty).0 != Ok200 ==> CartUpdate(l, user, itemId, qty).1 == l
    ensures forall p :: p in l.products ==> Held(CartUpdate(l, user, itemId, qty).1, p) == Held(l, p)
  {
    var (s, l') := CartUpdate(l, user, itemId, qty);
    if s == Ok200 {
      forall p | p in l.products ensures Held(l', p) == Held(l, p) {
        if user.Some? {
          var k := FirstIndex(l.items, HasId(itemId)).value;
          var it := l.items[k];
          if qty <= 0 {
            ReservedRemove(l.items, k, p);
          } else {
            ReservedUpdate(l.items, k, it.(quantity := qty, totalPrice := it.unitPrice * qty), p);
          }
        } else {
          var k := FirstIndex(l.guest, GuestHasId(itemId)).value;
          if qty <= 0 {
            GuestReservedRemove(l.guest, k, itemId, p);
          } else {
            GuestReservedUpdate(l.guest, k, l.guest[k].(quantity := qty), p);
          }
        }
      }
    }
  }

  // ----- the invariant is kept -----

  lemma ItemsValidUpdate(items: seq<CartItem>, nextItemId: int, k: nat, q: int)
    requires ItemsValid(items, nextItemId) && k < |items|
    ensures ItemsValid(items[k := items[k].(quantity := q, totalPrice := items[k].unitPrice * q)], nextItemId)
  {
  }

  lemma ItemsValidRemove(items: seq<CartItem>, nextItemId: int, k: nat)
    requires ItemsValid(items, nextItemId) && k < |items|
    ensures ItemsValid(items[..k] + items[k + 1..], nextItemId)
  {
    var r := items[..k] + items[k + 1..];
    assert forall i :: 0 <= i < |r| ==> r[i] == items[if i < k then i else i + 1];
  }

  lemma ItemsValidAppend(items: seq<CartItem>, nextItemId: int, it: CartItem)
    requires ItemsValid(items, nextItemId)
    requires it.id == nextItemId && it.totalPrice == it.unitPrice * it.quantity
    requires forall i :: 0 <= i < |items| ==> !IsLine(it.owner, it.productId)(items[i])
    ensures ItemsValid(items + [it], nextItemId + 1)
  {
  }

  lemma GuestValidUpdate(guest: seq<GuestItem>, k: nat, q: int)
    requires GuestValid(guest) && k < |guest|
    ensures GuestValid(guest[k := guest[k].(quantity := q)])
  {
  }

  lemma GuestValidRemove(guest: seq<GuestItem>, k: nat)
    requires GuestValid(guest) && k < |guest|
    ensures GuestValid(Filter(guest, GuestKeeps(guest[k].id)))
  {
    GuestFilterRemovesOne(guest, k, guest[k].id);
    GuestValidDelete(guest, k);
  }

  lemma GuestValidDelete(guest: seq<GuestItem>, k: nat)
    requires GuestValid(guest) && k < |guest|
    ensures GuestValid(guest[..k] + guest[k + 1..])
  {
    var r := guest[..k] + guest[k + 1..];
    assert forall i :: 0 <= i < |r| ==> r[i] == guest[if i < k then i else i + 1];
  }

  lemma GuestValidAppend(guest: seq<GuestItem>, g: GuestItem)
    requires GuestValid(guest)
    requires forall i :: 0 <= i < |guest| ==> guest[i].id < g.id
    requires forall i :: 0 <= i < |guest| ==> !GuestHasProduct(g.productId)(guest[i])
    ensures GuestValid(guest + [g])
  {
  }

  /** Keeping some of the lines, in order, keeps them valid. */
  lemma {:induction false} ItemsValidFilter(items: seq<CartItem>, nextItemId: int, keep: CartItem -> bool)
    requires ItemsValid(items, nextItemId)
    ensures ItemsValid(Filter(items, keep), nextItemId)
    decreases |items|
  {
    if items != [] {
      var init, last := items[..|items| - 1], items[|items| - 1];
      assert forall i :: 0 <= i < |init| ==> init[i] == items[i];
      ItemsValidFilter(init, nextItemId, keep);
      var r := Filter(init, keep);
      if keep(last) {
        forall i | 0 <= i < |r|
          ensures r[i].id != last.id && (r[i].owner != last.owner || r[i].productId != last.productId)
        {
          var j :| 0 <= j < |init| && init[j] == r[i];
          assert items[j] == r[i];
        }
        ItemsValidSnoc(r, nextItemId, last);
        assert Filter(items, keep) == r + [last];
      } else {
        assert Filter(items, keep) == r;
      }
    }
  }

  lemma ItemsValidSnoc(items: seq<CartItem>, nextItemId: int, last: CartItem)
    requires ItemsValid(items, nextItemId)
    requires last.id < nextItemId && last.totalPrice == last.unitPrice * last.quantity
    requires forall i :: 0 <= i < |items| ==>
               items[i].id != last.id && (items[i].owner != last.owner || items[i].productId != last.productId)
    ensures ItemsValid(items + [last], nextItemId)
  {
  }

  lemma CartAddKeepsValid(l: Ledger, user: Option<int>, productId: int, qty: int)
    requires Valid(l)
    ensures Valid(CartAdd(l, user, productId, qty).1)
  {
    var (s, l') := CartAdd(l, user, productId, qty);
    if s == Ok200 {
      if user.Some? {
        var line := FirstIndex(l.items, IsLine(user.value, productId));
        if line.Some? {
          ItemsValidUpdate(l.items, l.nextItemId, line.value, l.items[line.value].quantity + qty);
        } else {
          var price := l.products[productId].price;
          ItemsValidAppend(l.items, l.nextItemId, CartItem(l.nextItemId, user.value, productId, qty, price, price * qty));
        }
      } else {
        var entry := FirstIndex(l.guest, GuestHasProduct(productId));
        if entry.Some? {
          GuestValidUpdate(l.guest, entry.value, l.guest[entry.value].quantity + qty);
        } else {
          GuestValidAppend(l.guest, GuestItem(NextGuestId(l.guest), productId, qty));
        }
      }
    }
  }

  lemma CartRemoveKeepsValid(l: Ledger, user: Option<int>, itemId: int)
    requires Valid(l)
    ensures Valid(CartRemove(l, user, itemId).1)
  {
    var (s, l') := CartRemove(l, user, itemId);
    if s == Ok200 {
      if user.Some? {
        ItemsValidRemove(l.items, l.nextItemId, FirstIndex(l.items, HasId(itemId)).value);
      } else {
        GuestValidRemove(l.guest, FirstIndex(l.guest, GuestHasId(itemId)).value);
      }
    }
  }

  lemma CartUpdateKeepsValid(l: Ledger, user: Option<int>, itemId: int, qty: int)
    requires Valid(l)
    ensures Valid(CartUpdate(l, user, itemId, qty).1)
  {
    var (s, l') := CartUpdate(l, user, itemId, qty);
    if s == Ok200 {
      if user.Some? {
        var k := FirstIndex(l.items, HasId(itemId)).value;
        if qty <= 0 {
          ItemsValidRemove(l.items, l.nextItemId, k);
        } else {
          ItemsValidUpdate(l.items, l.nextItemId, k, qty);
        }
      } else {
        var k := FirstIndex(l.guest, GuestHasId(itemId)).value;
        if qty <= 0 {
          GuestValidRemove(l.guest, k);
        } else {
          GuestValidUpdate(l.guest, k, qty);
        }
      }
    }
  }

  // ----- what each route does to the cart -----

  /**
   * The rejections of `client_cart_add`: 404 for a missing or inactive
   * product, 400 when the stock is below the quantity; otherwise the stock
   * drops by the quantity and the product's reservation grows by it.
   */
  lemma CartAddOutcome(l: Ledger, user: Option<int>, productId: int, qty: int)
    ensures CartAdd(l, user, productId, qty).0 == NotFound404 <==>
              productId !in l.products || !l.products[productId].active
    ensures CartAdd(l, user, productId, qty).0 == BadRequest400 <==>
              productId in l.products && l.products[productId].active && l.products[productId].stock < qty
    ensures CartAdd(l, user, productId, qty).0 == Ok200 ==>
              CartAdd(l, user, productId, qty).1.products[productId].stock == l.products[productId].stock - qty
    ensures CartAdd(l, user, productId, qty).0 == Ok200 ==>
              Reserved(CartAdd(l, user, productId, qty).1.items, productId)
              + GuestReserved(CartAdd(l, user, productId, qty).1.guest, productId)
              == Reserved(l.items, productId) + GuestReserved(l.guest, productId) + qty
  {
    CartAddConserves(l, user, productId, qty);
  }

  /**
   * A new database line snapshots the product's price; a merge keeps the old
   * snapshot and adds the quantity; a guest add merges by product and
   * otherwise appends an id larger than every id in the cart.
   */
  lemma CartAddLines(l: Ledger, user: Option<int>, productId: int, qty: int)
    requires Valid(l)
    requires CartAdd(l, user, productId, qty).0 == Ok200
    ensures user.Some? && FirstIndex(l.items, IsLine(user.value, productId)).None? ==>
              var items' := CartAdd(l, user, productId, qty).1.items;
              |items'| == |l.items| + 1 && items'[|l.items|].unitPrice == l.products[productId].price
              && items'[|l.items|].quantity == qty && items'[|l.items|].owner == user.value
    ensures user.Some? && FirstIndex(l.items, IsLine(user.value, productId)).Some? ==>
              var k := FirstIndex(l.items, IsLine(user.value, productId)).value;
              var items' := CartAdd(l, user, productId, qty).1.items;
              |items'| == |l.items| && items'[k].unitPrice == l.items[k].unitPrice
              && items'[k].quantity == l.items[k].quantity + qty
              && items'[k].totalPrice == l.items[k].unitPrice * items'[k].quantity
    ensures user.None? && FirstIndex(l.guest, GuestHasProduct(productId)).None? ==>
              var guest' := CartAdd(l, user, productId, qty).1.guest;
              |guest'| == |l.guest| + 1 && guest'[|l.guest|].quantity == qty
              && forall i :: 0 <= i < |l.guest| ==> l.guest[i].id < guest'[|l.guest|].id
    ensures user.None? && FirstIndex(l.guest, GuestHasProduct(productId)).Some? ==>
              |CartAdd(l, user, productId, qty).1.guest| == |l.guest|
  {
  }

  /**
   * A successful remove takes exactly the one line with that id out of the
   * cart; the others stay in order.
   */
  lemma CartRemoveDeletesOne(l: Ledger, user: Option<int>, itemId: int)
    requires Valid(l)
    requires CartRemove(l, user, itemId).0 == Ok200
    ensures user.Some? ==>
              exists k :: 0 <= k < |l.items| && l.items[k].id == itemId
                && (forall j :: 0 <= j < k ==> l.items[j].id != itemId)
                && CartRemove(l, user, itemId).1.items == l.items[..k] + l.items[k + 1..]
    ensures user.None? ==>
              exists k :: 0 <= k < |l.guest| && l.guest[k].id == itemId
                && (forall j :: 0 <= j < k ==> l.guest[j].id != itemId)
                && CartRemove(l, user, itemId).1.guest == l.guest[..k] + l.guest[k + 1..]
    ensures user.Some? ==>
              var items' := CartRemove(l, user, itemId).1.items;
              |items'| == |l.items| - 1 && (forall i :: 0 <= i < |items'| ==> items'[i].id != itemId)
    ensures user.None? ==>
              var guest' := CartRemove(l, user, itemId).1.guest;
              |guest'| == |l.guest| - 1 && (forall i :: 0 <= i < |guest'| ==> guest'[i].id != itemId)
  {
    if user.Some? {
      var k := FirstIndex(l.items, HasId(itemId)).value;
      var items' := l.items[..k] + l.items[k + 1..];
      forall i | 0 <= i < |items'| ensures items'[i].id != itemId {
        if i < k {
          assert items'[i] == l.items[i];
        } else {
          assert items'[i] == l.items[i + 1];
        }
      }
    } else {
      var k := FirstIndex(l.guest, GuestHasId(itemId)).value;
      GuestFilterRemovesOne(l.guest, k, itemId);
    }
  }

  /**
   * The rejections of `client_cart_update` on a database line: 500 for an
   * unknown id (the `get_or_404` error is caught by the handler), 403 for another user's line, 400 when raising the quantity
   * needs more than the stock; a raise or cut by `delta` moves exactly
   * `delta` units out of or back into stock.
   */
  lemma CartUpdateOutcome(l: Ledger, u: int, itemId: int, qty: int)
    requires Valid(l)
    ensures CartUpdate(l, Some(u), itemId, qty).0 == InternalError500 <==> FirstIndex(l.items, HasId(itemId)).None?
    ensures FirstIndex(l.items, HasId(itemId)).Some? ==>
              var it := l.items[FirstIndex(l.items, HasId(itemId)).value];
              && (CartUpdate(l, Some(u), itemId, qty).0 == Forbidden403 <==> it.owner != u)
              && (CartUpdate(l, Some(u), itemId, qty).0 == BadRequest400 <==>
                    it.owner == u && qty > 0 && qty - it.quantity > 0
                    && (it.productId !in l.products || l.products[it.productId].stock < qty - it.quantity))
              && (CartUpdate(l, Some(u), itemId, qty).0 == Ok200 && it.productId in l.products ==>
                    CartUpdate(l, Some(u), itemId, qty).1.products[it.productId].stock
                    == l.products[it.productId].stock + (if qty <= 0 then it.quantity else it.quantity - qty))
  {
  }

  /**
   * A quantity update to zero or less is the same request as a removal:
   * same status, same ledger. The browser scripts rely on this when they
   * send `PUT {quantity: 0}` to drop a line.
   */
  lemma UpdateToZeroIsRemove(l: Ledger, user: Option<int>, itemId: int, qty: int)
    requires qty <= 0
    ensures CartUpdate(l, user, itemId, qty) == CartRemove(l, user, itemId)
  {
  }

  // ----- create_order -----

  /** A line's unit price as `create_order` reads it: `unit_price or product.price`. */
  function OrderUnitPrice(products: map<int, Product>, it: CartItem): Option<int>
  {
    if it.unitPrice != 0 then Some(it.unitPrice)
    else if it.productId in products then Some(products[it.productId].price)
    else None
  }

  /** `sum(float(item.unit_price or item.product.price) * item.quantity ...)`; None when a product is missing and the snapshot is 0. */
  function CreateOrderSubtotal(products: map<int, Product>, lines: seq<CartItem>): (r: Option<int>)
  {
    if lines == [] then Some(0)
    else
      match CreateOrderSubtotal(products, lines[..|lines| - 1])
      case None => None
      case Some(s) =>
        match OrderUnitPrice(products, lines[|lines| - 1])
        case None => None
        case Some(unit) => Some(s + unit * lines[|lines| - 1].quantity)
  }

  /** The order lines `create_order` builds: one per cart line whose product still exists. */
  function OrderLines(products: map<int, Product>, lines: seq<CartItem>): (r: seq<OrderLine>)
    ensures |r| <= |lines|
  {
    if lines == [] then []
    else
      var rest := OrderLines(products, lines[..|lines| - 1]);
      var it := lines[|lines| - 1];
      if it.productId in products then
        rest + [OrderLine(it.productId, it.quantity, it.unitPrice, it.unitPrice * it.quantity)]
      else rest
  }

  datatype OrderLine = OrderLine(productId: int, quantity: int, unitPrice: int, totalPrice: int)

  function LineTotal(ol: OrderLine): int {
    ol.totalPrice
  }

  function OwnedBy(u: int): CartItem -> bool {
    (it: CartItem) => it.owner == u
  }

  function NotOwnedBy(u: int): CartItem -> bool {
    (it: CartItem) => it.owner != u
  }

  /**
   * When every line of the cart still has its product and a non-zero price
   * snapshot, the subtotal `create_order` stores is the sum of the order
   * lines' totals, which is what `Order.to_dict` recomputes later.
   */
  lemma {:induction false} StoredSubtotalMatchesLines(products: map<int, Product>, lines: seq<CartItem>)
    requires forall i :: 0 <= i < |lines| ==> lines[i].productId in products && lines[i].unitPrice != 0
    ensures CreateOrderSubtotal(products, lines) == Some(SumOf(OrderLines(products, lines), LineTotal))
    ensures |OrderLines(products, lines)| == |lines|
    decreases |lines|
  {
    if lines != [] {
      var init := lines[..|lines| - 1];
      StoredSubtotalMatchesLines(products, init);
      var it := lines[|lines| - 1];
      SumOfAppend(OrderLines(products, init), OrderLine(it.productId, it.quantity, it.unitPrice, it.unitPrice * it.quantity), LineTotal);
    }
  }
}
