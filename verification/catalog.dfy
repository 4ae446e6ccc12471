/**
 * The catalog page script: searching and filtering the product list,
 * ordering it for display, the page buttons, and the page's own copy of the
 * cart (its totals, its badge, and the requests a quantity button sends).
 */
module Catalog {
  import opened Common
  import opened Seqs
  import opened Text
  import OrderTotals

  /**
   * A product as the catalog lists it (price in pesos). `category` is what
   * the page keeps of the server's `category_id`: the number, or null when
   * the product has none.
   */
  datatype Item = Item(id: int, name: string, description: string, category: Option<int>, brand: string, price: int)

  // ----- search -----

  function Matches(query: string): Item -> bool {
    (p: Item) => Contains(Lower(p.name), Lower(query)) || Contains(Lower(p.description), Lower(query))
  }

  /**
   * `searchProducts`: an empty query restores every product; otherwise the
   * products whose lower-cased name or description contains the lower-cased
   * query, in catalog order.
   */
  function Search(products: seq<Item>, query: string): (r: seq<Item>)
    ensures query == [] ==> r == products
    ensures query != [] ==> forall i :: 0 <= i < |r| ==>
              r[i] in products && (Contains(Lower(r[i].name), Lower(query)) || Contains(Lower(r[i].description), Lower(query)))
    ensures query != [] ==> forall i :: 0 <= i < |products| ==>
              (Contains(Lower(products[i].name), Lower(query)) || Contains(Lower(products[i].description), Lower(query)))
              ==> products[i] in r
  {
    if query == [] then products
    else
      var r := Filter(products, Matches(query));
      assert forall i :: 0 <= i < |r| ==> Matches(query)(r[i]);
      assert forall i :: 0 <= i < |products| && Matches(query)(products[i]) ==> products[i] in r;
      r
  }

  // ----- filters -----

  /** The radio-button price buckets; an unknown bucket keeps every product. */
  function InBucket(bucket: string, price: int): bool {
    if bucket == "price-0-50" then price < 50
    else if bucket == "price-50-100" then 50 <= price <= 100
    else if bucket == "price-100-200" then 100 < price <= 200
    else if bucket == "price-200-plus" then price > 200
    else true
  }

  const Buckets: seq<string> := ["price-0-50", "price-50-100", "price-100-200", "price-200-plus"]

  /** Every price falls in exactly one of the four buckets. */
  lemma BucketsPartitionPrices(price: int)
    ensures exists b :: 0 <= b < 4 && InBucket(Buckets[b], price)
    ensures forall b, c :: 0 <= b < c < 4 ==> !(InBucket(Buckets[b], price) && InBucket(Buckets[c], price))
  {
    if price < 50 {
      assert InBucket(Buckets[0], price);
    } else if price <= 100 {
      assert InBucket(Buckets[1], price);
    } else if price <= 200 {
      assert InBucket(Buckets[2], price);
    } else {
      assert InBucket(Buckets[3], price);
    }
  }

  /** `currentFilters`: an empty list stands for a filter the user left unset. */
  datatype Filters = Filters(categories: seq<string>, price: Option<string>, brands: seq<string>)

  /**
   * The values `Array.prototype.includes` compares here. It compares without
   * conversion, so a number never equals a string and null equals only null.
   */
  datatype JsValue = JsNumber(n: int) | JsNull | JsString(s: string)

  function CategoryValue(c: Option<int>): JsValue {
    if c.Some? then JsNumber(c.value) else JsNull
  }

  function Checked(ids: seq<string>): (r: seq<JsValue>)
    ensures |r| == |ids| && forall i :: 0 <= i < |r| ==> r[i] == JsString(ids[i])
  {
    seq(|ids|, i requires 0 <= i < |ids| => JsString(ids[i]))
  }

  /** The category test as written: the product's category value among the checked box ids. */
  function InCategoriesAsWritten(f: Filters): Item -> bool {
    (p: Item) => f.categories == [] || CategoryValue(p.category) in Checked(f.categories)
  }

  /**
   * The category test as meant: `boxOf` names the checkbox id of each
   * category, and a product passes when its category's box is checked.
   */
  function InCategories(f: Filters, boxOf: map<int, string>): Item -> bool {
    (p: Item) => f.categories == [] ||
      (p.category.Some? && p.category.value in boxOf && boxOf[p.category.value] in f.categories)
  }

  function InPriceBucket(f: Filters): Item -> bool {
    (p: Item) => f.price.None? || InBucket(f.price.value, p.price)
  }

  function OfBrands(f: Filters): Item -> bool {
    (p: Item) => f.brands == [] || p.brand in f.brands
  }

  function PassesAll(f: Filters, boxOf: map<int, string>): Item -> bool {
    (p: Item) => InCategories(f, boxOf)(p) && InPriceBucket(f)(p) && OfBrands(f)(p)
  }

  /** `applyFilters` as written: category, then price, then brand. */
  function FilteredProductsAsWritten(products: seq<Item>, f: Filters): seq<Item>
  {
    Filter(Filter(Filter(products, InCategoriesAsWritten(f)), InPriceBucket(f)), OfBrands(f))
  }

  /**
   * As written, checking any category box empties the list: the page keeps
   * the category as a number (or null) and the boxes give strings.
   */
  lemma CategoryFilterAsWrittenEmpty(products: seq<Item>, f: Filters)
    requires f.categories != []
    ensures FilteredProductsAsWritten(products, f) == []
  {
    forall i | 0 <= i < |products|
      ensures !InCategoriesAsWritten(f)(products[i])
    {
      assert !CategoryValue(products[i].category).JsString?;
    }
    FilterNone(products, InCategoriesAsWritten(f));
  }

  /** `applyFilters` with the category test as meant. */
  function FilteredProducts(products: seq<Item>, f: Filters, boxOf: map<int, string>): (r: seq<Item>)
  {
    Filter(Filter(Filter(products, InCategories(f, boxOf)), InPriceBucket(f)), OfBrands(f))
  }

  /** Applying the three filters in turn keeps exactly the products that pass all three, in order. */
  lemma FiltersAreOneFilter(products: seq<Item>, f: Filters, boxOf: map<int, string>)
    ensures FilteredProducts(products, f, boxOf) == Filter(products, PassesAll(f, boxOf))
  {
    var both := (p: Item) => InCategories(f, boxOf)(p) && InPriceBucket(f)(p);
    FilterFilter(products, InCategories(f, boxOf), InPriceBucket(f), both);
    FilterFilter(products, both, OfBrands(f), PassesAll(f, boxOf));
  }

  /**
   * With the test as meant, a product whose category box is the one checked
   * stays on the list (price and brand left unset), where as written the
   * list is empty.
   */
  lemma CheckedCategoryKept(products: seq<Item>, k: nat, box: string, boxOf: map<int, string>)
    requires k < |products| && products[k].category.Some?
    requires products[k].category.value in boxOf && boxOf[products[k].category.value] == box
    ensures products[k] in FilteredProducts(products, Filters([box], None, []), boxOf)
    ensures FilteredProductsAsWritten(products, Filters([box], None, [])) == []
  {
    var f := Filters([box], None, []);
    FiltersAreOneFilter(products, f, boxOf);
    assert PassesAll(f, boxOf)(products[k]);
    CategoryFilterAsWrittenEmpty(products, f);
  }

  // ----- ordering -----

  /** `currentSort`; `Unsorted` covers no sort and an unknown key (the comparator returns 0). */
  datatype SortKey = NameAsc | NameDesc | PriceAsc | PriceDesc | Unsorted

  /** Lexicographic order on character codes. */
  predicate StrLe(a: string, b: string)
    decreases |a|
  {
    a == [] || (b != [] && (a[0] < b[0] || (a[0] == b[0] && StrLe(a[1..], b[1..]))))
  }

  lemma {:induction false} StrLeTotal(a: string, b: string)
    ensures StrLe(a, b) || StrLe(b, a)
    decreases |a|
  {
    if a != [] && b != [] && a[0] == b[0] {
      StrLeTotal(a[1..], b[1..]);
    }
  }

  lemma {:induction false} StrLeTrans(a: string, b: string, c: string)
    requires StrLe(a, b) && StrLe(b, c)
    ensures StrLe(a, c)
    decreases |a|
  {
    if a != [] && b != [] && c != [] && a[0] == b[0] && b[0] == c[0] {
      StrLeTrans(a[1..], b[1..], c[1..]);
    }
  }

  /** `a` may come before `b` under the comparator. */
  predicate Le(key: SortKey, a: Item, b: Item) {
    match key
    case NameAsc => StrLe(a.name, b.name)
    case NameDesc => StrLe(b.name, a.name)
    case PriceAsc => a.price <= b.price
    case PriceDesc => b.price <= a.price
    case Unsorted => true
  }

  lemma LeTotal(key: SortKey, a: Item, b: Item)
    ensures Le(key, a, b) || Le(key, b, a)
  {
    StrLeTotal(a.name, b.name);
  }

  lemma LeTrans(key: SortKey, a: Item, b: Item, c: Item)
    requires Le(key, a, b) && Le(key, b, c)
    ensures Le(key, a, c)
  {
    if key == NameAsc {
      StrLeTrans(a.name, b.name, c.name);
    } else if key == NameDesc {
      StrLeTrans(c.name, b.name, a.name);
    }
  }

  ghost predicate Ordered(s: seq<Item>, key: SortKey) {
    forall i, j :: 0 <= i < j < |s| ==> Le(key, s[i], s[j])
  }

  function Insert(x: Item, s: seq<Item>, key: SortKey): (r: seq<Item>)
    ensures multiset(r) == multiset(s) + multiset{x} && |r| == |s| + 1
  {
    if s == [] || Le(key, x, s[0]) then [x] + s
    else
      assert s == [s[0]] + s[1..];
      [s[0]] + Insert(x, s[1..], key)
  }

  /** The order the sort on the copy gives. */
  function SortProducts(s: seq<Item>, key: SortKey): (r: seq<Item>)
    ensures multiset(r) == multiset(s) && |r| == |s|
  {
    if s == [] then []
    else
      assert s == [s[0]] + s[1..];
      Insert(s[0], SortProducts(s[1..], key), key)
  }

  lemma {:induction false} InsertOrdered(x: Item, s: seq<Item>, key: SortKey)
    requires Ordered(s, key)
    ensures Ordered(Insert(x, s, key), key)
    decreases |s|
  {
    if s == [] {
      assert Insert(x, s, key) == [x];
    } else if !Le(key, x, s[0]) {
      InsertOrdered(x, s[1..], key);
      HeadBelowInsert(x, s, key);
      OrderedCons(s[0], Insert(x, s[1..], key), key);
    } else {
      forall j | 0 <= j < |s| ensures Le(key, x, s[j]) {
        if j > 0 {
          LeTrans(key, x, s[0], s[j]);
        }
      }
      OrderedCons(x, s, key);
    }
  }

  /** An ordered list stays ordered with an element in front that comes before all of it. */
  lemma OrderedCons(h: Item, t: seq<Item>, key: SortKey)
    requires Ordered(t, key)
    requires forall j :: 0 <= j < |t| ==> Le(key, h, t[j])
    ensures Ordered([h] + t, key)
  {
    var r := [h] + t;
    forall i, j | 0 <= i < j < |r| ensures Le(key, r[i], r[j]) {
      assert r[j] == t[j - 1];
      if i > 0 {
        assert r[i] == t[i - 1];
      }
    }
  }

  /** When `x` goes after the head, the head comes before everything the rest becomes. */
  lemma HeadBelowInsert(x: Item, s: seq<Item>, key: SortKey)
    requires Ordered(s, key) && s != [] && !Le(key, x, s[0])
    ensures forall j :: 0 <= j < |Insert(x, s[1..], key)| ==> Le(key, s[0], Insert(x, s[1..], key)[j])
  {
    LeTotal(key, x, s[0]);
    var tail := Insert(x, s[1..], key);
    InsertFrom(x, s[1..], key);
    forall j | 0 <= j < |tail| ensures Le(key, s[0], tail[j]) {
      if tail[j] != x {
        var m :| 0 <= m < |s| - 1 && s[1..][m] == tail[j];
        assert s[1 + m] == tail[j];
      }
    }
  }

  /** Each element of an insertion is the inserted item or one of the list's. */
  lemma {:induction false} InsertFrom(x: Item, s: seq<Item>, key: SortKey)
    ensures forall j :: 0 <= j < |Insert(x, s, key)| ==>
              Insert(x, s, key)[j] == x || exists m :: 0 <= m < |s| && s[m] == Insert(x, s, key)[j]
    decreases |s|
  {
    if s != [] && !Le(key, x, s[0]) {
      var r, tail := Insert(x, s, key), Insert(x, s[1..], key);
      InsertFrom(x, s[1..], key);
      forall j | 0 <= j < |r| ensures r[j] == x || exists m :: 0 <= m < |s| && s[m] == r[j] {
        if j == 0 {
          assert s[0] == r[j];
        } else if r[j] != x {
          assert r[j] == tail[j - 1];
          var m :| 0 <= m < |s| - 1 && s[1..][m] == r[j];
          assert s[m + 1] == r[j];
        }
      }
    } else if s != [] {
      var r := Insert(x, s, key);
      forall j | 0 < j < |r| ensures exists m :: 0 <= m < |s| && s[m] == r[j] {
        assert s[j - 1] == r[j];
      }
    }
  }

  /** The displayed order is a rearrangement of the list, ordered by the chosen key. */
  lemma {:induction false} SortProductsOrdered(s: seq<Item>, key: SortKey)
    ensures Ordered(SortProducts(s, key), key)
    decreases |s|
  {
    if s != [] {
      SortProductsOrdered(s[1..], key);
      InsertOrdered(s[0], SortProducts(s[1..], key), key);
    }
  }

  /** With no key, or an unknown one, the list keeps its order. */
  lemma {:induction false} UnsortedKeepsOrder(s: seq<Item>)
    ensures SortProducts(s, Unsorted) == s
    decreases |s|
  {
    if s != [] {
      UnsortedKeepsOrder(s[1..]);
      assert s == [s[0]] + s[1..];
    }
  }

  // ----- pagination -----

  datatype PageArg = Prev | Next | PageNumber(n: int) | OtherArg

  /**
   * `changePage`: the page to load, if any. `pages` is None while no
   * pagination data has arrived.
   */
  function PageToLoad(arg: PageArg, currentPage: int, pages: Option<int>): (r: Option<int>)
    ensures arg == Prev ==> (r.Some? <==> currentPage > 1) && (r.Some? ==> r.value == currentPage - 1)
    ensures arg == Next ==> (r.Some? <==> pages.Some? && currentPage < pages.value) && (r.Some? ==> r.value == currentPage + 1)
    ensures arg.PageNumber? ==> r == Some(arg.n)
    ensures arg == OtherArg ==> r.None?
  {
    if arg == Prev && currentPage > 1 then Some(currentPage - 1)
    else if arg == Next && pages.Some? && currentPage < pages.value then Some(currentPage + 1)
    else if arg.PageNumber? then Some(arg.n)
    else None
  }

  /** Prev and next never leave the range [1, pages]. */
  lemma PrevNextStayInRange(currentPage: int, pages: int)
    requires 1 <= currentPage <= pages
    ensures PageToLoad(Prev, currentPage, Some(pages)).Some? ==> 1 <= PageToLoad(Prev, currentPage, Some(pages)).value <= pages
    ensures PageToLoad(Next, currentPage, Some(pages)).Some? ==> 1 <= PageToLoad(Next, currentPage, Some(pages)).value <= pages
  {
  }

  // ----- the page's cart -----

  /** A line of the page's `cart` array; `price` is None when `Number(item.price)` is NaN. */
  datatype LocalLine = LocalLine(id: int, price: Option<int>, quantity: int)

  function LineAmount(it: LocalLine): int {
    (if it.price.Some? then it.price.value else 0) * it.quantity
  }

  function LineQuantity(it: LocalLine): int {
    it.quantity
  }

  /** `updateTotalsLocal`: all zeros for an empty cart, the browser's totals otherwise. */
  function TotalsLocal(cart: seq<LocalLine>): (t: OrderTotals.Totals)
    ensures cart == [] ==> t == OrderTotals.Totals(0, 0, 0, 0)
  {
    if cart == [] then OrderTotals.Totals(0, 0, 0, 0)
    else OrderTotals.ClientTotals(SumOf(cart, LineAmount))
  }

  /** The empty-cart branch is what the general formula gives for a zero subtotal. */
  lemma TotalsLocalIsClientTotals(cart: seq<LocalLine>)
    ensures TotalsLocal(cart) == OrderTotals.ClientTotals(SumOf(cart, LineAmount))
  {
    OrderTotals.EmptyCartTotals();
  }

  /** `updateCartBadgeLocal`: the badge text and whether it is shown. */
  function BadgeLocal(cart: seq<LocalLine>): (r: (int, bool))
    ensures r.1 <==> r.0 > 0
  {
    var n := SumOf(cart, LineQuantity);
    (n, n > 0)
  }

  /** A badge over non-negative quantities is hidden exactly when every quantity is 0. */
  lemma {:induction false} BadgeHiddenIffNoUnits(cart: seq<LocalLine>)
    requires forall i :: 0 <= i < |cart| ==> cart[i].quantity >= 0
    ensures !BadgeLocal(cart).1 <==> forall i :: 0 <= i < |cart| ==> cart[i].quantity == 0
    decreases |cart|
  {
    if cart != [] {
      var init := cart[..|cart| - 1];
      BadgeHiddenIffNoUnits(init);
      SumOfNonNegative(init, LineQuantity);
      assert forall i :: 0 <= i < |init| ==> init[i] == cart[i];
    }
  }

  /** What a quantity button makes the page send. */
  datatype CartRequest = NoRequest | DeleteItem(itemId: int) | PutQuantity(itemId: int, quantity: int)

  function LocalHasId(id: int): LocalLine -> bool {
    (it: LocalLine) => it.id == id
  }

  /**
   * `updateQuantityLocal`: nothing for an unknown id or a quantity that would
   * go below 0; a DELETE when it reaches 0; a PUT with the new quantity otherwise.
   */
  function QuantityRequest(cart: seq<LocalLine>, id: int, change: int): (r: CartRequest)
    ensures r.PutQuantity? ==> r.quantity > 0 && r.itemId == id
    ensures r.DeleteItem? ==> r.itemId == id
    ensures FirstIndex(cart, LocalHasId(id)).None? ==> r == NoRequest
    ensures FirstIndex(cart, LocalHasId(id)).Some? ==>
              var q := cart[FirstIndex(cart, LocalHasId(id)).value].quantity + change;
              (q < 0 <==> r == NoRequest) && (q == 0 <==> r.DeleteItem?) && (q > 0 <==> r == PutQuantity(id, q))
  {
    var found := FirstIndex(cart, LocalHasId(id));
    if found.None? then NoRequest
    else
      var q := cart[found.value].quantity + change;
      if q < 0 then NoRequest
      else if q == 0 then DeleteItem(id)
      else PutQuantity(id, q)
  }

  /** `addToCartLocal`: one more unit of an id already in the cart, else a new line of one. */
  function AddedLocally(cart: seq<LocalLine>, id: int, price: Option<int>): (r: seq<LocalLine>)
  {
    var found := FirstIndex(cart, LocalHasId(id));
    if found.Some? then cart[found.value := cart[found.value].(quantity := cart[found.value].quantity + 1)]
    else cart + [LocalLine(id, price, 1)]
  }

  /** Adding locally raises the badge by exactly one and never creates a second line for an id. */
  lemma AddLocallyRaisesBadge(cart: seq<LocalLine>, id: int, price: Option<int>)
    ensures BadgeLocal(AddedLocally(cart, id, price)).0 == BadgeLocal(cart).0 + 1
    ensures FirstIndex(cart, LocalHasId(id)).Some? ==> |AddedLocally(cart, id, price)| == |cart|
    ensures FirstIndex(cart, LocalHasId(id)).None? ==>
              AddedLocally(cart, id, price) == cart + [LocalLine(id, price, 1)]
  {
    var found := FirstIndex(cart, LocalHasId(id));
    if found.Some? {
      var k := found.value;
      SumOfUpdate(cart, k, cart[k].(quantity := cart[k].quantity + 1), LineQuantity);
    } else {
      SumOfAppend(cart, LocalLine(id, price, 1), LineQuantity);
    }
  }

  // ----- the page state -----

  class CatalogPage {
    var products: seq<Item>
    var allProducts: seq<Item>
    var cart: seq<LocalLine>
    var currentSort: SortKey

    constructor (loaded: seq<Item>)
      ensures products == loaded && allProducts == loaded && cart == [] && currentSort == Unsorted
    {
      products := loaded;
      allProducts := loaded;
      cart := [];
      currentSort := Unsorted;
    }

    method SearchProducts(query: string)
      modifies this
      ensures allProducts == Search(products, query)
      ensures products == old(products) && cart == old(cart) && currentSort == old(currentSort)
    {
      allProducts := Search(products, query);
    }

    method ApplyFilters(f: Filters, boxOf: map<int, string>)
      modifies this
      ensures allProducts == FilteredProducts(products, f, boxOf)
      ensures products == old(products) && cart == old(cart) && currentSort == old(currentSort)
    {
      allProducts := FilteredProducts(products, f, boxOf);
    }

    /** `renderProducts`: the order shown; the sort works on a copy, so no field changes. */
    method ShownOrder() returns (shown: seq<Item>)
      ensures shown == SortProducts(allProducts, currentSort)
      ensures multiset(shown) == multiset(allProducts) && Ordered(shown, currentSort)
    {
      SortProductsOrdered(allProducts, currentSort);
      shown := SortProducts(allProducts, currentSort);
    }

    /** `addToCartLocal`: the line is updated in place or a new one is pushed. */
    method AddToCartLocal(id: int, price: Option<int>)
      modifies this
      ensures cart == AddedLocally(old(cart), id, price)
      ensures products == old(products) && allProducts == old(allProducts) && currentSort == old(currentSort)
    {
      var found := Find(cart, LocalHasId(id));
      if found.Some? {
        var k := found.value;
        cart := cart[k := cart[k].(quantity := cart[k].quantity + 1)];
      } else {
        cart := cart + [LocalLine(id, price, 1)];
      }
    }
  }
}
