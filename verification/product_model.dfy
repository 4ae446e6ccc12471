/**
 * The `Product` record of Config/models/product.py: the low-stock test,
 * the column defaults and the derived fields of its dictionary (the whole
 * peso price, the default rating and review count).
 */
module ProductModel {
  import opened Common
  import CopFormat

  const DefaultStock := 0
  const DefaultMinStock := 10

  datatype Product = Product(
    name: string,
    sku: string,
    price: Option<real>,
    stock: int,
    minStock: int,
    categoryId: Option<int>,
    active: bool)

  /** `is_low_stock`; the admin low-stock listing filters with the same comparison. */
  predicate IsLowStock(p: Product) {
    p.stock <= p.minStock
  }

  /** A row created with only the mandatory columns. */
  function NewProduct(name: string, sku: string, price: real): (p: Product)
    ensures p.stock == DefaultStock && p.minStock == DefaultMinStock && p.active
    ensures p.categoryId.None? && p.price == Some(price)
  {
    Product(name, sku, Some(price), DefaultStock, DefaultMinStock, None, true)
  }

  /** A product created without stock starts out low on stock. */
  lemma NewProductIsLowStock(name: string, sku: string, price: real)
    ensures IsLowStock(NewProduct(name, sku, price))
  {
  }

  /** Raising the stock above the minimum level is what clears the low-stock state. */
  lemma LowStockThreshold(p: Product, n: int)
    ensures !IsLowStock(p.(stock := n)) <==> n >= p.minStock + 1
  {
  }

  /** `price_cop`: the price rounded half to even to whole pesos, 0 when there is none. */
  function PriceCop(price: Option<real>): (r: int)
    ensures price.None? ==> r == 0
    ensures price.Some? ==> price.value - 1.0 / 2.0 <= r as real <= price.value + 1.0 / 2.0
  {
    if price.None? then 0 else CopFormat.RoundHalfEven(price.value)
  }

  /** A whole peso price is reported unchanged. */
  lemma PriceCopOfWholePesos(n: int)
    ensures PriceCop(Some(n as real)) == n
  {
    CopFormat.RoundsFixIntegers(n);
  }

  /**
   * `float(rating or 4.5)`: a missing rating and a rating of 0 (which
   * Python's `or` treats as false) both read as 4.5, so 0 is never shown.
   */
  function Rating(rating: Option<real>): (r: real)
    ensures r != 0.0
    ensures rating.Some? && rating.value != 0.0 ==> r == rating.value
    ensures rating.None? ==> r == 4.5
  {
    if rating.None? || rating.value == 0.0 then 4.5 else rating.value
  }

  /** `int(reviews or 0)`: a missing count is 0. */
  function Reviews(reviews: Option<int>): (r: int)
    ensures r == 0 <==> reviews.None? || reviews.value == 0
    ensures reviews.Some? ==> r == reviews.value
  {
    if reviews.None? then 0 else reviews.value
  }
}
