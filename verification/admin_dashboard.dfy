/**
 * The decisions admin_dashboard.js takes before it touches the page or the
 * server: the breadcrumb title, which sections load data, the order-status
 * filter over the rows of the orders table, the low-stock label and the
 * stock requests of the three inventory forms.
 *
 * `parseInt` is `ParseLeadingInt`, with None standing for NaN. A stock
 * request is the `StockField` the server's `update_product_stock` receives;
 * JSON has no NaN, so `JSON.stringify` sends a NaN stock as `null`.
 */
module AdminDashboard {
  import opened Common
  import opened Text
  import opened CopFormat
  import opened AdminRoutes
  import ProductModel

  // ----- breadcrumb and section loading -----

  /** The fixed part of `getSectionTitle`. */
  function TitleTable(section: string): (r: Option<string>)
    ensures r.Some? ==> r.value != ""
  {
    match section
    case "dashboard" => Some("Dashboard")
    case "users" => Some("Usuarios")
    case "products" => Some("Productos")
    case "orders" => Some("Pedidos")
    case "inventory" => Some("Inventario")
    case "analytics" => Some("Analytics")
    case "reports" => Some("Reportes")
    case "settings" => Some("Configuración")
    case "support" => Some("Soporte")
    case "export-users" => Some("Exportar Usuarios")
    case "low-stock" => Some("Stock Bajo")
    case "pending-orders" => Some("Pedidos Pendientes")
    case "completed-orders" => Some("Pedidos Completados")
    case "report-generated" => Some("Reporte Generado")
    case _ => None
  }

  /** `getSectionTitle`: the table's title, or the name with its first letter capitalised. */
  function SectionTitle(section: string): (r: string)
    ensures TitleTable(section).Some? ==> r == TitleTable(section).value
    ensures TitleTable(section).None? ==> |r| == |section| && (section != [] ==> r[1..] == section[1..])
  {
    match TitleTable(section)
    case Some(title) => title
    case None => CapitalizeFirst(section)
  }

  /**
   * A section outside the table keeps its name apart from the first letter,
   * which is capitalised, and a section title is empty only for the empty name.
   */
  lemma UnlistedSectionTitle(section: string)
    ensures SectionTitle(section) == [] <==> section == []
    ensures TitleTable(section).None? && section != [] ==>
              SectionTitle(section)[0] == UpperChar(section[0]) && SectionTitle(section)[1..] == section[1..]
    ensures SectionTitle("low-stock") == "Stock Bajo" && SectionTitle("tasks") == "Tasks"
  {
    assert CapitalizeFirst("tasks") == "Tasks";
  }

  datatype Loader = LoadProducts | LoadOrders | NoLoad

  /** `loadSectionData`: only the product and order sections fetch on display. */
  function SectionLoader(section: string): (r: Loader)
    ensures r == LoadProducts <==> section == "products"
    ensures r == LoadOrders <==> section == "orders"
  {
    if section == "products" then LoadProducts
    else if section == "orders" then LoadOrders
    else NoLoad
  }

  // ----- order status filter -----

  /** A row of the orders table: its status badge text, if it has one, and whether it is displayed. */
  datatype OrderRow = OrderRow(badge: Option<string>, shown: bool)

  /** The badge text as the filter compares it: lower-cased, then trimmed. */
  function BadgeKey(text: string): (k: string)
    ensures |k| <= |text|
  {
    Trim(Lower(text))
  }

  /** What `filterOrdersByStatus(status)` does to one row; `status` is falsy when empty. */
  function RowAfter(row: OrderRow, status: string): (r: OrderRow)
    ensures r.badge == row.badge
  {
    if status == "" then row.(shown := true)
    else if row.badge.None? then row
    else if status == "pending" then row.(shown := BadgeKey(row.badge.value) == "pendiente")
    else if status == "delivered" then
      row.(shown := BadgeKey(row.badge.value) == "entregado" || BadgeKey(row.badge.value) == "enviado")
    else row.(shown := true)
  }

  /**
   * The filter's meaning: everything shows without a status; a row with no
   * badge keeps its display; 'pending' shows exactly the rows whose badge
   * reads "pendiente", 'delivered' exactly those reading "entregado" or
   * "enviado"; any other status shows everything. Filtering twice is
   * filtering once.
   */
  lemma FilterRule(row: OrderRow, status: string)
    ensures status == "" ==> RowAfter(row, status).shown
    ensures status != "" && row.badge.None? ==> RowAfter(row, status) == row
    ensures status == "pending" && row.badge.Some? ==>
              (RowAfter(row, status).shown <==> BadgeKey(row.badge.value) == "pendiente")
    ensures status == "delivered" && row.badge.Some? ==>
              (RowAfter(row, status).shown <==> BadgeKey(row.badge.value) in {"entregado", "enviado"})
    ensures status !in {"", "pending", "delivered"} && row.badge.Some? ==> RowAfter(row, status).shown
    ensures RowAfter(RowAfter(row, status), status) == RowAfter(row, status)
  {
  }

  /** `filterOrdersByStatus`: every row of the table, in place. */
  method FilterOrdersByStatus(rows: array<OrderRow>, status: string)
    modifies rows
    ensures forall i :: 0 <= i < rows.Length ==> rows[i] == RowAfter(old(rows[i]), status)
  {
    ghost var before := rows[..];
    for i := 0 to rows.Length
      invariant forall j :: 0 <= j < i ==> rows[j] == RowAfter(before[j], status)
      invariant forall j :: i <= j < rows.Length ==> rows[j] == before[j]
    {
      var row := rows[i];
      var after := RowAfter(row, status);
      rows[i] := after;
    }
  }

  // ----- low-stock listing -----

  /** The label of a row of the low-stock table. */
  function LowStockLabel(stock: int, minStock: int): (tag: string)
    ensures tag in {"Crítico", "Bajo"}
  {
    if stock <= minStock then "Crítico" else "Bajo"
  }

  /** 'Crítico' is shown exactly for the products the model calls low on stock. */
  lemma CriticalIsLowStock(p: ProductModel.Product)
    ensures LowStockLabel(p.stock, p.minStock) == "Crítico" <==> ProductModel.IsLowStock(p)
  {
  }

  // ----- stock requests -----

  /**
   * `adjustStock`: the prompt's answer (None when cancelled); a request is
   * sent only for a non-empty answer that parses to a number of at least 0.
   */
  function AdjustStock(answer: Option<string>): (r: Option<StockField>)
    ensures r.Some? ==> r.value.StockNumber? && r.value.n >= 0
    ensures r.Some? <==> answer.Some? && answer.value != "" &&
                         ParseLeadingInt(answer.value).Some? && ParseLeadingInt(answer.value).value >= 0
  {
    if answer.None? || answer.value == "" then None
    else
      match ParseLeadingInt(answer.value)
      case None => None
      case Some(v) => if v < 0 then None else Some(StockNumber(v))
  }

  /** Whatever `adjustStock` sends, the server accepts for an existing product, and sets that stock. */
  lemma AdjustStockAccepted(s: AdminState, id: int, answer: Option<string>)
    requires id in s.products && AdjustStock(answer).Some?
    ensures UpdateProductStock(s, id, AdjustStock(answer).value).0 == Ok200
    ensures UpdateProductStock(s, id, AdjustStock(answer).value).1.products[id].stock == AdjustStock(answer).value.n
  {
  }

  /**
   * `submitInventoryForm` as written: `productId` is the form field (None or
   * "" is falsy), `current` the stock the product lookup answered (None when
   * it failed). The guard `quantity <= 0` is false for NaN, so an
   * unparsable quantity gets through and `current + NaN` goes out as null.
   */
  function InventoryRequestAsWritten(productId: Option<string>, quantity: string, current: Option<int>)
    : (r: Option<StockField>)
    ensures r.Some? ==> productId.Some? && productId.value != "" && current.Some?
    ensures r == Some(NullStock) <==>
              productId.Some? && productId.value != "" && current.Some? && ParseLeadingInt(quantity).None?
  {
    var q := ParseLeadingInt(quantity);
    if productId.None? || productId.value == "" || (q.Some? && q.value <= 0) then None
    else if current.None? then None
    else if q.None? then Some(NullStock)
    else Some(StockNumber(current.value + q.value))
  }

  /** Counterexample: an empty quantity field passes the guard and the server answers 500. */
  lemma InventoryNaNReachesServer(s: AdminState, id: int)
    requires id in s.products
    ensures InventoryRequestAsWritten(Some("7"), "", Some(3)) == Some(NullStock)
    ensures UpdateProductStock(s, id, NullStock) == (InternalError500, s)
  {
    assert ParseLeadingInt("").None?;
  }

  /** `submitInventoryForm` with the guard it evidently intends: the quantity must be a number above 0. */
  function InventoryRequest(productId: Option<string>, quantity: string, current: Option<int>)
    : (r: Option<StockField>)
    ensures r.Some? ==> r.value.StockNumber? && current.Some? && r.value.n > current.value
    ensures r.Some? <==> productId.Some? && productId.value != "" && current.Some? &&
                         ParseLeadingInt(quantity).Some? && ParseLeadingInt(quantity).value > 0
  {
    var q := ParseLeadingInt(quantity);
    if productId.None? || productId.value == "" || q.None? || q.value <= 0 then None
    else if current.None? then None
    else Some(StockNumber(current.value + q.value))
  }

  /**
   * The corrected form agrees with the written one wherever the quantity
   * parses, and whatever it sends for an existing product with a
   * non-negative stock is accepted and raises that stock by the quantity.
   */
  lemma InventoryRequestAccepted(s: AdminState, id: int, productId: Option<string>, quantity: string)
    requires id in s.products && s.products[id].stock >= 0
    ensures ParseLeadingInt(quantity).Some? ==>
              InventoryRequest(productId, quantity, Some(s.products[id].stock)) ==
              InventoryRequestAsWritten(productId, quantity, Some(s.products[id].stock))
    ensures InventoryRequest(productId, quantity, Some(s.products[id].stock)).Some? ==>
              var r := UpdateProductStock(s, id, InventoryRequest(productId, quantity, Some(s.products[id].stock)).value);
              r.0 == Ok200 && r.1.products[id].stock == s.products[id].stock + ParseLeadingInt(quantity).value
  {
  }

  /**
   * `submitAdjustmentForm` as written: the guard `newStock < 0` is false
   * for NaN, so an unparsable stock is sent as null. `notes` is the text of
   * the notes field, which the form always has.
   */
  function AdjustmentRequestAsWritten(productId: Option<string>, newStock: string, reason: Option<string>, notes: string)
    : (r: Option<StockField>)
    ensures r.Some? <==> productId.Some? && productId.value != "" && reason.Some? && reason.value != "" &&
                         Trim(notes) != "" && !(ParseLeadingInt(newStock).Some? && ParseLeadingInt(newStock).value < 0)
    ensures r == Some(NullStock) <==> r.Some? && ParseLeadingInt(newStock).None?
  {
    var v := ParseLeadingInt(newStock);
    if productId.None? || productId.value == "" || (v.Some? && v.value < 0) ||
       reason.None? || reason.value == "" || Trim(notes) == "" then None
    else if v.None? then Some(NullStock)
    else Some(StockNumber(v.value))
  }

  /** Counterexample: an empty new-stock field passes the guard and the server answers 500. */
  lemma AdjustmentNaNReachesServer(s: AdminState, id: int)
    requires id in s.products
    ensures AdjustmentRequestAsWritten(Some("7"), "", Some("conteo"), "revisado") == Some(NullStock)
    ensures UpdateProductStock(s, id, NullStock) == (InternalError500, s)
  {
    assert ParseLeadingInt("").None?;
    assert !IsSpace("revisado"[0]);
  }

  /** `submitAdjustmentForm` with the guard it evidently intends: the new stock must be a number of at least 0. */
  function AdjustmentRequest(productId: Option<string>, newStock: string, reason: Option<string>, notes: string)
    : (r: Option<StockField>)
    ensures r.Some? ==> r.value.StockNumber? && r.value.n >= 0 && Some(r.value.n) == ParseLeadingInt(newStock)
    ensures r.Some? <==> productId.Some? && productId.value != "" && reason.Some? && reason.value != "" &&
                         Trim(notes) != "" && ParseLeadingInt(newStock).Some? && ParseLeadingInt(newStock).value >= 0
  {
    var v := ParseLeadingInt(newStock);
    if productId.None? || productId.value == "" || v.None? || v.value < 0 ||
       reason.None? || reason.value == "" || Trim(notes) == "" then None
    else Some(StockNumber(v.value))
  }

  /**
   * The corrected form agrees with the written one wherever the stock
   * parses, and whatever it sends for an existing product is accepted and
   * becomes the product's stock.
   */
  lemma AdjustmentRequestAccepted(s: AdminState, id: int, productId: Option<string>, newStock: string,
                                  reason: Option<string>, notes: string)
    requires id in s.products
    ensures ParseLeadingInt(newStock).Some? ==>
              AdjustmentRequest(productId, newStock, reason, notes) ==
              AdjustmentRequestAsWritten(productId, newStock, reason, notes)
    ensures AdjustmentRequest(productId, newStock, reason, notes).Some? ==>
              var r := UpdateProductStock(s, id, AdjustmentRequest(productId, newStock, reason, notes).value);
              r.0 == Ok200 && Some(r.1.products[id].stock) == ParseLeadingInt(newStock)
  {
  }

  // ----- product form -----

  datatype HttpMethod = Post | Put

  /**
   * The JSON `submitProductForm` sends: None in a number field is NaN or
   * null, which JSON carries as null.
   */
  datatype ProductSubmission = ProductSubmission(
    verb: HttpMethod,
    stock: Option<int>,
    minStock: Option<int>,
    categoryId: Option<int>)

  /**
   * `submitProductForm`: edit (PUT) iff the hidden id is not empty; an empty
   * stock field reads as 0, an empty minimum as 10, an empty category as null.
   */
  function ProductSubmissionOf(productId: string, stock: string, minStock: string, categoryId: string)
    : (r: ProductSubmission)
    ensures r.verb == Put <==> productId != ""
    ensures stock == "" ==> r.stock == Some(0)
    ensures stock != "" ==> r.stock == ParseLeadingInt(stock)
    ensures minStock == "" ==> r.minStock == Some(10)
    ensures minStock != "" ==> r.minStock == ParseLeadingInt(minStock)
    ensures r.categoryId.None? <==> categoryId == "" || ParseLeadingInt(categoryId).None?
  {
    ProductSubmission(
      if productId != "" then Put else Post,
      if stock == "" then Some(0) else ParseLeadingInt(stock),
      if minStock == "" then Some(10) else ParseLeadingInt(minStock),
      if categoryId == "" then None else ParseLeadingInt(categoryId))
  }

  /** Empty stock fields give the same defaults as the product model's columns. */
  lemma ProductFormDefaultsMatchModel(productId: string, categoryId: string)
    ensures ProductSubmissionOf(productId, "", "", categoryId).stock == Some(ProductModel.DefaultStock)
    ensures ProductSubmissionOf(productId, "", "", categoryId).minStock == Some(ProductModel.DefaultMinStock)
  {
  }
}
