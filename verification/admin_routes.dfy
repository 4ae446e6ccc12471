/**
 * The administrator's create, update and delete routes for products,
 * categories, orders and users (admin/routes.py). The tables are maps from
 * id to record; each route is a transition on `AdminState` that returns the
 * HTTP status, and `AdminDb` performs the same steps on its fields. A request
 * body is a record of optional fields: None is a key the JSON does not have.
 * Every route looks its record up with `get_or_404` inside `try ... except
 * Exception`, so an unknown id is answered with 500.
 */
module AdminRoutes {
  import opened Common

  datatype AdminProduct = AdminProduct(
    name: string,
    description: string,
    sku: string,
    price: int,
    stock: int,
    minStock: int,
    categoryId: Option<int>,
    brand: string,
    active: bool)

  datatype CategoryRec = CategoryRec(name: string, description: string, parentId: Option<int>, active: bool)

  datatype AdminUser = AdminUser(
    name: string,
    email: string,
    role: string,
    phone: Option<string>,
    active: bool,
    password: string)

  /**
   * The tables the admin routes write. `heldOrders` are the orders some
   * other row points at through an `order_id` that may not be null (an
   * order line, a status-history entry, a tracking row, a notification);
   * `heldUsers` the users pointed at through a `user_id` or `created_by`
   * that may not be null (a cart, an address, an order, a ticket, a ticket
   * message, a task they created, a notification). Deleting such a row
   * makes the ORM set those columns to null, which the database refuses.
   */
  datatype AdminState = AdminState(
    products: map<int, AdminProduct>,
    nextProductId: int,
    categories: map<int, CategoryRec>,
    nextCategoryId: int,
    orders: map<int, string>,
    users: map<int, AdminUser>,
    nextUserId: int,
    heldOrders: set<int>,
    heldUsers: set<int>)

  /** A JSON value Python finds true: present and not "" (strings), present and not 0 (numbers). */
  predicate Given(s: Option<string>) {
    s.Some? && s.value != ""
  }

  predicate GivenNumber(n: Option<int>) {
    n.Some? && n.value != 0
  }

  function OrElse<T>(o: Option<T>, d: T): (r: T)
    ensures o.Some? ==> r == o.value
    ensures o.None? ==> r == d
  {
    if o.Some? then o.value else d
  }

  // ----- invariants -----

  ghost predicate SkusDistinct(products: map<int, AdminProduct>) {
    forall a, b :: a in products && b in products && a != b ==> products[a].sku != products[b].sku
  }

  ghost predicate CategoryNamesDistinct(categories: map<int, CategoryRec>) {
    forall a, b :: a in categories && b in categories && a != b ==> categories[a].name != categories[b].name
  }

  ghost predicate EmailsDistinct(users: map<int, AdminUser>) {
    forall a, b :: a in users && b in users && a != b ==> users[a].email != users[b].email
  }

  /** What the database guarantees: unique SKUs, category names and emails, and ids below the next one. */
  ghost predicate Valid(s: AdminState) {
    && SkusDistinct(s.products)
    && CategoryNamesDistinct(s.categories)
    && EmailsDistinct(s.users)
    && (forall k :: k in s.products ==> k < s.nextProductId)
    && (forall k :: k in s.categories ==> k < s.nextCategoryId)
    && (forall k :: k in s.users ==> k < s.nextUserId)
  }

  // ----- products -----

  datatype ProductForm = ProductForm(
    name: Option<string>,
    sku: Option<string>,
    price: Option<int>,
    description: Option<string>,
    stock: Option<int>,
    minStock: Option<int>,
    categoryId: Option<int>,
    brand: Option<string>)

  /** `name`, `sku` and `price` must all be present and true. */
  predicate MissingRequired(form: ProductForm) {
    !Given(form.name) || !Given(form.sku) || !GivenNumber(form.price)
  }

  predicate SkuTaken(products: map<int, AdminProduct>, sku: string, except: Option<int>) {
    exists k :: k in products && Some(k) != except && products[k].sku == sku
  }

  /** `create_product`. */
  function CreateProduct(s: AdminState, form: ProductForm): (Status, AdminState) {
    if MissingRequired(form) then (BadRequest400, s)
    else if SkuTaken(s.products, form.sku.value, None) then (BadRequest400, s)
    else
      var p := AdminProduct(form.name.value, OrElse(form.description, ""), form.sku.value, form.price.value,
                            OrElse(form.stock, 0), OrElse(form.minStock, 10), form.categoryId,
                            OrElse(form.brand, ""), true);
      (Ok200, s.(products := s.products[s.nextProductId := p], nextProductId := s.nextProductId + 1))
  }

  /** `update_product`; fields left out keep their value, except the category, which is cleared. */
  function UpdateProduct(s: AdminState, id: int, form: ProductForm): (Status, AdminState) {
    if id !in s.products then (InternalError500, s)
    else if MissingRequired(form) then (BadRequest400, s)
    else if SkuTaken(s.products, form.sku.value, Some(id)) then (BadRequest400, s)
    else
      var old_ := s.products[id];
      var p := old_.(name := form.name.value, description := OrElse(form.description, old_.description),
                     sku := form.sku.value, price := form.price.value, stock := OrElse(form.stock, old_.stock),
                     minStock := OrElse(form.minStock, old_.minStock), categoryId := form.categoryId,
                     brand := OrElse(form.brand, old_.brand));
      (Ok200, s.(products := s.products[id := p]))
  }

  /** `delete_product`: a soft delete. */
  function DeleteProduct(s: AdminState, id: int): (Status, AdminState) {
    if id !in s.products then (InternalError500, s)
    else (Ok200, s.(products := s.products[id := s.products[id].(active := false)]))
  }

  /**
   * The `stock_quantity` of a stock request: absent, `null` (which
   * `int(None)` turns into an exception, answered with 500), or a number.
   */
  datatype StockField = NoStockField | NullStock | StockNumber(n: int)

  /** `update_product_stock`. */
  function UpdateProductStock(s: AdminState, id: int, stock: StockField): (Status, AdminState) {
    if id !in s.products then (InternalError500, s)
    else if stock.NoStockField? then (BadRequest400, s)
    else if stock.NullStock? then (InternalError500, s)
    else if stock.n < 0 then (BadRequest400, s)
    else (Ok200, s.(products := s.products[id := s.products[id].(stock := stock.n)]))
  }

  /**
   * Creating a product succeeds exactly when the three required fields are
   * given and the SKU is new; the new product is active and takes stock 0
   * and minimum level 10 when the form leaves them out. Nothing else changes.
   */
  lemma CreateProductRule(s: AdminState, form: ProductForm)
    ensures CreateProduct(s, form).0 == Ok200 <==> !MissingRequired(form) && !SkuTaken(s.products, form.sku.value, None)
    ensures CreateProduct(s, form).0 != Ok200 ==> CreateProduct(s, form) == (BadRequest400, s)
    ensures CreateProduct(s, form).0 == Ok200 ==>
              var s' := CreateProduct(s, form).1;
              var p := s'.products[s.nextProductId];
              && s'.products.Keys == s.products.Keys + {s.nextProductId}
              && (forall k :: k in s.products && k != s.nextProductId ==> s'.products[k] == s.products[k])
              && p.active && p.sku == form.sku.value && p.price == form.price.value
              && p.stock == (if form.stock.Some? then form.stock.value else 0)
              && p.minStock == (if form.minStock.Some? then form.minStock.value else 10)
              && s'.categories == s.categories && s'.orders == s.orders && s'.users == s.users
  {
  }

  /** A price of 0 is not a price: the form is rejected. */
  lemma ZeroPriceRejected(s: AdminState, id: int, form: ProductForm)
    requires form.price == Some(0)
    ensures CreateProduct(s, form) == (BadRequest400, s)
    ensures UpdateProduct(s, id, form).0 != Ok200 && UpdateProduct(s, id, form).1 == s
  {
  }

  lemma CreateProductKeepsValid(s: AdminState, form: ProductForm)
    requires Valid(s)
    ensures Valid(CreateProduct(s, form).1)
  {
  }

  /**
   * An update succeeds exactly when the product exists, the required fields
   * are given and no other product has the SKU; it rewrites that product
   * only, and SKUs stay unique.
   */
  lemma UpdateProductRule(s: AdminState, id: int, form: ProductForm)
    requires Valid(s)
    ensures UpdateProduct(s, id, form).0 == Ok200 <==>
              id in s.products && !MissingRequired(form) && !SkuTaken(s.products, form.sku.value, Some(id))
    ensures UpdateProduct(s, id, form).0 != Ok200 ==> UpdateProduct(s, id, form).1 == s
    ensures UpdateProduct(s, id, form).0 == Ok200 ==>
              var s' := UpdateProduct(s, id, form).1;
              && s'.products.Keys == s.products.Keys
              && (forall k :: k in s.products && k != id ==> s'.products[k] == s.products[k])
              && s'.products[id].sku == form.sku.value && s'.products[id].categoryId == form.categoryId
              && s'.products[id].active == s.products[id].active
    ensures Valid(UpdateProduct(s, id, form).1)
  {
  }

  /** Deleting keeps the record and only clears its `active` flag. */
  lemma DeleteProductIsSoft(s: AdminState, id: int)
    requires Valid(s)
    ensures DeleteProduct(s, id).0 == Ok200 <==> id in s.products
    ensures DeleteProduct(s, id).0 == Ok200 ==>
              && DeleteProduct(s, id).1.products.Keys == s.products.Keys
              && DeleteProduct(s, id).1.products[id] == s.products[id].(active := false)
              && (forall k :: k in s.products && k != id ==> DeleteProduct(s, id).1.products[k] == s.products[k])
    ensures DeleteProduct(s, id).0 != Ok200 ==> DeleteProduct(s, id).1 == s
    ensures Valid(DeleteProduct(s, id).1)
  {
  }

  /** A missing or negative stock is refused; otherwise the stock becomes exactly the value given. */
  lemma UpdateStockRule(s: AdminState, id: int, stock: StockField)
    requires Valid(s)
    ensures UpdateProductStock(s, id, stock).0 == BadRequest400 <==>
              id in s.products && (stock.NoStockField? || (stock.StockNumber? && stock.n < 0))
    ensures UpdateProductStock(s, id, stock).0 == Ok200 <==> id in s.products && stock.StockNumber? && stock.n >= 0
    ensures UpdateProductStock(s, id, stock).0 != Ok200 ==> UpdateProductStock(s, id, stock).1 == s
    ensures UpdateProductStock(s, id, stock).0 == Ok200 ==>
              UpdateProductStock(s, id, stock).1.products == s.products[id := s.products[id].(stock := stock.n)]
    ensures Valid(UpdateProductStock(s, id, stock).1)
  {
  }

  // ----- categories -----

  predicate NameTaken(categories: map<int, CategoryRec>, name: string, except: Option<int>) {
    exists k :: k in categories && Some(k) != except && categories[k].name == name
  }

  /** `create_category`. */
  function CreateCategory(s: AdminState, name: Option<string>, description: Option<string>, parentId: Option<int>)
    : (Status, AdminState)
  {
    if !Given(name) then (BadRequest400, s)
    else if NameTaken(s.categories, name.value, None) then (BadRequest400, s)
    else
      var c := CategoryRec(name.value, OrElse(description, ""), parentId, true);
      (Ok200, s.(categories := s.categories[s.nextCategoryId := c], nextCategoryId := s.nextCategoryId + 1))
  }

  /** `update_category`: only a category naming itself as parent is refused as circular. */
  function UpdateCategory(s: AdminState, id: int, name: Option<string>, description: Option<string>,
                          parentId: Option<int>): (Status, AdminState)
  {
    if id !in s.categories then (InternalError500, s)
    else if !Given(name) then (BadRequest400, s)
    else if NameTaken(s.categories, name.value, Some(id)) then (BadRequest400, s)
    else if parentId == Some(id) then (BadRequest400, s)
    else
      var c := s.categories[id];
      var c' := c.(name := name.value, description := OrElse(description, c.description), parentId := parentId);
      (Ok200, s.(categories := s.categories[id := c']))
  }

  predicate HasSubcategories(categories: map<int, CategoryRec>, id: int) {
    exists k :: k in categories && categories[k].parentId == Some(id)
  }

  predicate HasProducts(products: map<int, AdminProduct>, id: int) {
    exists k :: k in products && products[k].categoryId == Some(id)
  }

  /** `delete_category`: a soft delete of a category with no subcategory and no product. */
  function DeleteCategory(s: AdminState, id: int): (Status, AdminState) {
    if id !in s.categories then (InternalError500, s)
    else if HasSubcategories(s.categories, id) then (BadRequest400, s)
    else if HasProducts(s.products, id) then (BadRequest400, s)
    else (Ok200, s.(categories := s.categories[id := s.categories[id].(active := false)]))
  }

  lemma CreateCategoryRule(s: AdminState, name: Option<string>, description: Option<string>, parentId: Option<int>)
    requires Valid(s)
    ensures CreateCategory(s, name, description, parentId).0 == Ok200 <==> Given(name) && !NameTaken(s.categories, name.value, None)
    ensures CreateCategory(s, name, description, parentId).0 != Ok200 ==> CreateCategory(s, name, description, parentId).1 == s
    ensures Valid(CreateCategory(s, name, description, parentId).1)
  {
  }

  /**
   * An update is refused when the category would be its own parent or would
   * take another category's name; names stay unique.
   */
  lemma UpdateCategoryRule(s: AdminState, id: int, name: Option<string>, description: Option<string>, parentId: Option<int>)
    requires Valid(s)
    ensures UpdateCategory(s, id, name, description, parentId).0 == Ok200 <==>
              id in s.categories && Given(name) && !NameTaken(s.categories, name.value, Some(id)) && parentId != Some(id)
    ensures UpdateCategory(s, id, name, description, parentId).0 != Ok200 ==> UpdateCategory(s, id, name, description, parentId).1 == s
    ensures UpdateCategory(s, id, name, description, parentId).0 == Ok200 ==>
              UpdateCategory(s, id, name, description, parentId).1.categories[id].parentId == parentId
    ensures Valid(UpdateCategory(s, id, name, description, parentId).1)
  {
  }

  /**
   * Only that one-step cycle is checked: with category 1 under 2, making 2 a
   * child of 1 is accepted and leaves a two-step cycle.
   */
  lemma TwoStepCycleAccepted()
    ensures var s := AdminState(map[], 1, map[1 := CategoryRec("a", "", Some(2), true), 2 := CategoryRec("b", "", None, true)],
                                3, map[], map[], 1, {}, {});
            var (status, s') := UpdateCategory(s, 2, Some("b"), None, Some(1));
            status == Ok200 && s'.categories[1].parentId == Some(2) && s'.categories[2].parentId == Some(1)
  {
    var s := AdminState(map[], 1, map[1 := CategoryRec("a", "", Some(2), true), 2 := CategoryRec("b", "", None, true)],
                        3, map[], map[], 1, {}, {});
    assert !NameTaken(s.categories, "b", Some(2)) by {
      assert s.categories.Keys == {1, 2};
      assert "a" != "b" by { assert "a"[0] != "b"[0]; }
    }
  }

  /** A category with a subcategory or a product cannot be deleted; otherwise it only loses `active`. */
  lemma DeleteCategoryRule(s: AdminState, id: int)
    requires Valid(s)
    ensures DeleteCategory(s, id).0 == BadRequest400 <==>
              id in s.categories && (HasSubcategories(s.categories, id) || HasProducts(s.products, id))
    ensures DeleteCategory(s, id).0 != Ok200 ==> DeleteCategory(s, id).1 == s
    ensures DeleteCategory(s, id).0 == Ok200 ==>
              && DeleteCategory(s, id).1.categories.Keys == s.categories.Keys
              && DeleteCategory(s, id).1.categories[id] == s.categories[id].(active := false)
    ensures Valid(DeleteCategory(s, id).1)
  {
  }

  // ----- orders -----

  const OrderStatuses: set<string> := {"pending", "processing", "shipped", "delivered", "cancelled"}

  /** `update_order_status`. */
  function UpdateOrderStatus(s: AdminState, id: int, status: Option<string>): (Status, AdminState) {
    if id !in s.orders then (InternalError500, s)
    else if status.None? || status.value !in OrderStatuses then (BadRequest400, s)
    else (Ok200, s.(orders := s.orders[id := status.value]))
  }

  /**
   * `delete_order`: only pending orders go, and only one no other row
   * points at; for a held one the commit fails and the route answers 500.
   */
  function DeleteOrder(s: AdminState, id: int): (Status, AdminState) {
    if id !in s.orders then (InternalError500, s)
    else if s.orders[id] != "pending" then (BadRequest400, s)
    else if id in s.heldOrders then (InternalError500, s)
    else (Ok200, s.(orders := s.orders - {id}))
  }

  /** Every status stored through this route is one of the five. */
  lemma UpdateOrderStatusRule(s: AdminState, id: int, status: Option<string>)
    requires forall k :: k in s.orders ==> s.orders[k] in OrderStatuses
    ensures UpdateOrderStatus(s, id, status).0 == Ok200 <==> id in s.orders && status.Some? && status.value in OrderStatuses
    ensures UpdateOrderStatus(s, id, status).0 != Ok200 ==> UpdateOrderStatus(s, id, status).1 == s
    ensures var s' := UpdateOrderStatus(s, id, status).1; forall k :: k in s'.orders ==> s'.orders[k] in OrderStatuses
  {
  }

  lemma DeleteOrderOnlyPending(s: AdminState, id: int)
    ensures DeleteOrder(s, id).0 == Ok200 <==> id in s.orders && s.orders[id] == "pending" && id !in s.heldOrders
    ensures DeleteOrder(s, id).0 == BadRequest400 <==> id in s.orders && s.orders[id] != "pending"
    ensures DeleteOrder(s, id).0 == Ok200 ==> DeleteOrder(s, id).1.orders.Keys == s.orders.Keys - {id}
    ensures DeleteOrder(s, id).0 != Ok200 ==> DeleteOrder(s, id).1 == s
  {
  }

  // ----- users -----

  datatype UserForm = UserForm(
    name: Option<string>,
    email: Option<string>,
    password: Option<string>,
    role: Option<string>,
    phone: Option<string>,
    isActive: Option<bool>)

  predicate EmailTaken(users: map<int, AdminUser>, email: string, except: Option<int>) {
    exists k :: k in users && Some(k) != except && users[k].email == email
  }

  /** `create_user`. */
  function CreateUser(s: AdminState, form: UserForm): (Status, AdminState) {
    if !Given(form.name) || !Given(form.email) || !Given(form.password) || !Given(form.role) then (BadRequest400, s)
    else if EmailTaken(s.users, form.email.value, None) then (BadRequest400, s)
    else
      var u := AdminUser(form.name.value, form.email.value, form.role.value, form.phone, OrElse(form.isActive, true),
                         form.password.value);
      (Ok200, s.(users := s.users[s.nextUserId := u], nextUserId := s.nextUserId + 1))
  }

  /** `update_user`: each field present is written; a password only when it is not empty. */
  function UpdateUser(s: AdminState, id: int, form: UserForm): (Status, AdminState) {
    if id !in s.users then (InternalError500, s)
    else if form.email.Some? && EmailTaken(s.users, form.email.value, Some(id)) then (BadRequest400, s)
    else
      (Ok200, s.(users := s.users[id := Updated(s.users[id], form)]))
  }

  /** The user record after an update: each field present replaces the stored one. */
  function Updated(u: AdminUser, form: UserForm): AdminUser {
    AdminUser(OrElse(form.name, u.name), OrElse(form.email, u.email), OrElse(form.role, u.role),
              if form.phone.Some? then form.phone else u.phone, OrElse(form.isActive, u.active),
              if Given(form.password) then form.password.value else u.password)
  }

  /**
   * `delete_user`: one's own id is refused before the lookup; a user other
   * rows point at cannot be deleted (the commit fails: 500).
   */
  function DeleteUser(s: AdminState, current: int, id: int): (Status, AdminState) {
    if id == current then (BadRequest400, s)
    else if id !in s.users then (InternalError500, s)
    else if id in s.heldUsers then (InternalError500, s)
    else (Ok200, s.(users := s.users - {id}))
  }

  lemma UserRoutesKeepEmailsDistinct(s: AdminState, form: UserForm, id: int, current: int)
    requires Valid(s)
    ensures Valid(CreateUser(s, form).1)
    ensures Valid(UpdateUser(s, id, form).1)
    ensures Valid(DeleteUser(s, current, id).1)
  {
  }

  /** Deleting oneself gets 400 whether or not the id exists, and changes nothing. */
  lemma DeleteSelfRejected(s: AdminState, current: int)
    ensures DeleteUser(s, current, current) == (BadRequest400, s)
    ensures forall id :: id != current && id in s.users && id !in s.heldUsers ==>
              DeleteUser(s, current, id).0 == Ok200 && DeleteUser(s, current, id).1.users.Keys == s.users.Keys - {id}
    ensures forall id :: id != current && id in s.heldUsers ==> DeleteUser(s, current, id) == (InternalError500, s)
  {
  }

  /** An empty password in an update leaves the stored one. */
  lemma EmptyPasswordKept(s: AdminState, id: int, form: UserForm)
    requires id in s.users && !Given(form.password)
    requires form.email.None? || !EmailTaken(s.users, form.email.value, Some(id))
    ensures UpdateUser(s, id, form).0 == Ok200
    ensures UpdateUser(s, id, form).1.users[id].password == s.users[id].password
  {
  }

  /** The database the routes work on. */
  class AdminDb {
    var products: map<int, AdminProduct>
    var nextProductId: int
    var categories: map<int, CategoryRec>
    var nextCategoryId: int
    var orders: map<int, string>
    var users: map<int, AdminUser>
    var nextUserId: int
    var heldOrders: set<int>
    var heldUsers: set<int>

    ghost function State(): AdminState
      reads this
    {
      AdminState(products, nextProductId, categories, nextCategoryId, orders, users, nextUserId, heldOrders, heldUsers)
    }

    constructor ()
      ensures State() == AdminState(map[], 1, map[], 1, map[], map[], 1, {}, {})
      ensures Valid(State())
    {
      products := map[];
      nextProductId := 1;
      categories := map[];
      nextCategoryId := 1;
      orders := map[];
      users := map[];
      nextUserId := 1;
      heldOrders := {};
      heldUsers := {};
    }

    method CreateProductRoute(form: ProductForm) returns (status: Status)
      modifies this
      ensures (status, State()) == CreateProduct(old(State()), form)
    {
      if !Given(form.name) || !Given(form.sku) || !GivenNumber(form.price) {
        return BadRequest400;
      }
      if exists k :: k in products && products[k].sku == form.sku.value {
        return BadRequest400;
      }
      products := products[nextProductId := AdminProduct(form.name.value, OrElse(form.description, ""), form.sku.value,
                                                         form.price.value, OrElse(form.stock, 0), OrElse(form.minStock, 10),
                                                         form.categoryId, OrElse(form.brand, ""), true)];
      nextProductId := nextProductId + 1;
      return Ok200;
    }

    method UpdateProductRoute(id: int, form: ProductForm) returns (status: Status)
      modifies this
      ensures (status, State()) == UpdateProduct(old(State()), id, form)
    {
      if id !in products {
        return InternalError500;
      }
      if !Given(form.name) || !Given(form.sku) || !GivenNumber(form.price) {
        return BadRequest400;
      }
      if exists k :: k in products && k != id && products[k].sku == form.sku.value {
        return BadRequest400;
      }
      var p := products[id];
      p := p.(name := form.name.value);
      p := p.(description := OrElse(form.description, p.description));
      p := p.(sku := form.sku.value);
      p := p.(price := form.price.value);
      p := p.(stock := OrElse(form.stock, p.stock));
      p := p.(minStock := OrElse(form.minStock, p.minStock));
      p := p.(categoryId := form.categoryId);
      p := p.(brand := OrElse(form.brand, p.brand));
      products := products[id := p];
      return Ok200;
    }

    method DeleteProductRoute(id: int) returns (status: Status)
      modifies this
      ensures (status, State()) == DeleteProduct(old(State()), id)
    {
      if id !in products {
        return InternalError500;
      }
      products := products[id := products[id].(active := false)];
      return Ok200;
    }

    method UpdateProductStockRoute(id: int, stock: StockField) returns (status: Status)
      modifies this
      ensures (status, State()) == UpdateProductStock(old(State()), id, stock)
    {
      if id !in products {
        return InternalError500;
      }
      if stock.NoStockField? {
        return BadRequest400;
      }
      if stock.NullStock? {
        return InternalError500;
      }
      if stock.n < 0 {
        return BadRequest400;
      }
      products := products[id := products[id].(stock := stock.n)];
      return Ok200;
    }

    method CreateCategoryRoute(name: Option<string>, description: Option<string>, parentId: Option<int>)
      returns (status: Status)
      modifies this
      ensures (status, State()) == CreateCategory(old(State()), name, description, parentId)
    {
      if !Given(name) {
        return BadRequest400;
      }
      if exists k :: k in categories && categories[k].name == name.value {
        return BadRequest400;
      }
      categories := categories[nextCategoryId := CategoryRec(name.value, OrElse(description, ""), parentId, true)];
      nextCategoryId := nextCategoryId + 1;
      return Ok200;
    }

    method UpdateCategoryRoute(id: int, name: Option<string>, description: Option<string>, parentId: Option<int>)
      returns (status: Status)
      modifies this
      ensures (status, State()) == UpdateCategory(old(State()), id, name, description, parentId)
    {
      if id !in categories {
        return InternalError500;
      }
      if !Given(name) {
        return BadRequest400;
      }
      if exists k :: k in categories && k != id && categories[k].name == name.value {
        return BadRequest400;
      }
      if parentId == Some(id) {
        return BadRequest400;
      }
      var c := categories[id];
      categories := categories[id := c.(name := name.value, description := OrElse(description, c.description),
                                        parentId := parentId)];
      return Ok200;
    }

    method DeleteCategoryRoute(id: int) returns (status: Status)
      modifies this
      ensures (status, State()) == DeleteCategory(old(State()), id)
    {
      if id !in categories {
        return InternalError500;
      }
      if exists k :: k in categories && categories[k].parentId == Some(id) {
        return BadRequest400;
      }
      if exists k :: k in products && products[k].categoryId == Some(id) {
        return BadRequest400;
      }
      categories := categories[id := categories[id].(active := false)];
      return Ok200;
    }

    method UpdateOrderStatusRoute(id: int, status': Option<string>) returns (status: Status)
      modifies this
      ensures (status, State()) == UpdateOrderStatus(old(State()), id, status')
    {
      if id !in orders {
        return InternalError500;
      }
      if status'.None? || status'.value !in OrderStatuses {
        return BadRequest400;
      }
      orders := orders[id := status'.value];
      return Ok200;
    }

    method DeleteOrderRoute(id: int) returns (status: Status)
      modifies this
      ensures (status, State()) == DeleteOrder(old(State()), id)
    {
      if id !in orders {
        return InternalError500;
      }
      if orders[id] != "pending" {
        return BadRequest400;
      }
      if id in heldOrders {
        return InternalError500;
      }
      orders := orders - {id};
      return Ok200;
    }

    method CreateUserRoute(form: UserForm) returns (status: Status)
      modifies this
      ensures (status, State()) == CreateUser(old(State()), form)
    {
      if !Given(form.name) || !Given(form.email) || !Given(form.password) || !Given(form.role) {
        return BadRequest400;
      }
      if exists k :: k in users && users[k].email == form.email.value {
        return BadRequest400;
      }
      users := users[nextUserId := AdminUser(form.name.value, form.email.value, form.role.value, form.phone,
                                             OrElse(form.isActive, true), form.password.value)];
      nextUserId := nextUserId + 1;
      return Ok200;
    }

    method UpdateUserRoute(id: int, form: UserForm) returns (status: Status)
      modifies this
      ensures (status, State()) == UpdateUser(old(State()), id, form)
    {
      if id !in users {
        return InternalError500;
      }
      var u := users[id];
      if form.name.Some? {
        u := u.(name := form.name.value);
      }
      if form.email.Some? {
        if exists k :: k in users && k != id && users[k].email == form.email.value {
          return BadRequest400;
        }
        u := u.(email := form.email.value);
      }
      if form.role.Some? {
        u := u.(role := form.role.value);
      }
      if form.phone.Some? {
        u := u.(phone := form.phone);
      }
      if form.isActive.Some? {
        u := u.(active := form.isActive.value);
      }
      if form.password.Some? && form.password.value != "" {
        u := u.(password := form.password.value);
      }
      assert u == Updated(users[id], form);
      users := users[id := u];
      return Ok200;
    }

    method DeleteUserRoute(current: int, id: int) returns (status: Status)
      modifies this
      ensures (status, State()) == DeleteUser(old(State()), current, id)
    {
      if id == current {
        return BadRequest400;
      }
      if id !in users || id in heldUsers {
        return InternalError500;
      }
      users := users - {id};
      return Ok200;
    }
  }
}
