/*
 * The JSON action endpoint over an in-memory database: one method per
 * `case` of the action switch, and the dispatcher itself. Every write
 * statement may fail (the driver throws); which ones do is a parameter.
 */
module Api {
  import opened Wrappers
  import opened PhpValues
  import opened Store

  /** Everything the database holds, as one value. */
  datatype DbState = DbState(
    products: map<int, Product>,
    employees: map<int, Employee>,
    suppliers: map<int, Supplier>,
    orders: seq<Order>,
    details: seq<OrderDetail>,
    nextProductId: int,
    nextEmployeeId: int,
    nextSupplierId: int,
    nextOrderId: int)

  /** The product `create_product` inserts. */
  function NewProduct(data: Value): Product
  {
    Product(Field(data, "sku"), Field(data, "nombre"), Field(data, "categoria_id"), Field(data, "costo"),
            Field(data, "precio"), Field(data, "stock"), Field(data, "proveedor_id"), true)
  }

  /** The columns `update_product` overwrites; stock and the active flag are kept. */
  function EditedProduct(p: Product, data: Value): Product
  {
    p.(sku := Field(data, "sku"), nombre := Field(data, "nombre"), categoriaId := Field(data, "categoria_id"),
       costo := Field(data, "costo"), precio := Field(data, "precio"), proveedorId := Field(data, "proveedor_id"))
  }

  /** The columns `update_user` overwrites: the password only when a
      non-empty one is sent, and then by its fresh hash. */
  function EditedEmployee(e: Employee, data: Value, salt: nat): Employee
  {
    var edited := e.(nombre := Field(data, "nombre"), email := Field(data, "email"), rolId := Field(data, "rol_id"));
    if Empty(Field(data, "password")) then edited
    else edited.(password := PasswordHash(Field(data, "password"), salt))
  }

  /** The supplier `create_supplier` inserts. */
  function NewSupplier(data: Value): Supplier
  {
    Supplier(Field(data, "empresa"), Field(data, "contacto"), Field(data, "telefono"), Field(data, "email"), true)
  }

  /** The columns `update_supplier` overwrites. */
  function EditedSupplier(s: Supplier, data: Value): Supplier
  {
    s.(empresa := Field(data, "empresa"), contacto := Field(data, "contacto"),
       telefono := Field(data, "telefono"), email := Field(data, "email"))
  }

  /** `UPDATE ... WHERE id = ?` on a map: the row the id names, if any, is
      replaced; otherwise nothing changes. */
  function UpdateWhere<R>(rows: map<int, R>, id: Value, edit: R -> R): (r: map<int, R>)
    ensures r.Keys == rows.Keys
    ensures forall k :: k in rows && RowKey(id) != Some(k) ==> r[k] == rows[k]
    ensures RowKey(id).Some? && RowKey(id).value in rows ==> r[RowKey(id).value] == edit(rows[RowKey(id).value])
  {
    match RowKey(id)
    case Some(k) => if k in rows then rows[k := edit(rows[k])] else rows
    case None => rows
  }

  /** The actions of the switch, one per `case`. */
  datatype Action =
    | SearchProduct | GetCustomers | ProcessSaleAction
    | CreateProductAction | GetProductAction | UpdateProductAction | AdjustStockAction
    | CreateUserAction | GetUserAction | UpdateUserAction | ToggleUserAction
    | CreateSupplierAction | GetSupplierAction | UpdateSupplierAction
    | Unknown
  {
    /** The actions that only read. */
    predicate ReadOnly()
    {
      this in {SearchProduct, GetCustomers, GetProductAction, GetUserAction, GetSupplierAction}
    }

    /** The single-row writes to `productos`. */
    predicate OnProducts()
    {
      this in {CreateProductAction, UpdateProductAction, AdjustStockAction}
    }

    /** The single-row writes to `empleados`. */
    predicate OnEmployees()
    {
      this in {CreateUserAction, UpdateUserAction, ToggleUserAction}
    }

    /** The actions that write one row, outside a transaction. */
    predicate Writes()
    {
      !ReadOnly() && this != Unknown && this != ProcessSaleAction
    }
  }

  /** The `case` label of each action; the default branch has none, and
      the missing parameter reads as "". */
  function Label(a: Action): string
  {
    match a
    case SearchProduct => "search_product"
    case GetCustomers => "get_customers"
    case ProcessSaleAction => "process_sale"
    case CreateProductAction => "create_product"
    case GetProductAction => "get_product"
    case UpdateProductAction => "update_product"
    case AdjustStockAction => "adjust_stock"
    case CreateUserAction => "create_user"
    case GetUserAction => "get_user"
    case UpdateUserAction => "update_user"
    case ToggleUserAction => "toggle_user"
    case CreateSupplierAction => "create_supplier"
    case GetSupplierAction => "get_supplier"
    case UpdateSupplierAction => "update_supplier"
    case Unknown => ""
  }

  /** Which `case` the `action` query parameter selects: the one whose label
      it is, and the default branch for anything else. */
  function ParseAction(action: string): (r: Action)
    ensures r != Unknown ==> Label(r) == action
  {
    match action
    case "search_product" => SearchProduct
    case "get_customers" => GetCustomers
    case "process_sale" => ProcessSaleAction
    case "create_product" => CreateProductAction
    case "get_product" => GetProductAction
    case "update_product" => UpdateProductAction
    case "adjust_stock" => AdjustStockAction
    case "create_user" => CreateUserAction
    case "get_user" => GetUserAction
    case "update_user" => UpdateUserAction
    case "toggle_user" => ToggleUserAction
    case "create_supplier" => CreateSupplierAction
    case "get_supplier" => GetSupplierAction
    case "update_supplier" => UpdateSupplierAction
    case _ => Unknown
  }

  /** What a single-row write action requires of the request and the stored
      rows before it writes: its mandatory fields, its uniqueness lookup, its
      stock sign check, and a password `password_hash` accepts. */
  ghost predicate WriteAccepted(action: Action, s: DbState, data: Value)
  {
    match action
    case CreateProductAction =>
      !Empty(Field(data, "sku")) && !Empty(Field(data, "nombre")) && !SkuInUse(s.products, Field(data, "sku"))
    case UpdateProductAction =>
      && !Empty(Field(data, "id")) && !Empty(Field(data, "sku")) && !Empty(Field(data, "nombre"))
      && !SkuInUseByOther(s.products, Field(data, "sku"), Field(data, "id"))
    case AdjustStockAction =>
      !Empty(Field(data, "id")) && IsSet(Field(data, "stock")) && !BelowZero(Field(data, "stock"))
    case CreateUserAction =>
      && !Empty(Field(data, "nombre")) && !Empty(Field(data, "email")) && !Empty(Field(data, "password"))
      && !EmailInUse(s.employees, Field(data, "email")) && !HashThrows(Field(data, "password"))
    case UpdateUserAction =>
      && !Empty(Field(data, "id")) && !Empty(Field(data, "nombre")) && !Empty(Field(data, "email"))
      && !EmailInUseByOther(s.employees, Field(data, "email"), Field(data, "id"))
      && (Empty(Field(data, "password")) || !HashThrows(Field(data, "password")))
    case ToggleUserAction => !Empty(Field(data, "id"))
    case CreateSupplierAction => !Empty(Field(data, "empresa")) && !Empty(Field(data, "contacto"))
    case UpdateSupplierAction =>
      !Empty(Field(data, "id")) && !Empty(Field(data, "empresa")) && !Empty(Field(data, "contacto"))
    case _ => false
  }

  /** The database after a single-row write action that was accepted and
      went through: each action's own insert or `UPDATE ... WHERE id = ?`. */
  ghost function WriteEffect(action: Action, s: DbState, data: Value, salt: nat): DbState
  {
    match action
    case CreateProductAction =>
      s.(products := s.products[s.nextProductId := NewProduct(data)], nextProductId := s.nextProductId + 1)
    case UpdateProductAction =>
      s.(products := UpdateWhere(s.products, Field(data, "id"), p => EditedProduct(p, data)))
    case AdjustStockAction =>
      s.(products := UpdateWhere(s.products, Field(data, "id"), (p: Product) => p.(stock := Field(data, "stock"))))
    case CreateUserAction =>
      s.(employees := s.employees[s.nextEmployeeId := Employee(Field(data, "nombre"), Field(data, "email"),
                                    PasswordHash(Field(data, "password"), salt), Field(data, "rol_id"), Bool(true))],
         nextEmployeeId := s.nextEmployeeId + 1)
    case UpdateUserAction =>
      s.(employees := UpdateWhere(s.employees, Field(data, "id"), e => EditedEmployee(e, data, salt)))
    case ToggleUserAction =>
      s.(employees := UpdateWhere(s.employees, Field(data, "id"), (e: Employee) => e.(activo := Field(data, "activo"))))
    case CreateSupplierAction =>
      s.(suppliers := s.suppliers[s.nextSupplierId := NewSupplier(data)], nextSupplierId := s.nextSupplierId + 1)
    case UpdateSupplierAction =>
      s.(suppliers := UpdateWhere(s.suppliers, Field(data, "id"), sup => EditedSupplier(sup, data)))
    case _ => s
  }

  /** The database after a committed sale: the header with the next order
      id, its detail rows, and the stock decrements. */
  ghost function SaleEffect(s: DbState, data: Value): DbState
  {
    s.(orders := s.orders + [SaleHeader(s.nextOrderId, data)],
       details := s.details + SaleDetails(s.nextOrderId, SaleItems(data)),
       products := ApplySale(s.products, SaleItems(data)),
       nextOrderId := s.nextOrderId + 1)
  }

  /** The success message of each single-row write action. */
  function WriteMessage(action: Action, data: Value): string
  {
    match action
    case CreateProductAction => "Producto creado exitosamente"
    case UpdateProductAction => "Producto actualizado exitosamente"
    case AdjustStockAction => "Stock actualizado exitosamente"
    case CreateUserAction => "Usuario creado exitosamente"
    case UpdateUserAction => "Usuario actualizado exitosamente"
    case ToggleUserAction => "Usuario " + (if Truthy(Field(data, "activo")) then "activado" else "desactivado") + " exitosamente"
    case CreateSupplierAction => "Proveedor creado exitosamente"
    case UpdateSupplierAction => "Proveedor actualizado exitosamente"
    case _ => ""
  }

  /** Every label selects its own case, and the missing parameter the
      default branch. */
  lemma ParseLabel(a: Action)
    ensures ParseAction(Label(a)) == a
  {
  }

  /** The ids of the recorded orders. */
  function OrderIds(orders: seq<Order>): set<int>
  {
    set i | 0 <= i < |orders| :: orders[i].id
  }

  /** The database invariant: ids are positive and below their counter,
      orders are in id order, every detail row belongs to a recorded order,
      and SKUs and emails are unique. */
  ghost predicate Consistent(s: DbState)
  {
    && 0 < s.nextProductId && 0 < s.nextEmployeeId && 0 < s.nextSupplierId && 0 < s.nextOrderId
    && (forall k :: k in s.products ==> 0 < k < s.nextProductId)
    && (forall k :: k in s.employees ==> 0 < k < s.nextEmployeeId)
    && (forall k :: k in s.suppliers ==> 0 < k < s.nextSupplierId)
    && (forall i :: 0 <= i < |s.orders| ==> 0 < s.orders[i].id < s.nextOrderId)
    && (forall i, j :: 0 <= i < j < |s.orders| ==> s.orders[i].id < s.orders[j].id)
    && (forall i :: 0 <= i < |s.details| ==> s.details[i].ordenId in OrderIds(s.orders))
    && UniqueSkus(s.products)
    && UniqueEmails(s.employees)
  }

  class Database {
    var products: map<int, Product>
    var employees: map<int, Employee>
    var suppliers: map<int, Supplier>
    var orders: seq<Order>
    var details: seq<OrderDetail>
    // AUTO_INCREMENT counters: the id the next insert receives
    var nextProductId: int
    var nextEmployeeId: int
    var nextSupplierId: int
    var nextOrderId: int

    ghost function State(): DbState
      reads this
    {
      DbState(products, employees, suppliers, orders, details,
              nextProductId, nextEmployeeId, nextSupplierId, nextOrderId)
    }

    ghost predicate Valid()
      reads this
    {
      Consistent(State())
    }

    /** An empty database whose counters start at 1. */
    constructor ()
      ensures Valid()
      ensures products == map[] && employees == map[] && suppliers == map[]
      ensures orders == [] && details == []
    {
      products, employees, suppliers := map[], map[], map[];
      orders, details := [], [];
      nextProductId, nextEmployeeId, nextSupplierId, nextOrderId := 1, 1, 1, 1;
    }

    /** `process_sale`: inside one transaction, insert the order header, then
        per item a detail row and a stock decrement; commit if every statement
        succeeded, otherwise roll all of them back. The order counter is an
        auto-increment value, which a rollback does not give back. */
    method ProcessSale(data: Value, fails: Statement -> bool) returns (r: Response)
      requires Valid()
      modifies this
      ensures Valid()
      ensures r.Ok? <==> SaleCommits(fails, |SaleItems(data)|)
      ensures r.Ok? ==>
        && r == Ok(OrderCreated(old(nextOrderId)))
        && State() == SaleEffect(old(State()), data)
      ensures !r.Ok? ==>
        && r == DbError
        && State() == old(State()).(nextOrderId := if fails(InsertOrder) then old(nextOrderId) else old(nextOrderId) + 1)
    {
      var items := SaleItems(data);
      // beginTransaction: what a rollback restores
      var savedOrders, savedDetails, savedProducts := orders, details, products;
      if fails(InsertOrder) {
        r := DbError;
        return;
      }
      var ordenId := nextOrderId;
      nextOrderId := nextOrderId + 1;
      orders := orders + [SaleHeader(ordenId, data)];
      var ok := InsertSaleItems(ordenId, items, fails);
      if !ok || fails(Commit) {
        RollBack(old(State()), savedOrders, savedDetails, savedProducts);
        r := DbError;
        return;
      }
      SaleKeepsInvariant(old(State()), data);
      r := Ok(OrderCreated(ordenId));
    }

    /** The `foreach` of `process_sale`: per item, insert its detail row and
        decrement its product's stock, stopping at the first statement that
        fails. On failure the rows written so far are left for the caller
        to roll back. */
    method InsertSaleItems(ordenId: int, items: seq<Value>, fails: Statement -> bool) returns (ok: bool)
      modifies this
      ensures ok <==> forall k: nat :: k < |items| ==> !fails(InsertDetail(k)) && !fails(UpdateStock(k))
      ensures ok ==> State() == old(State()).(
        details := old(details) + SaleDetails(ordenId, items),
        products := ApplySale(old(products), items))
      ensures !ok ==> State() == old(State()).(details := details, products := products)
    {
      var k := 0;
      while k < |items|
        invariant 0 <= k <= |items|
        invariant forall j: nat :: j < k ==> !fails(InsertDetail(j)) && !fails(UpdateStock(j))
        invariant details == old(details) + SaleDetails(ordenId, items[..k])
        invariant products == ApplySale(old(products), items[..k])
        invariant State() == old(State()).(details := details, products := products)
      {
        if fails(InsertDetail(k)) {
          return false;
        }
        details := details + [DetailRow(ordenId, items[k])];
        if fails(UpdateStock(k)) {
          return false;
        }
        products := Decrement(products, items[k]);
        SaleStep(ordenId, old(products), items, k);
        k := k + 1;
      }
      assert items[..k] == items;
      ok := true;
    }

    /** `$pdo->rollBack()` inside the sale: orders, detail rows and products
        return to what the transaction began with; the order counter, once
        advanced by the header insert, stays advanced. */
    method RollBack(ghost before: DbState, savedOrders: seq<Order>, savedDetails: seq<OrderDetail>, savedProducts: map<int, Product>)
      requires Consistent(before)
      requires savedOrders == before.orders && savedDetails == before.details && savedProducts == before.products
      requires State() == before.(orders := orders, details := details, products := products, nextOrderId := before.nextOrderId + 1)
      modifies this
      ensures State() == before.(nextOrderId := before.nextOrderId + 1)
      ensures Valid()
    {
      orders, details, products := savedOrders, savedDetails, savedProducts;
    }

    /** `create_product`: sku and nombre are required, the sku must be new,
        and the product is inserted active with the stock it was given. */
    method CreateProduct(data: Value, fails: Statement -> bool) returns (r: Response)
      requires Valid()
      modifies this
      ensures Valid()
      ensures Empty(Field(data, "sku")) || Empty(Field(data, "nombre")) ==> r == Err(MissingFields)
      ensures !Empty(Field(data, "sku")) && !Empty(Field(data, "nombre")) && SkuInUse(old(products), Field(data, "sku"))
        ==> r == Err(SkuExists)
      ensures r.Ok? <==>
        !Empty(Field(data, "sku")) && !Empty(Field(data, "nombre")) && !SkuInUse(old(products), Field(data, "sku")) && !fails(Write)
      ensures !r.Ok? ==> State() == old(State())
      ensures r.Ok? ==>
        && r == Ok(Message("Producto creado exitosamente"))
        && old(nextProductId) !in old(products)
        && State() == old(State()).(
             products := old(products)[old(nextProductId) := NewProduct(data)],
             nextProductId := old(nextProductId) + 1)
    {
      var sku, nombre := Field(data, "sku"), Field(data, "nombre");
      if Empty(sku) || Empty(nombre) {
        return Err(MissingFields);
      }
      if SkuInUse(products, sku) {
        return Err(SkuExists);
      }
      if fails(Write) {
        return DbError;
      }
      ProductInsertKeepsInvariant(State(), NewProduct(data));
      products := products[nextProductId := NewProduct(data)];
      nextProductId := nextProductId + 1;
      r := Ok(Message("Producto creado exitosamente"));
    }

    /** `get_product`: the row with the given id, active or not. */
    method GetProduct(query: map<string, string>) returns (r: Response)
      ensures Empty(Str(QueryParam(query, "id"))) ==> r == Err(IdRequired)
      ensures !Empty(Str(QueryParam(query, "id"))) ==>
        match RowKey(Str(QueryParam(query, "id")))
        case Some(k) => if k in products then r == Ok(ProductRow(k, products[k])) else r == Err(ProductNotFound)
        case None => r == Err(ProductNotFound)
    {
      var id := QueryParam(query, "id");
      if Empty(Str(id)) {
        return Err(IdRequired);
      }
      match RowKey(Str(id))
      case Some(k) =>
        if k in products {
          r := Ok(ProductRow(k, products[k]));
        } else {
          r := Err(ProductNotFound);
        }
      case None =>
        r := Err(ProductNotFound);
    }

    /** `update_product`: id, sku and nombre are required and the sku may not
        belong to another product; stock and the active flag are never
        touched. An id that names no row still reports success. */
    method UpdateProduct(data: Value, fails: Statement -> bool) returns (r: Response)
      requires Valid()
      modifies this
      ensures Valid()
      ensures Empty(Field(data, "id")) || Empty(Field(data, "sku")) || Empty(Field(data, "nombre")) ==> r == Err(MissingFields)
      ensures !Empty(Field(data, "id")) && !Empty(Field(data, "sku")) && !Empty(Field(data, "nombre"))
        && SkuInUseByOther(old(products), Field(data, "sku"), Field(data, "id"))
        ==> r == Err(SkuExistsElsewhere)
      ensures r.Ok? <==>
        && !Empty(Field(data, "id")) && !Empty(Field(data, "sku")) && !Empty(Field(data, "nombre"))
        && !SkuInUseByOther(old(products), Field(data, "sku"), Field(data, "id"))
        && !fails(Write)
      ensures !r.Ok? ==> State() == old(State())
      ensures r.Ok? ==>
        && r == Ok(Message("Producto actualizado exitosamente"))
        && State() == old(State()).(products := UpdateWhere(old(products), Field(data, "id"), p => EditedProduct(p, data)))
      ensures forall k :: k in old(products) ==> k in products && products[k].stock == old(products)[k].stock && products[k].activo == old(products)[k].activo
    {
      var id, sku, nombre := Field(data, "id"), Field(data, "sku"), Field(data, "nombre");
      if Empty(id) || Empty(sku) || Empty(nombre) {
        return Err(MissingFields);
      }
      if SkuInUseByOther(products, sku, id) {
        return Err(SkuExistsElsewhere);
      }
      if fails(Write) {
        return DbError;
      }
      SkuEditKeepsUnique(products, id, sku, p => EditedProduct(p, data));
      ProductEditKeepsInvariant(State(), UpdateWhere(products, id, p => EditedProduct(p, data)));
      products := UpdateWhere(products, id, p => EditedProduct(p, data));
      r := Ok(Message("Producto actualizado exitosamente"));
    }

    /** `adjust_stock`: id must be non-empty and stock set (0 included);
        a negative stock is refused; otherwise the stock becomes exactly the
        given value and nothing else changes. */
    method AdjustStock(data: Value, fails: Statement -> bool) returns (r: Response)
      requires Valid()
      modifies this
      ensures Valid()
      ensures Empty(Field(data, "id")) || !IsSet(Field(data, "stock")) ==> r == Err(MissingFields)
      ensures !Empty(Field(data, "id")) && IsSet(Field(data, "stock")) && BelowZero(Field(data, "stock")) ==> r == Err(NegativeStock)
      ensures r.Ok? <==> !Empty(Field(data, "id")) && IsSet(Field(data, "stock")) && !BelowZero(Field(data, "stock")) && !fails(Write)
      ensures !r.Ok? ==> State() == old(State())
      ensures r.Ok? ==>
        && r == Ok(Message("Stock actualizado exitosamente"))
        && State() == old(State()).(products := UpdateWhere(old(products), Field(data, "id"), (p: Product) => p.(stock := Field(data, "stock"))))
    {
      var id, stock := Field(data, "id"), Field(data, "stock");
      if Empty(id) || !IsSet(stock) {
        return Err(MissingFields);
      }
      if BelowZero(stock) {
        return Err(NegativeStock);
      }
      if fails(Write) {
        return DbError;
      }
      SkuKeepingEditKeepsUnique(products, id, (p: Product) => p.(stock := stock));
      ProductEditKeepsInvariant(State(), UpdateWhere(products, id, (p: Product) => p.(stock := stock)));
      products := UpdateWhere(products, id, (p: Product) => p.(stock := stock));
      r := Ok(Message("Stock actualizado exitosamente"));
    }

    /** `create_user`: nombre, email and password are required, the email
        must be new, and the employee is inserted active with the password
        hashed. */
    method CreateUser(data: Value, fails: Statement -> bool, salt: nat) returns (r: Response)
      requires Valid()
      modifies this
      ensures Valid()
      ensures Empty(Field(data, "nombre")) || Empty(Field(data, "email")) || Empty(Field(data, "password")) ==> r == Err(MissingFields)
      ensures !Empty(Field(data, "nombre")) && !Empty(Field(data, "email")) && !Empty(Field(data, "password"))
        && EmailInUse(old(employees), Field(data, "email"))
        ==> r == Err(EmailRegistered)
      ensures !Empty(Field(data, "nombre")) && !Empty(Field(data, "email")) && !Empty(Field(data, "password"))
        && !EmailInUse(old(employees), Field(data, "email")) && HashThrows(Field(data, "password"))
        ==> r == Crash
      ensures r.Ok? <==>
        && !Empty(Field(data, "nombre")) && !Empty(Field(data, "email")) && !Empty(Field(data, "password"))
        && !EmailInUse(old(employees), Field(data, "email"))
        && !HashThrows(Field(data, "password"))
        && !fails(Write)
      ensures !r.Ok? ==> State() == old(State())
      ensures r.Ok? ==>
        && r == Ok(Message("Usuario creado exitosamente"))
        && old(nextEmployeeId) !in old(employees)
        && State() == old(State()).(
             employees := old(employees)[old(nextEmployeeId) := Employee(Field(data, "nombre"), Field(data, "email"),
                                           PasswordHash(Field(data, "password"), salt), Field(data, "rol_id"), Bool(true))],
             nextEmployeeId := old(nextEmployeeId) + 1)
    {
      var nombre, email, password := Field(data, "nombre"), Field(data, "email"), Field(data, "password");
      if Empty(nombre) || Empty(email) || Empty(password) {
        return Err(MissingFields);
      }
      if EmailInUse(employees, email) {
        return Err(EmailRegistered);
      }
      if HashThrows(password) {
        return Crash;
      }
      var hash := PasswordHash(password, salt);
      if fails(Write) {
        return DbError;
      }
      EmployeeInsertKeepsInvariant(State(), Employee(nombre, email, hash, Field(data, "rol_id"), Bool(true)));
      employees := employees[nextEmployeeId := Employee(nombre, email, hash, Field(data, "rol_id"), Bool(true))];
      nextEmployeeId := nextEmployeeId + 1;
      r := Ok(Message("Usuario creado exitosamente"));
    }

    /** `get_user`: the employee's public columns; the password hash is not
        among them. */
    method GetUser(query: map<string, string>) returns (r: Response)
      ensures Empty(Str(QueryParam(query, "id"))) ==> r == Err(IdRequired)
      ensures !Empty(Str(QueryParam(query, "id"))) ==>
        match RowKey(Str(QueryParam(query, "id")))
        case Some(k) =>
          if k in employees
          then r == Ok(UserRow(UserView(k, employees[k].nombre, employees[k].email, employees[k].rolId, employees[k].activo)))
          else r == Err(UserNotFound)
        case None => r == Err(UserNotFound)
    {
      var id := QueryParam(query, "id");
      if Empty(Str(id)) {
        return Err(IdRequired);
      }
      match RowKey(Str(id))
      case Some(k) =>
        if k in employees {
          var e := employees[k];
          r := Ok(UserRow(UserView(k, e.nombre, e.email, e.rolId, e.activo)));
        } else {
          r := Err(UserNotFound);
        }
      case None =>
        r := Err(UserNotFound);
    }

    /** `update_user`: id, nombre and email are required and the email may
        not belong to another employee; a non-empty password is rehashed and
        stored, an empty one leaves the stored hash as it was. */
    method UpdateUser(data: Value, fails: Statement -> bool, salt: nat) returns (r: Response)
      requires Valid()
      modifies this
      ensures Valid()
      ensures Empty(Field(data, "id")) || Empty(Field(data, "nombre")) || Empty(Field(data, "email")) ==> r == Err(MissingFields)
      ensures !Empty(Field(data, "id")) && !Empty(Field(data, "nombre")) && !Empty(Field(data, "email"))
        && EmailInUseByOther(old(employees), Field(data, "email"), Field(data, "id"))
        ==> r == Err(EmailRegistered)
      ensures !Empty(Field(data, "id")) && !Empty(Field(data, "nombre")) && !Empty(Field(data, "email"))
        && !EmailInUseByOther(old(employees), Field(data, "email"), Field(data, "id"))
        && !Empty(Field(data, "password")) && HashThrows(Field(data, "password"))
        ==> r == Crash
      ensures r.Ok? <==>
        && !Empty(Field(data, "id")) && !Empty(Field(data, "nombre")) && !Empty(Field(data, "email"))
        && !EmailInUseByOther(old(employees), Field(data, "email"), Field(data, "id"))
        && (Empty(Field(data, "password")) || !HashThrows(Field(data, "password")))
        && !fails(Write)
      ensures !r.Ok? ==> State() == old(State())
      ensures r.Ok? ==>
        && r == Ok(Message("Usuario actualizado exitosamente"))
        && State() == old(State()).(employees := UpdateWhere(old(employees), Field(data, "id"),
             e => EditedEmployee(e, data, salt)))
      ensures r.Ok? && Empty(Field(data, "password")) ==>
        forall k :: k in old(employees) ==> employees[k].password == old(employees)[k].password
      ensures r.Ok? && !Empty(Field(data, "password")) && RowKey(Field(data, "id")).Some? && RowKey(Field(data, "id")).value in old(employees) ==>
        && employees[RowKey(Field(data, "id")).value].password == PasswordHash(Field(data, "password"), salt)
        && PasswordVerify(Field(data, "password"), employees[RowKey(Field(data, "id")).value].password)
    {
      var id, nombre, email, password := Field(data, "id"), Field(data, "nombre"), Field(data, "email"), Field(data, "password");
      if Empty(id) || Empty(nombre) || Empty(email) {
        return Err(MissingFields);
      }
      if EmailInUseByOther(employees, email, id) {
        return Err(EmailRegistered);
      }
      if !Empty(password) && HashThrows(password) {
        return Crash;
      }
      if fails(Write) {
        return DbError;
      }
      EmailEditKeepsUnique(employees, id, email, e => EditedEmployee(e, data, salt));
      EmployeeEditKeepsInvariant(State(), UpdateWhere(employees, id, e => EditedEmployee(e, data, salt)));
      employees := UpdateWhere(employees, id, e => EditedEmployee(e, data, salt));
      r := Ok(Message("Usuario actualizado exitosamente"));
    }

    /** `toggle_user`: stores `activo` as sent and words the message after
        its truthiness. */
    method ToggleUser(data: Value, fails: Statement -> bool) returns (r: Response)
      requires Valid()
      modifies this
      ensures Valid()
      ensures Empty(Field(data, "id")) ==> r == Err(IdRequired)
      ensures r.Ok? <==> !Empty(Field(data, "id")) && !fails(Write)
      ensures !r.Ok? ==> State() == old(State())
      ensures r.Ok? ==>
        && r == Ok(Message("Usuario " + (if Truthy(Field(data, "activo")) then "activado" else "desactivado") + " exitosamente"))
        && State() == old(State()).(employees := UpdateWhere(old(employees), Field(data, "id"), (e: Employee) => e.(activo := Field(data, "activo"))))
    {
      var id := Field(data, "id");
      if Empty(id) {
        return Err(IdRequired);
      }
      if fails(Write) {
        return DbError;
      }
      var activo := Field(data, "activo");
      EmailKeepingEditKeepsUnique(employees, id, (e: Employee) => e.(activo := activo));
      EmployeeEditKeepsInvariant(State(), UpdateWhere(employees, id, (e: Employee) => e.(activo := activo)));
      employees := UpdateWhere(employees, id, (e: Employee) => e.(activo := activo));
      var estado := if Truthy(activo) then "activado" else "desactivado";
      r := Ok(Message("Usuario " + estado + " exitosamente"));
    }

    /** `create_supplier`: empresa and contacto are required; there is no
        uniqueness check. */
    method CreateSupplier(data: Value, fails: Statement -> bool) returns (r: Response)
      requires Valid()
      modifies this
      ensures Valid()
      ensures Empty(Field(data, "empresa")) || Empty(Field(data, "contacto")) ==> r == Err(MissingFields)
      ensures r.Ok? <==> !Empty(Field(data, "empresa")) && !Empty(Field(data, "contacto")) && !fails(Write)
      ensures !r.Ok? ==> State() == old(State())
      ensures r.Ok? ==>
        && r == Ok(Message("Proveedor creado exitosamente"))
        && old(nextSupplierId) !in old(suppliers)
        && State() == old(State()).(
             suppliers := old(suppliers)[old(nextSupplierId) := NewSupplier(data)],
             nextSupplierId := old(nextSupplierId) + 1)
    {
      if Empty(Field(data, "empresa")) || Empty(Field(data, "contacto")) {
        return Err(MissingFields);
      }
      if fails(Write) {
        return DbError;
      }
      SupplierInsertKeepsInvariant(State(), NewSupplier(data));
      suppliers := suppliers[nextSupplierId := NewSupplier(data)];
      nextSupplierId := nextSupplierId + 1;
      r := Ok(Message("Proveedor creado exitosamente"));
    }

    /** `get_supplier`: the row with the given id. */
    method GetSupplier(query: map<string, string>) returns (r: Response)
      ensures Empty(Str(QueryParam(query, "id"))) ==> r == Err(IdRequired)
      ensures !Empty(Str(QueryParam(query, "id"))) ==>
        match RowKey(Str(QueryParam(query, "id")))
        case Some(k) => if k in suppliers then r == Ok(SupplierRow(k, suppliers[k])) else r == Err(SupplierNotFound)
        case None => r == Err(SupplierNotFound)
    {
      var id := QueryParam(query, "id");
      if Empty(Str(id)) {
        return Err(IdRequired);
      }
      match RowKey(Str(id))
      case Some(k) =>
        if k in suppliers {
          r := Ok(SupplierRow(k, suppliers[k]));
        } else {
          r := Err(SupplierNotFound);
        }
      case None =>
        r := Err(SupplierNotFound);
    }

    /** `update_supplier`: id, empresa and contacto are required. */
    method UpdateSupplier(data: Value, fails: Statement -> bool) returns (r: Response)
      requires Valid()
      modifies this
      ensures Valid()
      ensures Empty(Field(data, "id")) || Empty(Field(data, "empresa")) || Empty(Field(data, "contacto")) ==> r == Err(MissingFields)
      ensures r.Ok? <==> !Empty(Field(data, "id")) && !Empty(Field(data, "empresa")) && !Empty(Field(data, "contacto")) && !fails(Write)
      ensures !r.Ok? ==> State() == old(State())
      ensures r.Ok? ==>
        && r == Ok(Message("Proveedor actualizado exitosamente"))
        && State() == old(State()).(suppliers := UpdateWhere(old(suppliers), Field(data, "id"), s => EditedSupplier(s, data)))
    {
      if Empty(Field(data, "id")) || Empty(Field(data, "empresa")) || Empty(Field(data, "contacto")) {
        return Err(MissingFields);
      }
      if fails(Write) {
        return DbError;
      }
      SupplierEditKeepsInvariant(State(), UpdateWhere(suppliers, Field(data, "id"), s => EditedSupplier(s, data)));
      suppliers := UpdateWhere(suppliers, Field(data, "id"), s => EditedSupplier(s, data));
      r := Ok(Message("Proveedor actualizado exitosamente"));
    }

    /** The action switch. `query` is the request's query string and `data`
        its decoded JSON body. An unknown action is refused, the reading
        actions change nothing, and a refused or failed request leaves the
        store as it was, but for an order id a failed sale consumed. */
    method Dispatch(query: map<string, string>, data: Value, fails: Statement -> bool, salt: nat) returns (r: Response)
      requires Valid()
      modifies this
      ensures Valid()
      ensures ParseAction(QueryParam(query, "action")) == Unknown ==> r == Err(InvalidAction) && State() == old(State())
      ensures ParseAction(QueryParam(query, "action")).ReadOnly() ==> State() == old(State())
      ensures ParseAction(QueryParam(query, "action")) == ProcessSaleAction ==>
        && (r.Ok? <==> SaleCommits(fails, |SaleItems(data)|))
        && (r.Ok? ==> State() == SaleEffect(old(State()), data))
      ensures ParseAction(QueryParam(query, "action")).Writes() ==>
        && (r.Ok? <==> WriteAccepted(ParseAction(QueryParam(query, "action")), old(State()), data) && !fails(Write))
        && (r.Ok? ==> r == Ok(Message(WriteMessage(ParseAction(QueryParam(query, "action")), data))))
        && (r.Ok? ==> State() == WriteEffect(ParseAction(QueryParam(query, "action")), old(State()), data, salt))
      ensures !r.Ok? ==> State().(nextOrderId := old(nextOrderId)) == old(State())
    {
      var action := ParseAction(QueryParam(query, "action"));
      if action.ReadOnly() {
        r := ReadAction(action, query);
      } else if action == Unknown {
        r := Err(InvalidAction);
      } else if action == ProcessSaleAction {
        r := ProcessSale(data, fails);
      } else {
        r := WriteAction(action, data, fails, salt);
      }
    }

    /** The reading cases of the switch. The two listings are not modelled
        beyond their success. */
    method ReadAction(action: Action, query: map<string, string>) returns (r: Response)
      requires action.ReadOnly()
      ensures action == SearchProduct || action == GetCustomers ==> r == Ok(Listing)
      ensures action == GetProductAction && r.Ok? ==> r.payload.ProductRow?
      ensures action == GetUserAction && r.Ok? ==> r.payload.UserRow?
      ensures action == GetSupplierAction && r.Ok? ==> r.payload.SupplierRow?
      ensures r.Err? ==> (r.error == IdRequired <==> Empty(Str(QueryParam(query, "id"))))
      ensures action != SearchProduct && action != GetCustomers ==> (r == Err(IdRequired) <==> Empty(Str(QueryParam(query, "id"))))
    {
      match action
      case SearchProduct => r := Ok(Listing);
      case GetCustomers => r := Ok(Listing);
      case GetProductAction => r := GetProduct(query);
      case GetUserAction => r := GetUser(query);
      case GetSupplierAction => r := GetSupplier(query);
    }

    /** The writing cases of the switch other than the sale: each reaches
        its own handler, which succeeds exactly when the action accepts the
        request and the write goes through, answers with that action's
        message, and otherwise changes nothing. */
    method WriteAction(action: Action, data: Value, fails: Statement -> bool, salt: nat) returns (r: Response)
      requires Valid()
      requires action.Writes()
      modifies this
      ensures Valid()
      ensures r.Ok? <==> WriteAccepted(action, old(State()), data) && !fails(Write)
      ensures r.Ok? ==> r == Ok(Message(WriteMessage(action, data)))
      ensures r.Ok? ==> State() == WriteEffect(action, old(State()), data, salt)
      ensures !r.Ok? ==> State() == old(State())
    {
      if action.OnProducts() {
        r := WriteProducts(action, data, fails, salt);
      } else if action.OnEmployees() {
        r := WriteEmployees(action, data, fails, salt);
      } else {
        r := WriteSuppliers(action, data, fails, salt);
      }
    }

    /** The product cases of the switch. */
    method WriteProducts(action: Action, data: Value, fails: Statement -> bool, ghost salt: nat) returns (r: Response)
      requires Valid()
      requires action.OnProducts()
      modifies this
      ensures Valid()
      ensures r.Ok? <==> WriteAccepted(action, old(State()), data) && !fails(Write)
      ensures r.Ok? ==> r == Ok(Message(WriteMessage(action, data)))
      ensures r.Ok? ==> State() == WriteEffect(action, old(State()), data, salt)
      ensures !r.Ok? ==> State() == old(State())
    {
      match action
      case CreateProductAction => r := CreateProduct(data, fails);
      case UpdateProductAction => r := UpdateProduct(data, fails);
      case AdjustStockAction => r := AdjustStock(data, fails);
    }

    /** The employee cases of the switch. */
    method WriteEmployees(action: Action, data: Value, fails: Statement -> bool, salt: nat) returns (r: Response)
      requires Valid()
      requires action.OnEmployees()
      modifies this
      ensures Valid()
      ensures r.Ok? <==> WriteAccepted(action, old(State()), data) && !fails(Write)
      ensures r.Ok? ==> r == Ok(Message(WriteMessage(action, data)))
      ensures r.Ok? ==> State() == WriteEffect(action, old(State()), data, salt)
      ensures !r.Ok? ==> State() == old(State())
    {
      match action
      case CreateUserAction => r := CreateUser(data, fails, salt);
      case UpdateUserAction => r := UpdateUser(data, fails, salt);
      case ToggleUserAction => r := ToggleUser(data, fails);
    }

    /** The supplier cases of the switch. */
    method WriteSuppliers(action: Action, data: Value, fails: Statement -> bool, ghost salt: nat) returns (r: Response)
      requires Valid()
      requires action == CreateSupplierAction || action == UpdateSupplierAction
      modifies this
      ensures Valid()
      ensures r.Ok? <==> WriteAccepted(action, old(State()), data) && !fails(Write)
      ensures r.Ok? ==> r == Ok(Message(WriteMessage(action, data)))
      ensures r.Ok? ==> State() == WriteEffect(action, old(State()), data, salt)
      ensures !r.Ok? ==> State() == old(State())
    {
      match action
      case CreateSupplierAction => r := CreateSupplier(data, fails);
      case UpdateSupplierAction => r := UpdateSupplier(data, fails);
    }
  }

  /** A committed sale keeps the invariant: the new order's id is above
      every earlier one, its detail rows refer to it, and only stock changes
      in the product rows. */
  lemma SaleKeepsInvariant(s: DbState, data: Value)
    requires Consistent(s)
    ensures Consistent(SaleEffect(s, data))
  {
    SaleOrdersInOrder(s, SaleHeader(s.nextOrderId, data), SaleDetails(s.nextOrderId, SaleItems(data)));
    StockChangeKeepsUnique(s.products, ApplySale(s.products, SaleItems(data)));
  }

  /** Appending an order with the next id, and detail rows that refer to it,
      keeps orders in id order and every detail row attached to an order. */
  lemma SaleOrdersInOrder(s: DbState, header: Order, rows: seq<OrderDetail>)
    requires Consistent(s) && header.id == s.nextOrderId
    requires forall i :: 0 <= i < |rows| ==> rows[i].ordenId == s.nextOrderId
    ensures var orders := s.orders + [header];
      && (forall i :: 0 <= i < |orders| ==> 0 < orders[i].id < s.nextOrderId + 1)
      && (forall i, j :: 0 <= i < j < |orders| ==> orders[i].id < orders[j].id)
      && (forall i :: 0 <= i < |s.details + rows| ==> (s.details + rows)[i].ordenId in OrderIds(orders))
  {
    var orders := s.orders + [header];
    assert OrderIds(s.orders) <= OrderIds(orders) by {
      forall x | x in OrderIds(s.orders) ensures x in OrderIds(orders) {
        var i :| 0 <= i < |s.orders| && s.orders[i].id == x;
        assert orders[i].id == x;
      }
    }
    assert s.nextOrderId in OrderIds(orders) by {
      assert orders[|s.orders|].id == s.nextOrderId;
    }
  }

  /** Changing only the stock of product rows keeps SKUs unique. */
  lemma StockChangeKeepsUnique(products: map<int, Product>, changed: map<int, Product>)
    requires UniqueSkus(products) && changed.Keys == products.Keys
    requires forall k :: k in products ==> changed[k] == products[k].(stock := changed[k].stock)
    ensures UniqueSkus(changed)
  {
    forall a, b | a in changed && b in changed && changed[a].sku == changed[b].sku
      ensures a == b
    {
      assert changed[a].sku == products[a].sku && changed[b].sku == products[b].sku;
    }
  }

  /** Inserting a product whose SKU is new keeps the invariant. */
  lemma ProductInsertKeepsInvariant(s: DbState, p: Product)
    requires Consistent(s) && !SkuInUse(s.products, p.sku)
    ensures s.nextProductId !in s.products
    ensures Consistent(s.(products := s.products[s.nextProductId := p], nextProductId := s.nextProductId + 1))
  {
  }

  /** Rewriting product rows in place keeps the invariant when SKUs stay unique. */
  lemma ProductEditKeepsInvariant(s: DbState, products: map<int, Product>)
    requires Consistent(s) && products.Keys == s.products.Keys && UniqueSkus(products)
    ensures Consistent(s.(products := products))
  {
  }

  /** Inserting an employee whose email is new keeps the invariant. */
  lemma EmployeeInsertKeepsInvariant(s: DbState, e: Employee)
    requires Consistent(s) && !EmailInUse(s.employees, e.email)
    ensures s.nextEmployeeId !in s.employees
    ensures Consistent(s.(employees := s.employees[s.nextEmployeeId := e], nextEmployeeId := s.nextEmployeeId + 1))
  {
  }

  /** Rewriting employee rows in place keeps the invariant when emails stay unique. */
  lemma EmployeeEditKeepsInvariant(s: DbState, employees: map<int, Employee>)
    requires Consistent(s) && employees.Keys == s.employees.Keys && UniqueEmails(employees)
    ensures Consistent(s.(employees := employees))
  {
  }

  /** Inserting a supplier keeps the invariant. */
  lemma SupplierInsertKeepsInvariant(s: DbState, sup: Supplier)
    requires Consistent(s)
    ensures s.nextSupplierId !in s.suppliers
    ensures Consistent(s.(suppliers := s.suppliers[s.nextSupplierId := sup], nextSupplierId := s.nextSupplierId + 1))
  {
  }

  /** Rewriting supplier rows in place keeps the invariant. */
  lemma SupplierEditKeepsInvariant(s: DbState, suppliers: map<int, Supplier>)
    requires Consistent(s) && suppliers.Keys == s.suppliers.Keys
    ensures Consistent(s.(suppliers := suppliers))
  {
  }

  /** An update that gives the addressed product a SKU no other product holds
      keeps SKUs unique. */
  lemma SkuEditKeepsUnique(products: map<int, Product>, id: Value, sku: Value, edit: Product -> Product)
    requires UniqueSkus(products) && !SkuInUseByOther(products, sku, id)
    requires forall p :: edit(p).sku == sku
    ensures UniqueSkus(UpdateWhere(products, id, edit))
  {
  }

  /** An update that gives the addressed employee an email no other employee
      holds keeps emails unique. */
  lemma EmailEditKeepsUnique(employees: map<int, Employee>, id: Value, email: Value, edit: Employee -> Employee)
    requires UniqueEmails(employees) && !EmailInUseByOther(employees, email, id)
    requires forall e :: edit(e).email == email
    ensures UniqueEmails(UpdateWhere(employees, id, edit))
  {
  }

  /** An update that leaves SKUs alone keeps them unique. */
  lemma SkuKeepingEditKeepsUnique(products: map<int, Product>, id: Value, edit: Product -> Product)
    requires UniqueSkus(products)
    requires forall p :: edit(p).sku == p.sku
    ensures UniqueSkus(UpdateWhere(products, id, edit))
  {
  }

  /** An update that leaves emails alone keeps them unique. */
  lemma EmailKeepingEditKeepsUnique(employees: map<int, Employee>, id: Value, edit: Employee -> Employee)
    requires UniqueEmails(employees)
    requires forall e :: edit(e).email == e.email
    ensures UniqueEmails(UpdateWhere(employees, id, edit))
  {
  }
}
