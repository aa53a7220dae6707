/*
 * The rows of the shop's database that the JSON endpoint reads and writes,
 * the endpoint's responses, and the pure specification of the sale
 * transaction: which detail rows it inserts and what it does to stock.
 */
module Store {
  import opened Wrappers
  import opened PhpValues

  /** A `productos` row. Every column the endpoint writes from the request
      holds the decoded value as it was bound. */
  datatype Product = Product(
    sku: Value,
    nombre: Value,
    categoriaId: Value,
    costo: Value,
    precio: Value,
    stock: Value,
    proveedorId: Value,
    activo: bool)

  /** A stored password hash. The hashing function is opaque: all the model
      keeps is which password it was computed from and the random salt that
      makes two hashes of one password differ. */
  datatype PasswordHash = PasswordHash(password: Value, salt: nat)

  /** `password_hash` takes a string: scalars are converted to one, while a
      decoded array or object raises a TypeError. */
  predicate HashThrows(password: Value)
  {
    password.Arr? || password.Obj?
  }

  /** `password_verify`: a hash accepts exactly the password it was made from. */
  predicate PasswordVerify(attempt: Value, h: PasswordHash)
  {
    h.password == attempt
  }

  /** An `empleados` row. `activo` is written verbatim by `toggle_user`. */
  datatype Employee = Employee(
    nombre: Value,
    email: Value,
    password: PasswordHash,
    rolId: Value,
    activo: Value)

  /** The columns `get_user` selects: everything but the password. */
  datatype UserView = UserView(id: int, nombre: Value, email: Value, rolId: Value, activo: Value)

  /** A `proveedores` row. */
  datatype Supplier = Supplier(
    empresa: Value,
    contacto: Value,
    telefono: Value,
    email: Value,
    activo: bool)

  /** An `ordenes` row. */
  datatype Order = Order(
    id: int,
    clienteId: Value,
    empleadoId: Value,
    metodoPagoId: Value,
    tipoVenta: string,
    estado: string,
    subtotal: Value,
    impuesto: Value,
    total: Value)

  /** A `detalles_orden` row. */
  datatype OrderDetail = OrderDetail(ordenId: int, productoId: Value, cantidad: Value, precioUnitario: Value)

  /** What a successful response carries besides `success: true`. `Listing`
      stands for the rows of the two listing actions, whose contents are not
      part of this model. */
  datatype Payload =
    | Message(text: string)
    | OrderCreated(ordenId: int)
    | ProductRow(productId: int, product: Product)
    | UserRow(user: UserView)
    | SupplierRow(supplierId: int, supplier: Supplier)
    | Listing

  /** `{success: true, ...}`, `{success: false, error: <message>}`, the
      failure the outer exception handler reports with the driver's message,
      or an uncaught PHP error (a TypeError is no Exception, so the handler
      does not see it): the script stops and no JSON answer is sent. */
  datatype Response = Ok(payload: Payload) | Err(error: string) | DbError | Crash

  /** The write statements whose failure the model lets the caller choose:
      the statements of the sale transaction by position, its commit, and
      the single write of every other handler. */
  datatype Statement = InsertOrder | InsertDetail(k: nat) | UpdateStock(k: nat) | Commit | Write

  const MissingFields := "Faltan datos obligatorios"
  const IdRequired := "ID requerido"
  const SkuExists := "El SKU ya existe"
  const SkuExistsElsewhere := "El SKU ya existe en otro producto"
  const NegativeStock := "El stock no puede ser negativo"
  const EmailRegistered := "El email ya está registrado"
  const ProductNotFound := "Producto no encontrado"
  const UserNotFound := "Usuario no encontrado"
  const SupplierNotFound := "Proveedor no encontrado"
  const InvalidAction := "Acción no válida"

  /** `$_GET[key] ?? ''` */
  function QueryParam(query: map<string, string>, key: string): string
  {
    if key in query then query[key] else ""
  }

  // ---------------------------------------------------------------------
  // Uniqueness lookups of create/update_product and create/update_user
  // ---------------------------------------------------------------------

  /** `SELECT id FROM productos WHERE sku = ?` finds a row. */
  predicate SkuInUse(products: map<int, Product>, sku: Value)
  {
    exists k :: k in products && products[k].sku == sku
  }

  /** `SELECT id FROM productos WHERE sku = ? AND id != ?` finds a row. */
  predicate SkuInUseByOther(products: map<int, Product>, sku: Value, id: Value)
  {
    exists k :: k in products && products[k].sku == sku && RowKey(id) != Some(k)
  }

  /** `SELECT id FROM empleados WHERE email = ?` finds a row. */
  predicate EmailInUse(employees: map<int, Employee>, email: Value)
  {
    exists k :: k in employees && employees[k].email == email
  }

  /** `SELECT id FROM empleados WHERE email = ? AND id != ?` finds a row. */
  predicate EmailInUseByOther(employees: map<int, Employee>, email: Value, id: Value)
  {
    exists k :: k in employees && employees[k].email == email && RowKey(id) != Some(k)
  }

  /** No two products share a SKU. */
  ghost predicate UniqueSkus(products: map<int, Product>)
  {
    forall a, b :: a in products && b in products && products[a].sku == products[b].sku ==> a == b
  }

  /** No two employees share an email. */
  ghost predicate UniqueEmails(employees: map<int, Employee>)
  {
    forall a, b :: a in employees && b in employees && employees[a].email == employees[b].email ==> a == b
  }

  // ---------------------------------------------------------------------
  // The sale transaction (process_sale), as functions of its input
  // ---------------------------------------------------------------------

  /** The items `process_sale` iterates over. */
  function SaleItems(data: Value): seq<Value>
  {
    Elements(Field(data, "items"))
  }

  /** The order header: customer and employee default to 1, the sale is a
      paid in-store one, and the client's totals are recorded as sent. */
  function SaleHeader(id: int, data: Value): (o: Order)
    ensures o.id == id && o.tipoVenta == "fisica" && o.estado == "pagado"
    ensures !IsSet(Field(data, "cliente_id")) ==> o.clienteId == Num(1.0)
    ensures IsSet(Field(data, "cliente_id")) ==> o.clienteId == Field(data, "cliente_id")
    ensures !IsSet(Field(data, "empleado_id")) ==> o.empleadoId == Num(1.0)
    ensures IsSet(Field(data, "empleado_id")) ==> o.empleadoId == Field(data, "empleado_id")
  {
    Order(
      id,
      Coalesce(Field(data, "cliente_id"), Num(1.0)),
      Coalesce(Field(data, "empleado_id"), Num(1.0)),
      Field(data, "metodo_pago_id"),
      "fisica",
      "pagado",
      Field(data, "subtotal"),
      Field(data, "impuesto"),
      Field(data, "total"))
  }

  /** The detail row inserted for one item. */
  function DetailRow(ordenId: int, item: Value): OrderDetail
  {
    OrderDetail(ordenId, Field(item, "id"), Field(item, "cantidad"), Field(item, "precio"))
  }

  /** The detail rows the loop inserts, in the order it inserts them:
      one per item, each carrying the order's id and the item's product id,
      quantity and price. */
  function SaleDetails(ordenId: int, items: seq<Value>): (ds: seq<OrderDetail>)
    ensures |ds| == |items|
    ensures forall k :: 0 <= k < |items| ==>
      && ds[k].ordenId == ordenId
      && ds[k].productoId == Field(items[k], "id")
      && ds[k].cantidad == Field(items[k], "cantidad")
      && ds[k].precioUnitario == Field(items[k], "precio")
  {
    if items == [] then []
    else SaleDetails(ordenId, items[..|items| - 1]) + [DetailRow(ordenId, items[|items| - 1])]
  }

  /** The item addresses the product with key `k`. */
  predicate Refers(item: Value, k: int)
  {
    RowKey(Field(item, "id")) == Some(k)
  }

  /** `UPDATE productos SET stock_actual = stock_actual - ? WHERE id = ?` for
      one item: no stock-sufficiency check, and no row at all when the id
      names none. */
  function Decrement(products: map<int, Product>, item: Value): (r: map<int, Product>)
    ensures r.Keys == products.Keys
    ensures forall k :: k in products && !Refers(item, k) ==> r[k] == products[k]
    ensures forall k :: k in products && Refers(item, k) ==>
      r[k] == products[k].(stock := SqlMinus(products[k].stock, Field(item, "cantidad")))
  {
    match RowKey(Field(item, "id"))
    case Some(k) =>
      if k in products
      then products[k := products[k].(stock := SqlMinus(products[k].stock, Field(item, "cantidad")))]
      else products
    case None => products
  }

  /** The products after the decrements of the given items, applied in order.
      No row appears or disappears, and only stock changes. */
  function ApplySale(products: map<int, Product>, items: seq<Value>): (r: map<int, Product>)
    ensures r.Keys == products.Keys
    ensures forall k :: k in products ==> r[k] == products[k].(stock := r[k].stock)
  {
    if items == [] then products
    else Decrement(ApplySale(products, items[..|items| - 1]), items[|items| - 1])
  }

  /** The quantity SQL reads from an item. */
  function QuantityOf(item: Value): real
  {
    match SqlNumber(Field(item, "cantidad"))
    case Some(q) => q
    case None => 0.0
  }

  /** The total quantity the items order of product `k`. */
  function QuantityFor(items: seq<Value>, k: int): real
  {
    if items == [] then 0.0
    else QuantityFor(items[..|items| - 1], k) + (if Refers(items[|items| - 1], k) then QuantityOf(items[|items| - 1]) else 0.0)
  }

  /** Every item that addresses product `k` carries a quantity SQL can read. */
  predicate QuantitiesReadable(items: seq<Value>, k: int)
  {
    forall i :: 0 <= i < |items| && Refers(items[i], k) ==> SqlNumber(Field(items[i], "cantidad")).Some?
  }

  /** None of the statements of a sale with `n` items fails. */
  predicate SaleCommits(fails: Statement -> bool, n: nat)
  {
    && !fails(InsertOrder)
    && (forall k: nat :: k < n ==> !fails(InsertDetail(k)) && !fails(UpdateStock(k)))
    && !fails(Commit)
  }

  /** The sale's rows for one more item are those for the items before it
      and then that item's own. */
  lemma SaleStep(ordenId: int, products: map<int, Product>, items: seq<Value>, k: nat)
    requires k < |items|
    ensures SaleDetails(ordenId, items[..k + 1]) == SaleDetails(ordenId, items[..k]) + [DetailRow(ordenId, items[k])]
    ensures ApplySale(products, items[..k + 1]) == Decrement(ApplySale(products, items[..k]), items[k])
  {
    assert items[..k + 1][..k] == items[..k];
  }

  /** A sale without items records no detail rows and touches no product. */
  lemma EmptySale(ordenId: int, products: map<int, Product>, data: Value)
    requires SaleItems(data) == []
    ensures SaleDetails(ordenId, SaleItems(data)) == []
    ensures ApplySale(products, SaleItems(data)) == products
  {
  }

  /** A product that no item addresses keeps its row. */
  lemma {:induction false} ApplySaleUntouched(products: map<int, Product>, items: seq<Value>, k: int)
    requires k in products
    requires forall i :: 0 <= i < |items| ==> !Refers(items[i], k)
    ensures ApplySale(products, items)[k] == products[k]
  {
    if items != [] {
      ApplySaleUntouched(products, items[..|items| - 1], k);
    }
  }

  /** Each product's stock drops by the total quantity ordered of it, repeated
      items counting cumulatively, with nothing to stop it going negative. */
  lemma {:induction false} ApplySaleStock(products: map<int, Product>, items: seq<Value>, k: int, s: real)
    requires k in products && SqlNumber(products[k].stock) == Some(s)
    requires QuantitiesReadable(items, k)
    ensures SqlNumber(ApplySale(products, items)[k].stock) == Some(s - QuantityFor(items, k))
  {
    if items != [] {
      var front, last := items[..|items| - 1], items[|items| - 1];
      assert QuantitiesReadable(front, k) by {
        forall i | 0 <= i < |front| && Refers(front[i], k)
          ensures SqlNumber(Field(front[i], "cantidad")).Some?
        {
          assert front[i] == items[i];
        }
      }
      ApplySaleStock(products, front, k, s);
      var before := ApplySale(products, front);
      if Refers(last, k) {
        assert SqlNumber(Field(items[|items| - 1], "cantidad")).Some?;
        var q := QuantityOf(last);
        assert SqlMinus(before[k].stock, Field(last, "cantidad")) == Num(s - QuantityFor(front, k) - q);
      }
    }
  }

  /** The source does not check that stock suffices: selling two of a product
      with one left records a stock of -1. */
  lemma StockCanGoNegative(products: map<int, Product>, item: Value)
    requires 7 in products && products[7].stock == Num(1.0)
    requires item == Obj(map["id" := Num(7.0), "cantidad" := Num(2.0), "precio" := Num(50.0)])
    ensures ApplySale(products, [item])[7].stock == Num(-1.0)
  {
    assert [item][..0] == [];
  }
}
