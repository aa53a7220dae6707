/*
 * The two halves of a sale put together: the JSON body the terminal posts
 * for a cart, as the endpoint decodes it, and what `process_sale` then
 * records for it.
 */
module Checkout {
  import opened Wrappers
  import opened Cart
  import opened PhpValues
  import opened Store

  /** One payload item as the endpoint decodes it. */
  function ItemValue(item: SaleItem): Value
  {
    Obj(map["id" := Num(item.id as real), "cantidad" := Num(item.cantidad as real), "precio" := Num(item.precio)])
  }

  /** The payload's items as the endpoint decodes them, in order. */
  function ItemValues(items: seq<SaleItem>): (vs: seq<Value>)
    ensures |vs| == |items|
    ensures forall k :: 0 <= k < |items| ==> vs[k] == ItemValue(items[k])
  {
    if items == [] then [] else [ItemValue(items[0])] + ItemValues(items[1..])
  }

  /** The request body `JSON.stringify(saleData)` decodes to. */
  function SaleBody(payload: SalePayload): Value
  {
    Obj(map[
      "cliente_id" := Str(payload.clienteId),
      "empleado_id" := Num(payload.empleadoId as real),
      "metodo_pago_id" := Num(payload.metodoPagoId as real),
      "subtotal" := Num(payload.subtotal),
      "impuesto" := Num(payload.impuesto),
      "total" := Num(payload.total),
      "items" := Arr(ItemValues(payload.items))])
  }

  /** The decoded body's fields are the payload's. */
  lemma BodyFields(payload: SalePayload)
    ensures Field(SaleBody(payload), "cliente_id") == Str(payload.clienteId)
    ensures Field(SaleBody(payload), "empleado_id") == Num(payload.empleadoId as real)
    ensures Field(SaleBody(payload), "metodo_pago_id") == Num(payload.metodoPagoId as real)
    ensures Field(SaleBody(payload), "subtotal") == Num(payload.subtotal)
    ensures Field(SaleBody(payload), "impuesto") == Num(payload.impuesto)
    ensures Field(SaleBody(payload), "total") == Num(payload.total)
    ensures SaleItems(SaleBody(payload)) == ItemValues(payload.items)
  {
  }

  /** A decoded item's fields are the item's id, quantity and price. */
  lemma ItemFields(item: SaleItem)
    ensures Field(ItemValue(item), "id") == Num(item.id as real)
    ensures Field(ItemValue(item), "cantidad") == Num(item.cantidad as real)
    ensures Field(ItemValue(item), "precio") == Num(item.precio)
  {
  }

  /** A decoded item names the product whose id it carries, and no other,
      and SQL reads its quantity as the item's. */
  lemma ItemRefers(item: SaleItem, k: int)
    ensures Refers(ItemValue(item), k) <==> item.id == k
    ensures SqlNumber(Field(ItemValue(item), "cantidad")) == Some(item.cantidad as real)
    ensures QuantityOf(ItemValue(item)) == item.cantidad as real
  {
    ItemFields(item);
    assert RowKey(Num(item.id as real)) == Some(item.id);
  }

  /** Items none of which names product `k` order none of it. */
  lemma {:induction false} QuantityForNone(items: seq<Value>, k: int)
    requires forall j :: 0 <= j < |items| ==> !Refers(items[j], k)
    ensures QuantityFor(items, k) == 0.0
  {
    if items != [] {
      QuantityForNone(items[..|items| - 1], k);
    }
  }

  /** Items only one of which names product `k` order that item's quantity of it. */
  lemma {:induction false} QuantityForOne(items: seq<Value>, k: int, i: nat)
    requires i < |items| && Refers(items[i], k)
    requires forall j :: 0 <= j < |items| && j != i ==> !Refers(items[j], k)
    ensures QuantityFor(items, k) == QuantityOf(items[i])
  {
    var front := items[..|items| - 1];
    if i == |items| - 1 {
      QuantityForNone(front, k);
    } else {
      QuantityForOne(front, k, i);
    }
  }

  /** The order a checkout creates: the customer picked on screen, employee
      1, the chosen payment method, and the totals as the cart computed them. */
  lemma CheckoutHeader(cart: seq<CartItem>, paymentId: Option<int>, customerId: string, id: int)
    requires CheckoutRequest(cart, paymentId, customerId).Send?
    ensures var o := SaleHeader(id, SaleBody(CheckoutRequest(cart, paymentId, customerId).payload));
      && o.clienteId == Str(customerId)
      && o.empleadoId == Num(1.0)
      && o.metodoPagoId == Num(paymentId.value as real)
      && o.subtotal == Num(Subtotal(cart))
      && o.impuesto == Num(Subtotal(cart) * TaxRate)
      && o.total == Num(Subtotal(cart) * 1.16)
      && o.tipoVenta == "fisica" && o.estado == "pagado"
  {
    BodyFields(CheckoutRequest(cart, paymentId, customerId).payload);
  }

  /** A checkout's sale records one detail row per cart entry, in cart
      order, with the entry's product, quantity and price. */
  lemma CheckoutDetails(cart: seq<CartItem>, paymentId: Option<int>, customerId: string, ordenId: int)
    requires CheckoutRequest(cart, paymentId, customerId).Send?
    ensures var ds := SaleDetails(ordenId, SaleItems(SaleBody(CheckoutRequest(cart, paymentId, customerId).payload)));
      && |ds| == |cart|
      && forall k :: 0 <= k < |cart| ==>
        && ds[k].ordenId == ordenId
        && ds[k].productoId == Num(cart[k].id as real)
        && ds[k].cantidad == Num(cart[k].quantity as real)
        && ds[k].precioUnitario == Num(cart[k].price)
  {
    var items := ItemValues(PayloadItems(cart));
    CheckoutItems(cart, paymentId, customerId);
    forall k | 0 <= k < |cart|
      ensures Field(items[k], "id") == Num(cart[k].id as real)
      ensures Field(items[k], "cantidad") == Num(cart[k].quantity as real)
      ensures Field(items[k], "precio") == Num(cart[k].price)
    {
      ItemFields(PayloadItems(cart)[k]);
    }
  }

  /** The items a checkout's body carries are the cart's entries, in order. */
  lemma CheckoutItems(cart: seq<CartItem>, paymentId: Option<int>, customerId: string)
    requires CheckoutRequest(cart, paymentId, customerId).Send?
    ensures SaleItems(SaleBody(CheckoutRequest(cart, paymentId, customerId).payload)) == ItemValues(PayloadItems(cart))
  {
    BodyFields(CheckoutRequest(cart, paymentId, customerId).payload);
  }

  /** In the items of a cart with distinct ids, only entry `i`'s item names
      its product, and every item carries a readable quantity. */
  lemma CartItemsRefer(cart: seq<CartItem>, i: nat)
    requires DistinctIds(cart) && i < |cart|
    ensures var items := ItemValues(PayloadItems(cart));
      && (forall j :: 0 <= j < |items| ==> (Refers(items[j], cart[i].id) <==> j == i))
      && QuantitiesReadable(items, cart[i].id)
      && QuantityOf(items[i]) == cart[i].quantity as real
  {
    var payloadItems := PayloadItems(cart);
    var items := ItemValues(payloadItems);
    var k := cart[i].id;
    forall j | 0 <= j < |items|
      ensures Refers(items[j], k) <==> j == i
      ensures SqlNumber(Field(items[j], "cantidad")).Some?
    {
      var item := payloadItems[j];
      assert items[j] == ItemValue(item);
      assert item.id == cart[j].id;
      assert j != i ==> cart[j].id != k;
      ItemRefers(item, k);
    }
    ItemRefers(payloadItems[i], k);
  }

  /** The items of a cart with distinct ids order of each entry's product
      exactly that entry's quantity. */
  lemma CartQuantityFor(cart: seq<CartItem>, i: nat)
    requires DistinctIds(cart) && i < |cart|
    ensures QuantitiesReadable(ItemValues(PayloadItems(cart)), cart[i].id)
    ensures QuantityFor(ItemValues(PayloadItems(cart)), cart[i].id) == cart[i].quantity as real
  {
    var items := ItemValues(PayloadItems(cart));
    CartItemsRefer(cart, i);
    QuantityForOne(items, cart[i].id, i);
  }

  /** Selling a well-formed cart lowers the stock of each product in it by
      exactly that entry's quantity, with nothing to stop it going below zero. */
  lemma CheckoutStock(cart: seq<CartItem>, paymentId: Option<int>, customerId: string,
                      products: map<int, Store.Product>, i: nat, s: real)
    requires WellFormed(cart) && i < |cart|
    requires CheckoutRequest(cart, paymentId, customerId).Send?
    requires cart[i].id in products && SqlNumber(products[cart[i].id].stock) == Some(s)
    ensures var items := SaleItems(SaleBody(CheckoutRequest(cart, paymentId, customerId).payload));
      SqlNumber(ApplySale(products, items)[cart[i].id].stock) == Some(s - cart[i].quantity as real)
  {
    var items := ItemValues(PayloadItems(cart));
    CheckoutItems(cart, paymentId, customerId);
    CartQuantityFor(cart, i);
    ApplySaleStock(products, items, cart[i].id, s);
  }
}
