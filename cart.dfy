/*
 * The point-of-sale cart as values: its entries, what adding, removing and
 * re-quantifying an entry does to them, the running totals, and the request
 * a checkout sends. The terminal in pos.dfy keeps a cart and is proved to
 * change it exactly as these functions say.
 */
module Cart {
  import opened Wrappers

  /** A product as the search hands it to the cart, with the stock the
      database reported at that moment. */
  datatype Product = Product(id: int, sku: string, name: string, price: real, stock: int)

  /** A cart entry: the product as it was when first added (its stock
      included) and the quantity chosen since. */
  datatype CartItem = CartItem(id: int, sku: string, name: string, price: real, stock: int, quantity: int)

  /** The entry a product not yet in the cart becomes. */
  function NewEntry(p: Product): CartItem
  {
    CartItem(p.id, p.sku, p.name, p.price, p.stock, 1)
  }

  /** `cart.find(item => item.id === id)`: the position of the first entry
      with that id. */
  function Find(cart: seq<CartItem>, id: int): (r: Option<nat>)
    ensures r.Some? ==> r.value < |cart| && cart[r.value].id == id
    ensures r.Some? ==> forall j :: 0 <= j < r.value ==> cart[j].id != id
    ensures r.None? ==> forall j :: 0 <= j < |cart| ==> cart[j].id != id
  {
    if cart == [] then None
    else if cart[0].id == id then Some(0)
    else match Find(cart[1..], id)
      case Some(i) => Some(i + 1)
      case None => None
  }

  /** No two entries share an id. */
  predicate DistinctIds(cart: seq<CartItem>)
  {
    forall i, j :: 0 <= i < j < |cart| ==> cart[i].id != cart[j].id
  }

  /** The cart's invariant: distinct ids, and no entry with a quantity below 1. */
  predicate WellFormed(cart: seq<CartItem>)
  {
    DistinctIds(cart) && forall i :: 0 <= i < |cart| ==> cart[i].quantity >= 1
  }

  /** `addToCart`: an entry already present goes up by one if its quantity is
      below the stock just supplied, and otherwise stays; a new product is
      appended with quantity 1 whatever its stock. */
  function Added(cart: seq<CartItem>, p: Product): (r: seq<CartItem>)
    ensures r == cart <==> AddRefused(cart, p)
    ensures |r| == |cart| || r == cart + [NewEntry(p)]
    ensures forall j :: 0 <= j < |cart| && cart[j].id != p.id ==> r[j] == cart[j]
  {
    match Find(cart, p.id)
    case Some(i) =>
      if cart[i].quantity < p.stock then cart[i := cart[i].(quantity := cart[i].quantity + 1)] else cart
    case None => cart + [NewEntry(p)]
  }

  /** The add is refused ("Stock insuficiente"): the product is present and
      its quantity has reached the stock just supplied. */
  predicate AddRefused(cart: seq<CartItem>, p: Product)
  {
    match Find(cart, p.id)
    case Some(i) => cart[i].quantity >= p.stock
    case None => false
  }

  /** `cart.filter(item => item.id !== id)` */
  function Removed(cart: seq<CartItem>, id: int): (r: seq<CartItem>)
    ensures |r| <= |cart|
  {
    if cart == [] then []
    else if cart[0].id == id then Removed(cart[1..], id)
    else [cart[0]] + Removed(cart[1..], id)
  }

  /** `updateQuantity`: an unknown id changes nothing; a new quantity of 0 or
      less removes the entry; one within the stock stored in the entry is
      set; anything more is refused. */
  function QuantityUpdated(cart: seq<CartItem>, id: int, delta: int): (r: seq<CartItem>)
    ensures |r| <= |cart|
    ensures UpdateRefused(cart, id, delta) ==> r == cart
    ensures forall e :: e in r && e.id != id ==> e in cart
  {
    match Find(cart, id)
    case None => cart
    case Some(i) =>
      var n := cart[i].quantity + delta;
      if n <= 0 then RemovedMembers(cart, id); Removed(cart, id)
      else if n <= cart[i].stock then cart[i := cart[i].(quantity := n)]
      else cart
  }

  /** The update is refused ("Stock insuficiente"): the entry exists and the
      new quantity is positive but above its stored stock. */
  predicate UpdateRefused(cart: seq<CartItem>, id: int, delta: int)
  {
    match Find(cart, id)
    case None => false
    case Some(i) => 0 < cart[i].quantity + delta && cart[i].stock < cart[i].quantity + delta
  }

  /** The operations of the cart's buttons. */
  datatype CartOp = Add(product: Product) | Remove(productId: int) | Update(updateId: int, delta: int)

  /** The cart after one operation. */
  function Step(cart: seq<CartItem>, op: CartOp): seq<CartItem>
  {
    match op
    case Add(p) => Added(cart, p)
    case Remove(id) => Removed(cart, id)
    case Update(id, delta) => QuantityUpdated(cart, id, delta)
  }

  /** The cart after a sequence of operations, in order. */
  function Run(cart: seq<CartItem>, ops: seq<CartOp>): seq<CartItem>
    decreases |ops|
  {
    if ops == [] then cart else Run(Step(cart, ops[0]), ops[1..])
  }

  // ---------------------------------------------------------------------
  // Totals (updateSummary, and the same computation in processCheckout)
  // ---------------------------------------------------------------------

  /** The tax rate, 16%. */
  const TaxRate: real := 0.16

  function LineTotal(item: CartItem): real
  {
    item.price * item.quantity as real
  }

  /** `cart.reduce((sum, item) => sum + item.price * item.quantity, 0)` */
  function Subtotal(cart: seq<CartItem>): (r: real)
    ensures (forall j :: 0 <= j < |cart| ==> cart[j].price >= 0.0 && cart[j].quantity >= 0) ==> r >= 0.0
  {
    if cart == [] then 0.0 else Subtotal(cart[..|cart| - 1]) + LineTotal(cart[|cart| - 1])
  }

  datatype Totals = Totals(subtotal: real, tax: real, total: real)

  /** subtotal, tax at 16% of it, and their sum: a total of 116% of the
      subtotal, and zeros for an empty cart. */
  function Summary(cart: seq<CartItem>): (t: Totals)
    ensures t.subtotal == Subtotal(cart)
    ensures t.tax == t.subtotal * 0.16
    ensures t.total == t.subtotal * 1.16
    ensures cart == [] ==> t == Totals(0.0, 0.0, 0.0)
  {
    var subtotal := Subtotal(cart);
    var tax := subtotal * TaxRate;
    Totals(subtotal, tax, subtotal + tax)
  }

  // ---------------------------------------------------------------------
  // Checkout (the guards and payload of processCheckout)
  // ---------------------------------------------------------------------

  /** One element of the request's `items`. */
  datatype SaleItem = SaleItem(id: int, cantidad: int, precio: real)

  /** The body `processCheckout` posts to `process_sale`. */
  datatype SalePayload = SalePayload(
    clienteId: string,
    empleadoId: int,
    metodoPagoId: int,
    subtotal: real,
    impuesto: real,
    total: real,
    items: seq<SaleItem>)

  datatype Refusal = EmptyCart | NoPaymentSelected

  datatype Checkout = Refused(reason: Refusal) | Send(payload: SalePayload)

  /** `!selectedPaymentId` is false: a payment id is chosen and is not 0. */
  predicate PaymentChosen(paymentId: Option<int>)
  {
    paymentId.Some? && paymentId.value != 0
  }

  /** `cart.map(item => ({id, cantidad: item.quantity, precio: item.price}))` */
  function PayloadItems(cart: seq<CartItem>): (items: seq<SaleItem>)
    ensures |items| == |cart|
    ensures forall k :: 0 <= k < |cart| ==>
      items[k].id == cart[k].id && items[k].cantidad == cart[k].quantity && items[k].precio == cart[k].price
  {
    if cart == [] then [] else [SaleItem(cart[0].id, cart[0].quantity, cart[0].price)] + PayloadItems(cart[1..])
  }

  /** What `processCheckout` does before the request leaves: refuse an empty
      cart, then a missing payment method; otherwise build the sale with
      employee 1, the selected customer and payment, the cart's totals and
      one item per entry. */
  function CheckoutRequest(cart: seq<CartItem>, paymentId: Option<int>, customerId: string): (c: Checkout)
    ensures cart == [] <==> c == Refused(EmptyCart)
    ensures c == Refused(NoPaymentSelected) <==> cart != [] && !PaymentChosen(paymentId)
    ensures c.Send? <==> cart != [] && PaymentChosen(paymentId)
    ensures c.Send? ==>
      && c.payload.empleadoId == 1
      && c.payload.clienteId == customerId
      && c.payload.metodoPagoId == paymentId.value
      && c.payload.subtotal == Subtotal(cart)
      && c.payload.impuesto == Subtotal(cart) * TaxRate
      && c.payload.total == c.payload.subtotal + c.payload.impuesto
      && c.payload.items == PayloadItems(cart)
  {
    if cart == [] then Refused(EmptyCart)
    else if !PaymentChosen(paymentId) then Refused(NoPaymentSelected)
    else
      var totals := Summary(cart);
      Send(SalePayload(customerId, 1, paymentId.value, totals.subtotal, totals.tax, totals.total, PayloadItems(cart)))
  }

  // ---------------------------------------------------------------------
  // Properties
  // ---------------------------------------------------------------------

  /** In a cart with distinct ids, an entry is found at its own position. */
  lemma FindDistinct(cart: seq<CartItem>, i: nat)
    requires DistinctIds(cart) && i < |cart|
    ensures Find(cart, cart[i].id) == Some(i)
  {
  }

  /** Adding a product that is not in the cart appends exactly one entry,
      with quantity 1 and the product's data, and leaves the others alone. */
  lemma AddNew(cart: seq<CartItem>, p: Product)
    requires forall j :: 0 <= j < |cart| ==> cart[j].id != p.id
    ensures Added(cart, p) == cart + [CartItem(p.id, p.sku, p.name, p.price, p.stock, 1)]
    ensures !AddRefused(cart, p)
  {
  }

  /** Adding a product already in the cart raises that entry's quantity by
      one exactly when it is below the stock just supplied, and otherwise
      leaves the cart as it was; the entry keeps the stock it was added with. */
  lemma AddExisting(cart: seq<CartItem>, p: Product, i: nat)
    requires DistinctIds(cart) && i < |cart| && cart[i].id == p.id
    ensures cart[i].quantity < p.stock ==>
      && |Added(cart, p)| == |cart|
      && Added(cart, p)[i] == cart[i].(quantity := cart[i].quantity + 1)
      && (forall j :: 0 <= j < |cart| && j != i ==> Added(cart, p)[j] == cart[j])
    ensures cart[i].quantity >= p.stock ==> Added(cart, p) == cart && AddRefused(cart, p)
  {
    FindDistinct(cart, i);
  }

  /** Changing the quantity of entry `i` by `delta`: a result of 0 or less
      takes the entry out and keeps the rest in order; a result within the
      entry's stored stock replaces its quantity and nothing else; a larger
      one is refused and changes nothing. An id not in the cart changes
      nothing either. */
  lemma UpdateCases(cart: seq<CartItem>, i: nat, delta: int)
    requires DistinctIds(cart) && i < |cart|
    ensures var n := cart[i].quantity + delta;
      && (n <= 0 ==> QuantityUpdated(cart, cart[i].id, delta) == cart[..i] + cart[i + 1..])
      && (0 < n <= cart[i].stock ==> QuantityUpdated(cart, cart[i].id, delta) == cart[i := cart[i].(quantity := n)])
      && (0 < n && cart[i].stock < n ==> QuantityUpdated(cart, cart[i].id, delta) == cart && UpdateRefused(cart, cart[i].id, delta))
      && (UpdateRefused(cart, cart[i].id, delta) <==> 0 < n && cart[i].stock < n)
  {
    FindDistinct(cart, i);
    if cart[i].quantity + delta <= 0 {
      RemovedSplice(cart, i);
    }
  }

  /** An id that is in no entry is ignored by `updateQuantity`. */
  lemma UpdateUnknown(cart: seq<CartItem>, id: int, delta: int)
    requires forall j :: 0 <= j < |cart| ==> cart[j].id != id
    ensures QuantityUpdated(cart, id, delta) == cart && !UpdateRefused(cart, id, delta)
  {
    assert Find(cart, id).None?;
  }

  /** A product with no stock left is still added when it is not in the
      cart yet: only increments are checked against stock. */
  lemma AddIgnoresStockOfNewEntry(cart: seq<CartItem>, p: Product)
    requires forall j :: 0 <= j < |cart| ==> cart[j].id != p.id
    requires p.stock <= 0
    ensures Added(cart, p)[|cart|].quantity > p.stock
  {
  }

  /** Removing an id from a cart with distinct ids takes out exactly its
      entry and keeps the rest in order. */
  lemma {:induction false} RemovedSplice(cart: seq<CartItem>, i: nat)
    requires DistinctIds(cart) && i < |cart|
    ensures Removed(cart, cart[i].id) == cart[..i] + cart[i + 1..]
  {
    var id := cart[i].id;
    var rest := cart[1..];
    assert DistinctIds(rest);
    if i == 0 {
      assert Removed(cart, id) == Removed(rest, id);
      RemovedAbsent(rest, id);
      assert cart[..0] + cart[1..] == rest;
    } else {
      assert cart[0].id != id;
      assert Removed(cart, id) == [cart[0]] + Removed(rest, id);
      assert rest[i - 1].id == id;
      RemovedSplice(rest, i - 1);
      assert cart[..i] == [cart[0]] + rest[..i - 1];
      assert cart[i + 1..] == rest[i..];
    }
  }

  /** Removing keeps exactly the entries with another id. */
  lemma {:induction false} RemovedMembers(cart: seq<CartItem>, id: int)
    ensures forall e :: e in Removed(cart, id) <==> e in cart && e.id != id
  {
    if cart != [] {
      RemovedMembers(cart[1..], id);
      assert cart == [cart[0]] + cart[1..];
    }
  }

  /** Removing an id that is not in the cart changes nothing. */
  lemma {:induction false} RemovedAbsent(cart: seq<CartItem>, id: int)
    requires forall j :: 0 <= j < |cart| ==> cart[j].id != id
    ensures Removed(cart, id) == cart
  {
    if cart != [] {
      RemovedAbsent(cart[1..], id);
    }
  }

  /** Removing is idempotent. */
  lemma RemoveIdempotent(cart: seq<CartItem>, id: int)
    ensures Removed(Removed(cart, id), id) == Removed(cart, id)
  {
    var r := Removed(cart, id);
    RemovedMembers(cart, id);
    forall j | 0 <= j < |r| ensures r[j].id != id {
      assert r[j] in r;
    }
    RemovedAbsent(r, id);
  }

  /** Removing keeps ids distinct and quantities at least 1. */
  lemma {:induction false} RemoveKeepsWellFormed(cart: seq<CartItem>, id: int)
    requires WellFormed(cart)
    ensures WellFormed(Removed(cart, id))
  {
    if cart != [] {
      RemoveKeepsWellFormed(cart[1..], id);
      if cart[0].id != id {
        var rest := Removed(cart[1..], id);
        RemovedMembers(cart[1..], id);
        forall j | 0 <= j < |rest| ensures rest[j].id != cart[0].id {
          assert rest[j] in cart[1..];
        }
        PrependKeepsWellFormed(cart[0], rest);
      }
    }
  }

  /** An entry with quantity at least 1 and an id not already present can go
      in front of a well-formed cart. */
  lemma PrependKeepsWellFormed(e: CartItem, rest: seq<CartItem>)
    requires WellFormed(rest) && e.quantity >= 1
    requires forall j :: 0 <= j < |rest| ==> rest[j].id != e.id
    ensures WellFormed([e] + rest)
  {
    var r := [e] + rest;
    assert forall j :: 0 < j < |r| ==> r[j] == rest[j - 1];
  }

  /** Adding keeps ids distinct and quantities at least 1. */
  lemma AddKeepsWellFormed(cart: seq<CartItem>, p: Product)
    requires WellFormed(cart)
    ensures WellFormed(Added(cart, p))
  {
  }

  /** Changing a quantity keeps ids distinct and quantities at least 1: a
      quantity that would reach 0 removes the entry instead. */
  lemma UpdateKeepsWellFormed(cart: seq<CartItem>, id: int, delta: int)
    requires WellFormed(cart)
    ensures WellFormed(QuantityUpdated(cart, id, delta))
  {
    if Find(cart, id).Some? {
      RemoveKeepsWellFormed(cart, id);
    }
  }

  /** Whatever the buttons do, in whatever order, ids stay distinct and every
      quantity stays at least 1. */
  lemma {:induction false} RunKeepsWellFormed(cart: seq<CartItem>, ops: seq<CartOp>)
    requires WellFormed(cart)
    ensures WellFormed(Run(cart, ops))
    decreases |ops|
  {
    if ops != [] {
      match ops[0] {
        case Add(p) => AddKeepsWellFormed(cart, p);
        case Remove(id) => RemoveKeepsWellFormed(cart, id);
        case Update(id, delta) => UpdateKeepsWellFormed(cart, id, delta);
      }
      RunKeepsWellFormed(Step(cart, ops[0]), ops[1..]);
    }
  }

  /** No operation refreshes the stock, SKU or price an entry was added
      with: whatever entry carries entry `i`'s id afterwards still has them. */
  lemma StepKeepsStoredStock(cart: seq<CartItem>, op: CartOp, i: nat, e: CartItem)
    requires DistinctIds(cart) && i < |cart|
    requires e in Step(cart, op) && e.id == cart[i].id
    ensures e.stock == cart[i].stock && e.sku == cart[i].sku && e.price == cart[i].price
  {
    var r := Step(cart, op);
    if op.Remove? || (op.Update? && r == Removed(cart, op.updateId)) {
      var id := if op.Remove? then op.productId else op.updateId;
      RemovedMembers(cart, id);
      SameIdSameEntry(cart, i, e);
    } else {
      var j :| 0 <= j < |r| && r[j] == e;
      assert |r| == |cart| || (op.Add? && r == cart + [NewEntry(op.product)]);
      if j < |cart| {
        assert r[j] == cart[j] || r[j] == cart[j].(quantity := r[j].quantity);
        SameIdSameEntry(cart, i, cart[j]);
      }
    }
  }

  /** In a cart with distinct ids, the entry carrying entry `i`'s id is entry `i`. */
  lemma SameIdSameEntry(cart: seq<CartItem>, i: nat, e: CartItem)
    requires DistinctIds(cart) && i < |cart|
    requires e in cart && e.id == cart[i].id
    ensures e == cart[i]
  {
  }

  /** The subtotal of two carts laid end to end is the sum of their subtotals. */
  lemma {:induction false} SubtotalAppend(a: seq<CartItem>, b: seq<CartItem>)
    ensures Subtotal(a + b) == Subtotal(a) + Subtotal(b)
  {
    if b != [] {
      SubtotalAppend(a, b[..|b| - 1]);
      assert (a + b)[..|a + b| - 1] == a + b[..|b| - 1];
    } else {
      assert a + b == a;
    }
  }

  /** Replacing one entry changes the subtotal by the difference of the two
      line totals. */
  lemma SubtotalReplace(cart: seq<CartItem>, i: nat, e: CartItem)
    requires i < |cart|
    ensures Subtotal(cart[i := e]) == Subtotal(cart) - LineTotal(cart[i]) + LineTotal(e)
  {
    var front, back := cart[..i], cart[i + 1..];
    SubtotalSplit(front, cart[i], back);
    SubtotalSplit(front, e, back);
    assert cart == front + [cart[i]] + back;
    assert cart[i := e] == front + [e] + back;
  }

  /** An entry between two parts of a cart adds its line total to theirs. */
  lemma SubtotalSplit(front: seq<CartItem>, e: CartItem, back: seq<CartItem>)
    ensures Subtotal(front + [e] + back) == Subtotal(front) + LineTotal(e) + Subtotal(back)
  {
    SubtotalAppend(front + [e], back);
    SubtotalAfterAppend(front, e);
  }

  /** One more unit adds one price to the line total. */
  lemma LineTotalIncrement(e: CartItem)
    ensures LineTotal(e.(quantity := e.quantity + 1)) == LineTotal(e) + e.price
  {
    assert (e.quantity + 1) as real == e.quantity as real + 1.0;
  }

  /** One more unit of entry `i` adds its price to the subtotal. */
  lemma SubtotalIncrement(cart: seq<CartItem>, i: nat)
    requires i < |cart|
    ensures Subtotal(cart[i := cart[i].(quantity := cart[i].quantity + 1)]) == Subtotal(cart) + cart[i].price
  {
    SubtotalReplace(cart, i, cart[i].(quantity := cart[i].quantity + 1));
    LineTotalIncrement(cart[i]);
  }

  /** Appending an entry adds its line total to the subtotal. */
  lemma SubtotalAfterAppend(cart: seq<CartItem>, e: CartItem)
    ensures Subtotal(cart + [e]) == Subtotal(cart) + LineTotal(e)
  {
    assert (cart + [e])[..|cart|] == cart;
  }

  /** Adding a product not in the cart raises the subtotal by the price the
      search reports; adding one that is there raises it by the price stored
      in its entry when accepted, even if the search now reports another,
      and leaves it when refused. */
  lemma SubtotalAfterAdd(cart: seq<CartItem>, p: Product)
    ensures Find(cart, p.id).None? ==> Subtotal(Added(cart, p)) == Subtotal(cart) + p.price
    ensures Find(cart, p.id).Some? ==>
      var i := Find(cart, p.id).value;
      Subtotal(Added(cart, p)) == if cart[i].quantity < p.stock then Subtotal(cart) + cart[i].price else Subtotal(cart)
  {
    var f := Find(cart, p.id);
    if f.None? {
      AddNewSubtotal(cart, p);
    } else if cart[f.value].quantity < p.stock {
      AddIncSubtotal(cart, p, f.value);
    }
  }

  /** Adding a product that is not in the cart adds its price. */
  lemma AddNewSubtotal(cart: seq<CartItem>, p: Product)
    requires Find(cart, p.id).None?
    ensures Subtotal(Added(cart, p)) == Subtotal(cart) + p.price
  {
    assert Added(cart, p) == cart + [NewEntry(p)];
    SubtotalAfterAppend(cart, NewEntry(p));
  }

  /** Adding one more unit of an entry adds the price stored in it. */
  lemma AddIncSubtotal(cart: seq<CartItem>, p: Product, i: nat)
    requires Find(cart, p.id) == Some(i) && cart[i].quantity < p.stock
    ensures Subtotal(Added(cart, p)) == Subtotal(cart) + cart[i].price
  {
    assert Added(cart, p) == cart[i := cart[i].(quantity := cart[i].quantity + 1)];
    SubtotalIncrement(cart, i);
  }

  /** Removing an entry takes its line total off the subtotal. */
  lemma SubtotalAfterRemove(cart: seq<CartItem>, i: nat)
    requires DistinctIds(cart) && i < |cart|
    ensures Subtotal(Removed(cart, cart[i].id)) == Subtotal(cart) - LineTotal(cart[i])
  {
    RemovedSplice(cart, i);
    SubtotalSplice(cart, i);
  }

  /** Leaving entry `i` out takes its line total off the subtotal. */
  lemma SubtotalSplice(cart: seq<CartItem>, i: nat)
    requires i < |cart|
    ensures Subtotal(cart[..i] + cart[i + 1..]) == Subtotal(cart) - LineTotal(cart[i])
  {
    SpliceShape(cart, i);
    SubtotalDrop(cart[..i], cart[i], cart[i + 1..]);
  }

  /** A cart is what comes before entry `i`, the entry, and what comes after. */
  lemma SpliceShape(cart: seq<CartItem>, i: nat)
    requires i < |cart|
    ensures cart == cart[..i] + [cart[i]] + cart[i + 1..]
  {
  }

  /** Leaving an entry out of the middle takes its line total off the subtotal. */
  lemma SubtotalDrop(front: seq<CartItem>, e: CartItem, back: seq<CartItem>)
    ensures Subtotal(front + back) == Subtotal(front + [e] + back) - LineTotal(e)
  {
    SubtotalAppend(front, back);
    SubtotalSplit(front, e, back);
  }

  /** Two units at 50.00 and one at 100.00 make 200.00, 32.00 tax and 232.00 in all. */
  lemma SummaryExample()
    ensures Summary([CartItem(5, "A", "a", 50.0, 10, 2), CartItem(8, "B", "b", 100.0, 10, 1)]) == Totals(200.0, 32.0, 232.0)
  {
    var cart := [CartItem(5, "A", "a", 50.0, 10, 2), CartItem(8, "B", "b", 100.0, 10, 1)];
    assert cart[..1][..0] == [];
    assert Subtotal(cart[..1]) == 100.0;
  }
}
