/*
 * The point-of-sale screen's state: the cart, the chosen payment method,
 * the customer picked in the selector, and the totals on display. Every
 * handler changes that state exactly as the functions of module Cart say,
 * and redraws the totals after every change.
 */
module Pos {
  import opened Wrappers
  import opened Cart

  /** The customer the selector is reset to after a sale. */
  const DefaultCustomer := "1"

  class Terminal {
    var cart: seq<CartItem>
    var selectedPaymentMethod: Option<string>
    var selectedPaymentId: Option<int>
    /** `customerSelect.value` */
    var customerId: string
    /** The subtotal, tax and total last drawn by `updateSummary`. */
    var shown: Totals

    /** The screen's invariant: the cart is well formed and the totals on
        display are the cart's. */
    ghost predicate Valid()
      reads this
    {
      WellFormed(cart) && shown == Summary(cart)
    }

    /** The page as loaded: an empty cart, no payment chosen and zero
        totals. The selector shows whichever customer the page listed first
        (customers come sorted by name and none is marked selected), which
        `initialCustomer` stands for. */
    constructor (initialCustomer: string)
      ensures Valid()
      ensures cart == [] && selectedPaymentMethod == None && selectedPaymentId == None
      ensures customerId == initialCustomer && shown == Totals(0.0, 0.0, 0.0)
    {
      cart := [];
      selectedPaymentMethod := None;
      selectedPaymentId := None;
      customerId := initialCustomer;
      shown := Totals(0.0, 0.0, 0.0);
    }

    /** `updateSummary`: draw the cart's subtotal, 16% tax and total. */
    method UpdateSummary()
      modifies this
      ensures shown == Summary(cart)
      ensures shown.total == shown.subtotal * 1.16
      ensures cart == old(cart) && selectedPaymentMethod == old(selectedPaymentMethod)
      ensures selectedPaymentId == old(selectedPaymentId) && customerId == old(customerId)
    {
      var subtotal := Subtotal(cart);
      var tax := subtotal * TaxRate;
      shown := Totals(subtotal, tax, subtotal + tax);
    }

    /** `addToCart`: one more unit of a product already in the cart while its
        quantity is below the stock just reported, else "Stock insuficiente";
        a product not yet in the cart is appended with quantity 1. */
    method AddToCart(p: Product) returns (refused: bool)
      requires Valid()
      modifies this
      ensures Valid()
      ensures cart == Added(old(cart), p)
      ensures refused == AddRefused(old(cart), p)
      ensures refused ==> cart == old(cart)
      ensures !refused ==> |cart| == |old(cart)| || cart == old(cart) + [NewEntry(p)]
      ensures selectedPaymentMethod == old(selectedPaymentMethod) && selectedPaymentId == old(selectedPaymentId)
      ensures customerId == old(customerId)
    {
      var found := Find(cart, p.id);
      if found.Some? {
        var i := found.value;
        if cart[i].quantity < p.stock {
          cart := cart[i := cart[i].(quantity := cart[i].quantity + 1)];
        } else {
          refused := true;
          return;
        }
      } else {
        cart := cart + [NewEntry(p)];
      }
      refused := false;
      AddKeepsWellFormed(old(cart), p);
      UpdateSummary();
    }

    /** `removeFromCart`: drop every entry with that id and redraw. */
    method RemoveFromCart(productId: int)
      requires Valid()
      modifies this
      ensures Valid()
      ensures cart == Removed(old(cart), productId)
      ensures forall e :: e in cart <==> e in old(cart) && e.id != productId
      ensures selectedPaymentMethod == old(selectedPaymentMethod) && selectedPaymentId == old(selectedPaymentId)
      ensures customerId == old(customerId)
    {
      RemoveKeepsWellFormed(cart, productId);
      RemovedMembers(cart, productId);
      cart := Removed(cart, productId);
      UpdateSummary();
    }

    /** `updateQuantity`: nothing for an unknown id; a new quantity of 0 or
        less removes the entry; a positive one up to the stock stored in the
        entry is set; above it, "Stock insuficiente". */
    method UpdateQuantity(productId: int, delta: int) returns (refused: bool)
      requires Valid()
      modifies this
      ensures Valid()
      ensures cart == QuantityUpdated(old(cart), productId, delta)
      ensures refused == UpdateRefused(old(cart), productId, delta)
      ensures refused ==> cart == old(cart)
      ensures selectedPaymentMethod == old(selectedPaymentMethod) && selectedPaymentId == old(selectedPaymentId)
      ensures customerId == old(customerId)
    {
      refused := false;
      var found := Find(cart, productId);
      if found.None? {
        return;
      }
      var i := found.value;
      var newQuantity := cart[i].quantity + delta;
      if newQuantity <= 0 {
        RemoveFromCart(productId);
      } else if newQuantity <= cart[i].stock {
        UpdateKeepsWellFormed(cart, productId, delta);
        cart := cart[i := cart[i].(quantity := newQuantity)];
        UpdateSummary();
      } else {
        refused := true;
      }
    }

    /** `selectPayment`: remember the method and its payment id. */
    method SelectPayment(paymentMethod: string, paymentId: Option<int>)
      requires Valid()
      modifies this
      ensures Valid()
      ensures selectedPaymentMethod == Some(paymentMethod) && selectedPaymentId == paymentId
      ensures cart == old(cart) && customerId == old(customerId) && shown == old(shown)
    {
      selectedPaymentMethod := Some(paymentMethod);
      selectedPaymentId := paymentId;
    }

    /** `selectCustomer`: put a customer in the selector. */
    method SelectCustomer(id: string)
      requires Valid()
      modifies this
      ensures Valid()
      ensures customerId == id
      ensures cart == old(cart) && shown == old(shown)
      ensures selectedPaymentMethod == old(selectedPaymentMethod) && selectedPaymentId == old(selectedPaymentId)
    {
      customerId := id;
    }

    /** `clearCart`: with a non-empty cart and the user's confirmation, empty
        the cart and forget the payment method (the customer stays);
        otherwise nothing changes. */
    method ClearCart(confirmed: bool) returns (cleared: bool)
      requires Valid()
      modifies this
      ensures Valid()
      ensures cleared <==> old(cart) != [] && confirmed
      ensures cleared ==> cart == [] && selectedPaymentMethod == None && selectedPaymentId == None
      ensures cleared ==> shown == Totals(0.0, 0.0, 0.0)
      ensures !cleared ==> cart == old(cart) && selectedPaymentMethod == old(selectedPaymentMethod)
      ensures !cleared ==> selectedPaymentId == old(selectedPaymentId) && shown == old(shown)
      ensures customerId == old(customerId)
    {
      cleared := false;
      if cart == [] {
        return;
      }
      if confirmed {
        cart := [];
        selectedPaymentMethod := None;
        selectedPaymentId := None;
        UpdateSummary();
        cleared := true;
      }
    }

    /** `processCheckout`: refuse an empty cart, then a missing payment
        method; otherwise send the sale built from the cart, and if the
        server reports success start over with an empty cart, no payment
        method and the default customer. `accepted` is the `success` of the
        server's answer (false also when the request itself fails). */
    method ProcessCheckout(accepted: bool) returns (request: Checkout)
      requires Valid()
      modifies this
      ensures Valid()
      ensures request == CheckoutRequest(old(cart), old(selectedPaymentId), old(customerId))
      ensures request.Send? && accepted ==>
        && cart == [] && selectedPaymentMethod == None && selectedPaymentId == None
        && customerId == DefaultCustomer && shown == Totals(0.0, 0.0, 0.0)
      ensures !(request.Send? && accepted) ==>
        && cart == old(cart) && selectedPaymentMethod == old(selectedPaymentMethod)
        && selectedPaymentId == old(selectedPaymentId) && customerId == old(customerId) && shown == old(shown)
    {
      if cart == [] {
        return Refused(EmptyCart);
      }
      if !PaymentChosen(selectedPaymentId) {
        return Refused(NoPaymentSelected);
      }
      var subtotal := Subtotal(cart);
      var impuesto := subtotal * TaxRate;
      var total := subtotal + impuesto;
      request := Send(SalePayload(customerId, 1, selectedPaymentId.value, subtotal, impuesto, total, PayloadItems(cart)));
      if accepted {
        cart := [];
        selectedPaymentMethod := None;
        selectedPaymentId := None;
        customerId := DefaultCustomer;
        UpdateSummary();
      }
    }
  }
}
