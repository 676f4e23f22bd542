/** The cart panel: the checkout guard, the quantity buttons of each line
    and the checkout handler with its processing flag. */
module ShoppingCart {
  import opened Common
  import opened Marketplace

  /** Checkout is offered when the total is positive and covered. */
  predicate CanCheckout(cart: seq<CartLine>, balance: int) {
    CartTotal(cart) > 0 && CartTotal(cart) <= balance
  }

  predicate CheckoutDisabled(cart: seq<CartLine>, balance: int, processingOrder: bool) {
    !CanCheckout(cart, balance) || processingOrder
  }

  /** The minus button of a line is disabled at quantity one or below. */
  predicate MinusDisabled(line: CartLine) {
    line.quantity <= 1
  }

  /** The carts the minus and plus buttons of line `k` produce. */
  function OnMinus(cart: seq<CartLine>, k: int): seq<CartLine>
    requires 0 <= k < |cart|
  {
    UpdatedQuantity(cart, cart[k].product.id, cart[k].quantity - 1)
  }

  function OnPlus(cart: seq<CartLine>, k: int): seq<CartLine>
    requires 0 <= k < |cart|
  {
    UpdatedQuantity(cart, cart[k].product.id, cart[k].quantity + 1)
  }

  function OnRemove(cart: seq<CartLine>, k: int): seq<CartLine>
    requires 0 <= k < |cart|
  {
    RemovedFromCart(cart, cart[k].product.id)
  }

  predicate PositivePrices(cart: seq<CartLine>) {
    forall i :: 0 <= i < |cart| ==> cart[i].product.tokenPrice > 0
  }

  /** An offered checkout always succeeds; for a well-formed cart of priced
      products the converse holds as well, so the button is enabled exactly
      when redemption would go through. */
  lemma CheckoutGuardMatchesRedeem(s: LedgerState, orderId: string)
    ensures CanCheckout(s.cart, s.balance) ==> Redeem(s, orderId).0.Ok?
    ensures WellFormedCart(s.cart) && PositivePrices(s.cart) ==>
              (Redeem(s, orderId).0.Ok? <==> CanCheckout(s.cart, s.balance))
  {
    if WellFormedCart(s.cart) && PositivePrices(s.cart) {
      CartTotalNonNegative(s.cart);
      if s.cart != [] {
        assert s.cart[0].product.tokenPrice != 0;
      }
    }
  }

  /** The checkout button is disabled while an order is processing, and a
      click on an enabled button always redeems successfully. */
  lemma CheckoutButtonGuards(s: LedgerState, processingOrder: bool, orderId: string)
    ensures processingOrder ==> CheckoutDisabled(s.cart, s.balance, processingOrder)
    ensures !CheckoutDisabled(s.cart, s.balance, processingOrder) ==> Redeem(s, orderId).0.Ok?
  {
    CheckoutGuardMatchesRedeem(s, orderId);
  }

  /** An enabled minus button lowers that line by one and keeps the line;
      the cart stays well formed. */
  lemma MinusKeepsLine(cart: seq<CartLine>, k: int)
    requires WellFormedCart(cart) && 0 <= k < |cart| && !MinusDisabled(cart[k])
    ensures OnMinus(cart, k) == cart[k := cart[k].(quantity := cart[k].quantity - 1)]
    ensures WellFormedCart(OnMinus(cart, k))
  {
    var id, q := cart[k].product.id, cart[k].quantity - 1;
    UpdateQuantitySetsLine(cart, id, q, k);
    UpdateKeepsWellFormed(cart, id, q);
  }

  /** An enabled minus button lowers the total by the line's price. */
  lemma MinusLowersTotal(cart: seq<CartLine>, k: int)
    requires WellFormedCart(cart) && 0 <= k < |cart| && !MinusDisabled(cart[k])
    ensures CartTotal(OnMinus(cart, k)) == CartTotal(cart) - cart[k].product.tokenPrice
  {
    MinusKeepsLine(cart, k);
    var line := cart[k].(quantity := cart[k].quantity - 1);
    CartTotalUpdate(cart, k, line);
    var price: int, change: int := cart[k].product.tokenPrice, line.quantity - cart[k].quantity;
    assert change == -1;
    assert price * change == -price;
  }

  /** The plus button raises that line by one; the total rises by its price. */
  lemma PlusRaisesLine(cart: seq<CartLine>, k: int)
    requires WellFormedCart(cart) && 0 <= k < |cart|
    ensures OnPlus(cart, k) == cart[k := cart[k].(quantity := cart[k].quantity + 1)]
    ensures WellFormedCart(OnPlus(cart, k))
    ensures CartTotal(OnPlus(cart, k)) == CartTotal(cart) + cart[k].product.tokenPrice
  {
    var id, q := cart[k].product.id, cart[k].quantity + 1;
    var line := cart[k].(quantity := q);
    assert OnPlus(cart, k) == UpdatedQuantity(cart, id, q);
    UpdateQuantitySetsLine(cart, id, q, k);
    UpdateKeepsWellFormed(cart, id, q);
    CartTotalUpdate(cart, k, line);
    assert cart[k].product.tokenPrice * (line.quantity - cart[k].quantity) == cart[k].product.tokenPrice;
  }

  /** Plus after an enabled minus, on the same line, restores the cart. */
  lemma MinusThenPlus(cart: seq<CartLine>, k: int)
    requires WellFormedCart(cart) && 0 <= k < |cart| && !MinusDisabled(cart[k])
    ensures OnPlus(OnMinus(cart, k), k) == cart
  {
    MinusKeepsLine(cart, k);
    PlusRaisesLine(OnMinus(cart, k), k);
  }

  /** The trash button deletes that line and only that line. */
  lemma RemoveDeletesOnlyThatLine(cart: seq<CartLine>, k: int)
    requires WellFormedCart(cart) && 0 <= k < |cart|
    ensures OnRemove(cart, k) == cart[..k] + cart[k + 1..]
    ensures WellFormedCart(OnRemove(cart, k))
  {
    RemoveDeletesLine(cart, cart[k].product.id);
    RemoveKeepsWellFormed(cart, cart[k].product.id);
  }

  /** The panel's own state: the processing flag and whether it has asked to
      be closed. */
  class CartPanel {
    var processingOrder: bool
    var closed: bool

    constructor ()
      ensures !processingOrder && !closed
    {
      processingOrder, closed := false, false;
    }

    /** Redeems the cart; the panel closes only on success, and the flag is
        cleared whatever the outcome. */
    method HandleCheckout(ledger: Ledger, orderId: string) returns (result: Result<Order, RedeemError>)
      modifies this, ledger
      ensures (result, ledger.State()) == Redeem(old(ledger.State()), orderId)
      ensures ledger.nftCount == old(ledger.nftCount)
      ensures !processingOrder
      ensures closed == (old(closed) || result.Ok?)
    {
      processingOrder := true;
      result := ledger.RedeemCart(orderId);
      if result.Ok? {
        closed := true;
      }
      processingOrder := false;
    }
  }
}
