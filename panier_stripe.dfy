/** The card-payment cart page: index-based quantity changes and removals
    on the saved cart, the checkout guard and the payment handler that posts
    the order and clears the saved cart. The payment provider and the HTTP
    calls are parameters: their outcomes are given, not performed. */
module StripeCheckout {
  import opened Common
  import opened Seqs
  import opened ClientCart

  /** What the payment confirmation returns. */
  datatype PaymentOutcome = PaymentError | Intent(status: string, id: string)

  /** The customer fields read from the checkout form. */
  datatype CustomerForm = CustomerForm(name: string, email: string, phone: string, address: string)

  /** The payload `handlePayment` posts: the bare item sum as total, with
      neither subtotal nor shipping cost. */
  function PaymentPayload(items: seq<CartEntry>, f: CustomerForm, intentId: string): (p: OrderPayload)
    ensures p.items == items && p.totalAmount == Total(items)
    ensures p.subtotal.None? && p.shippingCost.None?
    ensures p.paymentMethod == "card" && p.paymentId == Some(intentId)
  {
    OrderPayload(Some(f.name), Some(f.email), Some(f.phone), Some(f.address), items,
                 None, None, Total(items), "card", Some(intentId))
  }

  /** The order a card payment creates is stored with no shipping cost and
      a subtotal of 0: the summary's "free delivery" is what the server keeps. */
  lemma PaymentOrderHasNoShipping(items: seq<CartEntry>, f: CustomerForm, intentId: string, id: nat, now: int)
    requires Orders.Accepts(ToOrderRequest(PaymentPayload(items, f, intentId)))
    ensures Orders.NewOrder(ToOrderRequest(PaymentPayload(items, f, intentId)), id, now).shippingCost == 0
    ensures Orders.NewOrder(ToOrderRequest(PaymentPayload(items, f, intentId)), id, now).totalAmount == Total(items)
  {
    MissingAmountsDefaultToZero(PaymentPayload(items, f, intentId), id, now);
  }

  class CheckoutPage {
    /** The `cart-bois` storage key's value; None when absent. */
    var stored: Option<seq<CartEntry>>
    /** Whether the payment provider and its form were initialised. */
    var paymentReady: bool

    constructor(stored: Option<seq<CartEntry>>)
      ensures this.stored == stored && !paymentReady
    {
      this.stored := stored;
      paymentReady := false;
    }

    /** `JSON.parse(localStorage.getItem('cart-bois') || '[]')`. */
    function Items(): seq<CartEntry>
      reads this
    {
      stored.GetOr([])
    }

    /** `updateCartCount`: the sum of the quantities. */
    function Count(): (n: int)
      reads this
      ensures Items() == [] ==> n == 0
    {
      ItemCount(Items())
    }

    /** `changeQuantity(index, change)`: at a valid index the quantity
        becomes max(1, quantity + change); elsewhere nothing happens. */
    method ChangeQuantity(index: int, change: int)
      modifies this`stored
      ensures var s := old(Items());
              if 0 <= index < |s|
              then stored == Some(s[index := s[index].(quantity := Max(1, s[index].quantity + change))])
              else stored == old(stored)
    {
      var s := Items();
      if 0 <= index < |s| {
        s := s[index := s[index].(quantity := Max(1, s[index].quantity + change))];
        stored := Some(s);
      }
    }

    /** `removeFromCart(index)`, once the confirmation dialog has answered. */
    method RemoveFromCart(index: int, confirmed: bool)
      modifies this`stored
      ensures confirmed ==> stored == Some(SpliceOne(old(Items()), index))
      ensures !confirmed ==> stored == old(stored)
    {
      if confirmed {
        stored := Some(SpliceOne(Items(), index));
      }
    }

    /** `proceedToCheckout`: the amount the payment is initialised with, or
        nothing for an empty cart. `initialised` is whether the provider set-up succeeded; a form set up
        by an earlier call stays usable when a later set-up fails. */
    method ProceedToCheckout(initialised: bool) returns (amount: Option<int>)
      modifies this`paymentReady
      ensures Items() == [] ==> amount.None? && paymentReady == old(paymentReady)
      ensures Items() != [] ==> amount == Some(Total(Items())) && paymentReady == (old(paymentReady) || initialised)
    {
      var s := Items();
      if s == [] {
        return None;
      }
      amount := Some(Total(s));
      paymentReady := paymentReady || initialised;
    }

    /** `handlePayment`: the order posted, if any; the saved cart is removed
        only when the order response is OK. */
    method HandlePayment(f: CustomerForm, outcome: PaymentOutcome, responseOk: bool)
      returns (posted: Option<OrderPayload>)
      modifies this`stored
      ensures posted.Some? <==> paymentReady && outcome.Intent? && outcome.status == "succeeded"
      ensures posted.Some? ==> posted.value == PaymentPayload(old(Items()), f, outcome.id)
      ensures stored == if posted.Some? && responseOk then None else old(stored)
    {
      if !paymentReady {
        return None;
      }
      match outcome {
        case PaymentError =>
          return None;
        case Intent(status, id) =>
          if status != "succeeded" {
            return None;
          }
          posted := Some(PaymentPayload(Items(), f, id));
          if responseOk {
            stored := None;
          }
      }
    }
  }

  /** A removal at a valid index takes exactly that entry's quantity off the count. */
  lemma RemoveAtCount(s: seq<CartEntry>, index: int)
    requires 0 <= index < |s|
    ensures ItemCount(SpliceOne(s, index)) == ItemCount(s) - s[index].quantity
  {
    var f := (e: CartEntry) => e.quantity;
    assert s == s[..index] + [s[index]] + s[index + 1..];
    SumAppend(s[..index] + [s[index]], s[index + 1..], f);
    SumAppend(s[..index], [s[index]], f);
    SumAppend(s[..index], s[index + 1..], f);
  }
}
