/** The delivery-cost rule for the wooden creations: below a free-shipping
    threshold of 50 EUR a flat 6.90 EUR is charged, from 50 EUR on delivery is
    free. Amounts are integer cents. */
module ShippingCalculator {
  import opened Seqs
  import opened Text

  const FreeThreshold: int := 5000
  const StandardCost: int := 690
  const FreeCost: int := 0

  /** The message shown beside the cost. */
  datatype ShippingMessage =
    | FreeShipping
    | Remaining(cents: int)   // how much more to spend for free delivery
    | EmptyCart

  datatype ShippingDetails = ShippingDetails(
    shippingCost: int,
    freeShippingThreshold: int,
    message: ShippingMessage,
    subtotal: int,
    total: int)

  /** `calculateShipping(subtotal)`. */
  function CalculateShipping(subtotal: int): (d: ShippingDetails)
    ensures d.subtotal == subtotal
    ensures d.freeShippingThreshold == FreeThreshold
    ensures d.total == d.subtotal + d.shippingCost
    ensures d.shippingCost == FreeCost || d.shippingCost == StandardCost
    ensures subtotal < FreeThreshold <==> d.shippingCost == StandardCost
    ensures subtotal < FreeThreshold ==>
              d.message == Remaining(FreeThreshold - subtotal) && d.message.cents > 0
    ensures subtotal >= FreeThreshold ==> d.message == FreeShipping
  {
    if subtotal < FreeThreshold then
      ShippingDetails(StandardCost, FreeThreshold, Remaining(FreeThreshold - subtotal),
                      subtotal, subtotal + StandardCost)
    else
      ShippingDetails(FreeCost, FreeThreshold, FreeShipping, subtotal, subtotal + FreeCost)
  }

  /** More spending never makes delivery dearer. */
  lemma ShippingCostMonotone(a: int, b: int)
    requires a <= b
    ensures CalculateShipping(b).shippingCost <= CalculateShipping(a).shippingCost
    ensures CalculateShipping(a).total <= CalculateShipping(b).total + StandardCost
  {
  }

  /** `x.toFixed(2)` on an amount of cents: units, a point, two decimals. */
  function FormatCents(cents: int): (s: string)
    ensures |s| >= 4 && s[|s| - 3] == '.'
  {
    var a := if cents < 0 then -cents else cents;
    var units := NatToString(a / 100);
    var frac := [DigitChar(a % 100 / 10), DigitChar(a % 10)];
    (if cents < 0 then "-" else "") + units + "." + frac
  }

  /** The two decimals of FormatCents read back as the cents part of the amount. */
  lemma FormatCentsRoundTrip(cents: nat)
    ensures var s := FormatCents(cents);
            ParseNat(s) == Some((cents / 100, s[|s| - 3..]))
            && DigitValue(s[|s| - 2]) * 10 + DigitValue(s[|s| - 1]) == cents % 100
  {
    var q, d1, d0 := cents / 100, cents % 100 / 10, cents % 10;
    var units := NatToString(q);
    var rest := "." + [DigitChar(d1), DigitChar(d0)];
    var s := FormatCents(cents);
    assert s == units + rest;
    assert s[|s| - 3..] == rest;
    assert s[|s| - 2] == DigitChar(d1) && s[|s| - 1] == DigitChar(d0);
    ParseNatRoundTrip(q, rest);
    DigitRoundTrip(d1);
    DigitRoundTrip(d0);
    CentsDigits(cents);
  }

  /** The two decimal digits of an amount of cents. */
  lemma CentsDigits(cents: nat)
    ensures cents % 100 / 10 * 10 + cents % 10 == cents % 100
  {
    var m := cents % 100;
    var t, u := m / 10, m % 10;
    assert m == 10 * t + u;
    assert cents == 10 * (10 * (cents / 100) + t) + u;
  }

  /** The text of the message, as the storefront displays it. */
  function MessageText(m: ShippingMessage): (t: string)
    ensures m.Remaining? ==> StartsWith(t, "Plus que ")
  {
    match m
    case FreeShipping => "\U{1F389} Livraison offerte !"
    case Remaining(c) => "Plus que " + FormatCents(c) + " \U{20AC} pour la livraison offerte !"
    case EmptyCart => "Votre panier est vide"
  }

  /** One cart entry as the calculator reads it: `item.product?.price`,
      `item.price` and `item.quantity`, each possibly absent. */
  datatype CartLine = CartLine(productPrice: Option<int>, price: Option<int>, quantity: Option<int>)

  /** `item.product?.price || item.price || 0`. */
  function LinePrice(l: CartLine): (p: int)
    ensures l.productPrice.Some? && l.productPrice.value != 0 ==> p == l.productPrice.value
    ensures (l.productPrice.None? || l.productPrice.value == 0) ==> p == IntOr(l.price, 0)
  {
    IntOr(l.productPrice, IntOr(l.price, 0))
  }

  /** `item.quantity || 1`. */
  function LineQuantity(l: CartLine): (q: int)
    ensures q != 0
    ensures l.quantity.Some? && l.quantity.value != 0 ==> q == l.quantity.value
    ensures (l.quantity.None? || l.quantity.value == 0) ==> q == 1
  {
    IntOr(l.quantity, 1)
  }

  function LineAmount(l: CartLine): int {
    LinePrice(l) * LineQuantity(l)
  }

  /** The cart's `reduce` sum of price times quantity. */
  function CartSubtotal(items: seq<CartLine>): int {
    SumOf(items, LineAmount)
  }

  /** A cart of non-negative prices and quantities has a non-negative subtotal. */
  lemma CartSubtotalNonNegative(items: seq<CartLine>)
    requires forall i :: 0 <= i < |items| ==> LinePrice(items[i]) >= 0 && LineQuantity(items[i]) >= 0
    ensures CartSubtotal(items) >= 0
  {
    SumNonNegative(items, LineAmount);
  }

  /** Adding a line to the cart adds its amount to the subtotal. */
  lemma CartSubtotalAppend(items: seq<CartLine>, l: CartLine)
    ensures CartSubtotal(items + [l]) == CartSubtotal(items) + LinePrice(l) * LineQuantity(l)
  {
    SumAppend(items, [l], LineAmount);
  }

  /** `calculateShippingFromCart(cartItems)`: a missing or empty cart costs
      nothing at all; otherwise the subtotal goes through the rule. */
  function CalculateShippingFromCart(items: Option<seq<CartLine>>): (d: ShippingDetails)
    ensures items.None? || items.value == [] ==>
              d == ShippingDetails(0, FreeThreshold, EmptyCart, 0, 0)
    ensures items.Some? && items.value != [] ==>
              d == CalculateShipping(CartSubtotal(items.value))
    ensures d.total == d.subtotal + d.shippingCost
    ensures d.freeShippingThreshold == FreeThreshold
  {
    if items.None? || items.value == [] then ShippingDetails(0, FreeThreshold, EmptyCart, 0, 0)
    else CalculateShipping(CartSubtotal(items.value))
  }

  /** The empty cart is not the same as a zero subtotal: the latter pays the
      standard cost. */
  lemma EmptyCartDiffersFromZeroSubtotal()
    ensures CalculateShippingFromCart(Some([])).shippingCost == 0
    ensures CalculateShipping(0).shippingCost == StandardCost
  {
  }

  import opened Common
}
