/** The cart page: the order summary with its shipping fallback, the
    quantity buttons that either remove or update an entry, and the order
    form's payload. The shipping request, the confirmation dialog and the
    order request are parameters. */
module CartPage {
  import opened Common
  import opened ClientCart
  import ShippingCalculator

  /** The fields of the shipping answer the page reads; a field missing
      from the answer (an error body, say) is None. */
  datatype ShippingInfo = ShippingInfo(shippingCost: Option<int>, total: Option<int>)

  datatype ShippingFetch = ShippingFailed | ShippingAnswer(info: ShippingInfo)

  /** The shipping cost and total the summary shows, given the last answer. */
  function Shown(info: ShippingInfo, subtotal: int): (r: (int, int))
    ensures r.0 == IntOr(info.shippingCost, 0)
    ensures r.1 == IntOr(info.total, subtotal)
  {
    (IntOr(info.shippingCost, 0), IntOr(info.total, subtotal))
  }

  /** The order form's fields (`formData.get`), None when absent. */
  datatype OrderForm = OrderForm(name: Option<string>, email: Option<string>,
                                 phone: Option<string>, address: Option<string>)

  /** The payload of `submitOrder`: the subtotal of the saved items, the
      shipping cost and total of the last answer, falling back to 0 and to
      the subtotal. */
  function SubmitPayload(items: seq<CartEntry>, details: Option<ShippingInfo>, f: OrderForm): (p: OrderPayload)
    ensures p.items == items && p.subtotal == Some(Total(items))
    ensures details.None? ==> p.shippingCost == Some(0) && p.totalAmount == Total(items)
    ensures details.Some? ==> p.shippingCost == Some(IntOr(details.value.shippingCost, 0))
                              && p.totalAmount == IntOr(details.value.total, Total(items))
    ensures p.paymentMethod == "card" && p.paymentId.None?
  {
    var subtotal := Total(items);
    var info := details.GetOr(ShippingInfo(None, None));
    OrderPayload(f.name, f.email, f.phone, f.address, items, Some(subtotal),
                 Some(IntOr(info.shippingCost, 0)), IntOr(info.total, subtotal), "card", None)
  }

  /** With a shipping answer of the calculator, the posted total is what the
      calculator charged, unless that total was 0. */
  lemma PayloadTotalFromCalculator(items: seq<CartEntry>, f: OrderForm)
    requires ShippingCalculator.CalculateShipping(Total(items)).total != 0
    ensures var d := ShippingCalculator.CalculateShipping(Total(items));
            SubmitPayload(items, Some(ShippingInfo(Some(d.shippingCost), Some(d.total))), f).totalAmount
              == Total(items) + d.shippingCost
  {
  }

  /** The `shippingDetails` that `displayCartSummary` leaves for the given
      entries: unchanged for an empty cart, otherwise the answer, or on a
      failed request a cost of 0 and the subtotal. */
  function SummaryDetails(items: seq<CartEntry>, prev: Option<ShippingInfo>, fetch: ShippingFetch)
    : (d: Option<ShippingInfo>)
    ensures items == [] ==> d == prev
    ensures items != [] && fetch.ShippingFailed? ==> d == Some(ShippingInfo(Some(0), Some(Total(items))))
    ensures items != [] && fetch.ShippingAnswer? ==> d == Some(fetch.info)
  {
    if items == [] then prev
    else match fetch
      case ShippingFailed => Some(ShippingInfo(Some(0), Some(Total(items))))
      case ShippingAnswer(info) => Some(info)
  }

  /** Once the summary has been refreshed for the current entries, the
      posted total follows them, whatever answer was kept before: the
      calculator's total for their subtotal, or the subtotal itself when the
      request failed. */
  lemma RefreshedSummaryFollowsCart(items: seq<CartEntry>, prev: Option<ShippingInfo>, f: OrderForm)
    requires items != []
    ensures var d := ShippingCalculator.CalculateShipping(Total(items));
            var answer := ShippingAnswer(ShippingInfo(Some(d.shippingCost), Some(d.total)));
            d.total != 0 ==> SubmitPayload(items, SummaryDetails(items, prev, answer), f).totalAmount
                               == Total(items) + d.shippingCost
    ensures SubmitPayload(items, SummaryDetails(items, prev, ShippingFailed), f).totalAmount == Total(items)
  {
  }

  class Page {
    const cart: Cart
    /** The module-level `shippingDetails`, null until the first summary. */
    var shippingDetails: Option<ShippingInfo>

    constructor(cart: Cart)
      ensures this.cart == cart && shippingDetails.None?
    {
      this.cart := cart;
      shippingDetails := None;
    }

    /** `displayCartSummary`: hidden for an empty cart; otherwise the answer,
        or on failure a cost of 0 and the subtotal, is kept and shown. */
    method DisplayCartSummary(fetch: ShippingFetch) returns (shown: Option<(int, int)>)
      modifies this`shippingDetails
      ensures cart.items == [] ==> shown.None? && shippingDetails == old(shippingDetails)
      ensures cart.items != [] && fetch.ShippingFailed? ==>
                shippingDetails == Some(ShippingInfo(Some(0), Some(Total(cart.items))))
                && shown == Some((0, Total(cart.items)))
      ensures cart.items != [] && fetch.ShippingAnswer? ==>
                shippingDetails == Some(fetch.info) && shown == Some(Shown(fetch.info, Total(cart.items)))
      ensures shippingDetails == SummaryDetails(cart.items, old(shippingDetails), fetch)
    {
      var subtotal := Total(cart.items);
      if cart.items == [] {
        return None;
      }
      match fetch {
        case ShippingFailed => shippingDetails := Some(ShippingInfo(Some(0), Some(subtotal)));
        case ShippingAnswer(info) => shippingDetails := Some(info);
      }
      shown := Some(Shown(shippingDetails.value, subtotal));
    }

    /** `updateItemQuantity(productId, newQuantity)`: 0 or less goes to the
        removal, which asks for confirmation; anything else goes to
        `cart.updateQuantity`. After a confirmed removal or any quantity
        update the summary is refreshed for the new entries with the
        shipping answer `summary`. */
    method UpdateItemQuantity(id: int, newQuantity: int, confirmed: bool, fetch: StockFetch,
                              summary: ShippingFetch)
      modifies cart, this`shippingDetails
      ensures newQuantity <= 0 && confirmed ==>
                cart.items == Removed(old(cart.items), id) && cart.saved == Some(cart.items)
                && shippingDetails == SummaryDetails(cart.items, old(shippingDetails), summary)
      ensures newQuantity <= 0 && !confirmed ==>
                cart.items == old(cart.items) && cart.saved == old(cart.saved)
                && shippingDetails == old(shippingDetails)
      ensures newQuantity > 0 ==>
                var k := EntryIndex(old(cart.items), id);
                shippingDetails == SummaryDetails(cart.items, old(shippingDetails), summary)
                && if k < 0 then cart.items == old(cart.items) && cart.saved == old(cart.saved)
                   else
                     var stock := RefreshStock(old(cart.items)[k].stock, fetch);
                     var applied := !ExceedsStock(stock, newQuantity);
                     cart.items == old(cart.items)[k := old(cart.items)[k].(stock := stock,
                                     quantity := if applied then Max(1, newQuantity) else old(cart.items)[k].quantity)]
                     && cart.saved == if applied || (IntOr(old(cart.items)[k].stock, 0) == 0 && fetch.Fetched?)
                                      then Some(cart.items) else old(cart.saved)
      ensures old(UniqueIds(cart.items)) ==> UniqueIds(cart.items)
    {
      if newQuantity <= 0 {
        if confirmed {
          cart.RemoveItem(id);
          var _ := DisplayCartSummary(summary);
        }
      } else {
        var _ := cart.UpdateQuantity(id, newQuantity, fetch);
        var _ := DisplayCartSummary(summary);
      }
    }

    /** `submitOrder`: the payload from the saved cart; the saved cart is
        removed only after an OK response, the in-memory entries stay. */
    method SubmitOrder(f: OrderForm, responseOk: bool) returns (posted: OrderPayload)
      modifies cart`saved
      ensures posted == SubmitPayload(old(cart.saved).GetOr([]), shippingDetails, f)
      ensures cart.saved == if responseOk then None else old(cart.saved)
      ensures cart.items == old(cart.items)
    {
      posted := SubmitPayload(cart.saved.GetOr([]), shippingDetails, f);
      if responseOk {
        cart.saved := None;
      }
    }
  }
}
