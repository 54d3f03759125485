/** The `/api/shipping/calculate` routes: request validation in front of the
    calculator. */
module ShippingRoute {
  import opened Common
  import opened ShippingCalculator

  /** What the POST body's `items` field holds. */
  datatype ItemsField = Missing | NotArray | Array(lines: seq<CartLine>)

  /** `POST /calculate`. */
  function PostCalculate(items: ItemsField): (r: Result<ShippingDetails>)
    ensures !items.Array? <==> r == Err(BadRequest)
    ensures items.Array? ==> r == Ok(CalculateShippingFromCart(Some(items.lines)))
  {
    match items
    case Array(lines) => Ok(CalculateShippingFromCart(Some(lines)))
    case _ => Err(BadRequest)
  }

  /** `GET /calculate?subtotal=`: the parsed query value, absent when missing
      or unparsable, and falsy (so 0) when zero. */
  function GetCalculate(subtotal: Option<int>): (r: Result<ShippingDetails>)
    ensures subtotal.None? ==> r == Ok(CalculateShipping(0))
    ensures subtotal.Some? && subtotal.value < 0 <==> r == Err(BadRequest)
    ensures subtotal.Some? && subtotal.value >= 0 ==> r == Ok(CalculateShipping(subtotal.value))
  {
    var s := IntOr(subtotal, 0);
    if s < 0 then Err(BadRequest) else Ok(CalculateShipping(s))
  }
}
