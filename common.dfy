/** Shared vocabulary of the storefront model: optional values, HTTP failure
    statuses, the admin-session gate and JavaScript truthiness of the values
    the route handlers test. */
module Common {

  datatype Option<+T> = None | Some(value: T) {
    predicate IsFailure() { None? }

    function PropagateFailure<U>(): Option<U>
      requires None?
    {
      None
    }

    function Extract(): T
      requires Some?
    {
      value
    }

    function GetOr(default: T): T {
      if Some? then value else default
    }
  }

  /** The error statuses the route handlers answer with. */
  datatype Status = BadRequest | Unauthorized | NotFound | ServerError | ServiceUnavailable

  function Code(s: Status): (c: nat)
    ensures 400 <= c < 600
  {
    match s
    case BadRequest => 400
    case Unauthorized => 401
    case NotFound => 404
    case ServerError => 500
    case ServiceUnavailable => 503
  }

  /** A handler's answer: a JSON body of type T, or an error status. */
  datatype Result<+T> = Ok(value: T) | Err(status: Status)

  /** The session cookie's admin id; `!req.session.adminId` lets nothing
      through but a present, non-zero id. */
  type Session = Option<int>

  predicate IsAdmin(session: Session) {
    session.Some? && session.value != 0
  }

  /** A request string field is truthy when present and non-empty. */
  predicate Truthy(s: Option<string>) {
    s.Some? && s.value != ""
  }

  /** `a || b` on two string fields. */
  function OrElse(a: Option<string>, b: string): (r: string)
    ensures Truthy(a) ==> r == a.value
    ensures !Truthy(a) ==> r == b
  {
    if Truthy(a) then a.value else b
  }

  /** `x || 0` and `x || d` on numbers: zero and absence are both falsy. */
  function IntOr(x: Option<int>, d: int): (r: int)
    ensures x.Some? && x.value != 0 ==> r == x.value
    ensures x.None? || x.value == 0 ==> r == d
  {
    if x.Some? && x.value != 0 then x.value else d
  }
}
