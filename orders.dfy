/** The orders routes: the payment-intent amount, order creation (validation,
    defaults, the items snapshot and the stock decrement), the admin listing
    and the unconditional status overwrite. The database is the store's
    fields; each handler's writes happen in sequence. */
module Orders {
  import opened Common
  import opened Seqs
  import opened Sorting
  import opened OrderItems
  import Email

  /** What `POST /api/orders` reads from the body. A missing field is None. */
  datatype OrderRequest = OrderRequest(
    customerName: Option<string>,
    customerEmail: Option<string>,
    customerPhone: Option<string>,
    customerAddress: Option<string>,
    items: Option<seq<OrderItem>>,
    subtotal: Option<int>,
    shippingCost: Option<int>,
    totalAmount: Option<int>,
    paymentMethod: Option<string>,
    paymentId: Option<string>)

  /** A row of the orders table; `status` is NULL when a PATCH sent none. */
  datatype Order = Order(
    id: nat,
    customerName: string,
    customerEmail: string,
    customerPhone: Option<string>,
    customerAddress: Option<string>,
    items: string,
    subtotal: int,
    shippingCost: int,
    totalAmount: int,
    paymentMethod: string,
    paymentId: Option<string>,
    status: Option<string>,
    createdAt: int)

  /** The validation guard: name, email and items present, totalAmount truthy. */
  predicate Accepts(req: OrderRequest) {
    Truthy(req.customerName) && Truthy(req.customerEmail) && req.items.Some?
    && req.totalAmount.Some? && req.totalAmount.value != 0
  }

  /** `x || null` on an optional string. */
  function OrNull(s: Option<string>): (r: Option<string>)
    ensures r.Some? <==> Truthy(s)
    ensures r.Some? ==> r == s
  {
    if Truthy(s) then s else None
  }

  /** The row the INSERT writes for an accepted request. */
  function NewOrder(req: OrderRequest, id: nat, now: int): (o: Order)
    requires Accepts(req)
    ensures o.id == id && o.createdAt == now
    ensures o.status == Some("pending")
    ensures o.customerName == req.customerName.value && o.customerEmail == req.customerEmail.value
    ensures o.items == Serialize(req.items.value)
    ensures o.subtotal == IntOr(req.subtotal, 0) && o.shippingCost == IntOr(req.shippingCost, 0)
    ensures o.totalAmount == req.totalAmount.value
    ensures o.paymentMethod == OrElse(req.paymentMethod, "card")
    ensures o.customerPhone == OrNull(req.customerPhone) && o.customerAddress == OrNull(req.customerAddress)
    ensures o.paymentId == OrNull(req.paymentId)
  {
    Order(id, req.customerName.value, req.customerEmail.value,
          OrNull(req.customerPhone), OrNull(req.customerAddress),
          Serialize(req.items.value),
          IntOr(req.subtotal, 0), IntOr(req.shippingCost, 0), req.totalAmount.value,
          OrElse(req.paymentMethod, "card"), OrNull(req.paymentId),
          Some("pending"), now)
  }

  /** `UPDATE products SET stock = stock - quantity WHERE id = item.id`: a
      product that does not exist is not affected. */
  function Decrement(stock: map<int, int>, item: OrderItem): (r: map<int, int>)
    ensures r.Keys == stock.Keys
  {
    if item.id in stock then stock[item.id := stock[item.id] - item.quantity] else stock
  }

  /** The stock after the update of every line, in order. */
  function ApplyDecrements(stock: map<int, int>, items: seq<OrderItem>): (r: map<int, int>)
    ensures r.Keys == stock.Keys
  {
    if items == [] then stock
    else Decrement(ApplyDecrements(stock, items[..|items| - 1]), items[|items| - 1])
  }

  lemma DecrementsSnoc(stock: map<int, int>, items: seq<OrderItem>, i: nat)
    requires i < |items|
    ensures ApplyDecrements(stock, items[..i + 1]) == Decrement(ApplyDecrements(stock, items[..i]), items[i])
  {
    assert items[..i + 1][..i] == items[..i];
  }

  /** The handler's `items.forEach` of stock updates, one line at a time. */
  method DecrementStock(stock: map<int, int>, items: seq<OrderItem>) returns (st: map<int, int>)
    ensures st == ApplyDecrements(stock, items)
  {
    st := stock;
    var i := 0;
    while i < |items|
      invariant 0 <= i <= |items|
      invariant st == ApplyDecrements(stock, items[..i])
    {
      DecrementsSnoc(stock, items, i);
      st := Decrement(st, items[i]);
      i := i + 1;
    }
    assert items[..|items|] == items;
  }

  /** How many units of product p the lines order in total. */
  function OrderedQuantity(items: seq<OrderItem>, p: int): int {
    SumOf(items, (x: OrderItem) => if x.id == p then x.quantity else 0)
  }

  /** Each product's stock drops by exactly the quantity ordered of it (with
      no floor at zero), so products not in the order keep their stock. */
  lemma {:induction false} StockDropsByOrderedQuantity(stock: map<int, int>, items: seq<OrderItem>, p: int)
    requires p in stock
    ensures ApplyDecrements(stock, items)[p] == stock[p] - OrderedQuantity(items, p)
  {
    if items != [] {
      var init, last := items[..|items| - 1], items[|items| - 1];
      StockDropsByOrderedQuantity(stock, init, p);
      assert items == init + [last];
      SumAppend(init, [last], (x: OrderItem) => if x.id == p then x.quantity else 0);
    }
  }

  /** A product that no line names keeps its stock. */
  lemma UnorderedProductUnchanged(stock: map<int, int>, items: seq<OrderItem>, p: int)
    requires p in stock
    requires forall i :: 0 <= i < |items| ==> items[i].id != p
    ensures ApplyDecrements(stock, items)[p] == stock[p]
  {
    StockDropsByOrderedQuantity(stock, items, p);
    var f := (x: OrderItem) => if x.id == p then x.quantity else 0;
    assert forall i :: 0 <= i < |items| ==> f(items[i]) == 0;
    SumZero(items, f);
  }

  lemma {:induction false} SumZero<T>(s: seq<T>, f: T -> int)
    requires forall i :: 0 <= i < |s| ==> f(s[i]) == 0
    ensures SumOf(s, f) == 0
  {
    if s != [] {
      SumZero(s[1..], f);
    }
  }

  /** The lines as the email templates receive them after creation. */
  function EmailItems(items: seq<OrderItem>): (r: seq<Email.EmailItem>)
    ensures |r| == |items|
    ensures forall i :: 0 <= i < |items| ==>
              r[i] == Email.EmailItem(Some(items[i].name), None, items[i].quantity, items[i].price)
  {
    seq(|items|, i requires 0 <= i < |items| =>
      Email.EmailItem(Some(items[i].name), None, items[i].quantity, items[i].price))
  }

  /** The lines of a status email: the stored snapshot carries `name`, and
      no `product_name`. */
  function StoredItemLines(items: seq<OrderItem>): (r: seq<Email.EmailItem>)
    ensures |r| == |items|
    ensures forall i :: 0 <= i < |items| ==>
              r[i] == Email.EmailItem(None, Some(items[i].name), items[i].quantity, items[i].price)
  {
    seq(|items|, i requires 0 <= i < |items| =>
      Email.EmailItem(None, Some(items[i].name), items[i].quantity, items[i].price))
  }

  /** The emails a created order triggers: the merchant notification, then
      the customer's `pending` email, each when its configuration allows. */
  function CreationEmails(c: Email.EmailConfig, o: Order, items: seq<OrderItem>): (ms: seq<Email.Message>)
    ensures |ms| == (if Email.MerchantConfigured(c) then 1 else 0) + (if c.apiKey then 1 else 0)
    ensures Email.MerchantConfigured(c) ==> ms[0].to == c.contactEmail.value
    ensures c.apiKey ==> ms[|ms| - 1].to == o.customerEmail
                         && ms[|ms| - 1].subject == Email.CustomerSubject(o.id, "re\U{E7}ue")
  {
    var m1 := Email.OrderNotification(c, o.id, EmailItems(items));
    var m2 := Email.CustomerOrderEmail(c, o.id, o.customerEmail, EmailItems(items), "pending");
    (if m1.Some? then [m1.value] else []) + (if m2.Some? then [m2.value] else [])
  }

  /** What the payment gateway answers. */
  datatype GatewayReply = GatewayFailed | Created(clientSecret: string)

  /** The request sent to the gateway. */
  datatype IntentRequest = IntentRequest(amount: int, currency: string, methods: seq<string>)

  /** `POST /create-payment-intent`: the gateway request (none when the secret
      key is unset) and the response. `amountCents` is the body's amount
      already converted to cents. */
  function CreatePaymentIntent(secretKeySet: bool, amountCents: int, reply: GatewayReply):
    (r: (Option<IntentRequest>, Result<string>))
    ensures !secretKeySet ==> r.0.None? && r.1 == Err(ServiceUnavailable)
    ensures secretKeySet ==> r.0 == Some(IntentRequest(amountCents, "eur", ["card", "paypal"]))
    ensures secretKeySet && reply.GatewayFailed? ==> r.1 == Err(ServerError)
    ensures secretKeySet && reply.Created? ==> r.1 == Ok(reply.clientSecret)
  {
    if !secretKeySet then (None, Err(ServiceUnavailable))
    else
      (Some(IntentRequest(amountCents, "eur", ["card", "paypal"])),
       match reply
       case GatewayFailed => Err(ServerError)
       case Created(secret) => Ok(secret))
  }

  /** Newest first: ascending in the negated creation time. */
  function NewestFirstKey(o: Order): int {
    -o.createdAt
  }

  /** Overwrite the status of the rows with this id; no whitelist, no
      transition order. */
  function SetStatus(orders: seq<Order>, id: int, status: Option<string>): (r: seq<Order>)
    ensures |r| == |orders|
    ensures forall i :: 0 <= i < |orders| && orders[i].id == id ==> r[i] == orders[i].(status := status)
    ensures forall i :: 0 <= i < |orders| && orders[i].id != id ==> r[i] == orders[i]
  {
    seq(|orders|, i requires 0 <= i < |orders| =>
      if orders[i].id == id then orders[i].(status := status) else orders[i])
  }

  /** Repeating a status update leaves the rows as the first one left them. */
  lemma SetStatusIdempotent(orders: seq<Order>, id: int, status: Option<string>)
    ensures SetStatus(SetStatus(orders, id, status), id, status) == SetStatus(orders, id, status)
  {
  }

  /** The order of the given id, if any. */
  function FindOrder(orders: seq<Order>, id: int): (r: Option<Order>)
    ensures r.Some? ==> r.value in orders && r.value.id == id
    ensures r.None? ==> forall i :: 0 <= i < |orders| ==> orders[i].id != id
  {
    var k := FindIndex(orders, (o: Order) => o.id == id);
    if k < 0 then None else Some(orders[k])
  }

  /** The orders of a listing, without their parsed items. */
  function OrdersOf(rows: seq<(Order, seq<OrderItem>)>): (r: seq<Order>)
    ensures |r| == |rows|
    ensures forall i :: 0 <= i < |rows| ==> r[i] == rows[i].0
  {
    seq(|rows|, i requires 0 <= i < |rows| => rows[i].0)
  }

  /** Each order paired with its item snapshot parsed back. */
  function WithItems(orders: seq<Order>): (rows: seq<(Order, seq<OrderItem>)>)
    requires forall i :: 0 <= i < |orders| ==> ParseItems(orders[i].items).Some?
    ensures |rows| == |orders| && OrdersOf(rows) == orders
    ensures forall i :: 0 <= i < |rows| ==> rows[i].0 == orders[i] && Some(rows[i].1) == ParseItems(orders[i].items)
  {
    var rows := seq(|orders|, i requires 0 <= i < |orders| => (orders[i], ParseItems(orders[i].items).value));
    assert OrdersOf(rows) == orders;
    rows
  }

  /** A permutation of orders whose snapshots all parse has snapshots that
      all parse. */
  lemma SortedParse(orders: seq<Order>, sorted: seq<Order>)
    requires forall i :: 0 <= i < |orders| ==> ParseItems(orders[i].items).Some?
    requires multiset(sorted) == multiset(orders)
    ensures forall i :: 0 <= i < |sorted| ==> ParseItems(sorted[i].items).Some?
  {
    forall i | 0 <= i < |sorted| ensures ParseItems(sorted[i].items).Some? {
      assert sorted[i] in multiset(orders);
      var k :| 0 <= k < |orders| && orders[k] == sorted[i];
    }
  }

  /** The orders newest first, each with its items parsed. */
  function NewestFirstRows(orders: seq<Order>): (rows: seq<(Order, seq<OrderItem>)>)
    requires forall i :: 0 <= i < |orders| ==> ParseItems(orders[i].items).Some?
    ensures |rows| == |orders|
    ensures forall i :: 0 <= i < |rows| ==> Some(rows[i].1) == ParseItems(rows[i].0.items)
    ensures forall i, j :: 0 <= i < j < |rows| ==> rows[i].0.createdAt >= rows[j].0.createdAt
    ensures multiset(OrdersOf(rows)) == multiset(orders)
  {
    var sorted := SortBy(orders, NewestFirstKey);
    SortedParse(orders, sorted);
    var rows := WithItems(sorted);
    assert forall i, j :: 0 <= i < j < |sorted| ==> NewestFirstKey(sorted[i]) <= NewestFirstKey(sorted[j]);
    rows
  }

  /** The order rows' invariant: ids below the next one, increasing along
      the table, and every item snapshot parses. */
  ghost predicate WellFormed(orders: seq<Order>, nextId: int) {
    (forall i :: 0 <= i < |orders| ==> orders[i].id < nextId && ParseItems(orders[i].items).Some?)
    && (forall i, j :: 0 <= i < j < |orders| ==> orders[i].id < orders[j].id)
  }

  /** Appending a row with the next id and a parsable snapshot keeps the
      invariant for the id after it. */
  lemma AppendWellFormed(orders: seq<Order>, nextId: int, o: Order)
    requires WellFormed(orders, nextId)
    requires o.id == nextId && ParseItems(o.items).Some?
    ensures WellFormed(orders + [o], nextId + 1)
  {
    var all := orders + [o];
    forall i | 0 <= i < |all| ensures all[i].id < nextId + 1 && ParseItems(all[i].items).Some? {
      if i < |orders| {
        assert all[i] == orders[i];
      }
    }
    forall i, j | 0 <= i < j < |all| ensures all[i].id < all[j].id {
      assert all[i] == orders[i];
      if j < |orders| {
        assert all[j] == orders[j];
      }
    }
  }

  /** A status update changes no id, customer or snapshot. */
  lemma SetStatusKeepsRows(orders: seq<Order>, id: int, status: Option<string>)
    ensures var updated := SetStatus(orders, id, status);
            |updated| == |orders|
            && forall i :: 0 <= i < |orders| ==>
                 updated[i].id == orders[i].id && updated[i].items == orders[i].items
                 && updated[i].customerEmail == orders[i].customerEmail
  {
  }

  /** A status update keeps the invariant. */
  lemma SetStatusWellFormed(orders: seq<Order>, nextId: int, id: int, status: Option<string>)
    requires WellFormed(orders, nextId)
    ensures WellFormed(SetStatus(orders, id, status), nextId)
  {
    SetStatusKeepsRows(orders, id, status);
  }

  /** The order a status update then finds is the one found before, with
      the new status, and its snapshot parses. */
  lemma SetStatusFinds(orders: seq<Order>, nextId: int, id: int, status: Option<string>)
    requires WellFormed(orders, nextId)
    ensures var before := FindOrder(orders, id);
            FindOrder(SetStatus(orders, id, status), id)
              == if before.Some? then Some(before.value.(status := status)) else None
    ensures var before := FindOrder(orders, id);
            before.Some? ==> ParseItems(before.value.items).Some?
  {
    var updated := SetStatus(orders, id, status);
    SetStatusKeepsRows(orders, id, status);
    var found := FindOrder(updated, id);
    var before := FindOrder(orders, id);
    if before.Some? {
      var j :| 0 <= j < |orders| && orders[j] == before.value;
      assert updated[j] == before.value.(status := status);
      assert found.Some?;
      var k :| 0 <= k < |updated| && updated[k] == found.value;
      assert orders[k].id == id;
      assert j == k;
    } else {
      assert found.None?;
    }
  }

  class OrderStore {
    var stock: map<int, int>
    var orders: seq<Order>
    var nextId: nat

    /** Ids are assigned in increasing order and every snapshot parses. */
    ghost predicate Valid()
      reads this
    {
      WellFormed(orders, nextId)
    }

    constructor(stock: map<int, int>)
      ensures Valid() && this.stock == stock && orders == [] && nextId == 1
    {
      this.stock := stock;
      orders := [];
      nextId := 1;
    }

    /** `POST /api/orders`. */
    method CreateOrder(req: OrderRequest, now: int, c: Email.EmailConfig)
      returns (r: Result<nat>, mail: seq<Email.Message>)
      requires Valid()
      modifies this
      ensures Valid()
      ensures !Accepts(req) ==> r == Err(BadRequest) && mail == []
                                && orders == old(orders) && stock == old(stock) && nextId == old(nextId)
      ensures Accepts(req) ==>
                r == Ok(old(nextId)) && nextId == old(nextId) + 1
                && orders == old(orders) + [NewOrder(req, old(nextId), now)]
                && stock == ApplyDecrements(old(stock), req.items.value)
                && mail == CreationEmails(c, NewOrder(req, old(nextId), now), req.items.value)
    {
      if !Accepts(req) {
        return Err(BadRequest), [];
      }
      var id := nextId;
      var o := NewOrder(req, id, now);
      ParseSerialize(req.items.value);
      AppendWellFormed(orders, nextId, o);
      orders := orders + [o];
      nextId := nextId + 1;
      var items := req.items.value;
      stock := DecrementStock(stock, items);
      r := Ok(id);
      mail := CreationEmails(c, o, items);
    }

    /** `GET /api/orders`: the rows newest first, each with its items parsed. */
    function Listing(session: Session): (r: Result<seq<(Order, seq<OrderItem>)>>)
      requires Valid()
      reads this
      ensures !IsAdmin(session) <==> r == Err(Unauthorized)
      ensures r.Ok? ==> |r.value| == |orders|
      ensures r.Ok? ==> forall i :: 0 <= i < |r.value| ==> Some(r.value[i].1) == ParseItems(r.value[i].0.items)
      ensures r.Ok? ==> forall i, j :: 0 <= i < j < |r.value| ==> r.value[i].0.createdAt >= r.value[j].0.createdAt
      ensures r.Ok? ==> multiset(OrdersOf(r.value)) == multiset(orders)
    {
      if !IsAdmin(session) then Err(Unauthorized) else Ok(NewestFirstRows(orders))
    }

    /** `PATCH /api/orders/:id/status`: 401 without a session, otherwise the
        status is written whether or not the id exists; the customer email
        for an existing order follows its new status. */
    method UpdateStatus(session: Session, id: int, status: Option<string>, c: Email.EmailConfig)
      returns (r: Result<()>, mail: Option<Email.Message>)
      requires Valid()
      modifies this`orders
      ensures Valid()
      ensures !IsAdmin(session) ==> r == Err(Unauthorized) && orders == old(orders) && mail.None?
      ensures IsAdmin(session) ==> r == Ok(()) && orders == SetStatus(old(orders), id, status)
      ensures mail.Some? ==> IsAdmin(session) && status.Some? && FindOrder(old(orders), id).Some?
                             && mail.value.to == FindOrder(old(orders), id).value.customerEmail
      ensures IsAdmin(session) ==>
                var before := FindOrder(old(orders), id);
                mail == if before.Some? && status.Some? && ParseItems(before.value.items).Some? then
                          Email.CustomerOrderEmail(c, before.value.id, before.value.customerEmail,
                                                   StoredItemLines(ParseItems(before.value.items).value), status.value)
                        else None
    {
      if !IsAdmin(session) {
        return Err(Unauthorized), None;
      }
      SetStatusWellFormed(orders, nextId, id, status);
      SetStatusFinds(orders, nextId, id, status);
      orders := SetStatus(orders, id, status);
      r := Ok(());
      mail := None;
      var found := FindOrder(orders, id);
      if found.Some? && status.Some? {
        var o := found.value;
        mail := Email.CustomerOrderEmail(c, o.id, o.customerEmail, StoredItemLines(ParseItems(o.items).value),
                                         status.value);
      }
    }
  }
}
