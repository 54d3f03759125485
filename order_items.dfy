/** The order's items snapshot: `JSON.stringify(items)` when an order is
    stored, `JSON.parse(order.items)` when orders are listed. Items are the
    records the checkout posts, each with an id, a name, a price in cents
    and a quantity; the encoding is JSON's, with string escapes limited to
    `"` and backslash. */
module OrderItems {
  import opened Common
  import opened Text

  datatype OrderItem = OrderItem(id: int, name: string, price: int, quantity: int)

  /** The escaped text of a string, then tail. */
  function EscapeThen(s: string, tail: string): (r: string)
    ensures |r| >= |s| + |tail|
  {
    if s == [] then tail
    else if s[0] == '"' || s[0] == '\\' then ['\\', s[0]] + EscapeThen(s[1..], tail)
    else [s[0]] + EscapeThen(s[1..], tail)
  }

  /** The body of a JSON string up to its closing quote, unescaped, and the
      text after the quote. */
  function ParseStringBody(s: string): (r: Option<(string, string)>)
    ensures r.Some? ==> |r.value.1| < |s|
  {
    if s == [] then None
    else if s[0] == '"' then Some(([], s[1..]))
    else if s[0] == '\\' then
      if |s| >= 2 && (s[1] == '"' || s[1] == '\\') then
        match ParseStringBody(s[2..])
        case None => None
        case Some(p) => Some(([s[1]] + p.0, p.1))
      else None
    else
      match ParseStringBody(s[1..])
      case None => None
      case Some(p) => Some(([s[0]] + p.0, p.1))
  }

  lemma {:induction false} StringRoundTrip(s: string, rest: string)
    ensures ParseStringBody(EscapeThen(s, "\"" + rest)) == Some((s, rest))
  {
    if s == [] {
      assert ("\"" + rest)[1..] == rest;
    } else {
      StringRoundTrip(s[1..], rest);
      var e := EscapeThen(s, "\"" + rest);
      if s[0] == '"' || s[0] == '\\' {
        assert e[2..] == EscapeThen(s[1..], "\"" + rest);
      } else {
        assert e[1..] == EscapeThen(s[1..], "\"" + rest);
      }
      assert s == [s[0]] + s[1..];
    }
  }

  /** s starts with the literal p; what follows it. */
  function Literal(p: string, s: string): (r: Option<string>)
    ensures r.Some? ==> |r.value| == |s| - |p| && r.value == s[|p|..]
  {
    if StartsWith(s, p) then Some(s[|p|..]) else None
  }

  lemma LiteralOf(p: string, rest: string)
    ensures Literal(p, p + rest) == Some(rest)
  {
    assert (p + rest)[..|p|] == p;
    assert (p + rest)[|p|..] == rest;
  }

  /** `{"id":…,"name":"…","price":…,"quantity":…}` followed by tail. */
  function ItemThen(x: OrderItem, tail: string): string {
    "{\"id\":" + (IntToString(x.id) + (",\"name\":\"" + EscapeThen(x.name, "\",\"price\":"
      + (IntToString(x.price) + (",\"quantity\":" + (IntToString(x.quantity) + ("}" + tail)))))))
  }

  /** The comma-separated items, then tail. */
  function ElementsThen(xs: seq<OrderItem>, tail: string): string
    requires xs != []
  {
    if |xs| == 1 then ItemThen(xs[0], tail) else ItemThen(xs[0], "," + ElementsThen(xs[1..], tail))
  }

  /** `JSON.stringify(items)`. */
  function Serialize(xs: seq<OrderItem>): (s: string)
    ensures StartsWith(s, "[") && |s| >= 2
  {
    if xs == [] then "[]" else "[" + ElementsThen(xs, "]")
  }

  /** A number token and what follows it. */
  function ParseNumber(s: string): (r: Option<(int, string)>)
    ensures r.Some? ==> |r.value.1| < |s|
  {
    ParseInt(s)
  }

  function ParseItem(s: string): (r: Option<(OrderItem, string)>)
    ensures r.Some? ==> |r.value.1| < |s|
  {
    var s1 :- Literal("{\"id\":", s);
    var (id, s2) :- ParseNumber(s1);
    var s3 :- Literal(",\"name\":\"", s2);
    var (name, s4) :- ParseStringBody(s3);
    var s5 :- Literal(",\"price\":", s4);
    var (price, s6) :- ParseNumber(s5);
    var s7 :- Literal(",\"quantity\":", s6);
    var (quantity, s8) :- ParseNumber(s7);
    var s9 :- Literal("}", s8);
    Some((OrderItem(id, name, price, quantity), s9))
  }

  lemma ItemRoundTrip(x: OrderItem, tail: string)
    ensures ParseItem(ItemThen(x, tail)) == Some((x, tail))
  {
    var t8 := "}" + tail;
    var t7 := IntToString(x.quantity) + t8;
    var t6 := ",\"quantity\":" + t7;
    var t5 := IntToString(x.price) + t6;
    var t4 := ",\"price\":" + t5;
    var t3 := EscapeThen(x.name, "\"" + t4);
    assert "\",\"price\":" + t5 == "\"" + t4;
    var t2 := ",\"name\":\"" + t3;
    var t1 := IntToString(x.id) + t2;
    assert ItemThen(x, tail) == "{\"id\":" + t1;
    LiteralOf("{\"id\":", t1);
    ParseIntRoundTrip(x.id, t2);
    LiteralOf(",\"name\":\"", t3);
    StringRoundTrip(x.name, t4);
    LiteralOf(",\"price\":", t5);
    ParseIntRoundTrip(x.price, t6);
    LiteralOf(",\"quantity\":", t7);
    ParseIntRoundTrip(x.quantity, t8);
    LiteralOf("}", tail);
  }

  /** One or more items separated by commas and closed by `]`; the items and
      the text after the bracket. */
  function ParseElements(s: string): (r: Option<(seq<OrderItem>, string)>)
    ensures r.Some? ==> |r.value.1| < |s|
    decreases |s|
  {
    var (x, s1) :- ParseItem(s);
    if StartsWith(s1, "]") then Some(([x], s1[1..]))
    else
      var s2 :- Literal(",", s1);
      var (xs, s3) :- ParseElements(s2);
      Some(([x] + xs, s3))
  }

  /** ParseElements after one item followed by a comma. */
  lemma ElementsStep(s: string, x: OrderItem, u: string)
    requires ParseItem(s) == Some((x, "," + u))
    ensures ParseElements(s) == match ParseElements(u)
                                case None => None
                                case Some(p) => Some(([x] + p.0, p.1))
  {
    LiteralOf(",", u);
  }

  /** ParseElements after one item followed by the closing bracket. */
  lemma ElementsLast(s: string, x: OrderItem, rest: string)
    requires ParseItem(s) == Some((x, "]" + rest))
    ensures ParseElements(s) == Some(([x], rest))
  {
    assert ("]" + rest)[1..] == rest;
  }

  lemma {:induction false} ElementsRoundTrip(xs: seq<OrderItem>, rest: string)
    requires xs != []
    ensures ParseElements(ElementsThen(xs, "]" + rest)) == Some((xs, rest))
    decreases |xs|
  {
    if |xs| == 1 {
      ItemRoundTrip(xs[0], "]" + rest);
      ElementsLast(ElementsThen(xs, "]" + rest), xs[0], rest);
      assert [xs[0]] == xs;
    } else {
      var u := ElementsThen(xs[1..], "]" + rest);
      var s := ElementsThen(xs, "]" + rest);
      assert s == ItemThen(xs[0], "," + u);
      ItemRoundTrip(xs[0], "," + u);
      assert ParseItem(s) == Some((xs[0], "," + u));
      ElementsStep(s, xs[0], u);
      ElementsRoundTrip(xs[1..], rest);
      assert ParseElements(u) == Some((xs[1..], rest));
      assert xs == [xs[0]] + xs[1..];
      assert ParseElements(s) == Some((xs, rest));
    }
  }

  /** `JSON.parse` of a whole items snapshot; nothing may follow the closing bracket. */
  function ParseItems(s: string): (r: Option<seq<OrderItem>>)
  {
    var s1 :- Literal("[", s);
    if s1 == "]" then Some([])
    else
      var (xs, s2) :- ParseElements(s1);
      if s2 == [] then Some(xs) else None
  }

  /** Parsing a stored snapshot gives back exactly the items that were stored. */
  lemma ParseSerialize(xs: seq<OrderItem>)
    ensures ParseItems(Serialize(xs)) == Some(xs)
  {
    if xs == [] {
      LiteralOf("[", "]");
    } else {
      var body := ElementsThen(xs, "]");
      LiteralOf("[", body);
      ElementsRoundTrip(xs, []);
      assert "]" + [] == "]";
      assert body != "]" by {
        assert body[0] == '{';
      }
    }
  }

  /** Two item lists with the same snapshot are equal. */
  lemma SerializeInjective(xs: seq<OrderItem>, ys: seq<OrderItem>)
    requires Serialize(xs) == Serialize(ys)
    ensures xs == ys
  {
    ParseSerialize(xs);
    ParseSerialize(ys);
  }
}
