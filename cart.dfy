/** The storefront's client cart (`Cart` in the main script): entries kept
    in memory and saved under the `cart-bois` storage key after every
    change, at most one entry per product id, with stock checks on add and
    on quantity change. The order payload the two checkout pages post is
    defined here too, with its reading by the server. */
module ClientCart {
  import opened Common
  import opened Seqs
  import OrderItems
  import Orders

  /** A cart entry as saved in storage. `stock` is absent for entries saved
      before stock was recorded. */
  datatype CartEntry = CartEntry(
    id: int,
    name: string,
    price: int,
    imageUrl: string,
    woodType: Option<string>,
    quantity: int,
    stock: Option<int>)

  /** The product a page hands to `addItem`. */
  datatype CartProduct = CartProduct(
    id: int,
    name: string,
    price: int,
    imageUrl: Option<string>,
    imagePaths: seq<string>,
    woodType: Option<string>,
    stock: int)

  /** What the product lookup in `updateQuantity` yields. */
  datatype StockFetch = FetchFailed | Fetched(stock: Option<int>)

  predicate UniqueIds(s: seq<CartEntry>) {
    forall i, j :: 0 <= i < j < |s| ==> s[i].id != s[j].id
  }

  /** `getTotal`: the sum of price times quantity. */
  function Total(s: seq<CartEntry>): int {
    SumOf(s, (e: CartEntry) => e.price * e.quantity)
  }

  /** `getItemCount`: the sum of the quantities. */
  function ItemCount(s: seq<CartEntry>): int {
    SumOf(s, (e: CartEntry) => e.quantity)
  }

  /** The first of the product's gallery images, else its image_url, else the placeholder. */
  function EntryImage(p: CartProduct): (u: string)
    ensures p.imagePaths != [] ==> u == p.imagePaths[0]
    ensures p.imagePaths == [] ==> u == OrElse(p.imageUrl, "/images/placeholder.jpg")
  {
    if |p.imagePaths| > 0 then p.imagePaths[0] else OrElse(p.imageUrl, "/images/placeholder.jpg")
  }

  function NewEntry(p: CartProduct, quantity: int): CartEntry {
    CartEntry(p.id, p.name, p.price, EntryImage(p), p.woodType, quantity, Some(p.stock))
  }

  /** The position of the entry for a product id (`items.find`), or -1. */
  function EntryIndex(s: seq<CartEntry>, id: int): (k: int)
    ensures -1 <= k < |s|
    ensures k >= 0 ==> s[k].id == id
    ensures k == -1 <==> forall j :: 0 <= j < |s| ==> s[j].id != id
  {
    FindIndex(s, (e: CartEntry) => e.id == id)
  }

  /** Whether `addItem` accepts the product: the resulting quantity of its
      entry must not exceed the product's stock. */
  predicate AddFits(s: seq<CartEntry>, p: CartProduct, quantity: int) {
    var k := EntryIndex(s, p.id);
    if k >= 0 then s[k].quantity + quantity <= p.stock else quantity <= p.stock
  }

  /** The entries after a successful `addItem`. */
  function Added(s: seq<CartEntry>, p: CartProduct, quantity: int): (r: seq<CartEntry>)
    ensures EntryIndex(s, p.id) < 0 ==> r == s + [NewEntry(p, quantity)]
    ensures var k := EntryIndex(s, p.id);
            k >= 0 ==> |r| == |s| && r[k].quantity == s[k].quantity + quantity && r[k].stock == Some(p.stock)
                       && r[k].(quantity := s[k].quantity, stock := s[k].stock) == s[k]
                       && forall j :: 0 <= j < |s| && j != k ==> r[j] == s[j]
  {
    var k := EntryIndex(s, p.id);
    if k >= 0 then s[k := s[k].(quantity := s[k].quantity + quantity, stock := Some(p.stock))]
    else s + [NewEntry(p, quantity)]
  }

  /** Adding keeps one entry per product id. */
  lemma AddedKeepsIdsUnique(s: seq<CartEntry>, p: CartProduct, quantity: int)
    requires UniqueIds(s)
    ensures UniqueIds(Added(s, p, quantity))
  {
  }

  /** Adding raises the item count by the quantity added, whether it merges
      into an existing entry or appends a new one. */
  lemma AddedCount(s: seq<CartEntry>, p: CartProduct, quantity: int)
    ensures ItemCount(Added(s, p, quantity)) == ItemCount(s) + quantity
  {
    var k := EntryIndex(s, p.id);
    var f := (e: CartEntry) => e.quantity;
    if k >= 0 {
      SumUpdate(s, k, s[k].(quantity := s[k].quantity + quantity, stock := Some(p.stock)), f);
    } else {
      SumAppend(s, [NewEntry(p, quantity)], f);
    }
  }

  /** A new entry raises the total by its price times the quantity. */
  lemma AddedTotalNew(s: seq<CartEntry>, p: CartProduct, quantity: int)
    requires EntryIndex(s, p.id) < 0
    ensures Total(Added(s, p, quantity)) == Total(s) + p.price * quantity
  {
    SumAppend(s, [NewEntry(p, quantity)], (e: CartEntry) => e.price * e.quantity);
  }

  /** `removeItem`: every entry of that id goes. */
  function Removed(s: seq<CartEntry>, id: int): (r: seq<CartEntry>)
    ensures forall i :: 0 <= i < |r| ==> r[i].id != id
    ensures forall i :: 0 <= i < |s| && s[i].id != id ==> s[i] in r
  {
    Filter(s, (e: CartEntry) => e.id != id)
  }

  /** Removal keeps the other entries in their order. */
  lemma RemovedIsSubsequence(s: seq<CartEntry>, id: int)
    ensures IsSubsequence(Removed(s, id), s)
  {
    FilterIsSubsequence(s, (e: CartEntry) => e.id != id);
  }

  /** Removing a product takes exactly its quantity out of the count. */
  lemma {:induction false} RemovedCount(s: seq<CartEntry>, id: int)
    requires UniqueIds(s)
    ensures var k := EntryIndex(s, id);
            ItemCount(Removed(s, id)) == ItemCount(s) - (if k >= 0 then s[k].quantity else 0)
  {
    if s != [] {
      var t := s[1..];
      assert UniqueIds(t);
      RemovedCount(t, id);
      if s[0].id == id {
        assert EntryIndex(t, id) == -1;
        assert Removed(s, id) == Removed(t, id);
      } else {
        assert Removed(s, id) == [s[0]] + Removed(t, id);
      }
    }
  }

  /** The entry after `updateQuantity` found it: the stock refreshed when it
      was unknown, then the quantity set unless the known stock is exceeded. */
  function RefreshStock(stock: Option<int>, fetch: StockFetch): (r: Option<int>)
    ensures IntOr(stock, 0) != 0 ==> r == stock
    ensures IntOr(stock, 0) == 0 && fetch.Fetched? ==> r == fetch.stock
    ensures IntOr(stock, 0) == 0 && fetch.FetchFailed? ==> r == stock
  {
    if IntOr(stock, 0) != 0 then stock
    else match fetch
      case FetchFailed => stock
      case Fetched(s) => s
  }

  /** The quantity check: a known, non-zero stock below the request rejects it. */
  predicate ExceedsStock(stock: Option<int>, quantity: int) {
    IntOr(stock, 0) != 0 && quantity > stock.value
  }

  function Max(a: int, b: int): int {
    if a >= b then a else b
  }

  class Cart {
    var items: seq<CartEntry>
    /** The saved copy under the storage key; None once the key is removed. */
    var saved: Option<seq<CartEntry>>

    /** `JSON.parse(localStorage.getItem('cart-bois')) || []`. */
    constructor(stored: Option<seq<CartEntry>>)
      ensures items == stored.GetOr([]) && saved == stored
    {
      items := stored.GetOr([]);
      saved := stored;
    }

    /** `addItem(product, quantity = 1)`. */
    method AddItem(p: CartProduct, quantity: Option<int>) returns (added: bool)
      modifies this
      ensures var q := quantity.GetOr(1);
              added == AddFits(old(items), p, q)
              && (added ==> items == Added(old(items), p, q) && saved == Some(items)
                            && ItemCount(items) == ItemCount(old(items)) + q)
              && (!added ==> items == old(items) && saved == old(saved))
      ensures old(UniqueIds(items)) ==> UniqueIds(items)
    {
      var q := quantity.GetOr(1);
      var k := EntryIndex(items, p.id);
      if k >= 0 {
        var newQuantity := items[k].quantity + q;
        if newQuantity > p.stock {
          return false;
        }
        items := items[k := items[k].(quantity := newQuantity, stock := Some(p.stock))];
      } else {
        if q > p.stock {
          return false;
        }
        items := items + [NewEntry(p, q)];
      }
      AddedCount(old(items), p, q);
      saved := Some(items);
      added := true;
    }

    /** `removeItem(productId)`. */
    method RemoveItem(id: int)
      modifies this
      ensures items == Removed(old(items), id) && saved == Some(items)
      ensures old(UniqueIds(items)) ==> UniqueIds(items)
    {
      items := Removed(items, id);
      saved := Some(items);
      assert old(UniqueIds(items)) ==> UniqueIds(items) by {
        if old(UniqueIds(items)) {
          RemovedOrder(old(items), id);
        }
      }
    }

    /** `updateQuantity(productId, quantity)`; the product lookup's outcome
        is a parameter. Returns whether the quantity was set. */
    method UpdateQuantity(id: int, quantity: int, fetch: StockFetch) returns (applied: bool)
      modifies this
      ensures var k := EntryIndex(old(items), id);
              if k < 0 then items == old(items) && saved == old(saved) && !applied
              else
                var stock := RefreshStock(old(items)[k].stock, fetch);
                applied == !ExceedsStock(stock, quantity)
                && items == old(items)[k := old(items)[k].(stock := stock,
                              quantity := if applied then Max(1, quantity) else old(items)[k].quantity)]
                && saved == if applied || (IntOr(old(items)[k].stock, 0) == 0 && fetch.Fetched?) then Some(items)
                            else old(saved)
      ensures old(UniqueIds(items)) ==> UniqueIds(items)
    {
      var k := EntryIndex(items, id);
      if k < 0 {
        return false;
      }
      if IntOr(items[k].stock, 0) == 0 {
        match fetch {
          case FetchFailed =>
          case Fetched(s) =>
            items := items[k := items[k].(stock := s)];
            saved := Some(items);
        }
      }
      if ExceedsStock(items[k].stock, quantity) {
        return false;
      }
      items := items[k := items[k].(quantity := Max(1, quantity))];
      saved := Some(items);
      applied := true;
    }

    /** `clear()`. */
    method Clear()
      modifies this
      ensures items == [] && saved == Some([])
      ensures Total(items) == 0 && ItemCount(items) == 0
    {
      items := [];
      saved := Some([]);
    }
  }

  /** Removing by id keeps the relative order of what stays, so distinct ids stay distinct. */
  lemma {:induction false} RemovedOrder(s: seq<CartEntry>, id: int)
    requires UniqueIds(s)
    ensures UniqueIds(Removed(s, id))
  {
    if s != [] {
      assert UniqueIds(s[1..]);
      RemovedOrder(s[1..], id);
      if s[0].id != id {
        var r := Removed(s[1..], id);
        assert forall i :: 0 <= i < |r| ==> r[i] in s[1..];
        assert forall i :: 0 <= i < |r| ==> r[i].id != s[0].id;
      }
    }
  }

  /** The body both checkout pages post to the orders route. Absent
      fields are None. */
  datatype OrderPayload = OrderPayload(
    customerName: Option<string>,
    customerEmail: Option<string>,
    customerPhone: Option<string>,
    customerAddress: Option<string>,
    items: seq<CartEntry>,
    subtotal: Option<int>,
    shippingCost: Option<int>,
    totalAmount: int,
    paymentMethod: string,
    paymentId: Option<string>)

  /** The snapshot fields of a cart entry. */
  function ToOrderItem(e: CartEntry): OrderItems.OrderItem {
    OrderItems.OrderItem(e.id, e.name, e.price, e.quantity)
  }

  /** The payload as the orders route reads it. */
  function ToOrderRequest(p: OrderPayload): (r: Orders.OrderRequest)
    ensures r.items.Some? && |r.items.value| == |p.items|
    ensures forall i :: 0 <= i < |p.items| ==> r.items.value[i] == ToOrderItem(p.items[i])
    ensures r.customerName == p.customerName && r.customerEmail == p.customerEmail
    ensures r.customerPhone == p.customerPhone && r.customerAddress == p.customerAddress
    ensures r.paymentId == p.paymentId
    ensures r.totalAmount == Some(p.totalAmount) && r.paymentMethod == Some(p.paymentMethod)
    ensures r.subtotal == p.subtotal && r.shippingCost == p.shippingCost
  {
    Orders.OrderRequest(p.customerName, p.customerEmail, p.customerPhone, p.customerAddress,
      Some(seq(|p.items|, i requires 0 <= i < |p.items| => ToOrderItem(p.items[i]))),
      p.subtotal, p.shippingCost, Some(p.totalAmount), Some(p.paymentMethod), p.paymentId)
  }

  /** The server refuses a payload whose total is zero, whatever its items. */
  lemma ZeroTotalRejected(p: OrderPayload)
    requires p.totalAmount == 0
    ensures !Orders.Accepts(ToOrderRequest(p))
  {
  }

  /** Without subtotal and shipping fields the server stores both as 0. */
  lemma MissingAmountsDefaultToZero(p: OrderPayload, id: nat, now: int)
    requires p.subtotal.None? && p.shippingCost.None?
    requires Orders.Accepts(ToOrderRequest(p))
    ensures Orders.NewOrder(ToOrderRequest(p), id, now).subtotal == 0
    ensures Orders.NewOrder(ToOrderRequest(p), id, now).shippingCost == 0
    ensures Orders.NewOrder(ToOrderRequest(p), id, now).totalAmount == p.totalAmount
  {
  }
}
