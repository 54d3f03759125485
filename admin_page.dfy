/** The admin dashboard script: the edit form's gallery of stored images
    and of newly chosen files, the shop-gallery ordering, and the order and
    message badges. */
module AdminPage {
  import opened Common
  import opened Seqs
  import opened Sorting
  import opened Products
  import Orders
  import ContactRoutes
  import AdminRoutes
  import BoutiqueRoutes

  /** `forEach((img, idx) => { display_order = base + idx; is_primary = idx === 0 })`. */
  function Renumbered(s: seq<ProductImage>, base: int): (r: seq<ProductImage>)
    ensures |r| == |s|
    ensures forall i :: 0 <= i < |r| ==>
              r[i] == s[i].(displayOrder := base + i, isPrimary := i == 0)
  {
    seq(|s|, i requires 0 <= i < |s| => s[i].(displayOrder := base + i, isPrimary := i == 0))
  }

  /** The image ids, in gallery order. */
  function Ids(s: seq<ProductImage>): (r: seq<int>)
    ensures |r| == |s| && forall i :: 0 <= i < |s| ==> r[i] == s[i].id
  {
    seq(|s|, i requires 0 <= i < |s| => s[i].id)
  }

  /** Renumbering keeps every image, in place: only the order and the
      primary flag change, and only the first image is primary. */
  lemma RenumberedKeepsImages(s: seq<ProductImage>, base: int)
    ensures Ids(Renumbered(s, base)) == Ids(s)
    ensures forall i :: 0 <= i < |s| ==>
              Renumbered(s, base)[i].imagePath == s[i].imagePath
              && Renumbered(s, base)[i].displayOrder == base + i
              && (Renumbered(s, base)[i].isPrimary <==> i == 0)
    ensures SortedBy(Renumbered(s, base), ByDisplayOrder)
  {
    var r := Renumbered(s, base);
    assert Ids(r) == Ids(s);
  }

  /** Renumbering forgets the previous numbering. */
  lemma RenumberedTwice(s: seq<ProductImage>, a: int, b: int)
    ensures Renumbered(Renumbered(s, a), b) == Renumbered(s, b)
  {
  }

  /** The renumbering loop. */
  method Renumber(s: seq<ProductImage>, base: int) returns (r: seq<ProductImage>)
    ensures r == Renumbered(s, base)
  {
    r := s;
    var idx := 0;
    while idx < |r|
      invariant |r| == |s| && 0 <= idx <= |r|
      invariant forall i :: 0 <= i < idx ==> r[i] == s[i].(displayOrder := base + i, isPrimary := i == 0)
      invariant forall i :: idx <= i < |r| ==> r[i] == s[i]
    {
      r := r[idx := r[idx].(displayOrder := base + idx, isPrimary := idx == 0)];
      idx := idx + 1;
    }
  }

  /** The gallery after moving the image at `fromIndex` by `direction`. */
  function Moved(s: seq<ProductImage>, fromIndex: nat, direction: int): (r: seq<ProductImage>)
    requires fromIndex < |s|
    ensures |r| == |s|
  {
    var toIndex := fromIndex + direction;
    if toIndex < 0 || toIndex >= |s| then s else Renumbered(Swap(s, fromIndex, toIndex), 1)
  }

  /** A move within bounds swaps two images and renumbers from 1; moving
      it back restores the gallery as numbered by the first move. */
  lemma MoveAndBack(s: seq<ProductImage>, i: nat, j: nat)
    requires i < |s| && j < |s|
    ensures multiset(Ids(Moved(s, i, j - i))) == multiset(Ids(s))
    ensures Ids(Moved(s, i, j - i))[i] == s[j].id && Ids(Moved(s, i, j - i))[j] == s[i].id
    ensures Moved(Moved(s, i, j - i), j, i - j) == Renumbered(s, 1)
  {
    var t := Swap(s, i, j);
    SwapIsPermutation(Ids(s), i, j);
    assert Ids(t) == Swap(Ids(s), i, j);
    RenumberedKeepsImages(t, 1);
    var u := Renumbered(t, 1);
    assert Swap(u, j, i) == Renumbered(s, 1)[i := u[j]][j := u[i]];
    assert Renumbered(Swap(u, j, i), 1) == Renumbered(s, 1);
  }

  /** The ids the local deletion keeps, in their order. */
  function NotImage(id: int): ProductImage -> bool {
    (img: ProductImage) => img.id != id
  }

  /** After a deletion the kept images stay in their order and are
      numbered from 0, where a move numbers them from 1. */
  lemma DeletionNumbersFromZero(s: seq<ProductImage>, imageId: int)
    requires exists i :: 0 <= i < |s| && s[i].id != imageId
    ensures IsSubsequence(Filter(s, NotImage(imageId)), s)
    ensures Renumbered(Filter(s, NotImage(imageId)), 0) != []
    ensures Renumbered(Filter(s, NotImage(imageId)), 0)[0].displayOrder == 0
    ensures Renumbered(Filter(s, NotImage(imageId)), 0)[0].isPrimary
  {
    var i :| 0 <= i < |s| && s[i].id != imageId;
    assert NotImage(imageId)(s[i]);
    FilterIsSubsequence(s, NotImage(imageId));
  }

  /** The body `saveImageOrder` sends to the product reorder route. */
  function SaveImageOrderBody(s: seq<ProductImage>): (r: seq<AdminRoutes.ImageOrder>)
    ensures |r| == |s|
    ensures forall i :: 0 <= i < |s| ==> r[i] == AdminRoutes.ImageOrder(s[i].id, s[i].displayOrder, s[i].isPrimary)
  {
    seq(|s|, i requires 0 <= i < |s| => AdminRoutes.ImageOrder(s[i].id, s[i].displayOrder, s[i].isPrimary))
  }

  /** Saving a moved gallery gives the stored rows the page's numbering:
      the image at position k gets display order k + 1, and only the first
      is primary. */
  lemma SavedOrderMatchesPage(page: seq<ProductImage>, rows: seq<ProductImage>, k: nat, i: nat)
    requires forall a, b :: 0 <= a < b < |page| ==> page[a].id != page[b].id
    requires k < |page| && i < |rows| && rows[i].id == page[k].id
    ensures AdminRoutes.ApplyImageOrders(rows, SaveImageOrderBody(Renumbered(page, 1)))[i].displayOrder == k + 1
    ensures AdminRoutes.ApplyImageOrders(rows, SaveImageOrderBody(Renumbered(page, 1)))[i].isPrimary == (k == 0)
  {
    var body := SaveImageOrderBody(Renumbered(page, 1));
    assert forall a :: 0 <= a < |body| ==> body[a].id == page[a].id;
    AdminRoutes.ReorderSetsListed(rows, body, k, i);
  }

  /** The reorder body `moveBoutiqueImage` sends: every image with its
      position + 1. */
  function PositionsBody(s: seq<BoutiqueRoutes.BoutiqueImage>): (r: seq<BoutiqueRoutes.OrderEntry>)
    ensures |r| == |s|
    ensures forall i :: 0 <= i < |s| ==> r[i] == BoutiqueRoutes.OrderEntry(s[i].id, i + 1)
  {
    seq(|s|, i requires 0 <= i < |s| => BoutiqueRoutes.OrderEntry(s[i].id, i + 1))
  }

  /** The local `display_order = idx + 1` update after a saved move. */
  function Positioned(s: seq<BoutiqueRoutes.BoutiqueImage>): (r: seq<BoutiqueRoutes.BoutiqueImage>)
    ensures |r| == |s|
    ensures forall i :: 0 <= i < |s| ==> r[i] == s[i].(displayOrder := i + 1)
  {
    seq(|s|, i requires 0 <= i < |s| => s[i].(displayOrder := i + 1))
  }

  /** The server and the page agree after a saved gallery move: each stored
      row gets the order the page shows for it. */
  lemma BoutiqueMoveAgrees(page: seq<BoutiqueRoutes.BoutiqueImage>, rows: seq<BoutiqueRoutes.BoutiqueImage>, k: nat, i: nat)
    requires forall a, b :: 0 <= a < b < |page| ==> page[a].id != page[b].id
    requires k < |page| && i < |rows| && rows[i].id == page[k].id
    ensures BoutiqueRoutes.ApplyOrders(rows, PositionsBody(page))[i].displayOrder == Positioned(page)[k].displayOrder
  {
    BoutiqueRoutes.ApplyOrdersSetsListed(rows, PositionsBody(page), k, i);
  }

  predicate IsPending(o: Orders.Order) {
    o.status == Some("pending")
  }

  predicate IsDelivered(o: Orders.Order) {
    o.status == Some("delivered")
  }

  function NotDelivered(): Orders.Order -> bool {
    (o: Orders.Order) => !IsDelivered(o)
  }

  function AnyOrder(): Orders.Order -> bool {
    (o: Orders.Order) => true
  }

  /** The number the orders badge shows. */
  function OrdersBadge(orders: seq<Orders.Order>): nat {
    |Filter(orders, IsPending)|
  }

  /** The orders `displayOrders` lists: all, or all but the delivered ones. */
  function VisibleOrders(orders: seq<Orders.Order>, hideDelivered: bool): (r: seq<Orders.Order>)
    ensures IsSubsequence(r, orders)
    ensures hideDelivered ==> forall i :: 0 <= i < |orders| ==> (orders[i] in r <==> !IsDelivered(orders[i]))
    ensures !hideDelivered ==> r == orders
  {
    FilterIsSubsequence(orders, NotDelivered());
    FilterIsSubsequence(orders, AnyOrder());
    FilterAll(orders, AnyOrder());
    if hideDelivered then Filter(orders, NotDelivered()) else orders
  }

  /** Hiding delivered orders hides no pending one. */
  lemma HidingDeliveredKeepsPending(orders: seq<Orders.Order>)
    ensures Filter(VisibleOrders(orders, true), IsPending) == Filter(orders, IsPending)
  {
    FilterImplied(orders, NotDelivered(), IsPending);
  }

  predicate IsUnread(c: ContactRoutes.ContactRow) {
    c.status == "nouveau"
  }

  /** The number the messages badge shows. */
  function MessagesBadge(contacts: seq<ContactRoutes.ContactRow>): nat {
    |Filter(contacts, IsUnread)|
  }

  /** Marking an unread message read, when ids are distinct, takes one
      off the messages badge. */
  lemma {:induction false} MarkingReadDecrementsBadge(contacts: seq<ContactRoutes.ContactRow>, id: int, status: string)
    requires forall a, b :: 0 <= a < b < |contacts| ==> contacts[a].id != contacts[b].id
    requires exists i :: 0 <= i < |contacts| && contacts[i].id == id && IsUnread(contacts[i])
    requires status != "nouveau"
    ensures MessagesBadge(ContactRoutes.WithStatus(contacts, id, status)) == MessagesBadge(contacts) - 1
  {
    var r := ContactRoutes.WithStatus(contacts, id, status);
    assert r[0] == if contacts[0].id == id then contacts[0].(status := status) else contacts[0];
    var tail := contacts[1..];
    assert ContactRoutes.WithStatus(tail, id, status) == r[1..];
    if contacts[0].id == id {
      forall i | 0 <= i < |tail| ensures tail[i].id != id {
        assert contacts[i + 1] == tail[i];
      }
      assert ContactRoutes.WithStatus(tail, id, status) == tail;
    } else {
      var i :| 0 <= i < |contacts| && contacts[i].id == id && IsUnread(contacts[i]);
      assert tail[i - 1] == contacts[i];
      MarkingReadDecrementsBadge(tail, id, status);
    }
  }

  /** The page's state that the gallery and list functions update in place. */
  class PageState {
    var existingImages: seq<ProductImage>
    var newImageFiles: seq<string>
    var boutiqueImages: seq<BoutiqueRoutes.BoutiqueImage>

    constructor()
      ensures existingImages == [] && newImageFiles == [] && boutiqueImages == []
    {
      existingImages := [];
      newImageFiles := [];
      boutiqueImages := [];
    }

    /** `editProduct`: nothing changes when the product is not in the
        listed products; otherwise the product's stored images in display
        order (none when the product cannot be fetched), and no new files yet. */
    method EditProduct(listed: bool, fetched: Option<seq<ProductImage>>)
      modifies this`existingImages, this`newImageFiles
      ensures !listed ==> existingImages == old(existingImages) && newImageFiles == old(newImageFiles)
      ensures listed && fetched.None? ==> existingImages == []
      ensures listed && fetched.Some? ==> existingImages == SortBy(fetched.value, ByDisplayOrder)
      ensures listed && fetched.Some? ==> SortedBy(existingImages, ByDisplayOrder)
                                          && multiset(existingImages) == multiset(fetched.value)
      ensures listed ==> newImageFiles == []
    {
      if !listed {
        return;
      }
      existingImages := if fetched.Some? then SortBy(fetched.value, ByDisplayOrder) else [];
      newImageFiles := [];
    }

    /** `moveExistingImage`, from an arrow button of image `fromIndex`. */
    method MoveExistingImage(fromIndex: nat, direction: int)
      requires fromIndex < |existingImages|
      modifies this`existingImages
      ensures existingImages == Moved(old(existingImages), fromIndex, direction)
      ensures fromIndex + direction < 0 || fromIndex + direction >= |old(existingImages)| ==>
                existingImages == old(existingImages)
    {
      var toIndex := fromIndex + direction;
      if toIndex < 0 || toIndex >= |existingImages| {
        return;
      }
      var temp := existingImages[fromIndex];
      existingImages := existingImages[fromIndex := existingImages[toIndex]];
      existingImages := existingImages[toIndex := temp];
      existingImages := Renumber(existingImages, 1);
    }

    /** `deleteExistingImage`: nothing changes unless the admin confirms and
        the server deletes the image; then the other images stay, in
        order, renumbered from 0. */
    method DeleteExistingImage(imageId: int, confirmed: bool, responseOk: bool)
      modifies this`existingImages
      ensures !(confirmed && responseOk) ==> existingImages == old(existingImages)
      ensures confirmed && responseOk ==>
                existingImages == Renumbered(Filter(old(existingImages), NotImage(imageId)), 0)
    {
      if !confirmed || !responseOk {
        return;
      }
      existingImages := Filter(existingImages, NotImage(imageId));
      existingImages := Renumber(existingImages, 0);
    }

    /** `moveNewImage`: swaps two chosen files when the target is in range. */
    method MoveNewImage(fromIndex: nat, direction: int)
      requires fromIndex < |newImageFiles|
      modifies this`newImageFiles
      ensures var toIndex := fromIndex + direction;
              if 0 <= toIndex < |old(newImageFiles)| then newImageFiles == Swap(old(newImageFiles), fromIndex, toIndex)
              else newImageFiles == old(newImageFiles)
      ensures multiset(newImageFiles) == multiset(old(newImageFiles))
    {
      var toIndex := fromIndex + direction;
      if toIndex < 0 || toIndex >= |newImageFiles| {
        return;
      }
      SwapIsPermutation(newImageFiles, fromIndex, toIndex);
      newImageFiles := Swap(newImageFiles, fromIndex, toIndex);
    }

    /** `removeNewImage`: `splice(index, 1)`. */
    method RemoveNewImage(index: int)
      modifies this`newImageFiles
      ensures newImageFiles == SpliceOne(old(newImageFiles), index)
      ensures 0 <= index < |old(newImageFiles)| ==>
                newImageFiles == old(newImageFiles)[..index] + old(newImageFiles)[index + 1..]
    {
      SpliceOneRemoves(newImageFiles, index);
      newImageFiles := SpliceOne(newImageFiles, index);
    }

    /** `moveBoutiqueImage`: no request for an unknown id or a move out of
        range; otherwise the two images swap at once, the positions are
        sent, and then either the local orders become positions + 1 or,
        when the request fails, the gallery is reloaded (staying as it is
        when the reload fails too). */
    method MoveBoutiqueImage(id: int, direction: int, responseOk: bool,
                             reloaded: Option<seq<BoutiqueRoutes.BoutiqueImage>>)
      returns (sent: Option<seq<BoutiqueRoutes.OrderEntry>>)
      modifies this`boutiqueImages
      ensures var index := FindIndex(old(boutiqueImages), (img: BoutiqueRoutes.BoutiqueImage) => img.id == id);
              if index == -1 || index + direction < 0 || index + direction >= |old(boutiqueImages)| then
                sent == None && boutiqueImages == old(boutiqueImages)
              else
                var swapped := Swap(old(boutiqueImages), index, index + direction);
                sent == Some(PositionsBody(swapped))
                && (responseOk ==> boutiqueImages == Positioned(swapped))
                && (!responseOk ==> boutiqueImages == reloaded.GetOr(swapped))
    {
      var index := FindIndex(boutiqueImages, (img: BoutiqueRoutes.BoutiqueImage) => img.id == id);
      if index == -1 {
        return None;
      }
      var newIndex := index + direction;
      if newIndex < 0 || newIndex >= |boutiqueImages| {
        return None;
      }
      boutiqueImages := Swap(boutiqueImages, index, newIndex);
      sent := Some(PositionsBody(boutiqueImages));
      if responseOk {
        var idx := 0;
        ghost var swapped := boutiqueImages;
        while idx < |boutiqueImages|
          invariant |boutiqueImages| == |swapped| && 0 <= idx <= |boutiqueImages|
          invariant forall i :: 0 <= i < idx ==> boutiqueImages[i] == swapped[i].(displayOrder := i + 1)
          invariant forall i :: idx <= i < |boutiqueImages| ==> boutiqueImages[i] == swapped[i]
        {
          boutiqueImages := boutiqueImages[idx := boutiqueImages[idx].(displayOrder := idx + 1)];
          idx := idx + 1;
        }
      } else if reloaded.Some? {
        boutiqueImages := reloaded.value;
      }
    }
  }
}
