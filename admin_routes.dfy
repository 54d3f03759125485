/** The admin API: the upload filter, login, product creation and update
    with their image rows, image deletion with promotion of a new primary,
    image reordering, the admin product listing and the dashboard
    statistics. The products and product_images tables are sequences of
    rows; the session is the admin id it holds. */
module AdminRoutes {
  import opened Common
  import opened Seqs
  import opened Text
  import opened Sorting
  import opened Products
  import Orders

  // ---------------------------------------------------------------- uploads

  /** An uploaded file as the upload middleware sees it; `storedName` is the
      generated file name (a timestamp, a random number and the extension). */
  datatype Upload = Upload(mimetype: string, originalName: string, size: nat, storedName: string)

  const MaxUploadSize: nat := 5 * 1024 * 1024
  const MaxUploadCount: nat := 10

  /** The pattern `/jpeg|jpg|png|gif|webp/`, unanchored: it matches any text
      containing one of the five words. */
  predicate ImageTypeText(s: string) {
    Contains(s, "jpeg") || Contains(s, "jpg") || Contains(s, "png") || Contains(s, "gif") || Contains(s, "webp")
  }

  /** The file filter: both the MIME type and the lower-cased extension match. */
  predicate AcceptedFile(u: Upload) {
    ImageTypeText(u.mimetype) && ImageTypeText(Lower(Extname(u.originalName)))
  }

  predicate UploadFits(u: Upload) {
    AcceptedFile(u) && u.size <= MaxUploadSize
  }

  function StoredPath(u: Upload): string {
    "/images/products/" + u.storedName
  }

  /** The `images` field handled by the upload middleware: at most ten files,
      each an image of at most 5 MB, or the answer 400. */
  function CheckUploads(files: seq<Upload>): (r: Result<seq<string>>)
    ensures r.Ok? <==> |files| <= MaxUploadCount && forall i :: 0 <= i < |files| ==> UploadFits(files[i])
    ensures r.Err? ==> r.status == BadRequest
    ensures r.Ok? ==> |r.value| == |files| && forall i :: 0 <= i < |files| ==> r.value[i] == StoredPath(files[i])
  {
    if |files| > MaxUploadCount || exists i :: 0 <= i < |files| && !UploadFits(files[i]) then Err(BadRequest)
    else Ok(seq(|files|, i requires 0 <= i < |files| => StoredPath(files[i])))
  }

  /** The five words of the pattern. */
  predicate ImageWord(w: string) {
    w == "jpeg" || w == "jpg" || w == "png" || w == "gif" || w == "webp"
  }

  /** A text containing one of the image words matches the pattern. */
  lemma ContainsImageWord(s: string, w: string, i: nat)
    requires ImageWord(w) && OccursAt(s, w, i)
    ensures ImageTypeText(s)
  {
  }

  /** A name whose only dot, if any, is its first character has no
      extension, so the filter refuses it whatever its type: `.png` or
      `photo` are refused. */
  lemma DotFileRefused(u: Upload)
    requires forall j :: 0 < j < |u.originalName| ==> u.originalName[j] != '.'
    ensures !AcceptedFile(u)
  {
    var name := u.originalName;
    var k := LastDot(name);
    assert k <= 0;
    assert Extname(name) == "";
    assert Lower("") == "";
    assert !Contains("", "jpeg") && !Contains("", "jpg") && !Contains("", "png") && !Contains("", "gif");
    assert !Contains("", "webp");
  }

  /** The image words are lower-case letters. */
  lemma ImageWordLetters(w: string)
    requires ImageWord(w)
    ensures forall j :: 0 <= j < |w| ==> 'a' <= w[j] <= 'z'
  {
  }

  /** Lower-casing keeps an image word where it occurs. */
  lemma LowerKeepsImageWord(e: string, w: string, i: nat)
    requires ImageWord(w) && OccursAt(e, w, i)
    ensures OccursAt(Lower(e), w, i)
  {
    ImageWordLetters(w);
    var lower := Lower(e);
    forall j | 0 <= j < |w| ensures lower[i + j] == w[j] {
      assert e[i + j] == w[j];
    }
    assert lower[i..i + |w|] == w;
  }

  /** Text around an image word, none of it a dot, has no dot. */
  lemma NoDotAround(before: string, w: string, after: string)
    requires ImageWord(w)
    requires forall j :: 0 <= j < |before| ==> before[j] != '.'
    requires forall j :: 0 <= j < |after| ==> after[j] != '.'
    ensures forall j :: 0 <= j < |before + w + after| ==> (before + w + after)[j] != '.'
  {
    ImageWordLetters(w);
    var tail := before + w + after;
    forall j | 0 <= j < |tail| ensures tail[j] != '.' {
      if j < |before| {
        assert tail[j] == before[j];
      } else if j < |before| + |w| {
        assert tail[j] == w[j - |before|];
      } else {
        assert tail[j] == after[j - |before| - |w|];
      }
    }
  }

  /** The pattern is unanchored: any extension that merely contains an image
      word, such as `.webpage` or `.xpngx`, passes the filter, together with
      any type containing one. */
  lemma UnanchoredExtensionAccepted(u: Upload, base: string, before: string, w: string, after: string)
    requires base != [] && ImageWord(w)
    requires u.originalName == base + "." + before + w + after
    requires forall j :: 0 <= j < |before| ==> before[j] != '.'
    requires forall j :: 0 <= j < |after| ==> after[j] != '.'
    requires ImageTypeText(u.mimetype) && u.size <= MaxUploadSize
    ensures UploadFits(u)
  {
    var tail := before + w + after;
    assert Extname(u.originalName) == "." + tail by {
      NoDotAround(before, w, after);
      assert u.originalName == base + "." + tail;
      ExtnameOfTail(base, tail);
    }
    WordInExtension(before, w, after);
  }

  /** An extension holding an image word matches the pattern once lower-cased. */
  lemma WordInExtension(before: string, w: string, after: string)
    requires ImageWord(w)
    ensures ImageTypeText(Lower("." + (before + w + after)))
  {
    var e := "." + (before + w + after);
    var i := 1 + |before|;
    assert OccursAt(Lower(e), w, i) by {
      assert e[i..i + |w|] == w;
      LowerKeepsImageWord(e, w, i);
    }
    ContainsImageWord(Lower(e), w, i);
  }

  // ------------------------------------------------------------------ login

  /** A row of the admins table; usernames are unique. */
  datatype Admin = Admin(id: int, username: string, passwordHash: string, email: Option<string>)

  /** `POST /login`: 400 without both credentials; 401 for an unknown user or
      a wrong password, leaving the session as it was; otherwise the admin's
      id is stored in the session. `passwordMatches` is the hash check. */
  function Login(admins: seq<Admin>, username: Option<string>, password: Option<string>, session: Session,
                 passwordMatches: (string, string) -> bool): (r: (Result<Admin>, Session))
    ensures !Truthy(username) || !Truthy(password) ==> r.0 == Err(BadRequest)
    ensures Truthy(username) && Truthy(password) && (forall i :: 0 <= i < |admins| ==> admins[i].username != username.value)
            ==> r.0 == Err(Unauthorized)
    ensures Truthy(username) && Truthy(password) ==>
              forall i :: 0 <= i < |admins| && admins[i].username == username.value
                          && (forall j :: 0 <= j < i ==> admins[j].username != username.value) ==>
                            (r.0.Ok? <==> passwordMatches(password.value, admins[i].passwordHash))
    ensures r.0.Ok? ==> r.0.value in admins && r.0.value.username == username.value
                        && passwordMatches(password.value, r.0.value.passwordHash)
                        && r.1 == Some(r.0.value.id)
    ensures r.0.Err? ==> r.1 == session && (r.0.status == BadRequest || r.0.status == Unauthorized)
  {
    if !Truthy(username) || !Truthy(password) then (Err(BadRequest), session)
    else
      var k := FindIndex(admins, (a: Admin) => a.username == username.value);
      if k < 0 then (Err(Unauthorized), session)
      else if !passwordMatches(password.value, admins[k].passwordHash) then (Err(Unauthorized), session)
      else (Ok(admins[k]), Some(admins[k].id))
  }

  /** `GET /check-session`: authenticated exactly when the session holds an
      admin id. */
  function CheckSession(session: Session): (authenticated: bool)
    ensures authenticated <==> session.Some? && session.value != 0
  {
    IsAdmin(session)
  }

  /** `POST /logout` as written: the session of cookie-session has no
      `destroy`, so the handler throws, Express answers 500 and the session
      cookie is left as it was. */
  function Logout(session: Session): (r: (Result<()>, Session))
    ensures r.0.Err? && r.0.status == ServerError
    ensures r.1 == session
  {
    (Err(ServerError), session)
  }

  /** The logout as written leaves an admin logged in. */
  lemma LoggedOutAdminStillAdmin(session: Session)
    requires IsAdmin(session)
    ensures Logout(session).0.Err? && CheckSession(Logout(session).1)
  {
  }

  /** The logout intended: the session is emptied and the answer is success. */
  function LogoutIntended(session: Session): (r: (Result<()>, Session))
    ensures r.0.Ok? && r.1.None?
  {
    (Ok(()), None)
  }

  /** After the intended logout the session no longer passes the admin gate,
      whatever it held before. */
  lemma IntendedLogoutEndsSession(session: Session)
    ensures LogoutIntended(session).0.Ok?
    ensures !CheckSession(LogoutIntended(session).1) && !IsAdmin(LogoutIntended(session).1)
  {
  }

  // ------------------------------------------------------------ image rows

  /** The fields of a product form. */
  datatype ProductForm = ProductForm(name: string, description: Option<string>, woodType: Option<string>,
                                     price: int, category: string, stock: int)

  function NewProductRow(id: int, form: ProductForm, imageUrl: Option<string>, now: int): Product {
    Product(id, form.name, form.description, form.woodType, form.price, form.category, form.stock, imageUrl, now)
  }

  /** The image rows a product creation inserts: upload k gets display order
      k + 1, and only the first is primary. */
  function FirstImageRows(productId: int, paths: seq<string>, firstId: int): (r: seq<ProductImage>)
    ensures |r| == |paths|
    ensures forall k :: 0 <= k < |r| ==>
              r[k] == ProductImage(firstId + k, productId, paths[k], k + 1, k == 0)
  {
    seq(|paths|, k requires 0 <= k < |paths| => ProductImage(firstId + k, productId, paths[k], k + 1, k == 0))
  }

  /** The image rows a product update appends: consecutive display orders
      from `startOrder`, none primary. */
  function AppendedImageRows(productId: int, paths: seq<string>, firstId: int, startOrder: int): (r: seq<ProductImage>)
    ensures |r| == |paths|
    ensures forall k :: 0 <= k < |r| ==>
              r[k] == ProductImage(firstId + k, productId, paths[k], startOrder + k, false)
  {
    seq(|paths|, k requires 0 <= k < |paths| => ProductImage(firstId + k, productId, paths[k], startOrder + k, false))
  }

  /** `SELECT MAX(display_order) ... WHERE product_id = ?`: NULL without rows. */
  function MaxDisplayOrder(images: seq<ProductImage>, productId: int): (m: Option<int>)
    ensures m.None? <==> forall i :: 0 <= i < |images| ==> images[i].productId != productId
    ensures m.Some? ==> forall i :: 0 <= i < |images| && images[i].productId == productId ==> images[i].displayOrder <= m.value
    ensures m.Some? ==> exists i :: 0 <= i < |images| && images[i].productId == productId && images[i].displayOrder == m.value
  {
    if images == [] then None
    else
      var rest := MaxDisplayOrder(images[1..], productId);
      assert forall i :: 1 <= i < |images| ==> images[i] == images[1..][i - 1];
      if images[0].productId != productId then rest
      else if rest.None? || images[0].displayOrder >= rest.value then Some(images[0].displayOrder)
      else rest
  }

  /** The first display order an update uses: max + 1, or 1 without images. */
  function StartOrder(images: seq<ProductImage>, productId: int): (s: int)
    ensures forall i :: 0 <= i < |images| && images[i].productId == productId ==> images[i].displayOrder < s
  {
    match MaxDisplayOrder(images, productId)
    case None => 1
    case Some(m) => m + 1
  }

  lemma FirstRowsSnoc(productId: int, paths: seq<string>, firstId: int, i: nat)
    requires i < |paths|
    ensures FirstImageRows(productId, paths[..i + 1], firstId)
            == FirstImageRows(productId, paths[..i], firstId) + [ProductImage(firstId + i, productId, paths[i], i + 1, i == 0)]
  {
    assert paths[..i + 1][..i] == paths[..i];
  }

  lemma AppendedRowsSnoc(productId: int, paths: seq<string>, firstId: int, startOrder: int, i: nat)
    requires i < |paths|
    ensures AppendedImageRows(productId, paths[..i + 1], firstId, startOrder)
            == AppendedImageRows(productId, paths[..i], firstId, startOrder)
               + [ProductImage(firstId + i, productId, paths[i], startOrder + i, false)]
  {
    assert paths[..i + 1][..i] == paths[..i];
  }

  /** The `forEach` inserting a new product's images. */
  method InsertFirstImages(images: seq<ProductImage>, productId: int, paths: seq<string>, firstId: int)
    returns (rows: seq<ProductImage>)
    ensures rows == images + FirstImageRows(productId, paths, firstId)
  {
    rows := images;
    var index := 0;
    while index < |paths|
      invariant 0 <= index <= |paths|
      invariant rows == images + FirstImageRows(productId, paths[..index], firstId)
    {
      FirstRowsSnoc(productId, paths, firstId, index);
      rows := rows + [ProductImage(firstId + index, productId, paths[index], index + 1, index == 0)];
      index := index + 1;
    }
    assert paths[..|paths|] == paths;
  }

  /** The `forEach` appending an updated product's images. */
  method InsertAppendedImages(images: seq<ProductImage>, productId: int, paths: seq<string>, firstId: int, startOrder: int)
    returns (rows: seq<ProductImage>)
    ensures rows == images + AppendedImageRows(productId, paths, firstId, startOrder)
  {
    rows := images;
    var index := 0;
    while index < |paths|
      invariant 0 <= index <= |paths|
      invariant rows == images + AppendedImageRows(productId, paths[..index], firstId, startOrder)
    {
      AppendedRowsSnoc(productId, paths, firstId, startOrder, index);
      rows := rows + [ProductImage(firstId + index, productId, paths[index], startOrder + index, false)];
      index := index + 1;
    }
    assert paths[..|paths|] == paths;
  }

  lemma FirstRowsSorted(productId: int, paths: seq<string>, firstId: int)
    ensures SortedBy(FirstImageRows(productId, paths, firstId), ByDisplayOrder)
  {
    var rows := FirstImageRows(productId, paths, firstId);
    forall i, j | 0 <= i < j < |rows| ensures ByDisplayOrder(rows[i]) <= ByDisplayOrder(rows[j]) {
      assert rows[i].displayOrder == i + 1 && rows[j].displayOrder == j + 1;
    }
  }

  lemma AppendedRowsSorted(productId: int, paths: seq<string>, firstId: int, startOrder: int)
    ensures SortedBy(AppendedImageRows(productId, paths, firstId, startOrder), ByDisplayOrder)
    ensures Paths(AppendedImageRows(productId, paths, firstId, startOrder)) == paths
  {
    var rows := AppendedImageRows(productId, paths, firstId, startOrder);
    forall i, j | 0 <= i < j < |rows| ensures ByDisplayOrder(rows[i]) <= ByDisplayOrder(rows[j]) {
      assert rows[i].displayOrder == startOrder + i && rows[j].displayOrder == startOrder + j;
    }
    assert Paths(rows) == paths;
  }

  lemma PathsAppend(a: seq<ProductImage>, b: seq<ProductImage>)
    ensures Paths(a + b) == Paths(a) + Paths(b)
  {
    assert forall i :: 0 <= i < |a| ==> (a + b)[i] == a[i];
    assert forall i :: |a| <= i < |a| + |b| ==> (a + b)[i] == b[i - |a|];
  }

  /** No row of `images` belongs to the product. */
  lemma NoOwnRows(images: seq<ProductImage>, productId: int)
    requires forall i :: 0 <= i < |images| ==> images[i].productId != productId
    ensures Filter(images, OwnImages(productId)) == []
  {
  }

  /** A new product's gallery lists its uploads in upload order, the first
      one primary. */
  lemma CreatedGalleryInUploadOrder(p: Product, images: seq<ProductImage>, paths: seq<string>, firstId: int)
    requires forall i :: 0 <= i < |images| ==> images[i].productId != p.id
    ensures EnrichProduct(p, images + FirstImageRows(p.id, paths, firstId)).imagePaths == paths
    ensures EnrichProduct(p, images + FirstImageRows(p.id, paths, firstId)).images == FirstImageRows(p.id, paths, firstId)
  {
    var rows := FirstImageRows(p.id, paths, firstId);
    FilterAppend(images, rows, OwnImages(p.id));
    FilterAll(rows, OwnImages(p.id));
    NoOwnRows(images, p.id);
    var own := Filter(images + rows, OwnImages(p.id));
    assert own == rows;
    FirstRowsSorted(p.id, paths, firstId);
    assert Paths(rows) == paths;
    SortBySorted(rows, ByDisplayOrder);
    EnrichedImages(p, images + rows);
  }

  /** Images added by an update come after all the existing ones, in upload
      order. */
  lemma AppendedGalleryAfterExisting(p: Product, images: seq<ProductImage>, paths: seq<string>, firstId: int)
    ensures EnrichProduct(p, images + AppendedImageRows(p.id, paths, firstId, StartOrder(images, p.id))).imagePaths
            == EnrichProduct(p, images).imagePaths + paths
  {
    var start := StartOrder(images, p.id);
    var rows := AppendedImageRows(p.id, paths, firstId, start);
    var own := Filter(images, OwnImages(p.id));
    FilterAppend(images, rows, OwnImages(p.id));
    FilterAll(rows, OwnImages(p.id));
    assert Filter(images + rows, OwnImages(p.id)) == own + rows;
    assert forall i :: 0 <= i < |own| ==> ByDisplayOrder(own[i]) < start by {
      forall i | 0 <= i < |own| ensures ByDisplayOrder(own[i]) < start {
        assert own[i] in images && own[i].productId == p.id;
      }
    }
    AppendedRowsSorted(p.id, paths, firstId, start);
    SortAppendLarger(own, rows, ByDisplayOrder);
    var sorted := SortBy(own, ByDisplayOrder);
    EnrichedImages(p, images + rows);
    EnrichedImages(p, images);
    PathsAppend(sorted, rows);
  }

  // --------------------------------------------------------- image deletion

  /** `SELECT ... WHERE product_id = ? ORDER BY display_order LIMIT 1`: a row
      of the product with the lowest display order (the first such row on a
      tie), or none. */
  function LowestOrderImage(images: seq<ProductImage>, productId: int): (r: Option<ProductImage>)
    ensures r.None? <==> forall i :: 0 <= i < |images| ==> images[i].productId != productId
    ensures r.Some? ==> r.value in images && r.value.productId == productId
    ensures r.Some? ==> forall i :: 0 <= i < |images| && images[i].productId == productId ==>
                          r.value.displayOrder <= images[i].displayOrder
  {
    if images == [] then None
    else
      var rest := LowestOrderImage(images[1..], productId);
      assert forall i :: 1 <= i < |images| ==> images[i] == images[1..][i - 1];
      if images[0].productId != productId then rest
      else if rest.None? || images[0].displayOrder <= rest.value.displayOrder then Some(images[0])
      else rest
  }

  function ImageWithId(imageId: int): ProductImage -> bool {
    (img: ProductImage) => img.id == imageId
  }

  function NotImage(imageId: int): ProductImage -> bool {
    (img: ProductImage) => img.id != imageId
  }

  /** `UPDATE product_images SET is_primary = 1 WHERE id = ?`. */
  function SetPrimary(images: seq<ProductImage>, imageId: int): (r: seq<ProductImage>)
    ensures |r| == |images|
    ensures forall i :: 0 <= i < |r| ==>
              r[i] == if images[i].id == imageId then images[i].(isPrimary := true) else images[i]
  {
    seq(|images|, i requires 0 <= i < |images| =>
      if images[i].id == imageId then images[i].(isPrimary := true) else images[i])
  }

  /** `UPDATE products SET image_url = ? WHERE id = ?`. */
  function SetImageUrl(products: seq<Product>, productId: int, url: Option<string>): (r: seq<Product>)
    ensures |r| == |products|
    ensures forall i :: 0 <= i < |r| ==>
              r[i] == if products[i].id == productId then products[i].(imageUrl := url) else products[i]
  {
    seq(|products|, i requires 0 <= i < |products| =>
      if products[i].id == productId then products[i].(imageUrl := url) else products[i])
  }

  /** `UPDATE products SET name = ?, ... WHERE id = ?`: the form's fields
      replace those of the rows with that id; image_url and created_at stay. */
  function UpdateRows(products: seq<Product>, id: int, form: ProductForm): (r: seq<Product>)
    ensures |r| == |products|
    ensures forall i :: 0 <= i < |r| ==>
              r[i] == if products[i].id == id then NewProductRow(id, form, products[i].imageUrl, products[i].createdAt)
                      else products[i]
  {
    seq(|products|, i requires 0 <= i < |products| =>
      if products[i].id == id then NewProductRow(id, form, products[i].imageUrl, products[i].createdAt) else products[i])
  }

  /** `DELETE /product-images/:id` on the two tables: 404 for an unknown
      image; otherwise the row goes, and when it was the primary one the
      product's remaining image with the lowest display order becomes
      primary and its path the product's image_url (NULL when none remains). */
  function DeleteImageTables(products: seq<Product>, images: seq<ProductImage>, imageId: int)
    : (r: Result<(seq<Product>, seq<ProductImage>)>)
    ensures r.Err? <==> forall i :: 0 <= i < |images| ==> images[i].id != imageId
    ensures r.Err? ==> r.status == NotFound
    ensures r.Ok? ==> forall i :: 0 <= i < |r.value.1| ==> r.value.1[i].id != imageId
    ensures r.Ok? ==> |r.value.1| == |Filter(images, NotImage(imageId))|
  {
    var k := FindIndex(images, ImageWithId(imageId));
    if k < 0 then Err(NotFound)
    else
      var image := images[k];
      var rest := Filter(images, NotImage(imageId));
      if !image.isPrimary then Ok((products, rest))
      else
        match LowestOrderImage(rest, image.productId)
        case Some(first) => Ok((SetImageUrl(products, image.productId, Some(first.imagePath)), SetPrimary(rest, first.id)))
        case None => Ok((SetImageUrl(products, image.productId, None), rest))
  }

  /** Deleting a non-primary image removes its row and changes nothing else. */
  lemma DeleteSecondaryImage(products: seq<Product>, images: seq<ProductImage>, k: nat)
    requires k < |images| && !images[k].isPrimary
    requires forall j :: 0 <= j < k ==> images[j].id != images[k].id
    ensures DeleteImageTables(products, images, images[k].id) == Ok((products, Filter(images, NotImage(images[k].id))))
  {
    var f := FindIndex(images, ImageWithId(images[k].id));
    assert f == k;
  }

  /** Deleting the primary image promotes the product's remaining image with
      the lowest display order and copies its path into image_url; with no
      image left, image_url becomes NULL. */
  lemma DeletePrimaryImage(products: seq<Product>, images: seq<ProductImage>, k: nat)
    requires k < |images| && images[k].isPrimary
    requires forall j :: 0 <= j < k ==> images[j].id != images[k].id
    ensures var img := images[k];
            var rest := Filter(images, NotImage(img.id));
            var r := DeleteImageTables(products, images, img.id);
            r.Ok?
            && (LowestOrderImage(rest, img.productId).None? ==>
                  r.value == (SetImageUrl(products, img.productId, None), rest))
            && (LowestOrderImage(rest, img.productId).Some? ==>
                  var first := LowestOrderImage(rest, img.productId).value;
                  first in rest && first.productId == img.productId && first.id != img.id
                  && (forall i :: 0 <= i < |rest| && rest[i].productId == img.productId ==>
                                    first.displayOrder <= rest[i].displayOrder)
                  && r.value == (SetImageUrl(products, img.productId, Some(first.imagePath)), SetPrimary(rest, first.id)))
  {
    var f := FindIndex(images, ImageWithId(images[k].id));
    assert f == k;
    var rest := Filter(images, NotImage(images[k].id));
    var lowest := LowestOrderImage(rest, images[k].productId);
    if lowest.Some? {
      assert NotImage(images[k].id)(lowest.value);
    }
  }

  // ------------------------------------------------------------- reordering

  /** One entry of the reorder body. */
  datatype ImageOrder = ImageOrder(id: int, displayOrder: int, isPrimary: bool)

  /** The `images` field of the reorder body. */
  datatype OrderList = Absent | NotArray | Listed(entries: seq<ImageOrder>)

  /** `UPDATE product_images SET display_order = ?, is_primary = ? WHERE id = ?`. */
  function ApplyImageOrder(images: seq<ProductImage>, e: ImageOrder): (r: seq<ProductImage>)
    ensures |r| == |images|
    ensures forall i :: 0 <= i < |r| ==>
              r[i] == if images[i].id == e.id then images[i].(displayOrder := e.displayOrder, isPrimary := e.isPrimary)
                      else images[i]
  {
    seq(|images|, i requires 0 <= i < |images| =>
      if images[i].id == e.id then images[i].(displayOrder := e.displayOrder, isPrimary := e.isPrimary) else images[i])
  }

  /** The updates of the listed entries, in order. */
  function ApplyImageOrders(images: seq<ProductImage>, entries: seq<ImageOrder>): (r: seq<ProductImage>)
    ensures |r| == |images|
    ensures forall i :: 0 <= i < |r| ==>
              r[i].id == images[i].id && r[i].productId == images[i].productId && r[i].imagePath == images[i].imagePath
  {
    if entries == [] then images
    else ApplyImageOrder(ApplyImageOrders(images, entries[..|entries| - 1]), entries[|entries| - 1])
  }

  /** `SELECT image_path FROM product_images WHERE id = ?`. */
  function PathOf(images: seq<ProductImage>, id: int): (r: Option<string>)
    ensures r.None? <==> forall i :: 0 <= i < |images| ==> images[i].id != id
    ensures r.Some? ==> exists i :: 0 <= i < |images| && images[i].id == id && images[i].imagePath == r.value
  {
    if images == [] then None
    else if images[0].id == id then Some(images[0].imagePath)
    else
      var r := PathOf(images[1..], id);
      assert forall i :: 1 <= i < |images| ==> images[i] == images[1..][i - 1];
      r
  }

  /** Rows with the same ids and paths give the same path lookups. */
  lemma {:induction false} PathOfSameRows(a: seq<ProductImage>, b: seq<ProductImage>, id: int)
    requires |a| == |b|
    requires forall i :: 0 <= i < |a| ==> a[i].id == b[i].id && a[i].imagePath == b[i].imagePath
    ensures PathOf(a, id) == PathOf(b, id)
  {
    if a != [] && a[0].id != id {
      PathOfSameRows(a[1..], b[1..], id);
    }
  }

  /** The primary path the reorder copies to the product: that of the last
      entry marked primary whose row exists. */
  function PrimaryPath(images: seq<ProductImage>, entries: seq<ImageOrder>): (r: Option<string>)
    ensures r.Some? ==> exists k :: 0 <= k < |entries| && entries[k].isPrimary && PathOf(images, entries[k].id) == r
  {
    if entries == [] then None
    else
      var last := entries[|entries| - 1];
      var before := PrimaryPath(images, entries[..|entries| - 1]);
      if last.isPrimary && PathOf(images, last.id).Some? then PathOf(images, last.id)
      else
        assert before.Some? ==> exists k :: 0 <= k < |entries| - 1 && entries[k].isPrimary
                                            && PathOf(images, entries[k].id) == before by {
          if before.Some? {
            var k :| 0 <= k < |entries| - 1 && entries[..|entries| - 1][k].isPrimary
                     && PathOf(images, entries[..|entries| - 1][k].id) == before;
            assert entries[..|entries| - 1][k] == entries[k];
          }
        }
        before
  }

  /** The reorder's `forEach`, its writes taken in list order. */
  method ReorderRows(images: seq<ProductImage>, entries: seq<ImageOrder>)
    returns (rows: seq<ProductImage>, primaryPath: Option<string>)
    ensures rows == ApplyImageOrders(images, entries)
    ensures primaryPath == PrimaryPath(images, entries)
  {
    rows := images;
    primaryPath := None;
    var index := 0;
    while index < |entries|
      invariant 0 <= index <= |entries|
      invariant rows == ApplyImageOrders(images, entries[..index])
      invariant primaryPath == PrimaryPath(images, entries[..index])
    {
      var e := entries[index];
      assert entries[..index + 1][..index] == entries[..index];
      rows := ApplyImageOrder(rows, e);
      if e.isPrimary {
        PathOfSameRows(rows, images, e.id);
        var path := PathOf(rows, e.id);
        if path.Some? {
          primaryPath := path;
        }
      }
      index := index + 1;
    }
    assert entries[..|entries|] == entries;
  }

  /** With distinct ids in the body, every listed image ends up with the
      display order and primary flag given for it. */
  lemma {:induction false} ReorderSetsListed(images: seq<ProductImage>, entries: seq<ImageOrder>, k: nat, i: nat)
    requires forall a, b :: 0 <= a < b < |entries| ==> entries[a].id != entries[b].id
    requires k < |entries| && i < |images| && images[i].id == entries[k].id
    ensures ApplyImageOrders(images, entries)[i].displayOrder == entries[k].displayOrder
    ensures ApplyImageOrders(images, entries)[i].isPrimary == entries[k].isPrimary
  {
    var n := |entries| - 1;
    if k < n {
      var front := entries[..n];
      assert front[k] == entries[k];
      ReorderSetsListed(images, front, k, i);
      assert entries[n].id != entries[k].id;
    }
  }

  /** An image the body does not list keeps its row. */
  lemma {:induction false} ReorderKeepsUnlisted(images: seq<ProductImage>, entries: seq<ImageOrder>, i: nat)
    requires i < |images|
    requires forall k :: 0 <= k < |entries| ==> entries[k].id != images[i].id
    ensures ApplyImageOrders(images, entries)[i] == images[i]
  {
    if entries != [] {
      var front := entries[..|entries| - 1];
      assert forall k :: 0 <= k < |front| ==> front[k] == entries[k];
      ReorderKeepsUnlisted(images, front, i);
    }
  }

  // ------------------------------------------------------------------ stats

  /** The dashboard figures. */
  datatype DashboardStats = DashboardStats(totalProducts: nat, totalOrders: nat, totalRevenue: int, outOfStock: nat)

  function ConfirmedAmount(o: Orders.Order): int {
    if o.status == Some("confirmed") then o.totalAmount else 0
  }

  /** `SUM(total_amount) WHERE status = "confirmed"`, NULL read as 0. */
  function ConfirmedRevenue(orders: seq<Orders.Order>): int {
    SumOf(orders, ConfirmedAmount)
  }

  /** Revenue counts confirmed orders only: shipping a confirmed order takes
      its amount out of the figure. */
  lemma RevenueDropsWhenShipped(orders: seq<Orders.Order>, i: nat)
    requires i < |orders| && orders[i].status == Some("confirmed")
    ensures ConfirmedRevenue(orders[i := orders[i].(status := Some("shipped"))])
            == ConfirmedRevenue(orders) - orders[i].totalAmount
  {
    SumUpdate(orders, i, orders[i].(status := Some("shipped")), ConfirmedAmount);
  }

  function StockIsZero(): Product -> bool {
    (p: Product) => p.stock == 0
  }

  function StockAtMostZero(): Product -> bool {
    (p: Product) => p.stock <= 0
  }

  function StockPositive(): Product -> bool {
    (p: Product) => p.stock > 0
  }

  /** `GET /stats` as written: out of stock means a stock of exactly 0. */
  function StatsAsWritten(products: seq<Product>, orders: seq<Orders.Order>): (r: DashboardStats)
    ensures r.totalProducts == |products| && r.totalOrders == |orders|
    ensures r.totalRevenue == ConfirmedRevenue(orders)
    ensures r.outOfStock == |Filter(products, StockIsZero())|
  {
    DashboardStats(|products|, |orders|, ConfirmedRevenue(orders), |Filter(products, StockIsZero())|)
  }

  /** Orders decrement stock with no floor, so an oversold product has a
      negative stock: the listing hides it, but the as-written figure does
      not count it as out of stock. */
  lemma OversoldProductUncounted(p: Product)
    requires p.stock == -1
    ensures !ListingMatch(p, None, None)
    ensures StatsAsWritten([p], []).outOfStock == 0
  {
  }

  /** A stock of exactly 0 and a positive stock together cover every
      product exactly when none is oversold. */
  lemma {:induction false} ZeroAndPositiveCover(s: seq<Product>)
    ensures |Filter(s, StockIsZero())| + |Filter(s, StockPositive())| <= |s|
    ensures |Filter(s, StockIsZero())| + |Filter(s, StockPositive())| == |s|
            <==> forall i :: 0 <= i < |s| ==> s[i].stock >= 0
  {
    if s != [] {
      ZeroAndPositiveCover(s[1..]);
      if s[0].stock >= 0 {
        forall i | 0 <= i < |s| && (forall k :: 0 <= k < |s[1..]| ==> s[1..][k].stock >= 0)
          ensures s[i].stock >= 0
        {
          if i > 0 {
            assert s[i] == s[1..][i - 1];
          }
        }
      } else {
        assert |Filter(s, StockIsZero())| + |Filter(s, StockPositive())| < |s|;
      }
      forall i | 0 < i < |s| && s[i].stock < 0
        ensures exists k :: 0 <= k < |s[1..]| && s[1..][k].stock < 0
      {
        assert s[1..][i - 1] == s[i];
      }
    }
  }

  /** With the `stock = 0` count, out of stock plus listable is every
      product exactly when no stock is negative; an oversold product falls
      between the two. */
  lemma AsWrittenCountsMissOversold(products: seq<Product>, orders: seq<Orders.Order>)
    ensures StatsAsWritten(products, orders).outOfStock + |Filter(products, StockPositive())| <= |products|
    ensures StatsAsWritten(products, orders).outOfStock + |Filter(products, StockPositive())| == |products|
            <==> forall i :: 0 <= i < |products| ==> products[i].stock >= 0
  {
    ZeroAndPositiveCover(products);
  }

  /** `GET /stats` with out of stock read as "not listable" (stock <= 0). */
  function DashboardFigures(products: seq<Product>, orders: seq<Orders.Order>): (r: DashboardStats)
    ensures r.totalProducts == |products| && r.totalOrders == |orders|
    ensures r.totalRevenue == ConfirmedRevenue(orders)
    ensures r.outOfStock == |Filter(products, StockAtMostZero())|
  {
    DashboardStats(|products|, |orders|, ConfirmedRevenue(orders), |Filter(products, StockAtMostZero())|)
  }

  lemma {:induction false} FilterSplit(s: seq<Product>)
    ensures |Filter(s, StockAtMostZero())| + |Filter(s, StockPositive())| == |s|
  {
    if s != [] {
      FilterSplit(s[1..]);
    }
  }

  /** Every product is either counted out of stock or can be listed. */
  lemma OutOfStockComplementsListing(products: seq<Product>, orders: seq<Orders.Order>)
    ensures DashboardFigures(products, orders).outOfStock + |Filter(products, StockPositive())| == |products|
  {
    FilterSplit(products);
  }

  // ------------------------------------------------------------ the tables

  /** The products and product_images tables with their id counters. */
  /** Every product id is below n. */
  predicate ProductIdsBelow(products: seq<Product>, n: int) {
    forall i :: 0 <= i < |products| ==> products[i].id < n
  }

  /** Every image id is below n. */
  predicate ImageIdsBelow(images: seq<ProductImage>, n: int) {
    forall i :: 0 <= i < |images| ==> images[i].id < n
  }

  /** Setting image_url changes no product id. */
  lemma SetImageUrlKeepsIds(products: seq<Product>, productId: int, url: Option<string>, n: int)
    requires ProductIdsBelow(products, n)
    ensures ProductIdsBelow(SetImageUrl(products, productId, url), n)
  {
    var r := SetImageUrl(products, productId, url);
    assert forall i :: 0 <= i < |r| ==> r[i].id == products[i].id;
  }

  /** Reordering changes no image id. */
  lemma ApplyImageOrdersKeepsIds(images: seq<ProductImage>, entries: seq<ImageOrder>, n: int)
    requires ImageIdsBelow(images, n)
    ensures ImageIdsBelow(ApplyImageOrders(images, entries), n)
  {
  }

  /** Deleting an image and promoting another invents no id. */
  lemma DeleteImageKeepsIds(products: seq<Product>, images: seq<ProductImage>, imageId: int, np: int, ni: int)
    requires ProductIdsBelow(products, np) && ImageIdsBelow(images, ni)
    ensures var t := DeleteImageTables(products, images, imageId);
            t.Ok? ==> ProductIdsBelow(t.value.0, np) && ImageIdsBelow(t.value.1, ni)
  {
    var rest := Filter(images, NotImage(imageId));
    assert ImageIdsBelow(rest, ni);
    forall pid: int, url: Option<string> ensures ProductIdsBelow(SetImageUrl(products, pid, url), np) {
      SetImageUrlKeepsIds(products, pid, url, np);
    }
    forall id: int ensures ImageIdsBelow(SetPrimary(rest, id), ni) {
      var sp := SetPrimary(rest, id);
      assert forall j :: 0 <= j < |sp| ==> sp[j].id == rest[j].id;
    }
  }

  class ProductTables {
    var products: seq<Product>
    var images: seq<ProductImage>
    var nextProductId: int
    var nextImageId: int

    /** The counters are ahead of every id in use. */
    predicate Valid()
      reads this
    {
      1 <= nextProductId && 1 <= nextImageId
      && ProductIdsBelow(products, nextProductId) && ImageIdsBelow(images, nextImageId)
    }

    constructor()
      ensures Valid()
      ensures products == [] && images == [] && nextProductId == 1 && nextImageId == 1
    {
      products := [];
      images := [];
      nextProductId := 1;
      nextImageId := 1;
    }

    /** `POST /products` as written: 401 without a session, 400 when the
        upload is refused. Otherwise the handler's first step is
        `db.serialize`, which the database wrapper it is given does not
        define; the TypeError reaches Express's default handler, the answer
        is 500 and no row is written. No request ever creates a product. */
    method CreateProduct(session: Session, form: ProductForm, files: seq<Upload>, now: int)
      returns (r: Result<(int, Option<nat>)>)
      ensures r.Err?
      ensures !IsAdmin(session) ==> r.status == Unauthorized
      ensures IsAdmin(session) ==> (r.status == BadRequest <==> CheckUploads(files).Err?)
      ensures IsAdmin(session) && CheckUploads(files).Ok? ==> r.status == ServerError
    {
      if !IsAdmin(session) {
        return Err(Unauthorized);
      }
      var upload := CheckUploads(files);
      if upload.Err? {
        return Err(BadRequest);
      }
      r := Err(ServerError);
    }

    /** `POST /products` as its authors meant it, with the insertions run
        directly: the product row and its image rows are inserted, and
        image_url is the first image's path. The answer carries the new id
        and, when there were images, their count. */
    method CreateProductIntended(session: Session, form: ProductForm, files: seq<Upload>, now: int)
      returns (r: Result<(int, Option<nat>)>)
      requires Valid()
      modifies this
      ensures Valid()
      ensures !IsAdmin(session) ==> r == Err(Unauthorized)
      ensures IsAdmin(session) && CheckUploads(files).Err? ==> r == Err(BadRequest)
      ensures r.Err? ==> products == old(products) && images == old(images)
                         && nextProductId == old(nextProductId) && nextImageId == old(nextImageId)
      ensures IsAdmin(session) && CheckUploads(files).Ok? ==>
                var paths := CheckUploads(files).value;
                var id := old(nextProductId);
                r == Ok((id, if |paths| > 0 then Some(|paths|) else None))
                && products == old(products) + [NewProductRow(id, form, if |paths| > 0 then Some(paths[0]) else None, now)]
                && images == old(images) + FirstImageRows(id, paths, old(nextImageId))
                && nextProductId == id + 1 && nextImageId == old(nextImageId) + |paths|
    {
      if !IsAdmin(session) {
        return Err(Unauthorized);
      }
      var upload := CheckUploads(files);
      if upload.Err? {
        return Err(BadRequest);
      }
      var paths := upload.value;
      var id := nextProductId;
      var url := if |paths| > 0 then Some(paths[0]) else None;
      products := products + [NewProductRow(id, form, url, now)];
      nextProductId := id + 1;
      var firstId := nextImageId;
      images := InsertFirstImages(images, id, paths, firstId);
      nextImageId := firstId + |paths|;
      r := Ok((id, if |paths| > 0 then Some(|paths|) else None));
    }

    /** `PUT /products/:id`: 401 without a session, 400 when the upload is
        refused; otherwise the rows with that id take the form's fields and
        the uploads are appended from display order max + 1, none primary.
        An unknown id updates nothing but still gets the images. */
    method UpdateProduct(session: Session, id: int, form: ProductForm, files: seq<Upload>)
      returns (r: Result<Option<nat>>)
      requires Valid()
      modifies this
      ensures Valid()
      ensures !IsAdmin(session) ==> r == Err(Unauthorized)
      ensures IsAdmin(session) && CheckUploads(files).Err? ==> r == Err(BadRequest)
      ensures r.Err? ==> products == old(products) && images == old(images) && nextImageId == old(nextImageId)
      ensures nextProductId == old(nextProductId)
      ensures IsAdmin(session) && CheckUploads(files).Ok? ==>
                var paths := CheckUploads(files).value;
                r == Ok(if |paths| > 0 then Some(|paths|) else None)
                && products == UpdateRows(old(products), id, form)
                && images == old(images) + AppendedImageRows(id, paths, old(nextImageId), StartOrder(old(images), id))
                && nextImageId == old(nextImageId) + |paths|
    {
      if !IsAdmin(session) {
        return Err(Unauthorized);
      }
      var upload := CheckUploads(files);
      if upload.Err? {
        return Err(BadRequest);
      }
      var paths := upload.value;
      products := UpdateRows(products, id, form);
      if |paths| > 0 {
        var start := StartOrder(images, id);
        var firstId := nextImageId;
        images := InsertAppendedImages(images, id, paths, firstId, start);
        nextImageId := firstId + |paths|;
        r := Ok(Some(|paths|));
      } else {
        r := Ok(None);
      }
    }

    /** `DELETE /products/:id`: the product row goes; its image rows stay,
        as foreign keys are not enforced. */
    method DeleteProduct(session: Session, id: int) returns (r: Result<()>)
      requires Valid()
      modifies this`products
      ensures Valid()
      ensures !IsAdmin(session) ==> r == Err(Unauthorized) && products == old(products)
      ensures IsAdmin(session) ==> r == Ok(()) && products == Filter(old(products), (p: Product) => p.id != id)
    {
      if !IsAdmin(session) {
        return Err(Unauthorized);
      }
      products := Filter(products, (p: Product) => p.id != id);
      r := Ok(());
    }

    /** `DELETE /product-images/:id`. */
    method DeleteImage(session: Session, imageId: int) returns (r: Result<()>)
      requires Valid()
      modifies this`products, this`images
      ensures Valid()
      ensures !IsAdmin(session) ==> r == Err(Unauthorized)
      ensures IsAdmin(session) ==>
                var t := DeleteImageTables(old(products), old(images), imageId);
                (t.Err? ==> r == Err(t.status)) && (t.Ok? ==> r == Ok(()) && (products, images) == t.value)
      ensures r.Err? ==> products == old(products) && images == old(images)
    {
      if !IsAdmin(session) {
        return Err(Unauthorized);
      }
      var t := DeleteImageTables(products, images, imageId);
      if t.Err? {
        return Err(t.status);
      }
      DeleteImageKeepsIds(products, images, imageId, nextProductId, nextImageId);
      products, images := t.value.0, t.value.1;
      r := Ok(());
    }

    /** `PUT /products/:id/reorder-images`: 401 without a session, 400 when
        the body has no array; an empty array gets no answer; otherwise each
        listed image takes its order and flag, and the product's image_url
        becomes the primary entry's path when there is one. */
    method ReorderImages(session: Session, productId: int, body: OrderList) returns (r: Option<Result<()>>)
      requires Valid()
      modifies this`products, this`images
      ensures Valid()
      ensures !IsAdmin(session) ==> r == Some(Err(Unauthorized))
      ensures IsAdmin(session) && !body.Listed? ==> r == Some(Err(BadRequest))
      ensures IsAdmin(session) && body.Listed? && body.entries == [] ==> r == None
      ensures r != Some(Ok(())) ==> products == old(products) && images == old(images)
      ensures IsAdmin(session) && body.Listed? && body.entries != [] ==>
                var path := PrimaryPath(old(images), body.entries);
                r == Some(Ok(()))
                && images == ApplyImageOrders(old(images), body.entries)
                && products == (if Truthy(path) then SetImageUrl(old(products), productId, path) else old(products))
    {
      if !IsAdmin(session) {
        return Some(Err(Unauthorized));
      }
      if !body.Listed? {
        return Some(Err(BadRequest));
      }
      if body.entries == [] {
        return None;
      }
      var rows, path := ReorderRows(images, body.entries);
      ApplyImageOrdersKeepsIds(images, body.entries, nextImageId);
      images := rows;
      if Truthy(path) {
        SetImageUrlKeepsIds(products, productId, path, nextProductId);
        products := SetImageUrl(products, productId, path);
      }
      r := Some(Ok(()));
    }

    /** `GET /products` (admin): every product, newest first, enriched with
        its images; the lookups at the positions in `failing` fail. */
    method Listing(session: Session, failing: set<nat>) returns (r: Result<seq<Enriched>>)
      ensures !IsAdmin(session) ==> r == Err(Unauthorized)
      ensures IsAdmin(session) ==> r.Ok? && |r.value| == |products|
      ensures IsAdmin(session) ==>
                var sorted := SortBy(products, NewestFirst);
                forall i :: 0 <= i < |r.value| ==>
                  r.value[i] == if i in failing then Plain(sorted[i]) else EnrichProduct(sorted[i], images)
    {
      if !IsAdmin(session) {
        return Err(Unauthorized);
      }
      var sorted := SortBy(products, NewestFirst);
      var enriched := EnrichProducts(sorted, images, failing);
      r := Ok(enriched);
    }

    /** `GET /stats` as written, counting out of stock as `stock = 0`: out of
        stock plus listable falls short of every product exactly when some
        product is oversold. */
    method Stats(session: Session, orders: seq<Orders.Order>) returns (r: Result<DashboardStats>)
      ensures !IsAdmin(session) ==> r == Err(Unauthorized)
      ensures IsAdmin(session) ==> r == Ok(StatsAsWritten(products, orders))
      ensures r.Ok? ==> (r.value.outOfStock + |Filter(products, StockPositive())| == |products|
                         <==> forall i :: 0 <= i < |products| ==> products[i].stock >= 0)
    {
      if !IsAdmin(session) {
        return Err(Unauthorized);
      }
      AsWrittenCountsMissOversold(products, orders);
      r := Ok(StatsAsWritten(products, orders));
    }
  }
}
