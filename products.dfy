/** The public products routes: the in-stock listing with its category and
    search filters, newest first; image enrichment ordered by display
    order; lookup by id; and the distinct categories and wood types. */
module Products {
  import opened Common
  import opened Seqs
  import opened Text
  import opened Sorting

  /** A row of the products table; nullable columns are Options. */
  datatype Product = Product(
    id: int,
    name: string,
    description: Option<string>,
    woodType: Option<string>,
    price: int,
    category: string,
    stock: int,
    imageUrl: Option<string>,
    createdAt: int)

  /** A row of the product_images table. */
  datatype ProductImage = ProductImage(id: int, productId: int, imagePath: string, displayOrder: int, isPrimary: bool)

  /** `column LIKE '%term%'`: a NULL column never matches. */
  predicate Like(column: Option<string>, term: string) {
    column.Some? && ContainsIgnoringCase(column.value, term)
  }

  /** The WHERE clause the listing query is built from. */
  predicate ListingMatch(p: Product, category: Option<string>, search: Option<string>) {
    p.stock > 0
    && (Truthy(category) && category.value != "all" ==> p.category == category.value)
    && (Truthy(search) ==> Like(Some(p.name), search.value) || Like(p.description, search.value)
                           || Like(p.woodType, search.value))
  }

  function NewestFirst(p: Product): int {
    -p.createdAt
  }

  /** `GET /api/products` before enrichment: the matching rows, newest first. */
  function Listing(products: seq<Product>, category: Option<string>, search: Option<string>): (r: seq<Product>)
    ensures forall i :: 0 <= i < |r| ==> r[i] in products && ListingMatch(r[i], category, search)
    ensures forall i :: 0 <= i < |products| && ListingMatch(products[i], category, search) ==> products[i] in r
    ensures multiset(r) == multiset(Filter(products, (p: Product) => ListingMatch(p, category, search)))
    ensures forall i, j :: 0 <= i < j < |r| ==> r[i].createdAt >= r[j].createdAt
  {
    var kept := Filter(products, (p: Product) => ListingMatch(p, category, search));
    var r := SortBy(kept, NewestFirst);
    PermutationSameElements(r, kept);
    r
  }

  /** Only products in stock are ever listed. */
  lemma ListingInStock(products: seq<Product>, category: Option<string>, search: Option<string>, i: nat)
    requires i < |Listing(products, category, search)|
    ensures Listing(products, category, search)[i].stock > 0
  {
  }

  /** The search does not look at the category: a product whose name,
      description and wood type do not contain the term is left out even
      when its category does, and changing the category of a product never
      changes whether a search alone keeps it. */
  lemma SearchIgnoresCategory(p: Product, term: string)
    requires term != []
    requires ContainsIgnoringCase(p.category, term)
    requires !Like(Some(p.name), term) && !Like(p.description, term) && !Like(p.woodType, term)
    ensures !ListingMatch(p, None, Some(term))
    ensures forall c :: ListingMatch(p.(category := c), None, Some(term)) == ListingMatch(p, None, Some(term))
  {
  }

  /** A product as the routes return it: with its images and their paths,
      or as the bare row when the image lookup failed. */
  datatype Enriched = Enriched(product: Product, images: seq<ProductImage>, imagePaths: seq<string>)
                    | Plain(product: Product)

  function ByDisplayOrder(img: ProductImage): int {
    img.displayOrder
  }

  function Paths(images: seq<ProductImage>): (r: seq<string>)
    ensures |r| == |images|
    ensures forall i :: 0 <= i < |images| ==> r[i] == images[i].imagePath
  {
    seq(|images|, i requires 0 <= i < |images| => images[i].imagePath)
  }

  /** The filter `WHERE product_id = ?` on image rows. */
  function OwnImages(productId: int): ProductImage -> bool {
    (img: ProductImage) => img.productId == productId
  }

  /** `enrichProduct`: the product with its image rows sorted by display
      order, and `image_paths` listing their paths in that same order. */
  function EnrichProduct(p: Product, images: seq<ProductImage>): (e: Enriched)
    ensures e.Enriched? && e.product == p
  {
    var sorted := SortBy(Filter(images, OwnImages(p.id)), ByDisplayOrder);
    Enriched(p, sorted, Paths(sorted))
  }

  /** The enriched product carries exactly its own image rows, once each, in
      ascending display order, and their paths in that order. */
  lemma EnrichedOwnImagesSorted(p: Product, images: seq<ProductImage>)
    ensures var e := EnrichProduct(p, images);
            && (forall i :: 0 <= i < |e.images| ==> e.images[i] in images && e.images[i].productId == p.id)
            && multiset(e.images) == multiset(Filter(images, OwnImages(p.id)))
            && SortedBy(e.images, ByDisplayOrder)
            && |e.imagePaths| == |e.images|
            && (forall i :: 0 <= i < |e.images| ==> e.imagePaths[i] == e.images[i].imagePath)
  {
    var own := Filter(images, OwnImages(p.id));
    PermutationSameElements(SortBy(own, ByDisplayOrder), own);
  }

  /** The enriched images are the product's rows sorted by display order. */
  lemma EnrichedImages(p: Product, images: seq<ProductImage>)
    ensures EnrichProduct(p, images).images == SortBy(Filter(images, OwnImages(p.id)), ByDisplayOrder)
    ensures EnrichProduct(p, images).imagePaths == Paths(EnrichProduct(p, images).images)
  {
  }

  /** One entry of `enrichProducts`: the bare row when its lookup failed. */
  function EnrichedEntry(p: Product, images: seq<ProductImage>, lookupFailed: bool): Enriched {
    if lookupFailed then Plain(p) else EnrichProduct(p, images)
  }

  /** `enrichProducts`: each product enriched in turn, the ones whose lookup
      fails (the positions in `failing`) kept as the bare row. */
  method EnrichProducts(products: seq<Product>, images: seq<ProductImage>, failing: set<nat>)
    returns (r: seq<Enriched>)
    ensures |r| == |products|
    ensures forall i :: 0 <= i < |r| ==> r[i].product == products[i]
    ensures forall i :: 0 <= i < |r| ==>
              r[i] == if i in failing then Plain(products[i]) else EnrichProduct(products[i], images)
  {
    r := [];
    var i := 0;
    while i < |products|
      invariant 0 <= i <= |products|
      invariant |r| == i
      invariant forall k :: 0 <= k < i ==> r[k] == EnrichedEntry(products[k], images, k in failing)
    {
      r := r + [EnrichedEntry(products[i], images, i in failing)];
      i := i + 1;
    }
    forall k | 0 <= k < |r| ensures r[k].product == products[k] {
      assert r[k] == EnrichedEntry(products[k], images, k in failing);
    }
  }

  /** `GET /api/products/:id`. */
  function GetById(products: seq<Product>, images: seq<ProductImage>, id: int, lookupFails: bool): (r: Result<Enriched>)
    ensures r == Err(NotFound) <==> forall i :: 0 <= i < |products| ==> products[i].id != id
    ensures r.Ok? ==> r.value.product in products && r.value.product.id == id
    ensures r.Ok? && !lookupFails ==> r.value == EnrichProduct(r.value.product, images)
  {
    var k := FindIndex(products, (p: Product) => p.id == id);
    if k < 0 then Err(NotFound)
    else if lookupFails then Ok(Plain(products[k]))
    else Ok(EnrichProduct(products[k], images))
  }

  function Identity(s: string): string {
    s
  }

  /** The column values, distinct and in ascending order. */
  function DistinctSorted(values: seq<string>): (r: seq<string>)
    ensures forall x :: x in r <==> x in values
    ensures forall i, j :: 0 <= i < j < |r| ==> r[i] != r[j] && LexLe(r[i], r[j])
  {
    var d := Distinct(values);
    var r := SortByName(d, Identity);
    PermutationSameElements(r, d);
    PermutationKeepsDistinct(d, r);
    assert forall i, j :: 0 <= i < j < |r| ==> LexLe(Identity(r[i]), Identity(r[j]));
    r
  }

  /** The category column, one value per row. */
  function CategoryColumn(products: seq<Product>): (r: seq<string>)
    ensures |r| == |products|
    ensures forall i :: 0 <= i < |products| ==> r[i] == products[i].category
  {
    seq(|products|, i requires 0 <= i < |products| => products[i].category)
  }

  /** `GET /meta/categories`: DISTINCT category ORDER BY category. */
  function Categories(products: seq<Product>): (r: seq<string>)
    ensures forall i :: 0 <= i < |products| ==> products[i].category in r
    ensures forall i :: 0 <= i < |r| ==> exists k :: 0 <= k < |products| && products[k].category == r[i]
    ensures forall i, j :: 0 <= i < j < |r| ==> r[i] != r[j] && LexLe(r[i], r[j])
  {
    var cats := CategoryColumn(products);
    var r := DistinctSorted(cats);
    forall i | 0 <= i < |products| ensures products[i].category in r {
      assert cats[i] in cats;
    }
    forall i | 0 <= i < |r| ensures exists k :: 0 <= k < |products| && products[k].category == r[i] {
      assert r[i] in cats;
      var k :| 0 <= k < |cats| && cats[k] == r[i];
      assert products[k].category == r[i];
    }
    r
  }

  function HasWood(): Product -> bool {
    (p: Product) => Truthy(p.woodType)
  }

  /** The non-empty wood types, one value per row that has one. */
  function WoodColumn(products: seq<Product>): seq<string> {
    var withWood := Filter(products, HasWood());
    seq(|withWood|, i requires 0 <= i < |withWood| => withWood[i].woodType.value)
  }

  /** Every non-empty wood type is in the column, and only those are. */
  lemma WoodColumnExact(products: seq<Product>)
    ensures forall i :: 0 <= i < |products| && Truthy(products[i].woodType) ==>
              products[i].woodType.value in WoodColumn(products)
    ensures forall x :: x in WoodColumn(products) ==>
              x != "" && exists k :: 0 <= k < |products| && products[k].woodType == Some(x)
  {
    var withWood := Filter(products, HasWood());
    var woods := WoodColumn(products);
    forall i | 0 <= i < |products| && Truthy(products[i].woodType)
      ensures products[i].woodType.value in woods
    {
      assert HasWood()(products[i]);
      assert products[i] in withWood;
      var k :| 0 <= k < |withWood| && withWood[k] == products[i];
      assert woods[k] == products[i].woodType.value;
    }
    forall x | x in woods
      ensures x != "" && exists k :: 0 <= k < |products| && products[k].woodType == Some(x)
    {
      var i :| 0 <= i < |woods| && woods[i] == x;
      assert withWood[i] in products && HasWood()(withWood[i]);
      var k :| 0 <= k < |products| && products[k] == withWood[i];
    }
  }

  /** `GET /meta/wood-types`: as the categories, without NULL or empty values. */
  function WoodTypes(products: seq<Product>): (r: seq<string>)
    ensures forall i :: 0 <= i < |products| && Truthy(products[i].woodType) ==> products[i].woodType.value in r
    ensures forall i :: 0 <= i < |r| ==>
              r[i] != "" && exists k :: 0 <= k < |products| && products[k].woodType == Some(r[i])
    ensures forall i, j :: 0 <= i < j < |r| ==> r[i] != r[j] && LexLe(r[i], r[j])
  {
    WoodColumnExact(products);
    var r := DistinctSorted(WoodColumn(products));
    assert forall i :: 0 <= i < |r| ==> r[i] in r;
    r
  }
}
