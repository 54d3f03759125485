/** The catalogue page: the client-side filter chain over the loaded
    products (category, case-insensitive search, price ceiling), the
    description truncation, the product-count label, the price slider's
    rounded ceiling and the page's filter state. Prices are in cents, so the
    slider's "multiple of 10 euros" is a multiple of 1000. */
module Catalogue {
  import opened Common
  import opened Seqs
  import opened Text
  import opened Products

  /** The field is present and contains the term, ignoring case. */
  predicate FieldHas(field: Option<string>, term: string) {
    field.Some? && ContainsIgnoringCase(field.value, term)
  }

  /** The search test `name || description || wood_type || category`, each
      lower-cased. The `||` short-circuits, and reading a NULL description
      or wood type throws: None stands for that exception. */
  function SearchMatch(p: Product, term: string): (r: Option<bool>)
    ensures r.None? <==> !ContainsIgnoringCase(p.name, term)
                         && (p.description.None?
                             || (!ContainsIgnoringCase(p.description.value, term) && p.woodType.None?))
    ensures r.Some? ==> (r.value <==> ContainsIgnoringCase(p.name, term) || FieldHas(p.description, term)
                                      || FieldHas(p.woodType, term) || ContainsIgnoringCase(p.category, term))
  {
    if ContainsIgnoringCase(p.name, term) then Some(true)
    else if p.description.None? then None
    else if ContainsIgnoringCase(p.description.value, term) then Some(true)
    else if p.woodType.None? then None
    else if ContainsIgnoringCase(p.woodType.value, term) then Some(true)
    else Some(ContainsIgnoringCase(p.category, term))
  }

  /** The search test as a filter predicate. */
  function SearchFn(term: string): Product -> bool {
    (p: Product) => SearchMatch(p, term) == Some(true)
  }

  /** `products.filter(search)`, or None when the test throws on some product. */
  function FilterSearch(s: seq<Product>, term: string): (r: Option<seq<Product>>)
    ensures r.Some? ==> r.value == Filter(s, SearchFn(term))
    ensures r.None? <==> exists i :: 0 <= i < |s| && SearchMatch(s[i], term).None?
  {
    if s == [] then Some([])
    else
      match SearchMatch(s[0], term)
      case None => None
      case Some(b) =>
        match FilterSearch(s[1..], term)
        case None =>
          var i :| 0 <= i < |s[1..]| && SearchMatch(s[1..][i], term).None?;
          assert SearchMatch(s[i + 1], term).None?;
          None
        case Some(rest) =>
          assert forall i :: 1 <= i < |s| ==> s[i] == s[1..][i - 1];
          Some(if b then [s[0]] + rest else rest)
  }

  /** The category test: `all` lets everything through. */
  predicate InCategory(p: Product, category: string) {
    category == "all" || p.category == category
  }

  function CategoryFn(category: string): Product -> bool {
    (p: Product) => InCategory(p, category)
  }

  /** The search stage: an empty search lets everything through. */
  function SearchStageFn(search: string): Product -> bool {
    (p: Product) => search == "" || SearchMatch(p, search) == Some(true)
  }

  function PriceFn(maxPrice: int): Product -> bool {
    (p: Product) => p.price <= maxPrice
  }

  /** A product the page displays under the current filters. */
  predicate Keep(p: Product, category: string, search: string, maxPrice: int) {
    InCategory(p, category)
    && (search == "" || SearchMatch(p, search) == Some(true))
    && p.price <= maxPrice
  }

  function KeepFn(category: string, search: string, maxPrice: int): Product -> bool {
    (p: Product) => Keep(p, category, search, maxPrice)
  }

  /** The category stage of the chain. */
  function ByCategory(all: seq<Product>, category: string): seq<Product> {
    if category != "all" then Filter(all, CategoryFn(category)) else all
  }

  /** The search stage of the chain: None when the search throws. */
  function BySearch(s: seq<Product>, search: string): Option<seq<Product>> {
    if search != "" then FilterSearch(s, search) else Some(s)
  }

  /** The search throws exactly when some product of the category has a
      NULL field the search reaches. */
  lemma SearchThrowsExactly(all: seq<Product>, category: string, search: string)
    ensures BySearch(ByCategory(all, category), search).None? <==>
              search != "" && exists i :: 0 <= i < |all| && InCategory(all[i], category)
                                          && SearchMatch(all[i], search).None?
  {
    var byCategory := ByCategory(all, category);
    if search != "" && exists i :: 0 <= i < |all| && InCategory(all[i], category)
                                   && SearchMatch(all[i], search).None? {
      var i :| 0 <= i < |all| && InCategory(all[i], category) && SearchMatch(all[i], search).None?;
      assert category != "all" ==> CategoryFn(category)(all[i]);
      assert all[i] in byCategory;
      var j :| 0 <= j < |byCategory| && byCategory[j] == all[i];
    }
    if BySearch(byCategory, search).None? {
      var j :| 0 <= j < |byCategory| && SearchMatch(byCategory[j], search).None?;
      assert byCategory[j] in all && InCategory(byCategory[j], category);
      var i :| 0 <= i < |all| && all[i] == byCategory[j];
    }
  }

  /** `displayProducts`' filter chain: the category filter unless the
      category is `all`, the search filter when the search is non-empty,
      then the price ceiling. None when the search throws. */
  function FilterProducts(all: seq<Product>, category: string, search: string, maxPrice: int): (r: Option<seq<Product>>)
    ensures r.Some? ==> r.value == Filter(all, KeepFn(category, search, maxPrice))
    ensures r.Some? ==> IsSubsequence(r.value, all)
    ensures r.None? <==> search != "" && exists i :: 0 <= i < |all| && InCategory(all[i], category)
                                                     && SearchMatch(all[i], search).None?
  {
    var byCategory := ByCategory(all, category);
    SearchThrowsExactly(all, category, search);
    match BySearch(byCategory, search)
    case None => None
    case Some(found) =>
      ChainIsFilter(all, category, search, maxPrice, byCategory, found);
      FilterIsSubsequence(all, KeepFn(category, search, maxPrice));
      Some(Filter(found, PriceFn(maxPrice)))
  }

  /** The three stages compose into one filter by Keep. */
  lemma ChainIsFilter(all: seq<Product>, category: string, search: string, maxPrice: int,
                      byCategory: seq<Product>, found: seq<Product>)
    requires byCategory == if category != "all" then Filter(all, CategoryFn(category)) else all
    requires search != "" ==> found == Filter(byCategory, SearchFn(search))
    requires search == "" ==> found == byCategory
    ensures Filter(found, PriceFn(maxPrice)) == Filter(all, KeepFn(category, search, maxPrice))
  {
    if category == "all" {
      FilterAll(all, CategoryFn(category));
    }
    assert byCategory == Filter(all, CategoryFn(category));
    if search == "" {
      FilterAll(byCategory, SearchStageFn(search));
    } else {
      FilterExt(byCategory, SearchFn(search), SearchStageFn(search));
    }
    assert found == Filter(byCategory, SearchStageFn(search));
    FilterThree(all, CategoryFn(category), SearchStageFn(search), PriceFn(maxPrice),
                KeepFn(category, search, maxPrice));
  }

  /** With no NULL description or wood type, the filter chain always answers. */
  lemma FilterProductsTotal(all: seq<Product>, category: string, search: string, maxPrice: int)
    requires forall i :: 0 <= i < |all| ==> all[i].description.Some? && all[i].woodType.Some?
    ensures FilterProducts(all, category, search, maxPrice).Some?
  {
  }

  /** With the category `all`, no search and a ceiling at or above every
      price, everything loaded is shown, in order. */
  lemma {:induction false} UnfilteredShowsAll(all: seq<Product>, maxPrice: int)
    requires forall i :: 0 <= i < |all| ==> all[i].price <= maxPrice
    ensures FilterProducts(all, "all", "", maxPrice) == Some(all)
  {
    FilterAll(all, KeepFn("all", "", maxPrice));
  }

  /** `truncateText(text, maxLength)`. */
  function TruncateText(text: Option<string>, maxLength: nat): (r: string)
    ensures !Truthy(text) ==> r == ""
    ensures Truthy(text) && |text.value| <= maxLength ==> r == text.value
    ensures Truthy(text) && |text.value| > maxLength ==>
              |r| == maxLength + 3 && StartsWith(text.value, r[..maxLength]) && r[maxLength..] == "..."
  {
    if !Truthy(text) then ""
    else if |text.value| <= maxLength then text.value
    else text.value[..maxLength] + "..."
  }

  /** A truncated text never exceeds the limit by more than the ellipsis. */
  lemma TruncateBounded(text: Option<string>, maxLength: nat)
    ensures |TruncateText(text, maxLength)| <= maxLength + 3
    ensures Truthy(text) ==> |TruncateText(text, maxLength)| <= |text.value| + 3
  {
  }

  /** The count line: `${n} produit${n > 1 ? 's' : ''} trouvé${n > 1 ? 's' : ''}`. */
  function CountLabel(n: nat): (r: string)
    ensures |r| > 0
  {
    var plural := if n > 1 then "s" else "";
    NatToString(n) + " produit" + plural + " trouv\U{E9}" + plural
  }

  /** The label is plural exactly when the count exceeds 1, and it starts
      with the count itself. */
  lemma CountLabelPlural(n: nat)
    ensures CountLabel(n)[|CountLabel(n)| - 1] == 's' <==> n > 1
    ensures ParseNat(CountLabel(n)).Some? && ParseNat(CountLabel(n)).value.0 == n
  {
    var plural := if n > 1 then "s" else "";
    var rest := " produit" + plural + " trouv\U{E9}" + plural;
    assert CountLabel(n) == NatToString(n) + rest;
    ParseNatRoundTrip(n, rest);
  }

  /** The most expensive product's price (`Math.max(...prices)`). */
  function MaxPrice(s: seq<Product>): (m: int)
    requires |s| > 0
    ensures forall i :: 0 <= i < |s| ==> s[i].price <= m
    ensures exists i :: 0 <= i < |s| && s[i].price == m
  {
    if |s| == 1 then s[0].price
    else
      var m := MaxPrice(s[1..]);
      assert forall i :: 1 <= i < |s| ==> s[i] == s[1..][i - 1];
      if s[0].price >= m then s[0].price else m
  }

  /** `Math.ceil(x / 10) * 10` on euros: the multiple of 1000 cents at or
      just above x (Dafny's division is Euclidean, so the ceiling is
      written through the negation). */
  function CeilToTenEuros(x: int): (r: int)
    ensures r % 1000 == 0
    ensures x <= r < x + 1000
  {
    -((-x) / 1000) * 1000
  }

  /** The slider ceiling `initializePriceFilter` computes. */
  function SliderCeiling(products: seq<Product>): (r: int)
    requires |products| > 0
  {
    CeilToTenEuros(MaxPrice(products))
  }

  /** The slider ceiling is a multiple of 10 euros at or above every price,
      and less than 10 euros above the dearest product. */
  lemma SliderCeilingBounds(products: seq<Product>)
    requires |products| > 0
    ensures SliderCeiling(products) % 1000 == 0
    ensures forall i :: 0 <= i < |products| ==> products[i].price <= SliderCeiling(products)
    ensures exists i :: 0 <= i < |products| && SliderCeiling(products) < products[i].price + 1000
  {
    var m := MaxPrice(products);
    var i :| 0 <= i < |products| && products[i].price == m;
  }

  /** The page's filter globals and the price slider. */
  class CatalogueState {
    var allProducts: seq<Product>
    var category: string
    var search: string
    var currentMaxPrice: int
    /** The slider's `max` and `value` attributes. */
    var sliderMax: int
    var sliderValue: int

    /** The globals' initial values; the slider starts as the page markup sets it. */
    constructor(markupMax: int, markupValue: int)
      ensures allProducts == [] && category == "all" && search == ""
      ensures currentMaxPrice == 10000
      ensures sliderMax == markupMax && sliderValue == markupValue
    {
      allProducts := [];
      category := "all";
      search := "";
      currentMaxPrice := 10000;
      sliderMax := markupMax;
      sliderValue := markupValue;
    }

    /** What `displayProducts` shows now; the ceiling is the slider's value. */
    function Shown(): Option<seq<Product>>
      reads this
    {
      FilterProducts(allProducts, category, search, sliderValue)
    }

    /** `initializePriceFilter`: nothing happens without products; otherwise
        the slider's max and value and the current ceiling become the
        rounded maximum price. */
    method InitializePriceFilter()
      modifies this
      ensures allProducts == old(allProducts) && category == old(category) && search == old(search)
      ensures |allProducts| == 0 ==>
                sliderMax == old(sliderMax) && sliderValue == old(sliderValue)
                && currentMaxPrice == old(currentMaxPrice)
      ensures |allProducts| > 0 ==>
                sliderMax == SliderCeiling(allProducts) && sliderValue == sliderMax
                && currentMaxPrice == sliderMax
    {
      if |allProducts| == 0 {
        return;
      }
      var roundedMax := SliderCeiling(allProducts);
      sliderMax := roundedMax;
      sliderValue := roundedMax;
      currentMaxPrice := roundedMax;
    }

    /** `loadProducts` after the fetch: store the list, size the slider, then
        adopt the truthy `category` and `search` URL parameters (the search
        parameter untrimmed). */
    method LoadProducts(products: seq<Product>, categoryParam: Option<string>, searchParam: Option<string>)
      modifies this
      ensures allProducts == products
      ensures |products| > 0 ==> sliderMax == SliderCeiling(products) && sliderValue == sliderMax
      ensures |products| == 0 ==> sliderMax == old(sliderMax) && sliderValue == old(sliderValue)
      ensures category == OrElse(categoryParam, old(category))
      ensures search == OrElse(searchParam, old(search))
    {
      allProducts := products;
      InitializePriceFilter();
      if Truthy(categoryParam) {
        category := categoryParam.value;
      }
      if Truthy(searchParam) {
        search := searchParam.value;
      }
    }

    /** A category button click. */
    method SelectCategory(c: string)
      modifies this`category
      ensures category == c
    {
      category := c;
    }

    /** The debounced search input: the typed text, trimmed. */
    method SetSearch(typed: string)
      modifies this`search
      ensures search == Trim(typed)
    {
      search := Trim(typed);
    }

    /** Moving the price slider. */
    method MoveSlider(v: int)
      modifies this`sliderValue
      ensures sliderValue == v
    {
      sliderValue := v;
    }

    /** `resetFilters`: category `all`, empty search, slider back to its max. */
    method ResetFilters()
      modifies this`category, this`search, this`sliderValue
      ensures category == "all" && search == "" && sliderValue == sliderMax
      ensures Shown() == Some(Filter(allProducts, PriceFn(sliderMax)))
    {
      category := "all";
      search := "";
      sliderValue := sliderMax;
      FilterExt(allProducts, KeepFn("all", "", sliderMax), PriceFn(sliderMax));
    }
  }

  /** After loading products and resetting the filters every product is shown. */
  lemma ResetAfterLoadShowsAll(products: seq<Product>)
    requires |products| > 0
    ensures FilterProducts(products, "all", "", SliderCeiling(products)) == Some(products)
  {
    SliderCeilingBounds(products);
    UnfilteredShowsAll(products, SliderCeiling(products));
  }
}
