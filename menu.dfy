/**
 * The product (menu) table: the `is_active` flag derived from the API's
 * status, the choice between the API's filtered lists and the local list,
 * the name / status / category filters, the sort orders, the submit
 * payload, the page bar and the status toggle.
 */
module Menu {
  import opened Js
  import opened Seqs

  /** A product row; `isActive` is derived from `status` when the row is loaded. */
  datatype Product = Product(id: Value, name: string, price: Value, status: Value,
                             idCategory: Value, quantitySold: Value, isActive: bool)

  // ---------------------------------------------------------------------------
  // is_active
  // ---------------------------------------------------------------------------

  /** A boolean status is the flag itself, a numeric one is active when it is 1, anything else is inactive. */
  function IsActiveOf(status: Value): bool {
    match status
    case Bool(b) => b
    case Num(n) => n == 1
    case _ => false
  }

  /** Exactly `true` and `1` mean active: no string, not even "1", does. */
  lemma IsActiveIff(status: Value)
    ensures IsActiveOf(status) <==> status == Bool(true) || status == Num(1)
    ensures !IsActiveOf(Str("1")) && !IsActiveOf(Num(2))
  {
  }

  /** A row as the list keeps it after loading. */
  function LoadProduct(p: Product): (r: Product)
    ensures r.(isActive := p.isActive) == p
    ensures r.isActive == IsActiveOf(p.status)
  {
    p.(isActive := IsActiveOf(p.status))
  }

  function LoadProducts(ps: seq<Product>): (r: seq<Product>)
    ensures |r| == |ps|
    ensures forall i :: 0 <= i < |ps| ==> r[i] == LoadProduct(ps[i])
  {
    seq(|ps|, i requires 0 <= i < |ps| => LoadProduct(ps[i]))
  }

  /** Loading a loaded list again changes nothing. */
  lemma LoadProductsIdempotent(ps: seq<Product>)
    ensures LoadProducts(LoadProducts(ps)) == LoadProducts(ps)
  {
  }

  // ---------------------------------------------------------------------------
  // Filters
  // ---------------------------------------------------------------------------

  /** The filter bar: name text, status choice ("", "1" or "0") and category id. */
  datatype Filters = Filters(name: string, status: string, category: string)

  /** The lists the screen may show: search results, the status API's list, the category API's list, the API-sorted list and the page of products. */
  datatype Lists = Lists(searchResults: seq<Product>, byStatus: seq<Product>, byCategory: seq<Product>,
                         apiSorted: seq<Product>, products: seq<Product>)

  /** Name: the trimmed filter, lower-cased, is a substring of the lower-cased name (`lower` stands for `toLowerCase`). */
  predicate MatchName(item: Product, f: Filters, lower: string -> string) {
    Trim(f.name) == "" || Includes(lower(item.name), lower(Trim(f.name)))
  }

  predicate MatchStatus(item: Product, f: Filters) {
    f.status == "" || (if f.status == "1" then item.isActive else !item.isActive)
  }

  predicate MatchCategory(item: Product, f: Filters) {
    f.category == "" || ToStr(item.idCategory) == f.category
  }

  /** The list a filter result is drawn from. */
  datatype Source = SearchResults | StatusList | CategoryList | ApiSorted | LocalProducts

  /** The first source that applies, in the screen's order of preference. */
  function SourceOf(l: Lists, f: Filters): (src: Source)
    ensures src == SearchResults <==> Trim(f.name) != "" && |l.searchResults| > 0
    ensures src == StatusList <==>
              !(Trim(f.name) != "" && |l.searchResults| > 0) && f.status != "" && |l.byStatus| > 0
    ensures src == CategoryList <==>
              !(Trim(f.name) != "" && |l.searchResults| > 0) && !(f.status != "" && |l.byStatus| > 0)
              && f.category != "" && |l.byCategory| > 0
    ensures src == ApiSorted ==> |l.apiSorted| > 0
    ensures src == LocalProducts ==> |l.apiSorted| == 0
  {
    if Trim(f.name) != "" && |l.searchResults| > 0 then SearchResults
    else if f.status != "" && |l.byStatus| > 0 then StatusList
    else if f.category != "" && |l.byCategory| > 0 then CategoryList
    else if |l.apiSorted| > 0 then ApiSorted
    else LocalProducts
  }

  function SourceList(l: Lists, src: Source): seq<Product> {
    match src
    case SearchResults => l.searchResults
    case StatusList => l.byStatus
    case CategoryList => l.byCategory
    case ApiSorted => l.apiSorted
    case LocalProducts => l.products
  }

  /** The predicates checked on a source: each API list skips the one its endpoint already applied. */
  predicate Kept(src: Source, f: Filters, lower: string -> string, item: Product) {
    (src == SearchResults || MatchName(item, f, lower))
    && (src == StatusList || MatchStatus(item, f))
    && (src == CategoryList || MatchCategory(item, f))
  }

  function StatusAndCategory(f: Filters): Product -> bool {
    item => MatchStatus(item, f) && MatchCategory(item, f)
  }

  function NameAndCategory(f: Filters, lower: string -> string): Product -> bool {
    item => MatchName(item, f, lower) && MatchCategory(item, f)
  }

  function NameAndStatus(f: Filters, lower: string -> string): Product -> bool {
    item => MatchName(item, f, lower) && MatchStatus(item, f)
  }

  function AllThree(f: Filters, lower: string -> string): Product -> bool {
    item => MatchName(item, f, lower) && MatchStatus(item, f) && MatchCategory(item, f)
  }

  /** `filteredProducts`. */
  function FilteredProducts(l: Lists, f: Filters, lower: string -> string): seq<Product> {
    if Trim(f.name) != "" && |l.searchResults| > 0 then
      Filter(l.searchResults, StatusAndCategory(f))
    else if f.status != "" && |l.byStatus| > 0 then
      Filter(l.byStatus, NameAndCategory(f, lower))
    else if f.category != "" && |l.byCategory| > 0 then
      Filter(l.byCategory, NameAndStatus(f, lower))
    else
      Filter(if |l.apiSorted| > 0 then l.apiSorted else l.products, AllThree(f, lower))
  }

  /**
   * The filtered list is drawn, in order, from the preferred source: it is a
   * subsequence of that source, every product in it passes the predicates
   * checked on that source, and every product of the source passing them is
   * in it.
   */
  lemma {:induction false} FilteredFromSource(l: Lists, f: Filters, lower: string -> string)
    ensures var src := SourceOf(l, f);
            var r := FilteredProducts(l, f, lower);
      && IsSubsequence(r, SourceList(l, src))
      && (forall i :: 0 <= i < |r| ==> Kept(src, f, lower, r[i]))
      && (forall x :: x in SourceList(l, src) && Kept(src, f, lower, x) ==> x in r)
  {
    var src := SourceOf(l, f);
    var s := SourceList(l, src);
    var p := match src
      case SearchResults => StatusAndCategory(f)
      case StatusList => NameAndCategory(f, lower)
      case CategoryList => NameAndStatus(f, lower)
      case _ => AllThree(f, lower);
    assert FilteredProducts(l, f, lower) == Filter(s, p);
    assert forall x :: p(x) == Kept(src, f, lower, x);
    FilterIsSubsequence(s, p);
    FilterKeeps(s, p);
  }

  /** Without a search or an API list, every shown product passes all three filters. */
  lemma LocalFilterChecksAll(l: Lists, f: Filters, lower: string -> string)
    requires SourceOf(l, f) == ApiSorted || SourceOf(l, f) == LocalProducts
    ensures var r := FilteredProducts(l, f, lower);
            forall i :: 0 <= i < |r| ==>
              MatchName(r[i], f, lower) && MatchStatus(r[i], f) && MatchCategory(r[i], f)
  {
    FilteredFromSource(l, f, lower);
  }

  /** With every filter empty the preferred local list is shown whole. */
  lemma NoFiltersShowsAll(l: Lists, lower: string -> string)
    ensures FilteredProducts(l, Filters("", "", ""), lower)
            == if |l.apiSorted| > 0 then l.apiSorted else l.products
  {
    var s := if |l.apiSorted| > 0 then l.apiSorted else l.products;
    FilterAll(s, AllThree(Filters("", "", ""), lower));
  }

  // ---------------------------------------------------------------------------
  // Sorting
  // ---------------------------------------------------------------------------

  /** `Number(a) - Number(b) < 0`; a `NaN` on either side places neither first. */
  predicate NumberLess(a: Value, b: Value) {
    match (NumberOf(a), NumberOf(b))
    case (Some(x), Some(y)) => x - y < 0
    case _ => false
  }

  function PriceAscending(a: Product, b: Product): bool { NumberLess(a.price, b.price) }

  function PriceDescending(a: Product, b: Product): bool { NumberLess(b.price, a.price) }

  /** `Number(p.quantity_sold || 0)`. */
  function SoldCount(p: Product): Option<int> { NumberOf(Or(p.quantitySold, Num(0))) }

  /** `Number(b.quantity_sold || 0) - Number(a.quantity_sold || 0) < 0`. */
  predicate SoldDescending(a: Product, b: Product) {
    match (SoldCount(b), SoldCount(a))
    case (Some(x), Some(y)) => x - y < 0
    case _ => false
  }

  /** `compare` stands for `localeCompare`. */
  function NameAscending(compare: (string, string) -> int): (Product, Product) -> bool {
    (a: Product, b: Product) => compare(a.name, b.name) < 0
  }

  function NameDescending(compare: (string, string) -> int): (Product, Product) -> bool {
    (a: Product, b: Product) => compare(b.name, a.name) < 0
  }

  /** `sortedProducts`: a sorted copy of the filtered list. */
  function SortedProducts(list: seq<Product>, option: string, compare: (string, string) -> int): (r: seq<Product>)
    ensures multiset(r) == multiset(list) && |r| == |list|
    ensures option !in {"price_asc", "price_desc", "name_asc", "name_desc", "sold_desc"} ==> r == list
  {
    if option == "price_asc" then Sort(list, PriceAscending)
    else if option == "price_desc" then Sort(list, PriceDescending)
    else if option == "name_asc" then Sort(list, NameAscending(compare))
    else if option == "name_desc" then Sort(list, NameDescending(compare))
    else if option == "sold_desc" then Sort(list, SoldDescending)
    else list
  }

  function PriceOf(p: Product): int { NumberOrZero(p.price) }

  function PriceAbove(a: Product, b: Product): bool { PriceOf(a) > PriceOf(b) }

  function PriceBelow(a: Product, b: Product): bool { PriceOf(a) < PriceOf(b) }

  predicate NumericPrices(list: seq<Product>) {
    forall i :: 0 <= i < |list| ==> NumberOf(list[i].price).Some?
  }

  /** With every price numeric, `price_asc` runs from the cheapest up and `price_desc` from the dearest down. */
  lemma PriceSorts(list: seq<Product>, compare: (string, string) -> int)
    requires NumericPrices(list)
    ensures var r := SortedProducts(list, "price_asc", compare);
            forall i, j :: 0 <= i < j < |r| ==> PriceOf(r[i]) <= PriceOf(r[j])
    ensures var r := SortedProducts(list, "price_desc", compare);
            forall i, j :: 0 <= i < j < |r| ==> PriceOf(r[i]) >= PriceOf(r[j])
  {
    CheapestFirst(list, compare);
    DearestFirst(list, compare);
  }

  lemma {:induction false} CheapestFirst(list: seq<Product>, compare: (string, string) -> int)
    requires NumericPrices(list)
    ensures var r := SortedProducts(list, "price_asc", compare);
            forall i, j :: 0 <= i < j < |r| ==> PriceOf(r[i]) <= PriceOf(r[j])
  {
    forall i, j | 0 <= i < |list| && 0 <= j < |list|
      ensures PriceAscending(list[i], list[j]) == PriceBelow(list[i], list[j])
    {
      assert NumberOf(list[i].price).Some? && NumberOf(list[j].price).Some?;
    }
    SortAgree(list, PriceAscending, PriceBelow);
    SortSorted(list, PriceBelow);
    var up := SortedProducts(list, "price_asc", compare);
    assert up == Sort(list, PriceAscending);
    forall i, j | 0 <= i < j < |up| ensures PriceOf(up[i]) <= PriceOf(up[j]) {
      assert !PriceBelow(up[j], up[i]);
    }
  }

  lemma {:induction false} DearestFirst(list: seq<Product>, compare: (string, string) -> int)
    requires NumericPrices(list)
    ensures var r := SortedProducts(list, "price_desc", compare);
            forall i, j :: 0 <= i < j < |r| ==> PriceOf(r[i]) >= PriceOf(r[j])
  {
    forall i, j | 0 <= i < |list| && 0 <= j < |list|
      ensures PriceDescending(list[i], list[j]) == PriceAbove(list[i], list[j])
    {
      assert NumberOf(list[i].price).Some? && NumberOf(list[j].price).Some?;
    }
    SortAgree(list, PriceDescending, PriceAbove);
    SortSorted(list, PriceAbove);
    var down := SortedProducts(list, "price_desc", compare);
    assert down == Sort(list, PriceDescending);
    forall i, j | 0 <= i < j < |down| ensures PriceOf(down[i]) >= PriceOf(down[j]) {
      assert !PriceAbove(down[j], down[i]);
    }
  }

  /** Units sold, a missing count being 0. */
  function SoldOf(p: Product): int {
    match SoldCount(p)
    case Some(n) => n
    case None => 0
  }

  function SoldAbove(a: Product, b: Product): bool { SoldOf(a) > SoldOf(b) }

  /** With every sold count numeric or missing, `sold_desc` runs from the best seller down. */
  lemma {:induction false} BestSellersFirst(list: seq<Product>, compare: (string, string) -> int)
    requires forall i :: 0 <= i < |list| ==> SoldCount(list[i]).Some?
    ensures var r := SortedProducts(list, "sold_desc", compare);
            forall i, j :: 0 <= i < j < |r| ==> SoldOf(r[i]) >= SoldOf(r[j])
  {
    forall i, j | 0 <= i < |list| && 0 <= j < |list|
      ensures SoldDescending(list[i], list[j]) == SoldAbove(list[i], list[j])
    {
      assert SoldCount(list[i]).Some? && SoldCount(list[j]).Some?;
    }
    SortAgree(list, SoldDescending, SoldAbove);
    SortSorted(list, SoldAbove);
    var r := SortedProducts(list, "sold_desc", compare);
    assert r == Sort(list, SoldDescending);
    forall i, j | 0 <= i < j < |r| ensures SoldOf(r[i]) >= SoldOf(r[j]) {
      assert !SoldAbove(r[j], r[i]);
    }
  }

  /** `Number(b.id) - Number(a.id) < 0`: the higher id first. */
  function IdDescending(a: Product, b: Product): bool { NumberLess(b.id, a.id) }

  /** The rows the table shows: in default mode the newest product (highest id) first. */
  function DisplayedRows(sorted: seq<Product>, option: string): (r: seq<Product>)
    ensures multiset(r) == multiset(sorted) && |r| == |sorted|
    ensures option != "default" ==> r == sorted
  {
    if option == "default" then Sort(sorted, IdDescending) else sorted
  }

  function IdOf(p: Product): int { NumberOrZero(p.id) }

  function IdAbove(a: Product, b: Product): bool { IdOf(a) > IdOf(b) }

  /** In default mode, with numeric ids, the rows run from the highest id down. */
  lemma {:induction false} DefaultRowsNewestFirst(list: seq<Product>)
    requires forall i :: 0 <= i < |list| ==> NumberOf(list[i].id).Some?
    ensures var r := DisplayedRows(list, "default");
            forall i, j :: 0 <= i < j < |r| ==> IdOf(r[i]) >= IdOf(r[j])
  {
    forall i, j | 0 <= i < |list| && 0 <= j < |list|
      ensures IdDescending(list[i], list[j]) == IdAbove(list[i], list[j])
    {
      assert NumberOf(list[i].id).Some? && NumberOf(list[j].id).Some?;
    }
    SortAgree(list, IdDescending, IdAbove);
    SortSorted(list, IdAbove);
    var r := DisplayedRows(list, "default");
    forall i, j | 0 <= i < j < |r| ensures IdOf(r[i]) >= IdOf(r[j]) {
      assert !IdAbove(r[j], r[i]);
    }
  }

  // ---------------------------------------------------------------------------
  // Submit
  // ---------------------------------------------------------------------------

  /** The product form. */
  datatype Form = Form(name: Value, slug: Value, image: Value, price: Value, status: Value,
                       metaDescription: Value, detailDescription: Value, quantitySold: Value,
                       idCategory: Value, idUser: Value)

  /** The body sent to the API; a `None` number is `NaN`. */
  datatype Submission = Submission(name: Value, slug: Value, image: Value, price: Option<int>,
                                   status: Option<int>, metaDescription: Value,
                                   detailDescription: Value, quantitySold: Option<int>,
                                   idCategory: string, idUser: string)

  /** The form is refused when a required field is missing. */
  datatype SubmitError = MissingRequiredFields

  /** `handleSubmit`'s check and the payload it builds. */
  function SubmitPayload(form: Form): (r: Result<Submission, SubmitError>)
    ensures r.Err? <==> !Truthy(form.name) || !Truthy(form.price) || !Truthy(form.idCategory)
    ensures r.Ok? ==>
      var s := r.value;
      && s.name == form.name
      && s.price == NumberOf(form.price)
      && (form.status == Undefined ==> s.status == Some(1))
      && (form.status != Undefined ==> s.status == NumberOf(form.status))
      && (!Truthy(form.quantitySold) ==> s.quantitySold == Some(0))
      && (Truthy(form.quantitySold) ==> s.quantitySold == NumberOf(form.quantitySold))
      && s.idCategory == ToStr(form.idCategory)
      && (!Truthy(form.idUser) ==> s.idUser == "1")
      && (Truthy(form.idUser) ==> s.idUser == ToStr(form.idUser))
      && (!Truthy(form.slug) ==> s.slug == Null) && (Truthy(form.slug) ==> s.slug == form.slug)
      && (!Truthy(form.image) ==> s.image == Null) && (Truthy(form.image) ==> s.image == form.image)
      && (!Truthy(form.metaDescription) ==> s.metaDescription == Null)
      && (Truthy(form.metaDescription) ==> s.metaDescription == form.metaDescription)
      && (!Truthy(form.detailDescription) ==> s.detailDescription == Null)
      && (Truthy(form.detailDescription) ==> s.detailDescription == form.detailDescription)
  {
    if !Truthy(form.name) || !Truthy(form.price) || !Truthy(form.idCategory) then
      Err(MissingRequiredFields)
    else
      Ok(Submission(
        form.name,
        Or(form.slug, Null),
        Or(form.image, Null),
        NumberOf(Or(form.price, Num(0))),
        if form.status == Undefined then Some(1) else NumberOf(form.status),
        Or(form.metaDescription, Null),
        Or(form.detailDescription, Null),
        NumberOf(Or(form.quantitySold, Num(0))),
        ToStr(form.idCategory),
        ToStr(Or(form.idUser, Str("1")))))
  }

  /** A fresh form with a name, a price and a category is accepted with status 1, 0 sold and user "1". */
  lemma NewProductDefaults(name: string, price: nat, category: nat)
    requires name != "" && price > 0 && category > 0
    ensures var r := SubmitPayload(Form(Str(name), Str(""), Str(""), Num(price), Undefined,
                                         Str(""), Str(""), Num(0), Num(category), Str("")));
      && r.Ok? && r.value.status == Some(1) && r.value.quantitySold == Some(0)
      && r.value.idUser == "1" && r.value.price == Some(price) && r.value.slug == Null
  {
  }

  // ---------------------------------------------------------------------------
  // Page bar
  // ---------------------------------------------------------------------------

  /** An item of the page bar. */
  datatype PagerItem = PageButton(page: int) | Gap

  /**
   * The bar as written: page 1; page 2 near the start; a gap after page 1
   * once the current page is past 3; the current page when it is neither the
   * first two nor the last; a gap before the last page when it is more than
   * two pages away; the last page.
   */
  function PagerAsWritten(cur: int, totalPages: int): seq<PagerItem> {
    [PageButton(1)]
    + (if totalPages > 1 && cur <= 3 then [PageButton(2)] else [])
    + (if cur > 3 then [Gap] else [])
    + (if cur > 2 && cur < totalPages then [PageButton(cur)] else [])
    + (if cur < totalPages - 2 then [Gap] else [])
    + (if totalPages > 1 then [PageButton(totalPages)] else [])
  }

  /** With two pages the bar as written shows page 2 twice: once as "page 2", once as the last page. */
  lemma PagerDuplicatesPageTwo(cur: int)
    requires cur == 1 || cur == 2
    ensures PagerAsWritten(cur, 2) == [PageButton(1), PageButton(2), PageButton(2)]
  {
  }

  /** The bar with "page 2" shown only when page 2 is not also the last page. */
  function Pager(cur: int, totalPages: int): (r: seq<PagerItem>)
    ensures totalPages != 2 ==> r == PagerAsWritten(cur, totalPages)
  {
    [PageButton(1)]
    + (if totalPages > 2 && cur <= 3 then [PageButton(2)] else [])
    + (if cur > 3 then [Gap] else [])
    + (if cur > 2 && cur < totalPages then [PageButton(cur)] else [])
    + (if cur < totalPages - 2 then [Gap] else [])
    + (if totalPages > 1 then [PageButton(totalPages)] else [])
  }

  /** Whether page `p` has a button in the bar. */
  predicate HasButton(items: seq<PagerItem>, p: int) {
    PageButton(p) in items
  }

  /**
   * For a current page in range the corrected bar lists each page at most
   * once, in increasing order, and always shows the first, the current and
   * the last page.
   */
  lemma PagerButtonsIncrease(cur: int, totalPages: int)
    requires 1 <= cur <= totalPages
    ensures var r := Pager(cur, totalPages);
      && (forall i, j :: 0 <= i < j < |r| && r[i].PageButton? && r[j].PageButton? ==> r[i].page < r[j].page)
      && HasButton(r, 1) && HasButton(r, cur) && HasButton(r, totalPages)
  {
  }

  /**
   * A page without a button below the current page is always covered by the
   * leading gap; above it, by the trailing gap, except for the page just
   * before the last when the current page is two before the last. That page
   * is skipped without a gap.
   */
  lemma PagerHiddenPages(cur: int, totalPages: int, p: int)
    requires 1 <= cur <= totalPages && 1 <= p <= totalPages
    requires !HasButton(Pager(cur, totalPages), p)
    ensures p < cur ==> cur > 3
    ensures p > cur ==> cur < totalPages - 2 || (p == totalPages - 1 && cur == totalPages - 2)
  {
  }

  /** Five pages with page 3 current: page 4 has no button and no gap stands for it. */
  lemma PagerSkipsWithoutGap()
    ensures Pager(3, 5) == [PageButton(1), PageButton(2), PageButton(3), PageButton(5)]
  {
  }

  // ---------------------------------------------------------------------------
  // Status toggle
  // ---------------------------------------------------------------------------

  /** After the API accepts the change, the product with that id has its flag flipped. */
  function ToggleActive(products: seq<Product>, id: Value): seq<Product> {
    seq(|products|, i requires 0 <= i < |products| =>
      if products[i].id == id then products[i].(isActive := !products[i].isActive) else products[i])
  }

  /** Only the flag of the matching products changes, and toggling twice restores the list. */
  lemma ToggleActiveEffect(products: seq<Product>, id: Value)
    ensures var r := ToggleActive(products, id);
      && |r| == |products|
      && (forall i :: 0 <= i < |products| ==>
            r[i].(isActive := products[i].isActive) == products[i]
            && (r[i].isActive != products[i].isActive <==> products[i].id == id))
      && ToggleActive(r, id) == products
  {
  }
}
