/** The home page's product filter: a case-insensitive search over name, description and
    tags, category and location selectors with an `All` wildcard, and an inclusive price
    range whose bounds are typed text. */
module HomePage {
  import opened Wrappers
  import opened Seqs
  import opened Text
  import opened Numbers
  import opened Catalog

  /** The `Filters` record the filter bar hands over. */
  datatype Filters = Filters(category: string, minPrice: string, maxPrice: string, location: string)

  /** The filters the page starts with (and the bar's reset value). */
  const InitialFilters := Filters("All", "", "", "All")

  /** Some tag contains the needle once lower-cased. */
  predicate TagMatch(tags: seq<string>, needle: string) {
    exists i :: 0 <= i < |tags| && Includes(ToLower(tags[i]), needle)
  }

  /** `searchPass`: an empty query accepts everything. */
  predicate SearchPass(p: Product, query: string) {
    var needle := ToLower(query);
    if query != "" then
      Includes(ToLower(p.name), needle) || Includes(ToLower(p.description), needle) ||
      TagMatch(p.tags, needle)
    else true
  }

  predicate CategoryPass(p: Product, f: Filters) {
    f.category == "All" || p.category == f.category
  }

  predicate LocationPass(p: Product, f: Filters) {
    f.location == "All" || p.location == f.location
  }

  /** `pricePass`: each bound applies only when its text parses. */
  predicate PricePass(p: Product, f: Filters) {
    (match ParseFloat(f.minPrice) case None => true case Some(lo) => p.price >= lo) &&
    (match ParseFloat(f.maxPrice) case None => true case Some(hi) => p.price <= hi)
  }

  predicate Matches(p: Product, query: string, f: Filters) {
    SearchPass(p, query) && CategoryPass(p, f) && LocationPass(p, f) && PricePass(p, f)
  }

  /** `filteredProducts`. */
  function FilteredProducts(all: seq<Product>, query: string, f: Filters): seq<Product> {
    Filter(all, (p: Product) => Matches(p, query, f))
  }

  /** The result keeps the catalogue's order and holds exactly the products that pass all
      four tests. */
  lemma FilteredExactly(all: seq<Product>, query: string, f: Filters)
    ensures var r := FilteredProducts(all, query, f);
      && IsSubsequence(r, all)
      && forall p :: p in r <==>
           p in all && SearchPass(p, query) && CategoryPass(p, f) && LocationPass(p, f) && PricePass(p, f)
  {
  }

  /** A non-empty query passes exactly when its lower-cased form occurs in the lower-cased
      name, description or one of the tags. */
  lemma SearchMeaning(p: Product, query: string)
    requires query != ""
    ensures var needle := ToLower(query);
      SearchPass(p, query) <==>
        IsSubstring(ToLower(p.name), needle) || IsSubstring(ToLower(p.description), needle) ||
        exists i :: 0 <= i < |p.tags| && IsSubstring(ToLower(p.tags[i]), needle)
  {
    var needle := ToLower(query);
    IncludesIsSubstring(ToLower(p.name), needle);
    IncludesIsSubstring(ToLower(p.description), needle);
    forall i | 0 <= i < |p.tags| {
      IncludesIsSubstring(ToLower(p.tags[i]), needle);
    }
  }

  /** The empty query accepts every product. */
  lemma EmptyQueryPasses(p: Product)
    ensures SearchPass(p, "")
  {
  }

  /** `All` accepts every category and every location; any other value requires equality. */
  lemma SelectorMeaning(p: Product, f: Filters)
    ensures CategoryPass(p, f) <==> f.category == "All" || p.category == f.category
    ensures LocationPass(p, f) <==> f.location == "All" || p.location == f.location
  {
  }

  /** Bounds typed as numerals are inclusive. */
  lemma PriceRange(p: Product, f: Filters, lo: nat, hi: nat)
    requires f.minPrice == NatToDecimal(lo) && f.maxPrice == NatToDecimal(hi)
    ensures PricePass(p, f) <==> lo as real <= p.price <= hi as real
  {
    ParseFloatNumeral(lo);
    ParseFloatNumeral(hi);
  }

  /** A bound without any digit (an empty field, say) imposes nothing. */
  lemma UnparsedBoundsIgnored(p: Product, f: Filters)
    ensures (forall i :: 0 <= i < |f.minPrice| ==> !IsDigit(f.minPrice[i])) ==>
      (PricePass(p, f) <==> PricePass(p, f.(minPrice := "")))
    ensures (forall i :: 0 <= i < |f.maxPrice| ==> !IsDigit(f.maxPrice[i])) ==>
      (PricePass(p, f) <==> PricePass(p, f.(maxPrice := "")))
    ensures PricePass(p, f.(minPrice := "", maxPrice := ""))
  {
    NoDigitsNoNumber("");
    if forall i :: 0 <= i < |f.minPrice| ==> !IsDigit(f.minPrice[i]) {
      NoDigitsNoNumber(f.minPrice);
    }
    if forall i :: 0 <= i < |f.maxPrice| ==> !IsDigit(f.maxPrice[i]) {
      NoDigitsNoNumber(f.maxPrice);
    }
  }

  /** On first render (empty query, initial filters) every product is shown, in order. */
  lemma InitialViewShowsAll(all: seq<Product>)
    ensures FilteredProducts(all, "", InitialFilters) == all
  {
    NoDigitsNoNumber("");
    FilterKeepsAll(all, (p: Product) => Matches(p, "", InitialFilters));
  }

  /** On the mock catalogue, choosing `Furniture` shows the chair alone. */
  lemma FurnitureOnMockData()
    ensures FilteredProducts(MockProducts, "", InitialFilters.(category := "Furniture")) == [Chair]
  {
    var f := InitialFilters.(category := "Furniture");
    NoDigitsNoNumber("");
    assert PricePass(Chair, f);
    assert Matches(Chair, "", f);
    assert !Matches(Jacket, "", f) && !Matches(ActionFigure, "", f);
    assert !Matches(Guitar, "", f) && !Matches(Camera, "", f) && !Matches(Novels, "", f);
    var keep := (p: Product) => Matches(p, "", f);
    FilterStep(Jacket, [Chair, ActionFigure, Guitar, Camera, Novels], keep);
    FilterStep(Chair, [ActionFigure, Guitar, Camera, Novels], keep);
    FilterStep(ActionFigure, [Guitar, Camera, Novels], keep);
    FilterStep(Guitar, [Camera, Novels], keep);
    FilterStep(Camera, [Novels], keep);
    FilterStep(Novels, [], keep);
  }
}
