/** The new-listing form: schema validation of the text fields (price preprocessing
    included), the product built on submit (tags, defaults, image hint), and the image
    list with its primary-image index, which the form's handlers update step by step. */
module NewListing {
  import opened Wrappers
  import opened Seqs
  import opened Text
  import opened Numbers
  import opened Catalog
  import SellerListings

  const MockedSellerEmail := "seller1@marketmate.com"
  const ListedLocation := "User's Location"

  /** The form values as submitted; `None` stands for `undefined`. */
  datatype ListingInput = ListingInput(
    productName: string,
    description: Option<string>,
    category: Option<string>,
    price: Option<string>,
    tags: Option<string>)

  /** The values once the schema accepts them. */
  datatype ListingData = ListingData(
    productName: string,
    description: Option<string>,
    category: Option<string>,
    price: real,
    tags: Option<string>)

  datatype Field = ProductName | Description | Price
  datatype Issue = Issue(field: Field, message: string)

  /** JavaScript truthiness of an optional string: present and not empty. */
  predicate Truthy(s: Option<string>) {
    s.Some? && s.value != ""
  }

  // ----- Price -----

  /** The price preprocess: blank or unparseable text becomes `undefined` (`None`). */
  function PreprocessPrice(raw: Option<string>): Option<real> {
    var text := raw.GetOr("");
    if Trim(text) == "" then None else ParseFloat(text)
  }

  function PriceIssues(raw: Option<string>): (issues: seq<Issue>)
    ensures issues == [] <==> PreprocessPrice(raw).Some? && PreprocessPrice(raw).value > 0.0
  {
    match PreprocessPrice(raw)
    case None => [Issue(Price, "Price is required.")]
    case Some(v) => if v > 0.0 then [] else [Issue(Price, "Price must be a positive number.")]
  }

  /** Blank text and text without digits are both reported as a missing price. */
  lemma PriceWithoutDigitsRequired(raw: Option<string>)
    requires forall i :: 0 <= i < |raw.GetOr("")| ==> !IsDigit(raw.GetOr("")[i])
    ensures PreprocessPrice(raw) == None
    ensures PriceIssues(raw) == [Issue(Price, "Price is required.")]
  {
    NoDigitsNoNumber(raw.GetOr(""));
  }

  /** A whole number of units is accepted as that price when positive, and rejected as not
      positive when zero. */
  lemma NumeralPrice(n: nat)
    ensures PreprocessPrice(Some(NatToDecimal(n))) == Some(n as real)
    ensures n >= 1 ==> PriceIssues(Some(NatToDecimal(n))) == []
    ensures n == 0 ==> PriceIssues(Some(NatToDecimal(n))) == [Issue(Price, "Price must be a positive number.")]
  {
    var d := NatToDecimal(n);
    assert !IsSpace(d[0]);
    assert LeadingSpaces(d) == 0;
    assert TrimStart(d) == d;
    assert TrailingSpaces(d) < |d|;
    assert Trim(d) != "";
    ParseFloatNumeral(n);
  }

  // ----- Schema -----

  function NameIssues(name: string): seq<Issue> {
    (if |name| < 3 then [Issue(ProductName, "Product name must be at least 3 characters.")] else []) +
    (if |name| > 100 then [Issue(ProductName, "Product name must be 100 characters or less.")] else [])
  }

  function DescriptionIssues(description: Option<string>): seq<Issue> {
    if description.Some? && |description.value| > 5000 then
      [Issue(Description, "Description must be 5000 characters or less.")]
    else []
  }

  /** `productFormSchema`: every failing check is reported; the data is accepted only when
      there are none. */
  function ValidateListing(input: ListingInput): (r: Result<ListingData, seq<Issue>>)
    ensures r.Ok? <==>
      3 <= |input.productName| <= 100 &&
      (input.description.Some? ==> |input.description.value| <= 5000) &&
      PreprocessPrice(input.price).Some? && PreprocessPrice(input.price).value > 0.0
    ensures r.Ok? ==>
      && r.value.price > 0.0 && r.value.productName == input.productName
      && r.value.description == input.description && r.value.category == input.category
      && r.value.tags == input.tags && Some(r.value.price) == PreprocessPrice(input.price)
    ensures r.Err? ==> r.error != []
  {
    var issues := NameIssues(input.productName) + DescriptionIssues(input.description) + PriceIssues(input.price);
    if issues == [] then
      Ok(ListingData(input.productName, input.description, input.category,
        PreprocessPrice(input.price).value, input.tags))
    else Err(issues)
  }

  // ----- Tags and image hint -----

  /** The tags of the listed product: the tags text split at commas, each piece trimmed,
      empty pieces dropped; no tags when the field is missing or empty. */
  function ParseTags(tags: Option<string>): seq<string> {
    if Truthy(tags) then Filter(Map(Split(tags.value, ','), Trim), (t: string) => t != "")
    else []
  }

  /** Every parsed tag is non-empty, has no white space at its ends and no comma. */
  lemma ParsedTagsClean(tags: Option<string>)
    ensures forall t :: t in ParseTags(tags) ==> t != "" && Trim(t) == t && ',' !in t
  {
    if Truthy(tags) {
      var pieces := Split(tags.value, ',');
      var trimmed := Map(pieces, Trim);
      forall t | t in ParseTags(tags) ensures t != "" && Trim(t) == t && ',' !in t {
        assert t in trimmed;
        var i :| 0 <= i < |trimmed| && trimmed[i] == t;
        TrimmedPieceClean(pieces[i]);
      }
    }
  }

  lemma TrimmedPieceClean(piece: string)
    requires ',' !in piece
    ensures Trim(Trim(piece)) == Trim(piece) && ',' !in Trim(piece)
  {
    TrimIdempotent(piece);
    TrimIsSlice(piece);
    var a, b :| 0 <= a <= b <= |piece| && Trim(piece) == piece[a..b];
    assert forall k :: 0 <= k < |Trim(piece)| ==> Trim(piece)[k] == piece[a + k];
  }

  lemma MissingTagsEmpty()
    ensures ParseTags(None) == [] && ParseTags(Some("")) == []
  {
  }

  /** Tags that are already clean come back unchanged from their comma-joined text. */
  lemma TagsRoundTrip(ts: seq<string>)
    requires |ts| >= 1
    requires forall i :: 0 <= i < |ts| ==> ts[i] != "" && Trim(ts[i]) == ts[i] && ',' !in ts[i]
    ensures ParseTags(Some(Join(ts, ','))) == ts
  {
    var joined := Join(ts, ',');
    assert |joined| >= |ts[0]|;
    SplitJoin(ts, ',');
    var trimmed := Map(ts, Trim);
    assert trimmed == ts;
    FilterKeepsAll(ts, (t: string) => t != "");
  }

  /** The image hint: the first comma-separated segment, trimmed, when tags are given;
      otherwise the lower-cased category, or `item`. */
  function ImageHint(tags: Option<string>, category: Option<string>): string {
    if Truthy(tags) then Trim(Split(tags.value, ',')[0])
    else ToLower(if Truthy(category) then category.value else "item")
  }

  /** When the first segment holds a tag, the hint is that (first) tag. */
  lemma ImageHintIsFirstTag(tags: Option<string>, category: Option<string>)
    requires Truthy(tags) && Trim(Split(tags.value, ',')[0]) != ""
    ensures |ParseTags(tags)| >= 1 && ImageHint(tags, category) == ParseTags(tags)[0]
  {
    var trimmed := Map(Split(tags.value, ','), Trim);
    assert trimmed == [trimmed[0]] + trimmed[1..];
    FilterStep(trimmed[0], trimmed[1..], (t: string) => t != "");
  }

  /** When the first segment is blank (tags text starting with a comma, say), the hint is
      empty even though the parsed tags may not be. */
  lemma ImageHintBlankFirstSegment(tags: Option<string>, category: Option<string>)
    requires Truthy(tags) && Trim(Split(tags.value, ',')[0]) == ""
    ensures ImageHint(tags, category) == ""
  {
  }

  /** `,vintage` is listed with the tag `vintage` but an empty image hint. */
  lemma LeadingCommaHint()
    ensures ImageHint(Some(",vintage"), None) == ""
    ensures ParseTags(Some(",vintage")) == ["vintage"]
  {
    var pieces := ["", "vintage"];
    LeadingCommaSplit();
    TrimOfTrimmed("vintage");
    var trimmed := Map(pieces, Trim);
    assert trimmed == pieces;
    var keep := (t: string) => t != "";
    FilterStep("", ["vintage"], keep);
    FilterStep("vintage", [], keep);
    assert pieces == [""] + ["vintage"];
  }

  lemma LeadingCommaSplit()
    ensures Split(",vintage", ',') == ["", "vintage"]
  {
    var pieces := ["", "vintage"];
    assert Join(pieces, ',') == ",vintage";
    SplitJoin(pieces, ',');
  }

  lemma ImageHintWithoutTags(tags: Option<string>, category: Option<string>)
    requires !Truthy(tags)
    ensures !Truthy(category) ==> ImageHint(tags, category) == "item"
    ensures Truthy(category) ==> ImageHint(tags, category) == ToLower(category.value)
  {
    assert ToLower("item") == "item";
  }

  // ----- The listed product -----

  /** `newProduct`, built from accepted data, the new id, the previews and the primary index. */
  function NewProduct(data: ListingData, id: string, previews: seq<string>, primary: nat): (p: Product)
    ensures p.category != ""
    ensures p.imageUrl != "" && (p.imageUrl == Placeholder || p.imageUrl in previews)
    ensures data.price > 0.0 ==> p.price > 0.0
    ensures forall t :: t in p.tags ==> t != "" && Trim(t) == t && ',' !in t
  {
    ParsedTagsClean(data.tags);
    Product(
      id,
      data.productName,
      if Truthy(data.description) then data.description.value else "",
      data.price,
      if Truthy(data.category) then data.category.value else "Uncategorized",
      ListedLocation,
      if primary < |previews| && previews[primary] != "" then previews[primary] else Placeholder,
      ParseTags(data.tags),
      Some(MockedSellerEmail),
      Some(ImageHint(data.tags, data.category)))
  }

  /** A missing or empty category is listed as `Uncategorized`, and a missing description
      as empty text. */
  lemma NewProductDefaults(data: ListingData, id: string, previews: seq<string>, primary: nat)
    ensures var p := NewProduct(data, id, previews, primary);
      && (!Truthy(data.category) ==> p.category == "Uncategorized")
      && (data.description.None? ==> p.description == "")
  {
  }

  /** The listed product belongs to the seller whose listings the seller page shows: were it
      appended to a catalogue, that page would list it after the seller's earlier products. */
  lemma NewProductOnSellerPage(products: seq<Product>, data: ListingData, id: string, previews: seq<string>, primary: nat)
    ensures var p := NewProduct(data, id, previews, primary);
      SellerListings.UserProducts(products + [p]) == SellerListings.UserProducts(products) + [p]
  {
    var p := NewProduct(data, id, previews, primary);
    var keep := (q: Product) => q.sellerEmail == Some(SellerListings.MockedUserEmail);
    FilterAppend(products, [p], keep);
    FilterStep(p, [], keep);
    assert [p] + [] == [p];
  }

  // ----- Images and submission -----

  /** A picked image file; only its identity matters here. */
  datatype ImageFile = ImageFile(name: string)

  datatype SubmitOutcome =
    | Invalid(issues: seq<Issue>)
    | NoImages
    | NoPrimaryImage
    | Listed(product: Product)

  /** The form's image state: the files, their preview URLs and the primary index. */
  class ListingForm {
    var files: seq<ImageFile>
    var previews: seq<string>
    var primary: Option<nat>

    /** One preview per file; a primary index exactly when there are images, and in range. */
    ghost predicate Valid()
      reads this
    {
      |previews| == |files| &&
      (primary.None? <==> files == []) &&
      (primary.Some? ==> primary.value < |files|)
    }

    constructor ()
      ensures Valid() && files == [] && previews == [] && primary == None
    {
      files, previews, primary := [], [], None;
    }

    /** `handleImageChange`: append the picked files and their object URLs; select the
        first image as primary when none is selected and there are images. */
    method AddImages(picked: Option<seq<ImageFile>>, objectUrl: ImageFile -> string)
      modifies this
      ensures picked.None? ==> files == old(files) && previews == old(previews)
      ensures picked.Some? ==> files == old(files) + picked.value
      ensures picked.Some? ==> previews == old(previews) + Map(picked.value, objectUrl)
      ensures primary ==
        if picked.Some? && old(primary).None? && |old(files)| + |picked.value| > 0 then Some(0)
        else old(primary)
      ensures old(Valid()) ==> Valid()
      ensures old(Valid()) && old(primary).Some? ==> files[primary.value] == old(files)[old(primary).value]
    {
      if picked.Some? {
        var filesArray := picked.value;
        var before := |files|;
        files := files + filesArray;
        previews := previews + Map(filesArray, objectUrl);
        if primary.None? && before + |filesArray| > 0 {
          primary := Some(0);
        }
      }
    }

    /** `handleRemoveImage` as intended: drop the image at `index`; the primary index
        follows its image, and falls back to the first image (or none) when it is the one
        removed. */
    method RemoveImage(index: nat)
      modifies this
      ensures files == DropIndex(old(files), index)
      ensures previews == DropIndex(old(previews), index)
      ensures old(primary) == Some(index) ==> primary == (if |previews| > 0 then Some(0) else None)
      ensures old(primary).Some? && old(primary).value > index ==> primary == Some(old(primary).value - 1)
      ensures old(primary).None? || old(primary).value < index ==> primary == old(primary)
      ensures old(Valid()) ==> Valid()
      ensures old(Valid()) && old(primary).Some? && old(primary).value != index ==>
        files[primary.value] == old(files)[old(primary).value]
    {
      var wasPrimary := primary;
      files := DropIndex(files, index);
      previews := DropIndex(previews, index);
      if wasPrimary == Some(index) {
        primary := if |previews| > 0 then Some(0) else None;
      } else if wasPrimary.Some? && wasPrimary.value > index {
        primary := Some(wasPrimary.value - 1);
      }
    }

    /** `handleSetPrimaryImage`: the preview buttons pass their own index. */
    method SetPrimary(index: nat)
      modifies this`primary
      ensures primary == Some(index)
      ensures old(Valid()) && index < |files| ==> Valid()
    {
      primary := Some(index);
    }

    /** `form.handleSubmit(onSubmit)`: schema errors stop it first, then a missing image,
        then a missing primary index; otherwise the product is built with id
        `mock-<now>` and the image state is reset. */
    method Submit(input: ListingInput, now: nat) returns (outcome: SubmitOutcome)
      modifies this
      ensures ValidateListing(input).Err? ==> outcome == Invalid(ValidateListing(input).error)
      ensures ValidateListing(input).Ok? && old(files) == [] ==> outcome == NoImages
      ensures ValidateListing(input).Ok? && old(files) != [] && old(primary).None? ==>
        outcome == NoPrimaryImage
      ensures ValidateListing(input).Ok? && old(files) != [] && old(primary).Some? ==>
        outcome == Listed(NewProduct(ValidateListing(input).value, "mock-" + NatToDecimal(now),
          old(previews), old(primary).value))
      ensures !outcome.Listed? ==>
        files == old(files) && previews == old(previews) && primary == old(primary)
      ensures outcome.Listed? ==> files == [] && previews == [] && primary == None && Valid()
      ensures outcome.Listed? ==> outcome.product.price > 0.0
    {
      var validated := ValidateListing(input);
      if validated.Err? {
        return Invalid(validated.error);
      }
      var data := validated.value;
      if |files| == 0 {
        return NoImages;
      }
      if primary.None? {
        return NoPrimaryImage;
      }
      outcome := Listed(NewProduct(data, "mock-" + NatToDecimal(now), previews, primary.value));
      files, previews, primary := [], [], None;
    }
  }

  // ----- handleRemoveImage as written -----

  /** How a run of the handler ends, with the image state it leaves. */
  datatype HandlerRun =
    | Returned(files: seq<ImageFile>, previews: seq<string>, primary: Option<nat>)
    | ThrewReferenceError(files: seq<ImageFile>, previews: seq<string>, primary: Option<nat>)

  /** `handleRemoveImage` as written: the two filter updates are queued, and the branch
      for removing the primary image then reads `newPreviews`, a name declared only inside
      the preview updater, so the handler throws there and the primary index is never
      updated. */
  function RemoveImageAsWritten(files: seq<ImageFile>, previews: seq<string>, primary: Option<nat>, index: nat): HandlerRun {
    var fs := DropIndex(files, index);
    var ps := DropIndex(previews, index);
    if primary == Some(index) then ThrewReferenceError(fs, ps, primary)
    else if primary.Some? && primary.value > index then Returned(fs, ps, Some(primary.value - 1))
    else Returned(fs, ps, primary)
  }

  /** Removing the primary image when it is the last of two: the run throws, and leaves
      index 1 selected over a single remaining image. */
  lemma RemoveLastPrimaryAsWritten(a: ImageFile, b: ImageFile, u: string, v: string)
    ensures var run := RemoveImageAsWritten([a, b], [u, v], Some(1), 1);
      run.ThrewReferenceError? && run.files == [a] && run.primary == Some(1) &&
      run.primary.value >= |run.files|
  {
  }

  /** The same removal through the corrected handler keeps the index in range. */
  method RemoveLastPrimaryCorrected(a: ImageFile, b: ImageFile, u: string, v: string)
    returns (form: ListingForm)
    ensures fresh(form) && form.Valid() && form.files == [a] && form.primary == Some(0)
  {
    form := new ListingForm();
    form.AddImages(Some([a, b]), (f: ImageFile) => if f == a then u else v);
    form.SetPrimary(1);
    form.RemoveImage(1);
  }
}
