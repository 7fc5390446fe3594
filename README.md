# MarketMate core, modelled in Dafny

MarketMate is a mock second-hand marketplace front end. This project models its client-side
logic:

- the bag (cart) store: add, remove, update and clear, the total and the item count, and
  reloading the bag from the persisted `marketmateBag` slot;
- the bag page's quantity field, which turns typed text into a quantity;
- the home page's product filter: a case-insensitive search plus category, location and
  price-range filters;
- the seller page's "my listings" filter;
- the new-listing form: schema validation, the product built on submit, and the image list
  with its primary-image index;
- the sign-in and sign-up forms: their schemas, the mocked credentials and the two
  `localStorage` entries they write;
- the product record and the mock catalogue.

Modules follow the source files:

| module | file |
|---|---|
| `Catalog` | `src/lib/types.ts`, `src/lib/mockData.ts` |
| `BagContext` | `src/contexts/BagContext.tsx` |
| `BagPage` | `src/app/bag/page.tsx` |
| `HomePage` | `src/app/page.tsx` |
| `SellerListings` | `src/app/sell-product/page.tsx` |
| `NewListing` | `src/app/sell-product/new/page.tsx` |
| `Auth` | `src/app/auth/page.tsx` |

The support modules model the JavaScript built-ins the core relies on. `Text` covers
`toLowerCase`, `includes`, `trim`, `split` and `join`. `Numbers` covers `parseInt` and
`parseFloat`. `Seqs` covers `filter` and `map`. `Wrappers` holds `Option` and `Result`.

State that the source keeps in React state or `localStorage` and changes in place is a
class. `BagContext.BagStore` holds the list and the persisted slot. `NewListing.ListingForm`
holds the image files, their previews and the primary index. `Auth.AuthStorage` holds the
login flag and the stored profile. Each method's `ensures` gives the new state as a pure
function of the old one. The lemmas about those functions state the properties: well-formed
lines are preserved, totals stay consistent, a reload round-trips, and so on.

Inputs outside the program are parameters:

- the clock (`Date.now()` as `now`);
- the object URLs of picked files (`objectUrl`);
- the picked files themselves;
- the Zod `.email()` verdict (`emailWellFormed`);
- what the persisted slot holds (`StoredValue`).

Prices are `real`, so this model does no floating-point rounding.

Two places where the source's own comments describe something other than what the code
does; the model follows the code:

- The comment at `src/lib/mockData.ts:4-7` says the new-listing page mutates
  `mockProducts`. `onSubmit` in `src/app/sell-product/new/page.tsx:113-177` never does: it
  builds the product, shows a toast, resets the form and navigates away.
  `NewListing.ListingForm.Submit` returns the product and changes no catalogue.
- The comment at `src/app/bag/page.tsx:21` offers "Or keep current quantity" for text that
  is not a number. The code sets the quantity to 1, and `BagPage.QuantityArgument` does
  the same.

The proofs that carry the weight are the inductive ones about the list operations and the
string built-ins: `BagContext.RemoveKeepsWellFormed`, `BagContext.AddAccumulates`,
`BagContext.TotalsOfAppend`, `BagContext.RemoveAt`, `Text.JoinSplit`, `Text.SplitJoin` and
`Text.IncludesIsSubstring`. Lemmas on the mock data and single constants, such as
`Auth.MockedPasswordIsStrong`, are sanity examples.

## Model

| member | source | states |
|---|---|---|
| `BagContext.Find` | src/contexts/BagContext.tsx:59 | the line the operations look up by id; definition; properties in `FindIndex`, `AddExisting`, `RemoveTotals` |
| `BagContext.Added` | src/contexts/BagContext.tsx:58-74 | the `addToBag` updater; definition; properties in `AddExisting`, `AddNew`, `AddKeepsWellFormed`, `AddAccumulates`, `AddTotals` |
| `BagContext.Removed` | src/contexts/BagContext.tsx:79-89 | the `removeFromBag` updater; definition; properties in `RemoveSpec`, `RemoveKeepsWellFormed`, `RemoveAt`, `RemoveTotals` |
| `BagContext.Updated` | src/contexts/BagContext.tsx:93-110 | the `updateQuantity` updater; definition; properties in `UpdateBelowOneRemoves`, `UpdateSets`, `UpdateKeepsWellFormed`, `UpdateTotals` |
| `BagContext.Total` | src/contexts/BagContext.tsx:121-123 | the bag total; definition; properties in `TotalsOfAppend`, `TotalsOfReplace`, `EmptyTotals` and the operation lemmas |
| `BagContext.ItemCount` | src/contexts/BagContext.tsx:125-127 | the item count; definition; properties in `TotalsOfAppend`, `TotalsOfReplace`, `EmptyTotals` and the operation lemmas |
| `BagContext.Rehydrated` | src/contexts/BagContext.tsx:30-46 | the list the load effect leaves; definition; properties in `BagStore.constructor`, `Reload`, `MountOverCorruptSlot` |
| `BagContext.AddedNotice` | src/contexts/BagContext.tsx:59-73 | the add toast; definition; used by `BagStore.AddToBag` |
| `BagContext.RemovedNotice` | src/contexts/BagContext.tsx:80-86 | the removal toast, present only for a present line; definition; used by `BagStore.RemoveFromBag` and `BagStore.UpdateQuantity` |
| `HomePage.FilteredProducts` | src/app/page.tsx:25-49 | the home page's filtered list; definition; properties in `FilteredExactly`, `InitialViewShowsAll`, `FurnitureOnMockData` |
| `HomePage.SearchPass` | src/app/page.tsx:27-31 | the search test; definition; properties in `SearchMeaning`, `EmptyQueryPasses` |
| `HomePage.CategoryPass` | src/app/page.tsx:33 | the category test; definition; properties in `SelectorMeaning` |
| `HomePage.LocationPass` | src/app/page.tsx:34 | the location test; definition; properties in `SelectorMeaning` |
| `HomePage.PricePass` | src/app/page.tsx:36-46 | the price test; definition; properties in `PriceRange`, `UnparsedBoundsIgnored` |
| `SellerListings.UserProducts` | src/app/sell-product/page.tsx:20 | the seller's listings; definition; properties in `UserProductsSpec`, `UserProductsOfMockData` |
| `NewListing.PreprocessPrice` | src/app/sell-product/new/page.tsx:30-35 | the price preprocess; definition; properties in `PriceIssues`, `PriceWithoutDigitsRequired`, `NumeralPrice` |
| `NewListing.NameIssues` | src/app/sell-product/new/page.tsx:26 | the product-name length checks; definition; properties in `ValidateListing` |
| `NewListing.DescriptionIssues` | src/app/sell-product/new/page.tsx:27 | the description length check; definition; properties in `ValidateListing` |
| `NewListing.ParseTags` | src/app/sell-product/new/page.tsx:152 | the listed tags; definition; properties in `ParsedTagsClean`, `MissingTagsEmpty`, `TagsRoundTrip`, `LeadingCommaHint` |
| `NewListing.ImageHint` | src/app/sell-product/new/page.tsx:154 | the image hint; definition; properties in `ImageHintIsFirstTag`, `ImageHintBlankFirstSegment`, `ImageHintWithoutTags` |
| `NewListing.RemoveImageAsWritten` | src/app/sell-product/new/page.tsx:86-99 | `handleRemoveImage` as written, ending in a `ReferenceError` when the primary image is removed; definition; properties in `RemoveLastPrimaryAsWritten` |
| `Auth.StrongPassword` | src/app/auth/page.tsx:31-35 | the password policy; definition; properties in `PasswordIssues`, `MockedPasswordIsStrong`, `LettersOnlyRejected` |
| `Numbers.ParseInt` | src/app/bag/page.tsx:19 | decimal `parseInt`; definition; properties in `ParseIntNumeral`, `ParseIntNegative`, `NoDigitsNoNumber` |
| `Numbers.ParseFloat` | src/app/page.tsx:36-37 | `parseFloat`; definition; properties in `ParseFloatNumeral`, `NoDigitsNoNumber` |
| `Text.Includes` | src/app/page.tsx:28-30 | `includes`; definition; properties in `IncludesIsSubstring` |
| `Text.Join` | src/app/sell-product/new/page.tsx:152 | joining pieces with a separator, the inverse of the tags split; definition; properties in `JoinSplit`, `SplitJoin`, `TagsRoundTrip` |
| `BagContext.FindIndex` | src/contexts/BagContext.tsx:59 | `find` by id: none exactly when no line has the id; otherwise the first line with that id |
| `BagContext.AddExisting` | src/contexts/BagContext.tsx:59-67 | adding a product already in the bag raises that line's quantity by one; the list keeps its length and order, and the other lines do not change |
| `BagContext.AddNew` | src/contexts/BagContext.tsx:68-73 | adding a new product appends one line with quantity 1 at the end |
| `BagContext.AddKeepsWellFormed` | src/contexts/BagContext.tsx:57-76 | adding keeps ids unique and quantities at least 1 |
| `BagContext.AddAccumulates` | src/contexts/BagContext.tsx:57-76 | adding a new product n times gives a single line with quantity n |
| `BagContext.BumpLast` | src/contexts/BagContext.tsx:59-67 | adding a product whose line is last raises only that last line's quantity |
| `BagContext.RemoveSpec` | src/contexts/BagContext.tsx:78-90 | removing drops every line with the id and keeps every other line, in order |
| `BagContext.RemoveKeepsWellFormed` | src/contexts/BagContext.tsx:78-90 | removing keeps ids unique and quantities at least 1 |
| `BagContext.RemoveAt` | src/contexts/BagContext.tsx:89 | with unique ids, removing the id at position k splices out exactly position k |
| `BagContext.UpdateBelowOneRemoves` | src/contexts/BagContext.tsx:94-105 | a quantity below 1 has the same effect as removing the line |
| `BagContext.UpdateSets` | src/contexts/BagContext.tsx:107-109 | a quantity of 1 or more sets that line's quantity; length, ids, products and the other lines stay the same |
| `BagContext.UpdateKeepsWellFormed` | src/contexts/BagContext.tsx:92-111 | updating keeps ids unique and quantities at least 1 |
| `BagContext.TotalsOfAppend` | src/contexts/BagContext.tsx:121-127 | the total and the item count of a concatenation are the sums of the parts |
| `BagContext.TotalsOfReplace` | src/contexts/BagContext.tsx:121-127 | replacing one line changes the total and the count by exactly that line's difference |
| `BagContext.EmptyTotals` | src/contexts/BagContext.tsx:121-127 | an empty bag totals 0 and counts 0 |
| `BagContext.AddTotals` | src/contexts/BagContext.tsx:57-76 | adding raises the item count by 1 and the total by one unit price (that of the existing line, or of the new product) |
| `BagContext.RemoveTotals` | src/contexts/BagContext.tsx:78-90 | removing a present line lowers the count by its quantity and the total by its line total; removing an absent id changes neither |
| `BagContext.UpdateTotals` | src/contexts/BagContext.tsx:107-109 | setting a present line to q changes the count by q minus its old quantity and the total by the matching amount; an absent id changes neither |
| `BagContext.ShoppingSession` | src/contexts/BagContext.tsx:57-127 | on an empty bag, a 20.00 product added twice is one line of 2 totalling 40; setting 5 gives 100; removing it empties the bag |
| `BagContext.BagStore.constructor` | src/contexts/BagContext.tsx:26-54 | mounting starts from the empty list, adopts a stored array, and writes the result back to the slot |
| `BagContext.BagStore.Rehydrate` | src/contexts/BagContext.tsx:30-46 | the load effect adopts an array; a malformed or non-array value is removed from the slot and the list stays the same; an absent or empty value changes nothing |
| `BagContext.BagStore.Persist` | src/contexts/BagContext.tsx:49-54 | the save effect leaves the slot holding exactly the current list |
| `BagContext.BagStore.AddToBag` | src/contexts/BagContext.tsx:57-76 | the new list is the add update of the old one; the toast is "Item Updated in Bag" or "Item Added to Bag" with the product name; the slot is written |
| `BagContext.BagStore.RemoveFromBag` | src/contexts/BagContext.tsx:78-90 | the new list is the filter of the old one; the destructive "Item Removed" toast appears only if the id was present; the slot is written |
| `BagContext.BagStore.UpdateQuantity` | src/contexts/BagContext.tsx:92-111 | below 1 removes the line, with the removal toast when it was present; otherwise sets the quantity with no toast; the slot is written |
| `BagContext.BagStore.ClearBag` | src/contexts/BagContext.tsx:113-119 | the list becomes empty, the "Bag Cleared" toast appears, and the slot is written |
| `BagContext.BagStore.GetBagTotal` | src/contexts/BagContext.tsx:121-123 | returns the sum of price times quantity over the lines; the lemmas above give its properties |
| `BagContext.BagStore.GetBagItemCount` | src/contexts/BagContext.tsx:125-127 | returns the sum of the quantities |
| `BagContext.Reload` | src/contexts/BagContext.tsx:30-54 | a store mounted from the slot another store wrote starts with the same list |
| `BagContext.MountOverCorruptSlot` | src/contexts/BagContext.tsx:37-44 | mounting over a malformed, non-array or empty value starts with an empty bag |
| `BagPage.QuantityArgument` | src/app/bag/page.tsx:18-32 | the quantity passed to `updateQuantity` is always at least 1; a parsed integer of 1 or more is passed through unchanged, and anything else becomes 1 |
| `BagPage.NoDigitsGiveOne` | src/app/bag/page.tsx:19-22 | text without digits (`NaN`) gives 1 |
| `BagPage.NegativeGivesOne` | src/app/bag/page.tsx:24-28 | a typed zero or negative number gives 1 |
| `BagPage.PositivePassesThrough` | src/app/bag/page.tsx:29-31 | a typed positive number goes through unchanged, ignoring trailing non-digits |
| `BagPage.QuantityEditKeepsLines` | src/app/bag/page.tsx:18-32 | whatever is typed, no line is removed or reordered and no product changes |
| `BagPage.HandleQuantityChange` | src/app/bag/page.tsx:18-32 | the bag becomes the update with the coerced quantity; it keeps its length and ids, stays well formed and is written back |
| `HomePage.FilteredExactly` | src/app/page.tsx:25-49 | the result keeps catalogue order and holds exactly the products passing the search, category, location and price tests |
| `HomePage.SearchMeaning` | src/app/page.tsx:27-31 | a non-empty query passes exactly when its lower-cased form occurs in the lower-cased name, description or some tag |
| `HomePage.EmptyQueryPasses` | src/app/page.tsx:31 | the empty query accepts every product |
| `HomePage.SelectorMeaning` | src/app/page.tsx:33-34 | `All` accepts any category or location; any other value requires the product's own value to be equal |
| `HomePage.PriceRange` | src/app/page.tsx:36-46 | numeral bounds are inclusive at both ends |
| `HomePage.UnparsedBoundsIgnored` | src/app/page.tsx:36-46 | a bound with no digits (parsed as `NaN`) imposes nothing |
| `HomePage.InitialViewShowsAll` | src/app/page.tsx:14-49 | with the initial filters and an empty query, every product is shown, in order |
| `HomePage.FurnitureOnMockData` | src/app/page.tsx:25-49 | on the mock catalogue, the `Furniture` category shows the chair alone |
| `SellerListings.UserProductsSpec` | src/app/sell-product/page.tsx:16-20 | keeps exactly the products whose seller email is the mocked one, in order; a product without a seller is never kept |
| `SellerListings.UserProductsOfMockData` | src/app/sell-product/page.tsx:20 | on the mock catalogue, the page lists only product `1` |
| `NewListing.PriceIssues` | src/app/sell-product/new/page.tsx:29-38 | the price passes exactly when the preprocessed value exists and is positive |
| `NewListing.PriceWithoutDigitsRequired` | src/app/sell-product/new/page.tsx:31-34 | blank or digit-free text is turned into `undefined` and reported as "Price is required." |
| `NewListing.NumeralPrice` | src/app/sell-product/new/page.tsx:29-38 | a numeral is read as its value; positive passes; zero gets "Price must be a positive number." |
| `NewListing.ValidateListing` | src/app/sell-product/new/page.tsx:25-41 | accepted exactly when the name has 3 to 100 characters, the description at most 5000, and the price is positive; accepted data carries the fields through; a rejection lists at least one issue |
| `NewListing.ParsedTagsClean` | src/app/sell-product/new/page.tsx:152 | every parsed tag is non-empty, has no surrounding white space and contains no comma |
| `NewListing.TrimmedPieceClean` | src/app/sell-product/new/page.tsx:152 | a trimmed comma-free piece stays comma-free and is already trimmed |
| `NewListing.MissingTagsEmpty` | src/app/sell-product/new/page.tsx:152 | a missing or empty tags field gives no tags |
| `NewListing.TagsRoundTrip` | src/app/sell-product/new/page.tsx:152 | clean tags joined with commas parse back to the same list |
| `NewListing.ImageHintIsFirstTag` | src/app/sell-product/new/page.tsx:152-154 | when the first comma segment holds a tag, the image hint equals the first parsed tag |
| `NewListing.ImageHintBlankFirstSegment` | src/app/sell-product/new/page.tsx:154 | when the first comma segment is blank, the image hint is empty |
| `NewListing.LeadingCommaHint` | src/app/sell-product/new/page.tsx:152-154 | `,vintage` is listed with the tag `vintage` but an empty image hint |
| `NewListing.LeadingCommaSplit` | src/app/sell-product/new/page.tsx:152 | `,vintage` splits at the comma into an empty piece and `vintage` |
| `NewListing.ImageHintWithoutTags` | src/app/sell-product/new/page.tsx:154 | without tags, the hint is the lower-cased category, or `item` |
| `NewListing.NewProduct` | src/app/sell-product/new/page.tsx:143-155 | the listed product always has a category, a non-empty image URL that is the placeholder or one of the previews, a positive price when the data's price is positive, and only clean tags (non-empty, trimmed, comma-free) |
| `NewListing.NewProductOnSellerPage` | src/app/sell-product/new/page.tsx:153 | the listed product carries the seller of the seller page: appended to a catalogue, it is listed there after the seller's earlier products |
| `NewListing.NewProductDefaults` | src/app/sell-product/new/page.tsx:147-149 | a missing category becomes `Uncategorized`, and a missing description becomes empty text |
| `NewListing.ListingForm.constructor` | src/app/sell-product/new/page.tsx:51-53 | the form starts with no files, no previews and no primary image |
| `NewListing.ListingForm.AddImages` | src/app/sell-product/new/page.tsx:72-84 | picked files and their object URLs are appended; the first image becomes primary when none was selected; the primary stays on the same file |
| `NewListing.ListingForm.RemoveImage` | src/app/sell-product/new/page.tsx:86-99 | the file and preview at the index are dropped; the primary follows its image, or falls back to the first image or to none when it was the one removed; the form stays consistent |
| `NewListing.ListingForm.SetPrimary` | src/app/sell-product/new/page.tsx:101-103 | the primary index becomes the given index |
| `NewListing.ListingForm.Submit` | src/app/sell-product/new/page.tsx:113-177 | in order: schema errors, no images, no primary image, each leaving the form unchanged; otherwise lists the product with id `mock-<now>` and resets the images |
| `NewListing.RemoveLastPrimaryAsWritten` | src/app/sell-product/new/page.tsx:94-95 | as written, removing the primary image (the last of two) throws and leaves index 1 over a single image |
| `NewListing.RemoveLastPrimaryCorrected` | src/app/sell-product/new/page.tsx:86-99 | the same removal through the corrected handler leaves the one image as primary (index 0) |
| `Auth.PasswordIssues` | src/app/auth/page.tsx:31-35 | a password has no issues exactly when it meets the policy: 8 or more characters, with a lowercase letter, an uppercase letter, a digit and a special character; every issue is on the password field |
| `Auth.MockedPasswordIsStrong` | src/app/auth/page.tsx:44 | the mocked account's password meets the sign-up policy |
| `Auth.LettersOnlyRejected` | src/app/auth/page.tsx:34-35 | `Password` alone is rejected for lacking a number and a special character |
| `Auth.NameIssues` | src/app/auth/page.tsx:28-29 | no name issues exactly when the username has 3 to 20 characters and the full name 2 to 50; every issue is on one of those two fields |
| `Auth.FieldIssues` | src/app/auth/page.tsx:28-35 | no field issues exactly when the username has 3 to 20 characters, the full name 2 to 50, the email is well formed and the password is strong |
| `Auth.SignUpIssues` | src/app/auth/page.tsx:27-40 | sign-up data is accepted exactly when all field checks pass and the confirmation equals the password; the mismatch issue, on `confirmPassword`, appears exactly when they differ |
| `Auth.SignUpDecision` | src/app/auth/page.tsx:83-107 | a valid form signs up unless the email is the registered one, which gets the email-field error "This email address is already registered."; an invalid form carries exactly the schema's issues, so a mismatch is reported on `confirmPassword`; the stored profile holds the full name, username and email |
| `Auth.SignInIssues` | src/app/auth/page.tsx:21-24 | the sign-in schema passes exactly when the email is well formed and the password is non-empty |
| `Auth.SignInDecision` | src/app/auth/page.tsx:62-80 | the user is logged in exactly when the email is well formed and both email and password match the mocked ones; the form is rejected with the root error "Invalid email or password." exactly when the schema passes and the credentials do not match; otherwise it is invalid with the schema's issues |
| `Auth.AuthStorage.SubmitSignIn` | src/app/auth/page.tsx:62-81 | a successful sign-in sets the flag to `true`; otherwise nothing is written; the profile is never touched |
| `Auth.AuthStorage.SubmitSignUp` | src/app/auth/page.tsx:83-107 | a successful sign-up sets the flag and stores the profile; a taken email or a schema error leaves both entries as they were |
| `Seqs.Filter` | src/app/page.tsx:26 | `filter`: never longer, keeps exactly the elements that pass, in their order |
| `Seqs.FilterKeepsAll` | src/app/page.tsx:26 | when every element passes, `filter` returns the list itself |
| `Seqs.FilterAppend` | src/app/page.tsx:26 | `filter` distributes over concatenation |
| `Seqs.FilterIdempotent` | src/app/page.tsx:26 | filtering twice with the same test equals filtering once |
| `Seqs.DropIndex` | src/app/sell-product/new/page.tsx:87-89 | `filter((_, i) => i !== index)`: removes that position and shifts the rest; an out-of-range index changes nothing |
| `Text.ToLower` | src/app/page.tsx:27-30 | `toLowerCase` keeps the length and maps each character |
| `Text.ToLowerIdempotent` | src/app/page.tsx:27-30 | lower-casing twice equals lower-casing once |
| `Text.IncludesIsSubstring` | src/app/page.tsx:28-30 | `includes` holds exactly when the needle occurs at some position |
| `Text.Trim` | src/app/sell-product/new/page.tsx:32 | `trim` gives empty text or text ending in a non-space character |
| `Text.TrimIsSlice` | src/app/sell-product/new/page.tsx:152 | `trim` returns a slice with only white space outside it |
| `Text.TrimIdempotent` | src/app/sell-product/new/page.tsx:152 | trimming twice equals trimming once |
| `Text.IndexOf` | src/app/sell-product/new/page.tsx:152 | finds the first occurrence of a character, or none |
| `Text.Split` | src/app/sell-product/new/page.tsx:152 | `split` gives at least one piece, and no piece contains the separator |
| `Text.JoinSplit` | src/app/sell-product/new/page.tsx:152 | joining the pieces of a split with the separator restores the text |
| `Text.SplitJoin` | src/app/sell-product/new/page.tsx:152 | splitting the join of separator-free pieces gives back the pieces |
| `Numbers.ParseIntNumeral` | src/app/bag/page.tsx:19 | `parseInt` reads a numeral followed by nothing or a non-digit as its value |
| `Numbers.ParseIntNegative` | src/app/bag/page.tsx:19 | `parseInt` reads `-` followed by a numeral as the negated value |
| `Numbers.ParseFloatNumeral` | src/app/page.tsx:36-37 | `parseFloat` reads a numeral as its value |
| `Numbers.NoDigitsNoNumber` | src/app/bag/page.tsx:19-20 | text without digits is `NaN` for both `parseInt` and `parseFloat` |
| `Numbers.DecimalValue` | src/app/sell-product/new/page.tsx:143 | the decimal digits written for a number read back as that number |
| `Numbers.LeadingDigitsOf` | src/app/bag/page.tsx:19 | the digit run a numeral starts with is the numeral itself when a non-digit or nothing follows |

## Left out

- Rendering, routing (`router.push`), the navigation bar, product cards, the filter bar and
  the other pages' markup are presentation only.
- Toasts appear only as `Notice` values for the bag, or as outcomes and issues for the
  forms. The toast queue, timing and dismissal are not modelled.
- `localStorage` is not modelled as text. The bag slot holds an abstract
  `Option<StoredValue>`, one of five cases: absent, empty text, unparseable, not an array,
  an array. `JSON.stringify` and `JSON.parse` are assumed to round-trip the list.
- React effect scheduling: mounting runs the load effect and then the save effect once.
  Re-render timing and batching are not modelled.
- `BagContext.BagStore.AddToBag`: well-formed lines (unique ids, quantities of 1 or more)
  are preserved only when the list was well formed before. The load effect adopts any
  stored array without checking it, so the source gives no stronger promise. The same
  holds for `RemoveFromBag`, `UpdateQuantity` and `BagPage.HandleQuantityChange`.
- Prices are real numbers. Floating-point rounding of sums and products, and `toFixed` in
  the displayed total, are not modelled.
- `Text.ToLower` and `Text.Trim`: lower-casing covers ASCII letters only, and white space is
  the six ASCII white-space characters. Unicode case mapping, Unicode spaces and UTF-16
  lengths in the schema's length limits are not modelled.
- `Numbers.ParseFloat` does not read `Infinity`. Neither it nor `Numbers.ParseInt` rounds
  to a 64-bit float, so numerals above 2^53 read as their exact value here, where JavaScript
  would round them.
- `BagContext.BagItem` quantities are integers. In the source `quantity` is any `number`:
  `updateQuantity` accepts one and a stored bag can hold one. The callers modelled here pass
  only integers (1, a parsed integer, or one more than a stored quantity). Fractional or
  `NaN` quantities are not modelled.
- Zod's `.email()` check is the boolean parameter `emailWellFormed`; its pattern is not
  modelled.
- Zod's message order is modelled for the issues listed. React Hook Form's display of only
  the first message per field is not modelled.
- `URL.createObjectURL` is the parameter `objectUrl`, and `revokeObjectURL` is not modelled.
  `Date.now()` is the parameter `now`.
- The new-listing page's video, audio and PDF pickers are not modelled: they only store one
  file, which submit logs and then clears. The `isSubmitting` flag, the simulated 1.5-second
  delay and the form-field reset are not modelled either.
- The AI tag suggester, the product detail page, the profile page, the about page and the
  `authChange` event the auth page dispatches in its own window are not part of this
  model, nor is the navigation bar's `storage` listener that reacts to other tabs.

## Findings

| source | as written | input that shows it | evidently intended | confidence | as-written member | corrected member |
|---|---|---|---|---|---|---|
| src/app/sell-product/new/page.tsx:95 | When the removed image is the primary one, the handler reads `newPreviews`. That name is declared only inside the preview updater at line 89, so the read throws a `ReferenceError`. The primary index is never updated. | two images, primary index 1, remove index 1: one image is left with primary index 1, out of range | the primary falls back to the first remaining image (index 0), or to none when no image is left | not executed; derived by reading the scoping of `newPreviews` | `NewListing.RemoveLastPrimaryAsWritten` | `NewListing.ListingForm.RemoveImage` |
