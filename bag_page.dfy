/** The bag page's quantity field: the raw text a user types is coerced before it reaches
    `updateQuantity`, so that typing can change a quantity but never remove a line. */
module BagPage {
  import opened Wrappers
  import opened Numbers
  import opened BagContext

  /** The quantity `handleQuantityChange` passes on for the typed text: `NaN` and values
      below 1 become 1, anything else goes through as parsed. */
  function QuantityArgument(value: string): (q: int)
    ensures q >= 1
    ensures q == 1 || ParseInt(value) == Some(q)
    ensures ParseInt(value).Some? && ParseInt(value).value >= 1 ==> q == ParseInt(value).value
  {
    match ParseInt(value)
    case None => 1
    case Some(n) => if n < 1 then 1 else n
  }

  /** An emptied field or non-numeric text sets the quantity to 1. */
  lemma NoDigitsGiveOne(value: string)
    requires forall i :: 0 <= i < |value| ==> !IsDigit(value[i])
    ensures QuantityArgument(value) == 1
  {
    NoDigitsNoNumber(value);
  }

  /** A typed zero or negative number is raised to 1 rather than passed on. */
  lemma NegativeGivesOne(n: nat)
    ensures QuantityArgument("-" + NatToDecimal(n)) == 1
  {
    ParseIntNegative(n);
  }

  /** A typed positive number is passed on as it is, trailing non-digits ignored. */
  lemma PositivePassesThrough(n: nat, rest: string)
    requires n >= 1
    requires rest == [] || !IsDigit(rest[0])
    ensures QuantityArgument(NatToDecimal(n) + rest) == n
  {
    ParseIntNumeral(n, rest);
  }

  /** Whatever is typed, the update keeps every line, in order, with its product. */
  lemma QuantityEditKeepsLines(items: seq<BagItem>, id: string, value: string)
    ensures var r := Updated(items, id, QuantityArgument(value));
      && |r| == |items| && Ids(r) == Ids(items)
      && (forall i :: 0 <= i < |r| ==> r[i].product == items[i].product)
  {
    UpdateSets(items, id, QuantityArgument(value));
  }

  /** `handleQuantityChange(productId, value)`. */
  method HandleQuantityChange(bag: BagStore, id: string, value: string)
    modifies bag
    ensures bag.items == Updated(old(bag.items), id, QuantityArgument(value))
    ensures |bag.items| == |old(bag.items)| && Ids(bag.items) == Ids(old(bag.items))
    ensures bag.Persisted()
    ensures old(WellFormed(bag.items)) ==> WellFormed(bag.items)
  {
    QuantityEditKeepsLines(bag.items, id, value);
    var parsed := ParseInt(value);
    if parsed.None? {
      var _ := bag.UpdateQuantity(id, 1);
      return;
    }
    if parsed.value < 1 {
      var _ := bag.UpdateQuantity(id, 1);
    } else {
      var _ := bag.UpdateQuantity(id, parsed.value);
    }
  }
}
