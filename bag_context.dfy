/** The bag (cart) store: an ordered list of lines, one per product id, the operations that
    replace it, the two aggregates, and its rehydration from and write-back to the persisted
    slot `marketmateBag`. The list updates themselves are pure functions on `seq<BagItem>`;
    `BagStore` holds the state and applies them. */
module BagContext {
  import opened Wrappers
  import opened Seqs
  import opened Catalog

  /** A line: every field of the product plus a quantity (`BagItem extends Product`). */
  datatype BagItem = BagItem(product: Product, quantity: int)

  /** A toast: title, description and whether it is the destructive variant. */
  datatype Notice = Notice(title: string, description: string, destructive: bool)

  /** What rehydration finds under the persisted key. */
  datatype StoredValue =
    | EmptyText                  // the empty string, which the load effect skips as falsy
    | Unparseable                // text that `JSON.parse` rejects
    | NotAnArray                 // well-formed JSON that is not an array
    | Lines(items: seq<BagItem>) // a JSON array, adopted as it is

  // ----- Queries on a list of lines -----

  predicate HasLine(items: seq<BagItem>, id: string) {
    exists i :: 0 <= i < |items| && items[i].product.id == id
  }

  function Ids(items: seq<BagItem>): seq<string> {
    Map(items, (item: BagItem) => item.product.id)
  }

  /** `findIndex`: the position of the first line with this id. */
  function FindIndex(items: seq<BagItem>, id: string): (r: Option<nat>)
    ensures r.None? <==> !HasLine(items, id)
    ensures r.Some? ==> r.value < |items| && items[r.value].product.id == id
    ensures r.Some? ==> forall j :: 0 <= j < r.value ==> items[j].product.id != id
  {
    if items == [] then None
    else if items[0].product.id == id then Some(0)
    else match FindIndex(items[1..], id)
      case None => None
      case Some(k) => Some(k + 1)
  }

  /** The first line carrying the product id, as the operations look it up. */
  function Find(items: seq<BagItem>, id: string): Option<BagItem> {
    match FindIndex(items, id)
    case None => None
    case Some(k) => Some(items[k])
  }

  /** At most one line per product id. */
  predicate UniqueIds(items: seq<BagItem>) {
    forall i, j :: 0 <= i < j < |items| ==> items[i].product.id != items[j].product.id
  }

  predicate PositiveQuantities(items: seq<BagItem>) {
    forall i :: 0 <= i < |items| ==> items[i].quantity >= 1
  }

  /** The two invariants the operations keep. */
  predicate WellFormed(items: seq<BagItem>) {
    UniqueIds(items) && PositiveQuantities(items)
  }

  // ----- The list updates -----

  /** Every line with the id gets one more unit; other lines are kept as they are. */
  function Bump(items: seq<BagItem>, id: string): seq<BagItem> {
    Map(items, (item: BagItem) =>
      if item.product.id == id then item.(quantity := item.quantity + 1) else item)
  }

  /** Every line with the id gets quantity `q`; other lines are kept as they are. */
  function SetQuantity(items: seq<BagItem>, id: string, q: int): seq<BagItem> {
    Map(items, (item: BagItem) => if item.product.id == id then item.(quantity := q) else item)
  }

  /** The `addToBag` updater. */
  function Added(items: seq<BagItem>, product: Product): seq<BagItem> {
    if Find(items, product.id).Some? then Bump(items, product.id)
    else items + [BagItem(product, 1)]
  }

  /** The `removeFromBag` updater: keeps the lines whose id differs, in order. */
  function Removed(items: seq<BagItem>, id: string): seq<BagItem> {
    Filter(items, (item: BagItem) => item.product.id != id)
  }

  /** The `updateQuantity` updater. */
  function Updated(items: seq<BagItem>, id: string, q: int): seq<BagItem> {
    if q < 1 then Removed(items, id) else SetQuantity(items, id, q)
  }

  // ----- Aggregates -----

  function LineTotal(item: BagItem): real {
    item.product.price * item.quantity as real
  }

  /** `getBagTotal`: price times quantity summed over the lines, from left to right. */
  function Total(items: seq<BagItem>): real {
    if items == [] then 0.0 else Total(items[..|items| - 1]) + LineTotal(items[|items| - 1])
  }

  /** `getBagItemCount`: the quantities summed over the lines. */
  function ItemCount(items: seq<BagItem>): int {
    if items == [] then 0 else ItemCount(items[..|items| - 1]) + items[|items| - 1].quantity
  }

  /** The list the load effect leaves in the store, starting from the empty list. */
  function Rehydrated(stored: Option<StoredValue>): seq<BagItem> {
    match stored
    case Some(Lines(xs)) => xs
    case _ => []
  }

  // ----- Properties of addToBag -----

  /** For an id already present every line keeps its product and position; the line with
      that id gains exactly one unit, the others are untouched. */
  lemma AddExisting(items: seq<BagItem>, product: Product)
    requires HasLine(items, product.id)
    ensures var r := Added(items, product);
      && |r| == |items| && Ids(r) == Ids(items)
      && (forall i :: 0 <= i < |r| ==> r[i].product == items[i].product)
      && (forall i :: 0 <= i < |r| && items[i].product.id == product.id ==>
            r[i].quantity == items[i].quantity + 1)
      && (forall i :: 0 <= i < |r| && items[i].product.id != product.id ==> r[i] == items[i])
  {
  }

  /** For a new id the product is appended with quantity 1 after the unchanged lines. */
  lemma AddNew(items: seq<BagItem>, product: Product)
    requires !HasLine(items, product.id)
    ensures var r := Added(items, product);
      |r| == |items| + 1 && r[..|items|] == items && r[|items|] == BagItem(product, 1)
  {
  }

  lemma {:induction false} AddKeepsWellFormed(items: seq<BagItem>, product: Product)
    requires WellFormed(items)
    ensures WellFormed(Added(items, product))
  {
    if !HasLine(items, product.id) {
      var r := Added(items, product);
      assert r == items + [BagItem(product, 1)];
      forall i, j | 0 <= i < j < |r| ensures r[i].product.id != r[j].product.id {
        if j == |items| {
          assert r[i] == items[i];
        }
      }
    }
  }

  /** Adding the same new product `n` times leaves one line for it, with quantity `n`. */
  function AddTimes(items: seq<BagItem>, product: Product, n: nat): seq<BagItem> {
    if n == 0 then items else Added(AddTimes(items, product, n - 1), product)
  }

  lemma {:induction false} AddAccumulates(items: seq<BagItem>, product: Product, n: nat)
    requires !HasLine(items, product.id)
    requires n >= 1
    ensures AddTimes(items, product, n) == items + [BagItem(product, n)]
  {
    if n > 1 {
      AddAccumulates(items, product, n - 1);
      BumpLast(items, product, n - 1);
    }
  }

  lemma BumpLast(items: seq<BagItem>, product: Product, q: int)
    requires !HasLine(items, product.id)
    ensures Added(items + [BagItem(product, q)], product) == items + [BagItem(product, q + 1)]
  {
    var before := items + [BagItem(product, q)];
    assert before[|items|].product.id == product.id;
    assert FindIndex(before, product.id).Some?;
    var after := Bump(before, product.id);
    assert |after| == |items| + 1;
    forall i | 0 <= i < |after| ensures after[i] == (items + [BagItem(product, q + 1)])[i] {
      if i < |items| {
        assert before[i] == items[i];
        assert items[i].product.id != product.id;
      }
    }
  }

  // ----- Properties of removeFromBag -----

  /** Removal drops exactly the lines with that id and keeps the relative order of the
      rest; it changes nothing when the id is absent and is idempotent. */
  lemma RemoveSpec(items: seq<BagItem>, id: string)
    ensures var r := Removed(items, id);
      && !HasLine(r, id)
      && (forall x :: x in r <==> x in items && x.product.id != id)
      && IsSubsequence(r, items)
      && (!HasLine(items, id) ==> r == items)
      && Removed(r, id) == r
  {
    var r := Removed(items, id);
    forall i | 0 <= i < |r| ensures r[i].product.id != id {
      assert r[i] in r;
    }
    if !HasLine(items, id) {
      FilterKeepsAll(items, (item: BagItem) => item.product.id != id);
    }
    FilterIdempotent(items, (item: BagItem) => item.product.id != id);
  }

  /** Filtering can only drop lines, so it keeps both invariants. */
  lemma {:induction false} RemoveKeepsWellFormed(items: seq<BagItem>, id: string)
    requires WellFormed(items)
    ensures WellFormed(Removed(items, id))
  {
    if items != [] {
      RemoveKeepsWellFormed(items[1..], id);
      var rest := Removed(items[1..], id);
      assert Removed(items, id) ==
        if items[0].product.id != id then [items[0]] + rest else rest;
      forall x | x in rest ensures x.product.id != items[0].product.id {
        assert x in items[1..];
      }
      var r := Removed(items, id);
      forall i | 0 <= i < |r| ensures r[i].quantity >= 1 {
        assert r[i] in items;
      }
    }
  }

  /** With unique ids, removing the line at `k` is cutting that position out. */
  lemma RemoveAt(items: seq<BagItem>, id: string, k: nat)
    requires UniqueIds(items)
    requires k < |items| && items[k].product.id == id
    ensures Removed(items, id) == items[..k] + items[k + 1..]
  {
    var before, after := items[..k], items[k + 1..];
    assert items == before + [items[k]] + after;
    RemoveAbsent(items, id, k);
    RemoveAppend(before + [items[k]], after, id);
    RemoveAppend(before, [items[k]], id);
    FilterStep(items[k], [], (item: BagItem) => item.product.id != id);
  }

  /** With unique ids, no line before or after position `k` carries `items[k]`'s id. */
  lemma RemoveAbsent(items: seq<BagItem>, id: string, k: nat)
    requires UniqueIds(items)
    requires k < |items| && items[k].product.id == id
    ensures Removed(items[..k], id) == items[..k]
    ensures Removed(items[k + 1..], id) == items[k + 1..]
  {
    var keep := (item: BagItem) => item.product.id != id;
    var before, after := items[..k], items[k + 1..];
    forall i | 0 <= i < |before| ensures keep(before[i]) { assert before[i] == items[i]; }
    forall i | 0 <= i < |after| ensures keep(after[i]) { assert after[i] == items[k + 1 + i]; }
    FilterKeepsAll(before, keep);
    FilterKeepsAll(after, keep);
  }

  lemma RemoveAppend(xs: seq<BagItem>, ys: seq<BagItem>, id: string)
    ensures Removed(xs + ys, id) == Removed(xs, id) + Removed(ys, id)
  {
    FilterAppend(xs, ys, (item: BagItem) => item.product.id != id);
  }

  // ----- Properties of updateQuantity -----

  /** A quantity below 1 removes the line, exactly as `removeFromBag` does. */
  lemma UpdateBelowOneRemoves(items: seq<BagItem>, id: string, q: int)
    requires q < 1
    ensures Updated(items, id, q) == Removed(items, id)
  {
  }

  /** A quantity of at least 1 sets that line's quantity to exactly `q` and changes nothing
      else; for an absent id the list stays the same. */
  lemma UpdateSets(items: seq<BagItem>, id: string, q: int)
    requires q >= 1
    ensures var r := Updated(items, id, q);
      && |r| == |items| && Ids(r) == Ids(items)
      && (forall i :: 0 <= i < |r| ==> r[i].product == items[i].product)
      && (forall i :: 0 <= i < |r| && items[i].product.id == id ==> r[i].quantity == q)
      && (forall i :: 0 <= i < |r| && items[i].product.id != id ==> r[i] == items[i])
      && (!HasLine(items, id) ==> r == items)
  {
  }

  lemma UpdateKeepsWellFormed(items: seq<BagItem>, id: string, q: int)
    requires WellFormed(items)
    ensures WellFormed(Updated(items, id, q))
  {
    if q < 1 {
      RemoveKeepsWellFormed(items, id);
    }
  }

  // ----- Properties of the aggregates -----

  lemma {:induction false} TotalsOfAppend(xs: seq<BagItem>, ys: seq<BagItem>)
    ensures Total(xs + ys) == Total(xs) + Total(ys)
    ensures ItemCount(xs + ys) == ItemCount(xs) + ItemCount(ys)
    decreases |ys|
  {
    if ys == [] {
      assert xs + ys == xs;
    } else {
      var zs := xs + ys;
      assert zs[..|zs| - 1] == xs + ys[..|ys| - 1];
      TotalsOfAppend(xs, ys[..|ys| - 1]);
    }
  }

  /** Replacing one line changes the aggregates by the difference of the two lines. */
  lemma TotalsOfReplace(items: seq<BagItem>, k: nat, v: BagItem)
    requires k < |items|
    ensures Total(items[k := v]) == Total(items) - LineTotal(items[k]) + LineTotal(v)
    ensures ItemCount(items[k := v]) == ItemCount(items) - items[k].quantity + v.quantity
  {
    assert items == items[..k] + [items[k]] + items[k + 1..];
    assert items[k := v] == items[..k] + [v] + items[k + 1..];
    TotalsOfAppend(items[..k] + [items[k]], items[k + 1..]);
    TotalsOfAppend(items[..k], [items[k]]);
    TotalsOfAppend(items[..k] + [v], items[k + 1..]);
    TotalsOfAppend(items[..k], [v]);
    assert Total([items[k]]) == LineTotal(items[k]) by { assert [items[k]][..0] == []; }
    assert Total([v]) == LineTotal(v) by { assert [v][..0] == []; }
    assert ItemCount([items[k]]) == items[k].quantity by { assert [items[k]][..0] == []; }
    assert ItemCount([v]) == v.quantity by { assert [v][..0] == []; }
  }

  /** The empty bag, and so the bag after `clearBag`, totals 0 and counts 0 items. */
  lemma EmptyTotals()
    ensures Total([]) == 0.0 && ItemCount([]) == 0
  {
  }

  /** With unique ids, mapping a change that touches only lines with `id` replaces exactly
      the line at its position. */
  lemma ChangeAt(items: seq<BagItem>, id: string, k: nat, v: BagItem, f: BagItem -> BagItem)
    requires UniqueIds(items) && k < |items| && items[k].product.id == id
    requires f(items[k]) == v
    requires forall i :: 0 <= i < |items| && items[i].product.id != id ==> f(items[i]) == items[i]
    ensures Map(items, f) == items[k := v]
  {
    forall i | 0 <= i < |items| ensures Map(items, f)[i] == items[k := v][i] {
      if i != k {
        assert items[i].product.id != id;
      }
    }
  }

  /** `addToBag` adds one unit: to the count, and one unit price to the total (the price of
      the line already in the bag when there is one). */
  lemma AddTotals(items: seq<BagItem>, product: Product)
    requires UniqueIds(items)
    ensures ItemCount(Added(items, product)) == ItemCount(items) + 1
    ensures Total(Added(items, product)) == Total(items) +
      match Find(items, product.id)
      case Some(line) => line.product.price
      case None => product.price
  {
    match FindIndex(items, product.id)
    case None =>
      TotalsOfAppend(items, [BagItem(product, 1)]);
      assert [BagItem(product, 1)][..0] == [];
    case Some(k) =>
      var line := items[k];
      ChangeAt(items, product.id, k, line.(quantity := line.quantity + 1),
        (item: BagItem) => if item.product.id == product.id then item.(quantity := item.quantity + 1) else item);
      TotalsOfReplace(items, k, line.(quantity := line.quantity + 1));
  }

  /** Removing a line takes exactly that line out of both aggregates. */
  lemma RemoveTotals(items: seq<BagItem>, id: string)
    requires UniqueIds(items)
    ensures match Find(items, id)
      case Some(line) =>
        Total(Removed(items, id)) == Total(items) - LineTotal(line) &&
        ItemCount(Removed(items, id)) == ItemCount(items) - line.quantity
      case None =>
        Total(Removed(items, id)) == Total(items) && ItemCount(Removed(items, id)) == ItemCount(items)
  {
    match FindIndex(items, id)
    case None =>
      RemoveSpec(items, id);
    case Some(k) =>
      RemoveAt(items, id, k);
      assert items == items[..k] + [items[k]] + items[k + 1..];
      TotalsOfAppend(items[..k] + [items[k]], items[k + 1..]);
      TotalsOfAppend(items[..k], [items[k]]);
      TotalsOfAppend(items[..k], items[k + 1..]);
      assert [items[k]][..0] == [];
  }

  /** Setting a present line to `q >= 1` replaces its quantity in the count and its line
      total in the bag total. */
  lemma UpdateTotals(items: seq<BagItem>, id: string, q: int)
    requires UniqueIds(items) && q >= 1
    ensures match Find(items, id)
      case Some(line) =>
        Total(Updated(items, id, q)) == Total(items) - LineTotal(line) + line.product.price * q as real &&
        ItemCount(Updated(items, id, q)) == ItemCount(items) - line.quantity + q
      case None => Updated(items, id, q) == items
  {
    match FindIndex(items, id)
    case None =>
    case Some(k) =>
      var line := items[k];
      ChangeAt(items, id, k, line.(quantity := q),
        (item: BagItem) => if item.product.id == id then item.(quantity := q) else item);
      TotalsOfReplace(items, k, line.(quantity := q));
  }

  /** A session on an empty bag: adding a 20.00 product twice gives one line of two
      (total 40), setting its quantity to 5 gives 100, and removing it empties the bag. */
  lemma {:induction false} ShoppingSession(p: Product)
    requires p.price == 20.0
    ensures var twice := Added(Added([], p), p);
      twice == [BagItem(p, 2)] && Total(twice) == 40.0 && ItemCount(twice) == 2
    ensures var five := Updated(Added(Added([], p), p), p.id, 5);
      five == [BagItem(p, 5)] && Total(five) == 100.0 && ItemCount(five) == 5
    ensures Removed(Updated(Added(Added([], p), p), p.id, 5), p.id) == []
  {
    AddAccumulates([], p, 2);
    assert Added(Added([], p), p) == AddTimes([], p, 2);
    assert Total([BagItem(p, 2)]) == Total([]) + LineTotal(BagItem(p, 2));
    UpdateSets([BagItem(p, 2)], p.id, 5);
    var five := Updated([BagItem(p, 2)], p.id, 5);
    assert five == [BagItem(p, 5)];
    assert Total(five) == Total([]) + LineTotal(BagItem(p, 5));
    RemoveSpec(five, p.id);
  }

  // ----- Notices -----

  function AddedNotice(items: seq<BagItem>, product: Product): Notice {
    if Find(items, product.id).Some? then
      Notice("Item Updated in Bag", product.name + " quantity increased.", false)
    else
      Notice("Item Added to Bag", product.name + " has been added to your bag.", false)
  }

  function RemovedNotice(items: seq<BagItem>, id: string): Option<Notice> {
    match Find(items, id)
    case Some(line) =>
      Some(Notice("Item Removed", line.product.name + " has been removed from your bag.", true))
    case None => None
  }

  const ClearedNotice := Notice("Bag Cleared", "All items have been removed from your bag.", false)

  // ----- The store -----

  /** `BagProvider`: the `bagItems` state and the persisted slot it is written to. */
  class BagStore {
    var items: seq<BagItem>
    /** `localStorage['marketmateBag']`; `None` when the key is absent. */
    var slot: Option<StoredValue>

    /** The slot holds exactly the current list, so a reload rebuilds it. */
    ghost predicate Persisted()
      reads this
    {
      slot == Some(Lines(items))
    }

    /** Mounting the provider: state starts empty, the load effect runs once, then the save
        effect writes the resulting list back. */
    constructor (stored: Option<StoredValue>)
      ensures items == Rehydrated(stored)
      ensures Persisted()
    {
      items := [];
      slot := stored;
      new;
      Rehydrate();
      Persist();
    }

    /** The load effect: adopt an array, drop a malformed or non-array value from the slot,
        and leave the list alone otherwise. */
    method Rehydrate()
      modifies this
      ensures match old(slot)
        case Some(Lines(xs)) => items == xs && slot == old(slot)
        case Some(Unparseable) => items == old(items) && slot == None
        case Some(NotAnArray) => items == old(items) && slot == None
        case _ => items == old(items) && slot == old(slot)
    {
      match slot {
        case Some(Lines(xs)) => items := xs;
        case Some(Unparseable) => slot := None;
        case Some(NotAnArray) => slot := None;
        case _ =>
      }
    }

    /** The save effect: write the whole list to the slot. */
    method Persist()
      modifies this`slot
      ensures Persisted()
    {
      slot := Some(Lines(items));
    }

    method AddToBag(product: Product) returns (notice: Notice)
      modifies this
      ensures items == Added(old(items), product)
      ensures notice == AddedNotice(old(items), product)
      ensures Persisted()
      ensures old(WellFormed(items)) ==> WellFormed(items)
    {
      if WellFormed(items) {
        AddKeepsWellFormed(items, product);
      }
      var existing := Find(items, product.id);
      if existing.Some? {
        notice := Notice("Item Updated in Bag", product.name + " quantity increased.", false);
        items := Bump(items, product.id);
      } else {
        notice := Notice("Item Added to Bag", product.name + " has been added to your bag.", false);
        items := items + [BagItem(product, 1)];
      }
      Persist();
    }

    method RemoveFromBag(id: string) returns (notice: Option<Notice>)
      modifies this
      ensures items == Removed(old(items), id)
      ensures notice == RemovedNotice(old(items), id)
      ensures Persisted()
      ensures old(WellFormed(items)) ==> WellFormed(items)
    {
      if WellFormed(items) {
        RemoveKeepsWellFormed(items, id);
      }
      notice := RemovedNotice(items, id);
      items := Removed(items, id);
      Persist();
    }

    method UpdateQuantity(id: string, quantity: int) returns (notice: Option<Notice>)
      modifies this
      ensures items == Updated(old(items), id, quantity)
      ensures notice == if quantity < 1 then RemovedNotice(old(items), id) else None
      ensures Persisted()
      ensures old(WellFormed(items)) ==> WellFormed(items)
    {
      if WellFormed(items) {
        UpdateKeepsWellFormed(items, id, quantity);
      }
      if quantity < 1 {
        notice := RemovedNotice(items, id);
        items := Removed(items, id);
      } else {
        notice := None;
        items := SetQuantity(items, id, quantity);
      }
      Persist();
    }

    method ClearBag() returns (notice: Notice)
      modifies this
      ensures items == []
      ensures notice == ClearedNotice
      ensures Persisted()
    {
      items := [];
      notice := ClearedNotice;
      Persist();
    }

    method GetBagTotal() returns (total: real)
      ensures total == Total(items)
    {
      total := Total(items);
    }

    method GetBagItemCount() returns (count: int)
      ensures count == ItemCount(items)
    {
      count := ItemCount(items);
    }
  }

  /** Because every change writes the whole list, a store mounted from what another store
      saved starts with the same list, field for field and in the same order. */
  method Reload(store: BagStore) returns (reloaded: BagStore)
    requires store.Persisted()
    ensures fresh(reloaded)
    ensures reloaded.items == store.items && reloaded.Persisted()
  {
    reloaded := new BagStore(store.slot);
  }

  /** A store mounted over a corrupt slot starts empty. */
  method MountOverCorruptSlot(stored: StoredValue) returns (store: BagStore)
    requires !stored.Lines?
    ensures fresh(store) && store.items == [] && store.Persisted()
  {
    store := new BagStore(Some(stored));
  }
}
