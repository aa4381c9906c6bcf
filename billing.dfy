/**
  The three tables of the billing application (bills, bill items, products)
  as values, and the pure rules the route handlers apply to them: the
  allow-list of patchable bill fields, the validation of a new item, the
  projection of a bill's items, the displayed total, the display-id backfill
  and the seed catalog.
 */
module Billing {
  import opened Wrappers
  import opened Decimal

  /**
    One row of `bills`, without its integer id (the id is the key of the
    store's map). The four free-text columns are nullable and start out NULL.
   */
  datatype Bill = Bill(
    displayId: string,
    date: string,
    recipient: Option<string>,
    preparedBy: Option<string>,
    checkedBy: Option<string>,
    ficReprography: Option<string>)

  /** One row of `bill_items`: rate and amount in exact arithmetic, amount stored when the row is created. */
  datatype Item = Item(id: nat, name: string, units: int, rate: real, amount: real, billId: int)

  /** One row of `products`, without its item code (the key of the catalog map). */
  datatype Product = Product(name: string, defaultRate: real)

  /** The bill columns a client may patch, one constructor per allowed name. */
  datatype Field = DisplayId | Date | Recipient | PreparedBy | CheckedBy | FicReprography

  /** The allow-list of column names, in the order the application lists them. */
  const AllowedFields: seq<string> :=
    ["bill_display_id", "bill_date", "recipient", "prepared_by", "checked_by", "fic_reprography"]

  /** The allow-list check: which field, if any, a client-supplied name selects. */
  function ParseField(name: string): (f: Option<Field>)
    ensures f.Some? <==> name in AllowedFields
  {
    if name == "bill_display_id" then Some(DisplayId)
    else if name == "bill_date" then Some(Date)
    else if name == "recipient" then Some(Recipient)
    else if name == "prepared_by" then Some(PreparedBy)
    else if name == "checked_by" then Some(CheckedBy)
    else if name == "fic_reprography" then Some(FicReprography)
    else None
  }

  /** The column name of a field; parsing it back selects the same field. */
  function FieldName(f: Field): (name: string)
    ensures name in AllowedFields
    ensures ParseField(name) == Some(f)
  {
    match f
    case DisplayId => "bill_display_id"
    case Date => "bill_date"
    case Recipient => "recipient"
    case PreparedBy => "prepared_by"
    case CheckedBy => "checked_by"
    case FicReprography => "fic_reprography"
  }

  /** Only the name of a field parses to that field, so parsing is one-to-one on the allow-list. */
  lemma ParseFieldOnlyName(name: string, f: Field)
    requires ParseField(name) == Some(f)
    ensures name == FieldName(f)
  {
  }

  /** The value of one patchable column. */
  function GetField(b: Bill, f: Field): (v: Option<string>) {
    match f
    case DisplayId => Some(b.displayId)
    case Date => Some(b.date)
    case Recipient => b.recipient
    case PreparedBy => b.preparedBy
    case CheckedBy => b.checkedBy
    case FicReprography => b.ficReprography
  }

  /** `setattr(bill, field, value)`: the named column becomes the value, every other column keeps its value. */
  function SetField(b: Bill, f: Field, v: string): (r: Bill)
    ensures GetField(r, f) == Some(v)
    ensures forall g :: g != f ==> GetField(r, g) == GetField(b, g)
  {
    match f
    case DisplayId => b.(displayId := v)
    case Date => b.(date := v)
    case Recipient => b.(recipient := Some(v))
    case PreparedBy => b.(preparedBy := Some(v))
    case CheckedBy => b.(checkedBy := Some(v))
    case FicReprography => b.(ficReprography := Some(v))
  }

  /** The test `add_item` applies to parsed input before anything is written. */
  predicate ValidItemInput(name: string, units: int, rate: real): (ok: bool)
    ensures ok ==> name != "" && Amount(units, rate) >= 0.0
  {
    name != "" && units > 0 && rate >= 0.0
  }

  /** A bill's items, in insertion order (the `items` relationship of a bill). */
  function ItemsOf(items: seq<Item>, billId: int): (r: seq<Item>)
    ensures |r| <= |items|
    ensures forall it :: it in r <==> it in items && it.billId == billId
    ensures (forall k :: 0 <= k < |items| ==> items[k].billId != billId) ==> r == []
    decreases |items|
  {
    if items == [] then []
    else
      var last := items[|items| - 1];
      ItemsOf(items[..|items| - 1], billId) + if last.billId == billId then [last] else []
  }

  /** Appending an item extends the projection of its own bill by that item and leaves every other bill's projection alone. */
  lemma ItemsOfAppend(items: seq<Item>, it: Item, billId: int)
    ensures ItemsOf(items + [it], billId) ==
            ItemsOf(items, billId) + if it.billId == billId then [it] else []
  {
    assert (items + [it])[..|items|] == items;
  }

  /** The displayed total: the stored amounts summed from the first item to the last. */
  function Total(items: seq<Item>): (sum: real)
    ensures items == [] ==> sum == 0.0
    ensures |items| == 1 ==> sum == items[0].amount
    decreases |items|
  {
    if items == [] then 0.0 else Total(items[..|items| - 1]) + items[|items| - 1].amount
  }

  /** The total of two runs of items is the sum of their totals. */
  lemma {:induction false} TotalAppend(a: seq<Item>, b: seq<Item>)
    ensures Total(a + b) == Total(a) + Total(b)
    decreases |b|
  {
    if b == [] {
      assert a + b == a;
    } else {
      var b' := b[..|b| - 1];
      assert (a + b)[..|a + b| - 1] == a + b';
      assert (a + b)[|a + b| - 1] == b[|b| - 1];
      TotalAppend(a, b');
    }
  }

  /** A sequence is its prefix before i, its element at i and its suffix after i. */
  lemma SplitAt(b: seq<Item>, i: nat)
    requires i < |b|
    ensures b == b[..i] + ([b[i]] + b[i + 1..])
  {
  }

  /** Taking one item out of a run lowers its total by that item's amount. */
  lemma TotalRemove(b: seq<Item>, i: nat)
    requires i < |b|
    ensures Total(b) == Total(b[..i] + b[i + 1..]) + b[i].amount
  {
    var pre, mid, post := b[..i], [b[i]], b[i + 1..];
    SplitAt(b, i);
    TotalAppend(pre, mid + post);
    TotalAppend(mid, post);
    TotalAppend(pre, post);
  }

  /** Taking the element at i out of a sequence takes one copy of it out of the multiset. */
  lemma MultisetRemove(b: seq<Item>, i: nat)
    requires i < |b|
    ensures multiset(b[..i] + b[i + 1..]) == multiset(b) - multiset{b[i]}
  {
    assert b == b[..i] + [b[i]] + b[i + 1..];
  }

  /** The total does not depend on the order of the items. */
  lemma {:induction false} TotalPermutation(a: seq<Item>, b: seq<Item>)
    requires multiset(a) == multiset(b)
    ensures Total(a) == Total(b)
    decreases |a|
  {
    if a == [] {
      assert |b| == |multiset(b)| == 0;
    } else {
      var a' := a[..|a| - 1];
      var x := a[|a| - 1];
      assert a == a' + [x];
      assert x in multiset(b);
      var i :| 0 <= i < |b| && b[i] == x;
      var b' := b[..i] + b[i + 1..];
      MultisetRemove(b, i);
      assert multiset(a') == multiset(a) - multiset{x};
      TotalPermutation(a', b');
      TotalRemove(b, i);
    }
  }

  /** The amount of an item, units * rate, fixed when the item is stored. */
  function Amount(units: int, rate: real): (amount: real)
    ensures units >= 0 && rate >= 0.0 ==> amount >= 0.0
  {
    units as real * rate
  }

  /** The range of an INTEGER column (32 bits in PostgreSQL). */
  const IntegerMin: int := -0x8000_0000
  const IntegerMax: int := 0x7fff_ffff

  predicate FitsInteger(x: int) {
    IntegerMin <= x <= IntegerMax
  }

  /** What `add_item` stores: validated input that fits its INTEGER column, and the amount derived from it. */
  predicate WellFormedItem(it: Item) {
    ValidItemInput(it.name, it.units, it.rate) && FitsInteger(it.units) && it.amount == Amount(it.units, it.rate)
  }

  /** A bill's total over well-formed items is never negative. */
  lemma {:induction false} TotalNonNegative(items: seq<Item>)
    requires forall k :: 0 <= k < |items| ==> WellFormedItem(items[k])
    ensures Total(items) >= 0.0
    decreases |items|
  {
    if items != [] {
      TotalNonNegative(items[..|items| - 1]);
      var last := items[|items| - 1];
      assert Amount(last.units, last.rate) >= 0.0;
    }
  }

  /** The display-id backfill of `index`: an empty display id becomes `str(id)`, a non-empty one is kept. */
  function Backfilled(b: Bill, id: nat): (r: Bill)
    ensures r.displayId != ""
    ensures b.displayId == "" ==> r.displayId == NatToString(id)
    ensures b.displayId != "" ==> r == b
    ensures forall g :: g != DisplayId ==> GetField(r, g) == GetField(b, g)
  {
    if b.displayId == "" then SetField(b, DisplayId, NatToString(id)) else b
  }

  /** A second backfill writes nothing. */
  lemma BackfillIdempotent(b: Bill, id: nat)
    ensures Backfilled(Backfilled(b, id), id) == Backfilled(b, id)
  {
  }

  /** The five products the catalog is seeded with. */
  function SeedProducts(): (m: map<string, Product>)
    ensures m.Keys == {"0000", "0001", "0002", "0003", "0004"}
    ensures m["0000"] == Product("Custom Item", 0.0)
    ensures forall code :: code in m ==> m[code].name != "" && m[code].defaultRate >= 0.0
  {
    map[
      "0000" := Product("Custom Item", 0.0),
      "0001" := Product("A4 Plain Paper Ream", 350.0),
      "0002" := Product("Official Envelope (Pack of 100)", 150.0),
      "0003" := Product("Spiral Binding Service", 50.0),
      "0004" := Product("Color Printout (A4)", 10.0)]
  }

  /** The bill with the highest id, the one `index` shows. */
  ghost predicate IsLatest(bills: map<int, Bill>, id: int) {
    id in bills && forall k :: k in bills ==> k <= id
  }

  /** Whether some bill holds the display id d. */
  predicate DisplayIdTaken(bills: map<int, Bill>, d: string) {
    exists k :: k in bills && bills[k].displayId == d
  }

  /** Whether a bill other than `id` holds the display id d. */
  predicate DisplayIdHeldByOther(bills: map<int, Bill>, id: int, d: string) {
    exists k :: k in bills && k != id && bills[k].displayId == d
  }

  /** The unique index on `bill_display_id`. */
  ghost predicate DisplayIdsUnique(bills: map<int, Bill>)
    ensures DisplayIdsUnique(bills) <==>
              forall a :: a in bills ==> !DisplayIdHeldByOther(bills, a, bills[a].displayId)
  {
    forall a, b :: a in bills && b in bills && a != b ==> bills[a].displayId != bills[b].displayId
  }

  /** The bill with id k shows `str(k)` as its display id. */
  ghost predicate HasDefaultDisplayId(b: Bill, k: int) {
    k >= 0 && b.displayId == NatToString(k)
  }

  /** Every bill still shows the display id it was created with. */
  ghost predicate DefaultDisplayIds(bills: map<int, Bill>) {
    forall k :: k in bills ==> HasDefaultDisplayId(bills[k], k)
  }

  /**
    As long as no client has patched a display id, creating a bill with a
    fresh id never clashes: neither the empty display id inserted first nor
    `str(id)` written next is held by an existing bill.
   */
  lemma DefaultDisplayIdsNeverClash(bills: map<int, Bill>, id: nat)
    requires DefaultDisplayIds(bills)
    requires id !in bills
    ensures !DisplayIdTaken(bills, "")
    ensures !DisplayIdTaken(bills, NatToString(id))
  {
    forall k: int | k in bills
      ensures bills[k].displayId != "" && bills[k].displayId != NatToString(id)
    {
      NatToStringInjective(k, id);
    }
  }
}
