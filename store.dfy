/**
  The database behind the billing routes, as an in-memory store, and the
  route handlers (`init_db`, `index`, `add_item`, `new_bill`, `update_bill`)
  as methods on it. The store behaves as the PostgreSQL database the
  application is deployed against: each handler runs as one transaction that
  commits all of its writes or, when a statement fails, none of them; id
  sequences are not rolled back, so an INSERT that fails after drawing its id
  still uses that id up; INTEGER columns hold 32 bits.
 */
module BillingStore {
  import opened Wrappers
  import opened Decimal
  import opened Billing

  /** What `index` answers: a redirect to `new_bill`, a failed commit, or the current bill's view. */
  datatype IndexResult =
    | RedirectToNewBill
    | IndexStorageError
    | View(billId: int, bill: Bill, items: seq<Item>, total: real)

  /**
    What `add_item` does with a request: rejected input (a redirect, nothing
    drawn), a bill id the foreign key rejects (a redirect, one item id drawn),
    a value outside an INTEGER column (an uncaught error, answered 500), or a
    stored item.
   */
  datatype AddResult = InputRejected | BillMissing | ItemStorageError | ItemStored

  /**
    The answer `add_item` gives, decided by the form fields, the bills that
    exist and the item id the sequence would hand out next.
   */
  function AddOutcome(
    name: Option<string>, units: Option<int>, rate: Option<real>, billId: Option<int>,
    bills: map<int, Bill>, nextItemId: int): (r: AddResult)
    ensures r == InputRejected <==>
              !(name.Some? && units.Some? && rate.Some? && billId.Some?
                && ValidItemInput(name.value, units.value, rate.value))
    ensures r == ItemStorageError <==>
              r != InputRejected &&
              (!(FitsInteger(units.value) && FitsInteger(billId.value)) || nextItemId > IntegerMax)
    ensures r == BillMissing <==>
              r != InputRejected && r != ItemStorageError && billId.value !in bills
    ensures r == ItemStored <==>
              r != InputRejected && r != ItemStorageError && billId.value in bills
  {
    if name.None? || units.None? || rate.None? || billId.None? then InputRejected
    else if !ValidItemInput(name.value, units.value, rate.value) then InputRejected
    else if !FitsInteger(units.value) || !FitsInteger(billId.value) || nextItemId > IntegerMax then ItemStorageError
    else if billId.value !in bills then BillMissing
    else ItemStored
  }

  /** What `update_bill` answers. */
  datatype UpdateStatus = Updated | InvalidField | MissingData | BillNotFound | UpdateStorageError

  /** The HTTP status `update_bill` sends with each answer. */
  function StatusCode(s: UpdateStatus): (code: int)
    ensures code == 200 <==> s == Updated
    ensures code == 400 <==> s == InvalidField || s == MissingData
    ensures code == 404 <==> s == BillNotFound
    ensures code == 500 <==> s == UpdateStorageError
  {
    match s
    case Updated => 200
    case InvalidField => 400
    case MissingData => 400
    case BillNotFound => 404
    case UpdateStorageError => 500
  }

  /**
    Rows of `bill_items` as they are stored: ids increasing in insertion
    order and below the next id of the sequence, validated fields, derived
    amount, an existing bill.
   */
  ghost predicate ItemsWellFormed(items: seq<Item>, bills: map<int, Bill>, nextItemId: int) {
    && (forall i, j :: 0 <= i < j < |items| ==> items[i].id < items[j].id)
    && (forall k :: 0 <= k < |items| ==>
          1 <= items[k].id < nextItemId && WellFormedItem(items[k]) && items[k].billId in bills)
  }

  /**
    The store's invariant: bill and item ids drawn from sequences starting at 1 and
    fitting an INTEGER, `latest` the highest id in use, display ids unique,
    items well formed.
   */
  ghost predicate StoreInvariant(
    bills: map<int, Bill>, latest: Option<int>, nextBillId: int, items: seq<Item>, nextItemId: int)
    ensures StoreInvariant(bills, latest, nextBillId, items, nextItemId) ==>
              (latest.Some? ==> latest.value in bills && FitsInteger(latest.value)) &&
              (forall k :: 0 <= k < |items| ==> FitsInteger(items[k].id) && FitsInteger(items[k].billId))
  {
    && 1 <= nextBillId <= IntegerMax + 1
    && (forall id :: id in bills ==> 1 <= id < nextBillId)
    && (latest.None? <==> bills == map[])
    && (latest.Some? ==> IsLatest(bills, latest.value))
    && DisplayIdsUnique(bills)
    && 1 <= nextItemId <= IntegerMax + 1
    && ItemsWellFormed(items, bills, nextItemId)
  }

  /**
    Replacing a bill by one that keeps its display id, or takes a display id
    no other bill holds, keeps the invariant.
   */
  lemma PatchKeepsInvariant(
    bills: map<int, Bill>, latest: Option<int>, nextBillId: int, items: seq<Item>, nextItemId: int,
    c: int, patched: Bill)
    requires StoreInvariant(bills, latest, nextBillId, items, nextItemId)
    requires c in bills
    requires patched.displayId == bills[c].displayId || !DisplayIdHeldByOther(bills, c, patched.displayId)
    ensures StoreInvariant(bills[c := patched], latest, nextBillId, items, nextItemId)
  {
    var bills' := bills[c := patched];
    forall a, b | a in bills' && b in bills' && a != b
      ensures bills'[a].displayId != bills'[b].displayId
    {
      if a != c && b != c {
        assert bills'[a] == bills[a] && bills'[b] == bills[b];
      } else if a == c {
        assert bills'[b] == bills[b];
      } else {
        assert bills'[a] == bills[a];
      }
    }
  }

  /** Appending a validated item with the next item id to a bill that exists keeps the invariant. */
  lemma AppendKeepsInvariant(
    bills: map<int, Bill>, latest: Option<int>, nextBillId: int, items: seq<Item>, nextItemId: int, it: Item)
    requires StoreInvariant(bills, latest, nextBillId, items, nextItemId)
    requires it.id == nextItemId <= IntegerMax && WellFormedItem(it) && it.billId in bills
    ensures StoreInvariant(bills, latest, nextBillId, items + [it], nextItemId + 1)
  {
    var items' := items + [it];
    forall i, j | 0 <= i < j < |items'|
      ensures items'[i].id < items'[j].id
    {
      assert items'[i] == items[i];
      if j < |items| {
        assert items'[j] == items[j];
      }
    }
    forall k | 0 <= k < |items'|
      ensures items'[k].id < nextItemId + 1
      ensures WellFormedItem(items'[k]) && items'[k].billId in bills
    {
      if k < |items| {
        assert items'[k] == items[k];
      }
    }
  }

  class Store {
    var bills: map<int, Bill>
    /** The highest bill id in use: what the primary-key index answers to ORDER BY id DESC. */
    var latest: Option<int>
    /** The next value of the bill id sequence. */
    var nextBillId: int
    var items: seq<Item>
    /** The next value of the item id sequence. */
    var nextItemId: int
    var products: map<string, Product>

    ghost predicate Valid()
      reads this
    {
      StoreInvariant(bills, latest, nextBillId, items, nextItemId)
    }

    /** Empty tables, as the schema is created. */
    constructor ()
      ensures Valid()
      ensures bills == map[] && items == [] && products == map[]
      ensures latest == None && nextBillId == 1 && nextItemId == 1
    {
      bills, latest, nextBillId := map[], None, 1;
      items, nextItemId, products := [], 1, map[];
    }

    /** The id of the bill with the highest id (ORDER BY id DESC, first row), if there is a bill. */
    function LatestBillId(): (r: Option<int>)
      reads this
      requires Valid()
      ensures r.None? <==> bills == map[]
      ensures r.Some? ==> IsLatest(bills, r.value) && r.value >= 1
    {
      latest
    }

    /** `init_db`: seed the catalog with the five products, only when it is empty. */
    method InitDb()
      requires Valid()
      modifies this
      ensures Valid()
      ensures products == if old(products) == map[] then SeedProducts() else old(products)
      ensures bills == old(bills) && latest == old(latest) && nextBillId == old(nextBillId)
      ensures items == old(items) && nextItemId == old(nextItemId)
    {
      if |products| == 0 {
        products := SeedProducts();
      }
    }

    /**
      `new_bill`: insert a bill dated today with an empty display id, then set
      the display id to `str(id)`, in one transaction. It fails, and no bill
      is added, when the id sequence is past the INTEGER range (no id is
      drawn) or when the unique index rejects either display id (the id drawn
      for the INSERT is used up).
     */
    method NewBill(today: string) returns (id: Option<int>)
      requires Valid()
      modifies this
      ensures Valid()
      ensures items == old(items) && nextItemId == old(nextItemId) && products == old(products)
      ensures id.Some? <==>
                && old(nextBillId) <= IntegerMax
                && !DisplayIdTaken(old(bills), "")
                && !DisplayIdTaken(old(bills), NatToString(old(nextBillId)))
      ensures id.Some? ==>
                && id.value == old(nextBillId)
                && (forall k :: k in old(bills) ==> k < id.value)
                && bills == old(bills)[id.value := Bill(NatToString(id.value), today, None, None, None, None)]
                && latest == Some(id.value)
                && nextBillId == old(nextBillId) + 1
                && ItemsOf(items, id.value) == []
      ensures id.None? ==> bills == old(bills) && latest == old(latest)
      ensures id.None? ==>
                nextBillId == if old(nextBillId) <= IntegerMax then old(nextBillId) + 1 else old(nextBillId)
    {
      if nextBillId > IntegerMax {
        return None;
      }
      var newId := nextBillId;
      nextBillId := nextBillId + 1;
      if DisplayIdTaken(bills, "") || DisplayIdTaken(bills, NatToString(newId)) {
        return None;
      }
      bills := bills[newId := Bill(NatToString(newId), today, None, None, None, None)];
      assert newId in bills;
      latest := Some(newId);
      id := Some(newId);
    }

    /**
      `index`: show the bill with the highest id. With no bill the caller is
      sent to `new_bill`. An empty display id is first backfilled with
      `str(id)`; that commit fails, and nothing changes, when another bill
      holds that display id. The view lists the bill's items in insertion
      order with the sum of their stored amounts.
     */
    method Index() returns (r: IndexResult)
      requires Valid()
      modifies this
      ensures Valid()
      ensures latest == old(latest) && nextBillId == old(nextBillId)
      ensures items == old(items) && nextItemId == old(nextItemId) && products == old(products)
      ensures r == RedirectToNewBill <==> old(bills) == map[]
      ensures r.IndexStorageError? <==>
                old(bills) != map[] &&
                var c := old(LatestBillId()).value;
                old(bills)[c].displayId == "" && DisplayIdTaken(old(bills), NatToString(c))
      ensures !r.View? ==> bills == old(bills)
      ensures r.View? ==>
                && r.billId >= 0
                && IsLatest(old(bills), r.billId)
                && bills == old(bills)[r.billId := Backfilled(old(bills)[r.billId], r.billId)]
                && r.bill == bills[r.billId]
                && r.items == ItemsOf(items, r.billId)
                && r.total == Total(r.items)
    {
      var current := LatestBillId();
      if current.None? {
        return RedirectToNewBill;
      }
      var c := current.value;
      if bills[c].displayId == "" {
        var d := NatToString(c);
        if DisplayIdTaken(bills, d) {
          return IndexStorageError;
        }
        PatchKeepsInvariant(bills, latest, nextBillId, items, nextItemId, c, SetField(bills[c], DisplayId, d));
        bills := bills[c := SetField(bills[c], DisplayId, d)];
      }
      var its := ItemsOf(items, c);
      r := View(c, bills[c], its, Total(its));
    }

    /**
      `add_item`: append an item to a bill. Missing or unparsable form
      fields arrive as None. Input that fails validation is turned away
      before anything is written. Units or a bill id outside the INTEGER
      range, or an item id sequence past that range, fail the INSERT with an
      error the handler does not catch. A bill
      id no bill has fails the foreign key after the item's id was drawn.
      Otherwise exactly one item is appended, with the drawn id and amount
      units * rate.
     */
    method AddItem(name: Option<string>, units: Option<int>, rate: Option<real>, billId: Option<int>)
      returns (r: AddResult)
      requires Valid()
      modifies this
      ensures Valid()
      ensures bills == old(bills) && latest == old(latest) && nextBillId == old(nextBillId)
      ensures products == old(products)
      ensures r == AddOutcome(name, units, rate, billId, old(bills), old(nextItemId))
      ensures r == InputRejected || r == ItemStorageError ==>
                items == old(items) && nextItemId == old(nextItemId)
      ensures r == BillMissing ==> items == old(items) && nextItemId == old(nextItemId) + 1
      ensures r == ItemStored ==>
                && items == old(items) + [Item(old(nextItemId), name.value, units.value, rate.value,
                                               Amount(units.value, rate.value), billId.value)]
                && (forall k :: 0 <= k < |old(items)| ==> old(items)[k].id < old(nextItemId))
                && nextItemId == old(nextItemId) + 1
                && ItemsOf(items, billId.value) == ItemsOf(old(items), billId.value) + [items[|items| - 1]]
    {
      r := AddOutcome(name, units, rate, billId, bills, nextItemId);
      if r == BillMissing {
        DrawItemId();
      } else if r == ItemStored {
        var it := Item(nextItemId, name.value, units.value, rate.value, Amount(units.value, rate.value), billId.value);
        assert WellFormedItem(it);
        ItemsOfAppend(items, it, billId.value);
        AppendItem(it);
      }
    }

    /** The item id sequence hands out its next value, which no item receives. */
    method DrawItemId()
      requires Valid() && nextItemId <= IntegerMax
      modifies this
      ensures Valid()
      ensures nextItemId == old(nextItemId) + 1
      ensures bills == old(bills) && latest == old(latest) && nextBillId == old(nextBillId)
      ensures items == old(items) && products == old(products)
    {
      nextItemId := nextItemId + 1;
    }

    /** The INSERT of an item that passed every check: it takes the next item id. */
    method AppendItem(it: Item)
      requires Valid() && it.id == nextItemId <= IntegerMax
      requires WellFormedItem(it) && it.billId in bills
      modifies this
      ensures Valid()
      ensures items == old(items) + [it] && nextItemId == old(nextItemId) + 1
      ensures forall k :: 0 <= k < |old(items)| ==> old(items)[k].id < it.id
      ensures bills == old(bills) && latest == old(latest) && nextBillId == old(nextBillId)
      ensures products == old(products)
    {
      AppendKeepsInvariant(bills, latest, nextBillId, items, nextItemId, it);
      items := items + [it];
      nextItemId := nextItemId + 1;
    }

    /**
      `update_bill`: overwrite one allowed column of one bill. The field
      name is checked against the allow-list before anything else; a missing
      bill id or value, an unknown bill, and a display id another bill holds
      (the unique index fails the commit and it is rolled back) are rejected
      and leave the store unchanged.
     */
    method UpdateBill(billId: Option<int>, field: Option<string>, value: Option<string>)
      returns (status: UpdateStatus)
      requires Valid()
      modifies this
      ensures Valid()
      ensures latest == old(latest) && nextBillId == old(nextBillId)
      ensures items == old(items) && nextItemId == old(nextItemId) && products == old(products)
      ensures status == InvalidField <==> field.None? || ParseField(field.value).None?
      ensures status == MissingData <==>
                field.Some? && ParseField(field.value).Some? && (billId.None? || value.None?)
      ensures status == BillNotFound <==>
                field.Some? && ParseField(field.value).Some? && billId.Some? && value.Some?
                && billId.value !in old(bills)
      ensures status == UpdateStorageError <==>
                field.Some? && ParseField(field.value) == Some(DisplayId) && billId.Some? && value.Some?
                && billId.value in old(bills)
                && DisplayIdHeldByOther(old(bills), billId.value, value.value)
      ensures status != Updated ==> bills == old(bills)
      ensures status == Updated ==>
                bills == old(bills)[billId.value :=
                                      SetField(old(bills)[billId.value], ParseField(field.value).value, value.value)]
    {
      if field.None? || ParseField(field.value).None? {
        return InvalidField;
      }
      var f := ParseField(field.value).value;
      if billId.None? || value.None? {
        return MissingData;
      }
      var id, v := billId.value, value.value;
      if id !in bills {
        return BillNotFound;
      }
      if f == DisplayId && DisplayIdHeldByOther(bills, id, v) {
        return UpdateStorageError;
      }
      var patched := SetField(bills[id], f, v);
      assert GetField(patched, DisplayId) == GetField(bills[id], DisplayId) || f == DisplayId;
      PatchKeepsInvariant(bills, latest, nextBillId, items, nextItemId, id, patched);
      bills := bills[id := patched];
      status := Updated;
    }
  }

  /**
    A new bill, one ream of paper twice over, then the current bill: one
    item of amount 700 and a total of 700.
   */
  method PaperScenario(today: string) returns (items: seq<Item>, total: real)
    ensures |items| == 1 && items[0].name == "A4 Plain Paper Ream" && items[0].amount == 700.0
    ensures total == 700.0
  {
    var store := new Store();
    var id := store.NewBill(today);
    assert id == Some(1);
    assert Amount(2, 350.0) == 700.0;
    var added := store.AddItem(Some("A4 Plain Paper Ream"), Some(2), Some(350.0), Some(1));
    assert added == ItemStored;
    ghost var item := Item(1, "A4 Plain Paper Ream", 2, 350.0, 700.0, 1);
    assert store.items == [item];
    var view := store.Index();
    assert view.View? && view.billId == 1;
    assert view.items == [item] by {
      assert store.items[..0] == [];
    }
    items, total := view.items, view.total;
  }

  /** Patching the recipient of the current bill shows in the next view; patching the `id` column is refused. */
  method PatchScenario(today: string) returns (recipient: Option<string>, refused: UpdateStatus)
    ensures recipient == Some("Finance Dept")
    ensures refused == InvalidField
  {
    var store := new Store();
    var id := store.NewBill(today);
    assert id == Some(1);
    var patched := store.UpdateBill(Some(1), Some("recipient"), Some("Finance Dept"));
    assert patched == Updated;
    var view := store.Index();
    assert view.View? && view.billId == 1;
    recipient := view.bill.recipient;
    refused := store.UpdateBill(Some(1), Some("id"), Some("5"));
  }

  /** Units of 2^31 pass validation but not the 32-bit INTEGER column: the request fails and stores nothing. */
  method WideUnitsScenario(today: string) returns (r: AddResult, stored: nat)
    ensures r == ItemStorageError && stored == 0
  {
    var store := new Store();
    var id := store.NewBill(today);
    assert id == Some(1);
    r := store.AddItem(Some("x"), Some(0x8000_0000), Some(1.0), Some(1));
    stored := |store.items|;
  }
}
