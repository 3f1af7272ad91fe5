/** The persistent billing service of services/mongoBillingService.js. The menu collection is
    reduced to what `createBill` reads and writes of it, a stock level per menu item id; the bill
    collection is a sequence of stored documents in insertion order. Database queries and
    aggregations become functions over that sequence. */
module MongoBillingService {
  import opened Wrappers
  import opened Bill
  import opened Pricing
  import opened Schemas
  import Seqs
  import Sales

  /** Why an operation throws. */
  datatype BillError =
    | EmptyCart
    | ItemNotFound(name: string)
    | InsufficientStock(itemId: string, available: real, requested: real)
    | ValidationFailed(paths: set<string>)
    | DuplicateKey(id: string)
    | InvalidLimit(limit: int)

  // ---------------------------------------------------------------------------
  // Stock

  /** The validation pass's verdict on one cart entry, against the stock as it was before the
      call: the item must exist and hold at least the requested grams. */
  function EntryRejection(e: CartEntry, stock: map<string, real>): Option<BillError>
  {
    var id := e.menuItem.id;
    if id !in stock then Some(ItemNotFound(e.menuItem.name))
    else if stock[id] < e.quantityInGrams then Some(InsufficientStock(id, stock[id], e.quantityInGrams))
    else None
  }

  /** The first entry the validation pass rejects, scanning the cart in order. */
  function ScanRejections(cart: seq<CartEntry>, stock: map<string, real>): (r: Option<BillError>)
    ensures r.None? <==> forall i :: 0 <= i < |cart| ==> EntryRejection(cart[i], stock).None?
  {
    if cart == [] then None
    else if EntryRejection(cart[0], stock).Some? then EntryRejection(cart[0], stock)
    else
      var r := ScanRejections(cart[1..], stock);
      assert forall i :: 1 <= i < |cart| ==> cart[i] == cart[1..][i - 1];
      r
  }

  /** The scan reports the first rejected entry. */
  lemma {:induction false} ScanRejectionsAt(cart: seq<CartEntry>, stock: map<string, real>, i: nat)
    requires i < |cart| && EntryRejection(cart[i], stock).Some?
    requires forall j :: 0 <= j < i ==> EntryRejection(cart[j], stock).None?
    ensures ScanRejections(cart, stock) == EntryRejection(cart[i], stock)
  {
    if i > 0 {
      ScanRejectionsAt(cart[1..], stock, i - 1);
    }
  }

  /** Why `createBill` refuses a cart before touching anything, if it does. */
  function FirstRejection(cart: seq<CartEntry>, stock: map<string, real>): Option<BillError>
  {
    if |cart| == 0 then Some(EmptyCart) else ScanRejections(cart, stock)
  }

  /** A cart passes exactly when it is not empty and every entry, on its own, names a stocked
      item holding at least the entry's grams. */
  lemma CartPassesIff(cart: seq<CartEntry>, stock: map<string, real>)
    ensures FirstRejection(cart, stock).None? <==>
      |cart| > 0 && forall e :: e in cart ==> e.menuItem.id in stock && stock[e.menuItem.id] >= e.quantityInGrams
  {
    if FirstRejection(cart, stock).None? {
      forall e | e in cart ensures e.menuItem.id in stock && stock[e.menuItem.id] >= e.quantityInGrams {
        var i :| 0 <= i < |cart| && cart[i] == e;
        assert EntryRejection(cart[i], stock).None?;
      }
    }
  }

  /** The deduction pass: each entry's `$inc` lowers its item's stock by the entry's grams (an
      update that matches no item changes nothing). */
  function Deduct(stock: map<string, real>, cart: seq<CartEntry>): map<string, real>
  {
    if cart == [] then stock
    else
      var s := Deduct(stock, cart[..|cart| - 1]);
      var e := cart[|cart| - 1];
      if e.menuItem.id in s then s[e.menuItem.id := s[e.menuItem.id] - e.quantityInGrams] else s
  }

  /** The grams all entries naming item `id` request together. */
  function QuantityFor(cart: seq<CartEntry>, id: string): real
  {
    if cart == [] then 0.0
    else
      var e := cart[|cart| - 1];
      QuantityFor(cart[..|cart| - 1], id) + (if e.menuItem.id == id then e.quantityInGrams else 0.0)
  }

  /** After the deduction pass each item's stock is lower by the total grams of all the entries
      naming it; no item is added or removed. */
  lemma {:induction false} DeductSumsQuantities(stock: map<string, real>, cart: seq<CartEntry>)
    ensures Deduct(stock, cart).Keys == stock.Keys
    ensures forall id :: id in stock ==> Deduct(stock, cart)[id] == stock[id] - QuantityFor(cart, id)
  {
    if cart != [] {
      DeductSumsQuantities(stock, cart[..|cart| - 1]);
    }
  }

  /** Two entries of 60 g for an item holding 100 g each pass the check, which looks at one
      entry at a time, and together drive the stock to -20 g. */
  lemma DuplicateEntriesOverdraw(item: Menu.MenuItem)
    requires item.id == "s1"
    ensures var stock := map["s1" := 100.0];
      var cart := [CartEntry(item, 60.0), CartEntry(item, 60.0)];
      FirstRejection(cart, stock).None? && "s1" in Deduct(stock, cart) && Deduct(stock, cart)["s1"] == -20.0
  {
    var stock := map["s1" := 100.0];
    var cart := [CartEntry(item, 60.0), CartEntry(item, 60.0)];
    assert cart[..1] == [CartEntry(item, 60.0)];
    assert cart[..1][..0] == [];
    assert EntryRejection(cart[0], stock).None? && EntryRejection(cart[1], stock).None?;
    assert QuantityFor(cart[..1], "s1") == 60.0;
    assert QuantityFor(cart, "s1") == 120.0;
    DeductSumsQuantities(stock, cart);
  }

  /** The bill document `createBill` asks to save for a cart that passed the check. */
  function BillInputFor(cart: seq<CartEntry>, discount: real, paymentMethod: string, notes: string): BillInput
  {
    var items := PriceCart(cart);
    var totals := CalculateBillTotal(items, discount);
    BillInput(items, Some(totals.subtotal), Some(discount), Some(totals.totalAmount), Some(paymentMethod),
              Some(notes), None)
  }

  /** A discount above the subtotal passes the stock check, so the stock is deducted, and is then
      refused on save because the amount due is negative; the deduction stays. */
  lemma OverDiscountKeepsDeduction(item: Menu.MenuItem, freshId: string, now: int)
    requires item.id == "s1" && item.price == 1.0 && item.name != "" && freshId != ""
    ensures var stock := map["s1" := 100.0];
      var cart := [CartEntry(item, 50.0)];
      && FirstRejection(cart, stock).None?
      && "s1" in Deduct(stock, cart) && Deduct(stock, cart)["s1"] == 50.0
      && NewBillDoc(BillInputFor(cart, 100.0, "cash", ""), freshId, now) == Failure({"totalAmount"})
  {
    var cart := [CartEntry(item, 50.0)];
    assert cart[..0] == [];
    var items := PriceCart(cart);
    assert items == [PriceEntry(CartEntry(item, 50.0))];
    assert Subtotal(items) == Subtotal([]) + 50.0;
    assert Trim("") == "";
  }

  // ---------------------------------------------------------------------------
  // Reading the bill collection

  function DocIdIs(billId: string): BillDoc -> bool {
    (d: BillDoc) => d.bill.id == billId
  }

  function TimestampOf(d: BillDoc): real { d.bill.timestamp as real }

  function DocInRange(start: int, end: int): BillDoc -> bool {
    (d: BillDoc) => start <= d.bill.timestamp <= end
  }

  function DocMethodIs(paymentMethod: string): BillDoc -> bool {
    (d: BillDoc) => d.bill.paymentMethod == paymentMethod
  }

  /** The bill records of a list of documents, in order. */
  function Records(docs: seq<BillDoc>): (bs: seq<BillRecord>)
    ensures |bs| == |docs|
    ensures forall i :: 0 <= i < |docs| ==> bs[i] == docs[i].bill
  {
    seq(|docs|, i requires 0 <= i < |docs| => docs[i].bill)
  }

  /** The per-method breakdown as the `$group` on `$paymentMethod` computes it: one entry per
      method present, holding the sum of those bills' amounts due. */
  function GroupedBreakdown(bills: seq<BillRecord>): map<string, real>
  {
    map pm | pm in Sales.Methods(bills) :: Sales.TotalRevenue(Sales.BillsByMethod(bills, pm))
  }

  /** The `$group` stage computes the same breakdown as the in-memory accumulation. */
  lemma GroupedBreakdownIsBreakdown(bills: seq<BillRecord>)
    ensures GroupedBreakdown(bills) == Sales.Breakdown(bills)
  {
    GroupedEntries(bills);
    MapExtensionality(GroupedBreakdown(bills), Sales.Breakdown(bills));
  }

  /** The grouped breakdown has an entry for exactly the methods the accumulated one has, with
      the same total. */
  lemma GroupedEntries(bills: seq<BillRecord>)
    ensures forall pm :: pm in GroupedBreakdown(bills) <==> pm in Sales.Breakdown(bills)
    ensures forall pm :: pm in GroupedBreakdown(bills) ==> GroupedBreakdown(bills)[pm] == Sales.Breakdown(bills)[pm]
  {
    Sales.MethodsHaveEntries(bills);
    forall pm | pm in GroupedBreakdown(bills) ensures GroupedBreakdown(bills)[pm] == Sales.Breakdown(bills)[pm] {
      Sales.BreakdownValues(bills, pm);
    }
  }

  lemma MapExtensionality(g: map<string, real>, m: map<string, real>)
    requires forall k :: k in g <==> k in m
    requires forall k :: k in g ==> g[k] == m[k]
    ensures g == m
  {
  }

  /** What `getDailySalesSummary` returns. */
  datatype DailySummary = DailySummary(totalBills: nat, totalRevenue: real, totalDiscount: real)

  /** The milliseconds in a day; the window is `[00:00:00.000, 23:59:59.999]` of that day. */
  const MillisPerDay: int := 86_400_000

  function EndOfDay(dayStart: int): int { dayStart + MillisPerDay - 1 }

  /** A time lies in a day's window exactly when it is at most a day's milliseconds past its
      start, exclusive, so consecutive days' windows neither overlap nor leave a gap. */
  lemma DayWindows(dayStart: int, t: int)
    ensures dayStart <= t <= EndOfDay(dayStart) <==> dayStart <= t < dayStart + MillisPerDay
    ensures !(dayStart <= t <= EndOfDay(dayStart) && dayStart + MillisPerDay <= t <= EndOfDay(dayStart + MillisPerDay))
  {
  }

  /** The search for a bill id succeeds exactly when a bill carries that id. */
  lemma FirstIndexFindsId(bills: seq<BillDoc>, billId: string)
    ensures Seqs.FirstIndex(bills, DocIdIs(billId)) >= 0 <==> exists d :: d in bills && d.bill.id == billId
  {
    var k := Seqs.FirstIndex(bills, DocIdIs(billId));
    if k >= 0 {
      assert bills[k] in bills;
    } else {
      forall d | d in bills ensures d.bill.id != billId {
        var i :| 0 <= i < |bills| && bills[i] == d;
        assert !DocIdIs(billId)(bills[i]);
      }
    }
  }

  /** The unique index on `id`: no two stored bills share an id. */
  ghost predicate UniqueIds(bills: seq<BillDoc>) {
    forall i, j :: 0 <= i < j < |bills| ==> bills[i].bill.id != bills[j].bill.id
  }

  /** The schema's validators hold for every stored bill. */
  ghost predicate AllValid(bills: seq<BillDoc>) {
    forall d :: d in bills ==> ValidBillDoc(d)
  }

  /** Removing the bill at `k` keeps ids unique and bills valid, and under unique ids leaves no
      bill with the removed id. */
  lemma RemoveKeepsIdsUnique(bills: seq<BillDoc>, k: nat)
    requires k < |bills|
    ensures AllValid(bills) ==> AllValid(Seqs.RemoveAt(bills, k))
    ensures UniqueIds(bills) ==> UniqueIds(Seqs.RemoveAt(bills, k))
    ensures UniqueIds(bills) ==> forall d :: d in Seqs.RemoveAt(bills, k) ==> d.bill.id != bills[k].bill.id
  {
    var rest := Seqs.RemoveAt(bills, k);
    forall d | d in rest ensures exists i :: 0 <= i < |bills| && i != k && bills[i] == d {
      var i :| 0 <= i < |rest| && rest[i] == d;
      if i < k {
        assert d == bills[i];
      } else {
        assert d == bills[i + 1];
      }
    }
    if UniqueIds(bills) {
      forall i, j | 0 <= i < j < |rest| ensures rest[i].bill.id != rest[j].bill.id {
        var i' := if i < k then i else i + 1;
        var j' := if j < k then j else j + 1;
        assert rest[i] == bills[i'] && rest[j] == bills[j'] && i' < j';
      }
    }
  }

  /** Appending a valid bill with a new id keeps ids unique and bills valid. */
  lemma AppendKeepsValid(bills: seq<BillDoc>, d: BillDoc)
    ensures AllValid(bills) && ValidBillDoc(d) ==> AllValid(bills + [d])
    ensures UniqueIds(bills) && (forall x :: x in bills ==> x.bill.id != d.bill.id) ==> UniqueIds(bills + [d])
  {
    if UniqueIds(bills) && (forall x :: x in bills ==> x.bill.id != d.bill.id) {
      forall i, j | 0 <= i < j < |bills + [d]| ensures (bills + [d])[i].bill.id != (bills + [d])[j].bill.id {
        if j == |bills| {
          assert bills[i] in bills;
        }
      }
    }
  }

  /** Replacing the bill at `k` by a valid bill whose id no other bill has keeps ids unique and
      bills valid. */
  lemma ReplaceKeepsValid(bills: seq<BillDoc>, k: nat, d: BillDoc)
    requires k < |bills|
    ensures AllValid(bills) && ValidBillDoc(d) ==> AllValid(bills[k := d])
    ensures UniqueIds(bills) && (forall j :: 0 <= j < |bills| && j != k ==> bills[j].bill.id != d.bill.id) ==>
      UniqueIds(bills[k := d])
  {
    if AllValid(bills) && ValidBillDoc(d) {
      forall x | x in bills[k := d] ensures ValidBillDoc(x) {
        var i :| 0 <= i < |bills| && bills[k := d][i] == x;
        if i != k {
          assert bills[i] in bills;
        }
      }
    }
  }

  /** The service object over the menu item stock and the bill collection. */
  class MongoBillingService {
    /** `stockQuantity` per menu item id; an id absent from the map has no menu item. */
    var stock: map<string, real>
    /** The bill collection in insertion (natural) order. */
    var bills: seq<BillDoc>

    /** The unique index on `id` and the schema's validators hold for every stored bill. */
    ghost predicate Valid()
      reads this
    {
      UniqueIds(bills) && AllValid(bills)
    }

    constructor(initialStock: map<string, real>)
      ensures stock == initialStock && bills == []
      ensures Valid()
    {
      stock := initialStock;
      bills := [];
    }

    /** `createBill`. The validation pass rejects an empty cart, a missing item or a short stock
        before anything changes; the deduction pass then lowers each entry's stock and prices
        the entry from its own copy of the menu item; last the bill is validated and saved. A
        save that fails leaves the deductions in place. `freshId` and `now` stand for the
        schema's `bill_${Date.now()}` and `Date.now` defaults. */
    method CreateBill(cart: seq<CartEntry>, freshId: string, now: int, discount: real := 0.0,
                      paymentMethod: string := "cash", notes: string := "")
      returns (r: Result<BillDoc, BillError>)
      modifies this
      ensures FirstRejection(cart, old(stock)).Some? ==>
        r == Failure(FirstRejection(cart, old(stock)).value) && stock == old(stock) && bills == old(bills)
      ensures FirstRejection(cart, old(stock)).None? ==> stock == Deduct(old(stock), cart)
      ensures r.Success? ==>
        && FirstRejection(cart, old(stock)).None?
        && r.value == FillBillDefaults(BillInputFor(cart, discount, paymentMethod, notes), freshId, now)
        && r.value.bill.items == PriceCart(cart)
        && r.value.bill.subtotal == Seqs.SumBy(cart, LineValue)
        && r.value.bill.totalAmount == r.value.bill.subtotal - discount
        && bills == old(bills) + [r.value]
      ensures r.Failure? ==> bills == old(bills)
      ensures FirstRejection(cart, old(stock)).None? ==>
        var saved := NewBillDoc(BillInputFor(cart, discount, paymentMethod, notes), freshId, now);
        && (saved.Failure? ==> r == Failure(ValidationFailed(saved.error)))
        && (saved.Success? && (exists d :: d in old(bills) && d.bill.id == freshId) ==>
              r == Failure(DuplicateKey(freshId)))
        && (saved.Success? && (forall d :: d in old(bills) ==> d.bill.id != freshId) ==>
              r == Success(saved.value))
      ensures old(Valid()) ==> Valid()
    {
      if |cart| == 0 {
        return Failure(EmptyCart);
      }
      var rejection := CheckStock(cart);
      if rejection.Some? {
        return Failure(rejection.value);
      }
      var billItems := DeductStock(cart);
      var totals := CalculateBillTotal(billItems, discount);
      SubtotalOfCart(cart);
      var input := BillInput(billItems, Some(totals.subtotal), Some(discount), Some(totals.totalAmount),
                             Some(paymentMethod), Some(notes), None);
      assert input == BillInputFor(cart, discount, paymentMethod, notes);
      var saved := NewBillDoc(input, freshId, now);
      if saved.Failure? {
        return Failure(ValidationFailed(saved.error));
      }
      FirstIndexFindsId(bills, freshId);
      if Seqs.FirstIndex(bills, DocIdIs(freshId)) >= 0 {
        return Failure(DuplicateKey(freshId));
      }
      AppendKeepsValid(bills, saved.value);
      bills := bills + [saved.value];
      r := Success(saved.value);
    }

    /** The validation pass of `createBill`: the first entry whose item is missing or short of
        stock, scanning in cart order; nothing changes. */
    method CheckStock(cart: seq<CartEntry>) returns (rejection: Option<BillError>)
      ensures rejection == ScanRejections(cart, stock)
    {
      var i := 0;
      while i < |cart|
        invariant 0 <= i <= |cart|
        invariant forall j :: 0 <= j < i ==> EntryRejection(cart[j], stock).None?
      {
        var menuItemId := cart[i].menuItem.id;
        var quantityInGrams := cart[i].quantityInGrams;
        if menuItemId !in stock {
          ScanRejectionsAt(cart, stock, i);
          return Some(ItemNotFound(cart[i].menuItem.name));
        }
        if stock[menuItemId] < quantityInGrams {
          ScanRejectionsAt(cart, stock, i);
          return Some(InsufficientStock(menuItemId, stock[menuItemId], quantityInGrams));
        }
        i := i + 1;
      }
      return None;
    }

    /** The deduction pass of `createBill`: each entry's `$inc` on its item's stock, and the
        entry priced into a bill line. */
    method DeductStock(cart: seq<CartEntry>) returns (billItems: seq<BillItem>)
      modifies this
      ensures stock == Deduct(old(stock), cart)
      ensures billItems == PriceCart(cart)
      ensures bills == old(bills)
    {
      billItems := [];
      var i := 0;
      while i < |cart|
        invariant 0 <= i <= |cart|
        invariant stock == Deduct(old(stock), cart[..i])
        invariant billItems == PriceCart(cart[..i])
        invariant bills == old(bills)
      {
        var menuItemId := cart[i].menuItem.id;
        var quantityInGrams := cart[i].quantityInGrams;
        if menuItemId in stock {
          stock := stock[menuItemId := stock[menuItemId] - quantityInGrams];
        }
        billItems := billItems + [PriceEntry(cart[i])];
        assert cart[..i + 1][..i] == cart[..i];
        PriceCartSnoc(cart[..i], cart[i]);
        assert cart[..i + 1] == cart[..i] + [cart[i]];
        i := i + 1;
      }
      assert cart[..i] == cart;
    }

    /** `getAllBills`: every stored bill, newest first. */
    function GetAllBills(): (r: seq<BillDoc>)
      reads this
      ensures Seqs.SortedDesc(r, TimestampOf)
      ensures multiset(r) == multiset(bills)
    {
      Seqs.SortDesc(bills, TimestampOf)
    }

    /** `getBillById`: the stored bill with that id, or null. */
    function GetBillById(billId: string): (r: Option<BillDoc>)
      reads this
      ensures r.None? <==> forall d :: d in bills ==> d.bill.id != billId
      ensures r.Some? ==> r.value in bills && r.value.bill.id == billId
      ensures Valid() && r.Some? ==> forall d :: d in bills && d.bill.id == billId ==> d == r.value
    {
      var k := Seqs.FirstIndex(bills, DocIdIs(billId));
      if k < 0 then None else Some(bills[k])
    }

    /** `getBillsByDateRange`: the bills stamped within `[startDate, endDate]`, newest first. */
    function GetBillsByDateRange(startDate: int, endDate: int): (r: seq<BillDoc>)
      reads this
      ensures Seqs.SortedDesc(r, TimestampOf)
      ensures forall d :: multiset(r)[d] == if startDate <= d.bill.timestamp <= endDate then multiset(bills)[d] else 0
    {
      Seqs.SortDesc(Seqs.Filter(bills, DocInRange(startDate, endDate)), TimestampOf)
    }

    /** `getBillsByPaymentMethod`: the bills paid with that method, newest first. */
    function GetBillsByPaymentMethod(paymentMethod: string): (r: seq<BillDoc>)
      reads this
      ensures Seqs.SortedDesc(r, TimestampOf)
      ensures forall d :: multiset(r)[d] == if d.bill.paymentMethod == paymentMethod then multiset(bills)[d] else 0
    {
      Seqs.SortDesc(Seqs.Filter(bills, DocMethodIs(paymentMethod)), TimestampOf)
    }

    /** `getSalesSummary`: the count, the `$group` sums (0 when the collection is empty, as
        `result[0] || {}` gives), the average and the grouped breakdown. The figures are those
        of the in-memory summary over the same bills. */
    function GetSalesSummary(): (s: Sales.SalesSummary)
      reads this
      ensures s == Sales.Summary(Records(bills))
      ensures bills == [] ==> s == Sales.SalesSummary(0, 0.0, 0.0, 0.0, map[])
    {
      var records := Records(bills);
      var totalBills := |bills|;
      var result: Option<(real, real)> :=
        if bills == [] then None else Some((Sales.TotalRevenue(records), Sales.TotalDiscount(records)));
      var totalRevenue := if result.Some? then result.value.0 else 0.0;
      var totalDiscount := if result.Some? then result.value.1 else 0.0;
      var averageOrderValue := if totalBills > 0 then totalRevenue / (totalBills as real) else 0.0;
      GroupedBreakdownIsBreakdown(records);
      Sales.SalesSummary(totalBills, totalRevenue, totalDiscount, averageOrderValue, GroupedBreakdown(records))
    }

    /** `getMostSoldItems(limit = 10)`: the `$unwind`/`$group`/`$sort`/`$limit` pipeline. A limit
        that is not positive is refused by `$limit`. */
    function GetMostSoldItems(limit: int := 10): (r: Result<seq<Sales.ItemSales>, BillError>)
      reads this
      ensures r.Failure? <==> limit <= 0
      ensures r.Success? ==>
        && Seqs.SortedDesc(r.value, Sales.QuantitySoldOf)
        && |r.value| <= limit
        && |r.value| == Seqs.SliceEnd(|Seqs.Distinct(Sales.ItemNames(Sales.AllItems(Records(bills))))|, limit)
        && Seqs.NoDuplicates(Sales.GroupNames(r.value))
        && forall g :: g in r.value ==> Sales.Summarises(Sales.AllItems(Records(bills)), g)
    {
      if limit <= 0 then Failure(InvalidLimit(limit))
      else
        var top := Sales.TopItems(Records(bills), limit);
        assert forall g :: g in top ==> Sales.Summarises(Sales.AllItems(Records(bills)), g) by {
          forall g | g in top ensures Sales.Summarises(Sales.AllItems(Records(bills)), g) {
            Sales.TopItemsSummarise(Records(bills), limit, g);
          }
        }
        Success(top)
    }

    /** `getDailySalesSummary`: count and sums over the bills stamped within the day that starts
        at `dayStart` (local midnight), or all zeros when there are none. */
    function GetDailySalesSummary(dayStart: int): (s: DailySummary)
      reads this
      ensures var w := Sales.BillsInRange(Records(bills), dayStart, EndOfDay(dayStart));
        s == DailySummary(|w|, Sales.TotalRevenue(w), Sales.TotalDiscount(w))
      ensures (forall d :: d in bills ==> !(dayStart <= d.bill.timestamp <= EndOfDay(dayStart))) ==>
        s == DailySummary(0, 0.0, 0.0)
    {
      var matched := Sales.BillsInRange(Records(bills), dayStart, EndOfDay(dayStart));
      if matched == [] then DailySummary(0, 0.0, 0.0)
      else DailySummary(|matched|, Sales.TotalRevenue(matched), Sales.TotalDiscount(matched))
    }

    /** `updateBill`: the supplied paths are validated first; an unknown id gives null and no
        change; otherwise the first bill with that id takes every supplied value (0 and "" as
        well), trimmed notes and `updatedAt = now`, in its place. Totals are not recomputed. */
    method UpdateBill(billId: string, updates: BillUpdate, now: int) returns (r: Result<Option<BillDoc>, BillError>)
      modifies this
      ensures stock == old(stock)
      ensures UpdateViolations(updates) != {} ==> r == Failure(ValidationFailed(UpdateViolations(updates)))
      ensures UpdateViolations(updates) == {} && (forall d :: d in old(bills) ==> d.bill.id != billId) ==>
        r == Success(None)
      ensures r.Success? && r.value.Some? ==>
        var k := Seqs.FirstIndex(old(bills), DocIdIs(billId));
        && 0 <= k
        && r.value.value == ApplyUpdate(old(bills)[k], updates, now)
        && bills == old(bills)[k := r.value.value]
      ensures !(r.Success? && r.value.Some?) ==> bills == old(bills)
      ensures UpdateViolations(updates) == {} ==>
        var k := Seqs.FirstIndex(old(bills), DocIdIs(billId));
        0 <= k ==>
          var updated := ApplyUpdate(old(bills)[k], updates, now);
          if exists j :: 0 <= j < |old(bills)| && j != k && old(bills)[j].bill.id == updated.bill.id
          then r == Failure(DuplicateKey(updated.bill.id))
          else r == Success(Some(updated))
      ensures old(Valid()) ==> Valid()
    {
      var violations := UpdateViolations(updates);
      if violations != {} {
        return Failure(ValidationFailed(violations));
      }
      var k := Seqs.FirstIndex(bills, DocIdIs(billId));
      if k < 0 {
        return Success(None);
      }
      var updated := ApplyUpdate(bills[k], updates, now);
      if exists j :: 0 <= j < |bills| && j != k && bills[j].bill.id == updated.bill.id {
        return Failure(DuplicateKey(updated.bill.id));
      }
      if AllValid(bills) {
        assert bills[k] in bills;
        ApplyUpdateKeepsValid(bills[k], updates, now);
      }
      ReplaceKeepsValid(bills, k, updated);
      bills := bills[k := updated];
      r := Success(Some(updated));
    }

    /** `deleteBill`: true exactly when a bill with that id existed, in which case the first
        such bill is removed and the others keep their order. */
    method DeleteBill(billId: string) returns (deleted: bool)
      modifies this
      ensures stock == old(stock)
      ensures deleted <==> exists d :: d in old(bills) && d.bill.id == billId
      ensures !deleted ==> bills == old(bills)
      ensures deleted ==>
        var k := Seqs.FirstIndex(old(bills), DocIdIs(billId));
        && 0 <= k
        && bills == Seqs.RemoveAt(old(bills), k)
      ensures old(Valid()) ==> Valid() && forall d :: d in bills ==> d.bill.id != billId
    {
      var k := Seqs.FirstIndex(bills, DocIdIs(billId));
      FirstIndexFindsId(bills, billId);
      if k < 0 {
        return false;
      }
      RemoveKeepsIdsUnique(bills, k);
      bills := Seqs.RemoveAt(bills, k);
      return true;
    }
  }

  /** The document `{ ...updates, updatedAt: new Date() }` makes: every supplied field replaces
      the stored one, notes are trimmed by the schema's setter. */
  function ApplyUpdate(d: BillDoc, u: BillUpdate, now: int): (r: BillDoc)
  {
    BillDoc(
      BillRecord(
        if u.id.Some? then u.id.value else d.bill.id,
        if u.timestamp.Some? then u.timestamp.value else d.bill.timestamp,
        if u.items.Some? then u.items.value else d.bill.items,
        if u.subtotal.Some? then u.subtotal.value else d.bill.subtotal,
        if u.discount.Some? then u.discount.value else d.bill.discount,
        if u.totalAmount.Some? then u.totalAmount.value else d.bill.totalAmount,
        if u.paymentMethod.Some? then u.paymentMethod.value else d.bill.paymentMethod,
        if u.notes.Some? then Trim(u.notes.value) else d.bill.notes),
      if u.status.Some? then u.status.value else d.status,
      now)
  }

  /** Unlike the in-memory merge, a supplied 0 or "" is stored: a discount can be reset to 0 and
      notes can be cleared. */
  lemma SpreadStoresFalsyValues(d: BillDoc, u: BillUpdate, now: int)
    requires u.discount == Some(0.0) && u.notes == Some("")
    ensures ApplyUpdate(d, u, now).bill.discount == 0.0
    ensures ApplyUpdate(d, u, now).bill.notes == ""
  {
    assert Trim("") == "";
  }

  /** On a valid stored bill, the update validators accept exactly the updates that leave the
      bill valid. */
  lemma ApplyUpdateKeepsValid(d: BillDoc, u: BillUpdate, now: int)
    requires ValidBillDoc(d)
    ensures UpdateViolations(u) == {} <==> ValidBillDoc(ApplyUpdate(d, u, now))
  {
  }
}
