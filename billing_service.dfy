/** The in-memory billing service of services/billingService.js: bills are priced from the
    cart, appended to the module-level history, and the history is filtered, summarised,
    updated and pruned in place. */
module BillingService {
  import opened Wrappers
  import opened Bill
  import opened Pricing
  import Seqs
  import Sales

  function IdIs(billId: string): BillRecord -> bool {
    (b: BillRecord) => b.id == billId
  }

  /** The update `updateBill` builds with `||` fallbacks: a supplied value replaces the stored
      one only when it is truthy, so 0 and "" are ignored; an array and a date are always
      truthy. The id is always `billId`, `status` has no place in a bill, and the totals are
      taken as given, never recomputed. */
  function MergeTruthy(b: BillRecord, billId: string, u: BillUpdate): (r: BillRecord)
  {
    BillRecord(
      billId,
      if u.timestamp.Some? then u.timestamp.value else b.timestamp,
      if u.items.Some? then u.items.value else b.items,
      if u.subtotal.Some? && u.subtotal.value != 0.0 then u.subtotal.value else b.subtotal,
      if u.discount.Some? && u.discount.value != 0.0 then u.discount.value else b.discount,
      if u.totalAmount.Some? && u.totalAmount.value != 0.0 then u.totalAmount.value else b.totalAmount,
      if u.paymentMethod.Some? && u.paymentMethod.value != "" then u.paymentMethod.value else b.paymentMethod,
      if u.notes.Some? && u.notes.value != "" then u.notes.value else b.notes)
  }

  /** A supplied 0 or "" leaves the stored value in place: a discount cannot be reset to 0
      and notes cannot be cleared. */
  lemma FalsyValuesAreIgnored(b: BillRecord, u: BillUpdate)
    requires u.discount == Some(0.0) && u.subtotal == Some(0.0) && u.totalAmount == Some(0.0)
    requires u.notes == Some("") && u.paymentMethod == Some("")
    ensures var r := MergeTruthy(b, b.id, u);
      r.discount == b.discount && r.subtotal == b.subtotal && r.totalAmount == b.totalAmount
      && r.notes == b.notes && r.paymentMethod == b.paymentMethod
  {
  }

  /** An update that supplies nothing truthy leaves the bill as it was. */
  lemma EmptyUpdateKeepsBill(b: BillRecord, u: BillUpdate)
    requires u.timestamp.None? && u.items.None?
    requires u.subtotal.None? || u.subtotal == Some(0.0)
    requires u.discount.None? || u.discount == Some(0.0)
    requires u.totalAmount.None? || u.totalAmount == Some(0.0)
    requires u.paymentMethod.None? || u.paymentMethod == Some("")
    requires u.notes.None? || u.notes == Some("")
    ensures MergeTruthy(b, b.id, u) == b
  {
  }

  /** Applying the same update twice is applying it once. */
  lemma MergeIdempotent(b: BillRecord, billId: string, u: BillUpdate)
    ensures MergeTruthy(MergeTruthy(b, billId, u), billId, u) == MergeTruthy(b, billId, u)
  {
  }

  /** New lines do not bring new totals: replacing the items of a bill whose subtotal matched
      them keeps the old subtotal, which no longer matches the new lines. */
  lemma TotalsAreNotRecomputed(b: BillRecord, items: seq<BillItem>, u: BillUpdate)
    requires b.subtotal == Subtotal(b.items) && Subtotal(items) != Subtotal(b.items)
    requires u.items == Some(items) && u.subtotal.None? && u.totalAmount.None?
    ensures MergeTruthy(b, b.id, u).items == items
    ensures MergeTruthy(b, b.id, u).subtotal != Subtotal(items)
  {
  }

  /** The service object; `billHistory` is the module-level array of bill.js. */
  class BillingService {
    var billHistory: seq<BillRecord>

    /** At start-up the history is empty. */
    constructor()
      ensures billHistory == InitialHistory
    {
      billHistory := InitialHistory;
    }

    /** `createBill`: one line per cart entry, priced from the entry's own copy of the menu item
        (no catalog is consulted and an empty cart is accepted), the totals of
        `calculateBillTotal`, and the new bill appended to the history. `billId` and `now`
        stand for `bill_${Date.now()}` and `new Date()`. */
    method CreateBill(cart: seq<CartEntry>, billId: string, now: int, discount: real := 0.0,
                      paymentMethod: string := "cash", notes: string := "")
      returns (bill: BillRecord)
      modifies this
      ensures |bill.items| == |cart|
      ensures forall i :: 0 <= i < |cart| ==>
        && bill.items[i].itemName == cart[i].menuItem.name
        && bill.items[i].icon == cart[i].menuItem.icon
        && bill.items[i].quantityInGrams == cart[i].quantityInGrams
        && bill.items[i].pricePerGram == cart[i].menuItem.price
        && bill.items[i].totalPrice == cart[i].quantityInGrams * cart[i].menuItem.price
      ensures bill.subtotal == Seqs.SumBy(cart, LineValue)
      ensures bill.totalAmount == bill.subtotal - discount
      ensures bill.id == billId && bill.timestamp == now && bill.discount == discount
      ensures bill.paymentMethod == paymentMethod && bill.notes == notes
      ensures billHistory == old(billHistory) + [bill]
      ensures old(GetBillById(billId)).None? ==> GetBillById(billId) == Some(bill)
    {
      var billItems := PriceCart(cart);
      var totals := CalculateBillTotal(billItems, discount);
      SubtotalOfCart(cart);
      bill := BillRecord(billId, now, billItems, totals.subtotal, discount, totals.totalAmount,
                         paymentMethod, notes);
      billHistory := billHistory + [bill];
    }

    /** `getBillById`: the first bill with that id, or null. */
    function GetBillById(billId: string): (r: Option<BillRecord>)
      reads this
      ensures r.None? <==> forall b :: b in billHistory ==> b.id != billId
      ensures r.Some? ==> r.value.id == billId && exists k :: (0 <= k < |billHistory| && billHistory[k] == r.value
                                                             && forall j :: 0 <= j < k ==> billHistory[j].id != billId)
    {
      var k := Seqs.FirstIndex(billHistory, IdIs(billId));
      if k < 0 then None else Some(billHistory[k])
    }

    /** `getBillsByDateRange`: the bills stamped within `[startDate, endDate]`, in history order. */
    function GetBillsByDateRange(startDate: int, endDate: int): (r: seq<BillRecord>)
      reads this
      ensures forall b :: b in r <==> b in billHistory && startDate <= b.timestamp <= endDate
      ensures forall b :: multiset(r)[b] == if startDate <= b.timestamp <= endDate then multiset(billHistory)[b] else 0
    {
      Sales.BillsInRange(billHistory, startDate, endDate)
    }

    /** `getBillsByPaymentMethod`: the bills paid with exactly that method, in history order. */
    function GetBillsByPaymentMethod(paymentMethod: string): (r: seq<BillRecord>)
      reads this
      ensures forall b :: b in r <==> b in billHistory && b.paymentMethod == paymentMethod
      ensures forall b :: multiset(r)[b] == if b.paymentMethod == paymentMethod then multiset(billHistory)[b] else 0
    {
      Sales.BillsByMethod(billHistory, paymentMethod)
    }

    /** `getSalesSummary`: the sums are `reduce`s and the breakdown is filled by a loop. */
    method GetSalesSummary() returns (s: Sales.SalesSummary)
      ensures s == Sales.Summary(billHistory)
      ensures s.totalBills == |billHistory|
      ensures s.totalRevenue == Sales.TotalRevenue(billHistory)
      ensures s.totalDiscount == Sales.TotalDiscount(billHistory)
      ensures s.totalBills == 0 ==> s.averageOrderValue == 0.0
      ensures s.totalBills > 0 ==> s.averageOrderValue == s.totalRevenue / (s.totalBills as real)
      ensures s.paymentMethodBreakdown.Keys == set b | b in billHistory :: b.paymentMethod
      ensures forall pm :: pm in s.paymentMethodBreakdown ==>
        s.paymentMethodBreakdown[pm] == Sales.TotalRevenue(GetBillsByPaymentMethod(pm))
      ensures Sales.SumValues(Seqs.Distinct(Sales.Methods(billHistory)), s.paymentMethodBreakdown) == s.totalRevenue
    {
      var totalBills := |billHistory|;
      var totalRevenue := Sales.TotalRevenue(billHistory);
      var totalDiscount := Sales.TotalDiscount(billHistory);
      var averageOrderValue := if totalBills > 0 then totalRevenue / (totalBills as real) else 0.0;
      var breakdown := Sales.PaymentMethodBreakdown(billHistory);
      Sales.BreakdownSumsToRevenue(billHistory);
      s := Sales.SalesSummary(totalBills, totalRevenue, totalDiscount, averageOrderValue, breakdown);
    }

    /** `getMostSoldItems(limit = 10)`: the accumulator filled by the nested loops, sorted by
        grams sold, largest first, and cut by `slice(0, limit)`. */
    method GetMostSoldItems(limit: int := 10) returns (top: seq<Sales.ItemSales>)
      ensures top == Sales.TopItems(billHistory, limit)
      ensures Seqs.NoDuplicates(Sales.GroupNames(top))
      ensures Seqs.SortedDesc(top, Sales.QuantitySoldOf)
      ensures |top| == Seqs.SliceEnd(|Seqs.Distinct(Sales.ItemNames(Sales.AllItems(billHistory)))|, limit)
      ensures 0 <= limit ==> |top| <= limit
      ensures forall g :: g in top ==> Sales.Summarises(Sales.AllItems(billHistory), g)
    {
      var itemSales := Sales.AccumulateItemSales(billHistory);
      var sorted := Seqs.SortDesc(itemSales, Sales.QuantitySoldOf);
      top := sorted[..Seqs.SliceEnd(|sorted|, limit)];
      forall g | g in top ensures Sales.Summarises(Sales.AllItems(billHistory), g) {
        Sales.TopItemsSummarise(billHistory, limit, g);
      }
    }

    /** `updateBill`: null and no change for an unknown id; otherwise the first bill with that id
        is replaced, in its place, by its truthy merge with the update. */
    method UpdateBill(billId: string, updates: BillUpdate) returns (r: Option<BillRecord>)
      modifies this
      ensures (forall b :: b in old(billHistory) ==> b.id != billId) ==> r.None? && billHistory == old(billHistory)
      ensures old(GetBillById(billId)).Some? ==>
        var k := Seqs.FirstIndex(old(billHistory), IdIs(billId));
        && 0 <= k
        && r == Some(MergeTruthy(old(billHistory)[k], billId, updates))
        && billHistory == old(billHistory)[k := r.value]
        && r.value.id == billId
    {
      var billIndex := Seqs.FirstIndex(billHistory, IdIs(billId));
      if billIndex == -1 {
        return None;
      }
      var bill := billHistory[billIndex];
      var updatedBill := MergeTruthy(bill, billId, updates);
      billHistory := billHistory[billIndex := updatedBill];
      r := Some(updatedBill);
    }

    /** `deleteBill`: false and no change for an unknown id; otherwise the first bill with that id
        is spliced out and the others keep their order. */
    method DeleteBill(billId: string) returns (deleted: bool)
      modifies this
      ensures deleted <==> exists b :: b in old(billHistory) && b.id == billId
      ensures !deleted ==> billHistory == old(billHistory)
      ensures deleted ==>
        var k := Seqs.FirstIndex(old(billHistory), IdIs(billId));
        && 0 <= k
        && old(billHistory)[k].id == billId
        && billHistory == old(billHistory)[..k] + old(billHistory)[k + 1..]
        && |billHistory| == |old(billHistory)| - 1
    {
      var index := Seqs.FirstIndex(billHistory, IdIs(billId));
      if index == -1 {
        return false;
      }
      billHistory := Seqs.RemoveAt(billHistory, index);
      return true;
    }
  }
}
