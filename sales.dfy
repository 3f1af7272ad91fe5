/** The sales aggregations both billing services compute over a collection of bills: the
    date-range and payment-method filters, the sales summary with its per-method breakdown,
    and the most-sold items (services/billingService.js:68-131). The persistent service's
    database aggregations are related to these in MongoBillingService. */
module Sales {
  import opened Wrappers
  import opened Bill
  import Seqs

  // ---------------------------------------------------------------------------
  // Filters

  function InRange(start: int, end: int): BillRecord -> bool {
    (b: BillRecord) => start <= b.timestamp <= end
  }

  /** The bills whose timestamp lies in `[start, end]`, both bounds included, in their order. */
  function BillsInRange(bills: seq<BillRecord>, start: int, end: int): (r: seq<BillRecord>)
    ensures forall b :: b in r <==> b in bills && start <= b.timestamp <= end
    ensures forall b :: multiset(r)[b] == if start <= b.timestamp <= end then multiset(bills)[b] else 0
  {
    Seqs.Filter(bills, InRange(start, end))
  }

  function MethodIs(paymentMethod: string): BillRecord -> bool {
    (b: BillRecord) => b.paymentMethod == paymentMethod
  }

  /** The bills paid with exactly `paymentMethod`, in their order. */
  function BillsByMethod(bills: seq<BillRecord>, paymentMethod: string): (r: seq<BillRecord>)
    ensures forall b :: b in r <==> b in bills && b.paymentMethod == paymentMethod
    ensures forall b :: multiset(r)[b] == if b.paymentMethod == paymentMethod then multiset(bills)[b] else 0
  {
    Seqs.Filter(bills, MethodIs(paymentMethod))
  }

  /** Adding a bill at the end adds it at the end of the method's bills when its method matches. */
  lemma BillsByMethodSnoc(bills: seq<BillRecord>, b: BillRecord, paymentMethod: string)
    ensures BillsByMethod(bills + [b], paymentMethod)
         == BillsByMethod(bills, paymentMethod) + (if b.paymentMethod == paymentMethod then [b] else [])
  {
    Seqs.FilterAppend(bills, [b], MethodIs(paymentMethod));
    assert Seqs.Filter([b], MethodIs(paymentMethod)) == (if b.paymentMethod == paymentMethod then [b] else []) by {
      assert [b][1..] == [];
    }
  }

  // ---------------------------------------------------------------------------
  // Sums

  function TotalAmountOf(b: BillRecord): real { b.totalAmount }
  function DiscountOf(b: BillRecord): real { b.discount }

  /** The sum of the bills' amounts due. */
  function TotalRevenue(bills: seq<BillRecord>): real { Seqs.SumBy(bills, TotalAmountOf) }

  /** The sum of the bills' discounts. */
  function TotalDiscount(bills: seq<BillRecord>): real { Seqs.SumBy(bills, DiscountOf) }

  lemma TotalRevenueSnoc(bills: seq<BillRecord>, b: BillRecord)
    ensures TotalRevenue(bills + [b]) == TotalRevenue(bills) + b.totalAmount
  {
    assert (bills + [b])[..|bills|] == bills;
  }

  /** The revenue of one method's bills grows by a bill's amount exactly when it has that method. */
  lemma MethodRevenueSnoc(bills: seq<BillRecord>, b: BillRecord, pm: string)
    ensures TotalRevenue(BillsByMethod(bills + [b], pm))
         == TotalRevenue(BillsByMethod(bills, pm)) + (if b.paymentMethod == pm then b.totalAmount else 0.0)
  {
    BillsByMethodSnoc(bills, b, pm);
    var q := BillsByMethod(bills, pm);
    if b.paymentMethod == pm {
      TotalRevenueSnoc(q, b);
    } else {
      assert q + [] == q;
    }
  }

  /** The payment methods of the bills, in bill order, with repetitions. */
  function Methods(bills: seq<BillRecord>): (ms: seq<string>)
    ensures |ms| == |bills|
    ensures forall i :: 0 <= i < |bills| ==> ms[i] == bills[i].paymentMethod
  {
    seq(|bills|, i requires 0 <= i < |bills| => bills[i].paymentMethod)
  }

  lemma MethodsSnoc(bills: seq<BillRecord>, b: BillRecord)
    ensures Methods(bills + [b]) == Methods(bills) + [b.paymentMethod]
  {
    var l, r := Methods(bills + [b]), Methods(bills) + [b.paymentMethod];
    forall i | 0 <= i < |l| ensures l[i] == r[i] {
      if i < |bills| {
        assert (bills + [b])[i] == bills[i];
      }
    }
  }

  /** The per-method totals the `forEach` over the history accumulates: a method's entry is
      created at 0 on its first bill and grows by each bill's amount due. */
  function Breakdown(bills: seq<BillRecord>): map<string, real>
  {
    if bills == [] then map[]
    else
      var m := Breakdown(bills[..|bills| - 1]);
      var b := bills[|bills| - 1];
      m[b.paymentMethod := (if b.paymentMethod in m then m[b.paymentMethod] else 0.0) + b.totalAmount]
  }

  lemma BreakdownSnoc(bills: seq<BillRecord>, b: BillRecord)
    ensures Breakdown(bills + [b])
         == Breakdown(bills)[b.paymentMethod :=
              (if b.paymentMethod in Breakdown(bills) then Breakdown(bills)[b.paymentMethod] else 0.0) + b.totalAmount]
  {
    assert (bills + [b])[..|bills|] == bills;
  }

  /** One more bill of a method already present adds its amount to that method's entry; the
      other entries stay. */
  lemma BreakdownSnocKnown(bills: seq<BillRecord>, b: BillRecord)
    requires b.paymentMethod in Breakdown(bills)
    ensures b.paymentMethod in Breakdown(bills + [b])
    ensures Breakdown(bills + [b])[b.paymentMethod] == Breakdown(bills)[b.paymentMethod] + b.totalAmount
    ensures forall k :: k != b.paymentMethod ==>
      (k in Breakdown(bills + [b]) <==> k in Breakdown(bills))
      && (k in Breakdown(bills) ==> Breakdown(bills + [b])[k] == Breakdown(bills)[k])
  {
    BreakdownSnoc(bills, b);
  }

  /** One more bill of a new method adds an entry holding its amount; the other entries stay. */
  lemma BreakdownSnocNew(bills: seq<BillRecord>, b: BillRecord)
    requires b.paymentMethod !in Breakdown(bills)
    ensures b.paymentMethod in Breakdown(bills + [b])
    ensures Breakdown(bills + [b])[b.paymentMethod] == b.totalAmount
    ensures forall k :: k != b.paymentMethod ==>
      (k in Breakdown(bills + [b]) <==> k in Breakdown(bills))
      && (k in Breakdown(bills) ==> Breakdown(bills + [b])[k] == Breakdown(bills)[k])
  {
    BreakdownSnoc(bills, b);
  }

  /** The accumulation loop of `getSalesSummary`, including its reset of a falsy (zero) entry. */
  method PaymentMethodBreakdown(bills: seq<BillRecord>) returns (m: map<string, real>)
    ensures m == Breakdown(bills)
    ensures m.Keys == set b | b in bills :: b.paymentMethod
    ensures forall pm :: pm in m ==> m[pm] == TotalRevenue(BillsByMethod(bills, pm))
  {
    m := map[];
    var i := 0;
    while i < |bills|
      invariant 0 <= i <= |bills|
      invariant m == Breakdown(bills[..i])
    {
      var b := bills[i];
      BreakdownPrefixStep(bills, i);
      if b.paymentMethod !in m || m[b.paymentMethod] == 0.0 {
        m := m[b.paymentMethod := 0.0];
      }
      m := m[b.paymentMethod := m[b.paymentMethod] + b.totalAmount];
      i := i + 1;
    }
    assert bills[..i] == bills;
    BreakdownEntries(bills);
  }

  /** The loop's step: the breakdown of one more bill of the history. */
  lemma BreakdownPrefixStep(bills: seq<BillRecord>, i: nat)
    requires i < |bills|
    ensures var m, b := Breakdown(bills[..i]), bills[i];
      Breakdown(bills[..i + 1])
      == m[b.paymentMethod := (if b.paymentMethod in m then m[b.paymentMethod] else 0.0) + b.totalAmount]
  {
    assert bills[..i + 1] == bills[..i] + [bills[i]];
    BreakdownSnoc(bills[..i], bills[i]);
  }

  /** The breakdown's keys are the methods present, and each entry is that method's revenue. */
  lemma BreakdownEntries(bills: seq<BillRecord>)
    ensures Breakdown(bills).Keys == set b | b in bills :: b.paymentMethod
    ensures forall pm :: pm in Breakdown(bills) ==> Breakdown(bills)[pm] == TotalRevenue(BillsByMethod(bills, pm))
  {
    BreakdownKeys(bills);
    forall pm | pm in Breakdown(bills) ensures Breakdown(bills)[pm] == TotalRevenue(BillsByMethod(bills, pm)) {
      BreakdownValues(bills, pm);
    }
  }

  /** The breakdown has an entry for exactly the methods that occur in the bills. */
  lemma {:induction false} BreakdownKeys(bills: seq<BillRecord>)
    ensures Breakdown(bills).Keys == set b | b in bills :: b.paymentMethod
  {
    if bills != [] {
      var p := bills[..|bills| - 1];
      assert bills == p + [bills[|bills| - 1]];
      BreakdownKeys(p);
    }
  }

  /** A method no bill uses selects no bill. */
  lemma NoBillsOfUnusedMethod(bills: seq<BillRecord>, pm: string)
    requires pm !in Breakdown(bills)
    ensures BillsByMethod(bills, pm) == []
  {
    BreakdownKeys(bills);
    var r := BillsByMethod(bills, pm);
    assert forall x :: x in r ==> x.paymentMethod in Breakdown(bills);
    assert |r| == 0;
  }

  /** Each entry of the breakdown is the revenue of the bills paid with that method. */
  lemma {:induction false} BreakdownValues(bills: seq<BillRecord>, pm: string)
    requires pm in Breakdown(bills)
    ensures Breakdown(bills)[pm] == TotalRevenue(BillsByMethod(bills, pm))
  {
    var p, b := bills[..|bills| - 1], bills[|bills| - 1];
    assert bills == p + [b];
    MethodRevenueSnoc(p, b, pm);
    BreakdownSnoc(p, b);
    if pm in Breakdown(p) {
      BreakdownValues(p, pm);
    } else {
      NoBillsOfUnusedMethod(p, pm);
    }
  }

  /** The sum of `m`'s values at `keys`, added from the left; a key without an entry adds 0. */
  function SumValues(keys: seq<string>, m: map<string, real>): real
  {
    if keys == [] then 0.0
    else
      var k := keys[|keys| - 1];
      SumValues(keys[..|keys| - 1], m) + (if k in m then m[k] else 0.0)
  }

  /** The sum only looks at the entries stored under `keys`. */
  lemma {:induction false} SumValuesFrame(keys: seq<string>, m1: map<string, real>, m2: map<string, real>)
    requires forall k :: k in keys ==> (k in m1 <==> k in m2) && (k in m1 ==> m1[k] == m2[k])
    ensures SumValues(keys, m1) == SumValues(keys, m2)
  {
    if keys != [] {
      SumValuesFrame(keys[..|keys| - 1], m1, m2);
    }
  }

  /** Raising one entry under distinct keys, all other entries kept, raises the sum by the
      same amount. */
  lemma {:induction false} SumValuesBump(keys: seq<string>, m: map<string, real>, m': map<string, real>,
                                          key: string, t: real)
    requires Seqs.NoDuplicates(keys)
    requires key in keys && key in m && key in m' && m'[key] == m[key] + t
    requires forall k :: k in keys && k != key ==> (k in m' <==> k in m) && (k in m ==> m'[k] == m[k])
    ensures SumValues(keys, m') == SumValues(keys, m) + t
  {
    var p, last := keys[..|keys| - 1], keys[|keys| - 1];
    assert keys == p + [last];
    if last == key {
      assert key !in p;
      SumValuesFrame(p, m, m');
    } else {
      SumValuesBump(p, m, m', key, t);
    }
  }

  /** An entry stored under a key not yet listed, all other entries kept, adds itself to the
      sum. */
  lemma SumValuesExtend(keys: seq<string>, m: map<string, real>, m': map<string, real>, key: string, t: real)
    requires key !in keys && key in m' && m'[key] == t
    requires forall k :: k in keys ==> (k in m' <==> k in m) && (k in m ==> m'[k] == m[k])
    ensures SumValues(keys + [key], m') == SumValues(keys, m) + t
  {
    assert (keys + [key])[..|keys|] == keys;
    SumValuesFrame(keys, m, m');
  }

  /** Every method that occurs in the bills has an entry in the breakdown, and conversely. */
  lemma MethodsHaveEntries(bills: seq<BillRecord>)
    ensures forall k :: k in Methods(bills) <==> k in Breakdown(bills)
  {
    BreakdownKeys(bills);
    forall k | k in Methods(bills) ensures k in Breakdown(bills) {
      var i :| 0 <= i < |Methods(bills)| && Methods(bills)[i] == k;
      assert bills[i] in bills;
    }
    forall k | k in Breakdown(bills) ensures k in Methods(bills) {
      var b :| b in bills && b.paymentMethod == k;
      var i :| 0 <= i < |bills| && bills[i] == b;
      assert Methods(bills)[i] == k;
    }
  }

  /** The distinct methods of one more bill: its method is added at the end when it is new. */
  lemma DistinctMethodsSnoc(p: seq<BillRecord>, b: BillRecord)
    ensures Seqs.Distinct(Methods(p + [b]))
         == if b.paymentMethod in Seqs.Distinct(Methods(p)) then Seqs.Distinct(Methods(p))
            else Seqs.Distinct(Methods(p)) + [b.paymentMethod]
  {
    MethodsSnoc(p, b);
    Seqs.DistinctSnoc(Methods(p), b.paymentMethod);
  }

  /** A bill paid with a method already present raises that method's entry, and the sum, by
      its amount. */
  lemma BreakdownSumStepKnown(p: seq<BillRecord>, b: BillRecord)
    requires b.paymentMethod in Methods(p)
    requires SumValues(Seqs.Distinct(Methods(p)), Breakdown(p)) == TotalRevenue(p)
    ensures SumValues(Seqs.Distinct(Methods(p + [b])), Breakdown(p + [b])) == TotalRevenue(p + [b])
  {
    MethodsHaveEntries(p);
    DistinctMethodsSnoc(p, b);
    BreakdownSnocKnown(p, b);
    TotalRevenueSnoc(p, b);
    SumValuesBump(Seqs.Distinct(Methods(p)), Breakdown(p), Breakdown(p + [b]), b.paymentMethod, b.totalAmount);
  }

  /** A bill paid with a new method adds an entry holding its amount, and the sum grows by it. */
  lemma BreakdownSumStepNew(p: seq<BillRecord>, b: BillRecord)
    requires b.paymentMethod !in Methods(p)
    requires SumValues(Seqs.Distinct(Methods(p)), Breakdown(p)) == TotalRevenue(p)
    ensures SumValues(Seqs.Distinct(Methods(p + [b])), Breakdown(p + [b])) == TotalRevenue(p + [b])
  {
    MethodsHaveEntries(p);
    DistinctMethodsSnoc(p, b);
    BreakdownSnocNew(p, b);
    TotalRevenueSnoc(p, b);
    SumValuesExtend(Seqs.Distinct(Methods(p)), Breakdown(p), Breakdown(p + [b]), b.paymentMethod, b.totalAmount);
  }

  /** The breakdown's entries, taken once per method present, add up to the total revenue. */
  lemma {:induction false} BreakdownSumsToRevenue(bills: seq<BillRecord>)
    ensures forall k :: k in Seqs.Distinct(Methods(bills)) ==> k in Breakdown(bills)
    ensures SumValues(Seqs.Distinct(Methods(bills)), Breakdown(bills)) == TotalRevenue(bills)
  {
    MethodsHaveEntries(bills);
    if bills != [] {
      var p, b := bills[..|bills| - 1], bills[|bills| - 1];
      assert bills == p + [b];
      BreakdownSumsToRevenue(p);
      if b.paymentMethod in Methods(p) {
        BreakdownSumStepKnown(p, b);
      } else {
        BreakdownSumStepNew(p, b);
      }
    }
  }

  /** What `getSalesSummary` returns. */
  datatype SalesSummary = SalesSummary(
    totalBills: nat,
    totalRevenue: real,
    totalDiscount: real,
    averageOrderValue: real,
    paymentMethodBreakdown: map<string, real>)

  /** The sales summary of a collection of bills: count, revenue, discount, the mean amount due
      (0 for no bills) and the per-method breakdown. */
  function Summary(bills: seq<BillRecord>): (s: SalesSummary)
    ensures s.totalBills == |bills|
    ensures s.totalBills > 0 ==> s.averageOrderValue * (s.totalBills as real) == s.totalRevenue
  {
    var n := |bills|;
    var revenue := TotalRevenue(bills);
    SalesSummary(n, revenue, TotalDiscount(bills), if n > 0 then revenue / (n as real) else 0.0,
                 Breakdown(bills))
  }

  /** With no bills every figure is zero and the breakdown is empty. */
  lemma EmptySummary()
    ensures Summary([]) == SalesSummary(0, 0.0, 0.0, 0.0, map[])
  {
  }

  // ---------------------------------------------------------------------------
  // Most-sold items

  /** One entry of the most-sold list. */
  datatype ItemSales = ItemSales(name: string, icon: string, quantitySold: real, revenue: real)

  function QuantitySoldOf(g: ItemSales): real { g.quantitySold }

  /** Every line of every bill, bill by bill, in order. */
  function AllItems(bills: seq<BillRecord>): seq<BillItem>
  {
    if bills == [] then [] else AllItems(bills[..|bills| - 1]) + bills[|bills| - 1].items
  }

  /** The item names of the lines, in order. */
  function ItemNames(items: seq<BillItem>): (ns: seq<string>)
    ensures |ns| == |items|
    ensures forall i :: 0 <= i < |items| ==> ns[i] == items[i].itemName
  {
    seq(|items|, i requires 0 <= i < |items| => items[i].itemName)
  }

  lemma ItemNamesSnoc(items: seq<BillItem>, x: BillItem)
    ensures ItemNames(items + [x]) == ItemNames(items) + [x.itemName]
  {
    var l, r := ItemNames(items + [x]), ItemNames(items) + [x.itemName];
    forall i | 0 <= i < |l| ensures l[i] == r[i] {
      if i < |items| {
        assert (items + [x])[i] == items[i];
      }
    }
  }

  /** The names of the entries, in order. */
  function GroupNames(groups: seq<ItemSales>): (ns: seq<string>)
    ensures |ns| == |groups|
    ensures forall i :: 0 <= i < |groups| ==> ns[i] == groups[i].name
  {
    seq(|groups|, i requires 0 <= i < |groups| => groups[i].name)
  }

  /** The grams sold of the lines named `name`. */
  function QuantityOf(items: seq<BillItem>, name: string): real
  {
    if items == [] then 0.0
    else
      var last := items[|items| - 1];
      QuantityOf(items[..|items| - 1], name) + (if last.itemName == name then last.quantityInGrams else 0.0)
  }

  /** The revenue of the lines named `name`. */
  function RevenueOf(items: seq<BillItem>, name: string): real
  {
    if items == [] then 0.0
    else
      var last := items[|items| - 1];
      RevenueOf(items[..|items| - 1], name) + (if last.itemName == name then last.totalPrice else 0.0)
  }

  /** The icon of the first line named `name`. */
  function FirstIcon(items: seq<BillItem>, name: string): string
    requires name in ItemNames(items)
  {
    items[Seqs.IndexOf(ItemNames(items), name)].icon
  }

  /** Adds one line to the accumulator: a new entry, with the line's icon, for a name not seen
      before; otherwise the line's grams and total are added to the existing entry. */
  function AddSale(groups: seq<ItemSales>, item: BillItem): seq<ItemSales>
  {
    var names := GroupNames(groups);
    if item.itemName in names then
      var k := Seqs.IndexOf(names, item.itemName);
      groups[k := ItemSales(groups[k].name, groups[k].icon,
                            groups[k].quantitySold + item.quantityInGrams,
                            groups[k].revenue + item.totalPrice)]
    else
      groups + [ItemSales(item.itemName, item.icon, item.quantityInGrams, item.totalPrice)]
  }

  /** `Object.values(itemSales)` after every line has been added, in first-insertion order. */
  function GroupSales(items: seq<BillItem>): seq<ItemSales>
  {
    if items == [] then [] else AddSale(GroupSales(items[..|items| - 1]), items[|items| - 1])
  }

  lemma GroupSalesSnoc(items: seq<BillItem>, item: BillItem)
    ensures GroupSales(items + [item]) == AddSale(GroupSales(items), item)
  {
    assert (items + [item])[..|items|] == items;
  }

  lemma GroupSalesStep(pre: seq<BillItem>, items: seq<BillItem>, j: nat)
    requires j < |items|
    ensures GroupSales(pre + items[..j + 1]) == AddSale(GroupSales(pre + items[..j]), items[j])
  {
    assert pre + items[..j + 1] == (pre + items[..j]) + [items[j]];
    GroupSalesSnoc(pre + items[..j], items[j]);
  }

  lemma AllItemsSnoc(bills: seq<BillRecord>, b: BillRecord)
    ensures AllItems(bills + [b]) == AllItems(bills) + b.items
  {
    assert (bills + [b])[..|bills|] == bills;
  }

  /** The nested `forEach` of `getMostSoldItems` that fills the `itemSales` accumulator. */
  method AccumulateItemSales(bills: seq<BillRecord>) returns (groups: seq<ItemSales>)
    ensures groups == GroupSales(AllItems(bills))
    ensures GroupNames(groups) == Seqs.Distinct(ItemNames(AllItems(bills)))
  {
    groups := [];
    var i := 0;
    while i < |bills|
      invariant 0 <= i <= |bills|
      invariant groups == GroupSales(AllItems(bills[..i]))
    {
      var items := bills[i].items;
      var j := 0;
      ghost var pre := AllItems(bills[..i]);
      assert pre + items[..0] == pre;
      while j < |items|
        invariant 0 <= j <= |items|
        invariant groups == GroupSales(pre + items[..j])
      {
        var item := items[j];
        ghost var before := groups;
        var names := GroupNames(groups);
        if item.itemName in names {
          var k := Seqs.IndexOf(names, item.itemName);
          groups := groups[k := ItemSales(groups[k].name, groups[k].icon,
                                          groups[k].quantitySold + item.quantityInGrams,
                                          groups[k].revenue + item.totalPrice)];
        } else {
          groups := groups + [ItemSales(item.itemName, item.icon, item.quantityInGrams, item.totalPrice)];
        }
        assert groups == AddSale(before, item);
        GroupSalesStep(pre, items, j);
        j := j + 1;
      }
      assert items[..j] == items;
      assert bills[..i + 1] == bills[..i] + [bills[i]];
      AllItemsSnoc(bills[..i], bills[i]);
      assert groups == GroupSales(AllItems(bills[..i + 1]));
      i := i + 1;
    }
    assert bills[..i] == bills;
    GroupNamesOfGroupSales(AllItems(bills));
  }

  /** Lines of a name that does not occur add nothing. */
  lemma {:induction false} AbsentNameSumsToZero(items: seq<BillItem>, name: string)
    requires name !in ItemNames(items)
    ensures QuantityOf(items, name) == 0.0 && RevenueOf(items, name) == 0.0
  {
    if items != [] {
      var p := items[..|items| - 1];
      assert ItemNames(p) == ItemNames(items)[..|p|];
      AbsentNameSumsToZero(p, name);
    }
  }

  /** Adding a line keeps the entries' names, or appends the line's name when it is new. */
  lemma AddSaleNames(groups: seq<ItemSales>, item: BillItem)
    ensures GroupNames(AddSale(groups, item))
         == if item.itemName in GroupNames(groups) then GroupNames(groups) else GroupNames(groups) + [item.itemName]
  {
    var names := GroupNames(groups);
    var r := AddSale(groups, item);
    if item.itemName in names {
      var k := Seqs.IndexOf(names, item.itemName);
      forall i | 0 <= i < |r| ensures GroupNames(r)[i] == names[i] {
        if i == k {
          assert r[i].name == groups[k].name;
        } else {
          assert r[i] == groups[i];
        }
      }
    } else {
      forall i | 0 <= i < |r| ensures GroupNames(r)[i] == (names + [item.itemName])[i] {
        if i < |groups| {
          assert r[i] == groups[i];
        }
      }
    }
  }

  /** The accumulator holds one entry per distinct item name, in first-occurrence order. */
  lemma {:induction false} GroupNamesOfGroupSales(items: seq<BillItem>)
    ensures GroupNames(GroupSales(items)) == Seqs.Distinct(ItemNames(items))
  {
    if items != [] {
      var p, x := items[..|items| - 1], items[|items| - 1];
      assert items == p + [x];
      GroupNamesOfGroupSales(p);
      GroupSalesSnoc(p, x);
      AddSaleNames(GroupSales(p), x);
      ItemNamesSnoc(p, x);
      Seqs.DistinctSnoc(ItemNames(p), x.itemName);
    }
  }

  /** What an entry of the accumulator holds for the lines `items`. */
  predicate Summarises(items: seq<BillItem>, g: ItemSales)
  {
    && g.name in ItemNames(items)
    && g.quantitySold == QuantityOf(items, g.name)
    && g.revenue == RevenueOf(items, g.name)
    && g.icon == FirstIcon(items, g.name)
  }

  /** A line of another name leaves an entry's sums and icon as they were. */
  lemma SummarisesSnocOther(items: seq<BillItem>, x: BillItem, g: ItemSales)
    requires Summarises(items, g) && g.name != x.itemName
    ensures Summarises(items + [x], g)
  {
    assert (items + [x])[..|items|] == items;
    assert ItemNames(items + [x]) == ItemNames(items) + [x.itemName];
    Seqs.IndexOfSnoc(ItemNames(items), x.itemName, g.name);
  }

  /** A line of the entry's own name adds its grams and total; the first line's icon stays. */
  lemma SummarisesSnocSame(items: seq<BillItem>, x: BillItem, g: ItemSales)
    requires Summarises(items, g) && g.name == x.itemName
    ensures Summarises(items + [x], ItemSales(g.name, g.icon, g.quantitySold + x.quantityInGrams,
                                              g.revenue + x.totalPrice))
  {
    assert (items + [x])[..|items|] == items;
    assert ItemNames(items + [x]) == ItemNames(items) + [x.itemName];
    Seqs.IndexOfSnoc(ItemNames(items), x.itemName, g.name);
  }

  /** The first line of a name opens an entry with its grams, total and icon. */
  lemma SummarisesSnocNew(items: seq<BillItem>, x: BillItem)
    requires x.itemName !in ItemNames(items)
    ensures Summarises(items + [x], ItemSales(x.itemName, x.icon, x.quantityInGrams, x.totalPrice))
  {
    assert (items + [x])[..|items|] == items;
    assert ItemNames(items + [x]) == ItemNames(items) + [x.itemName];
    AbsentNameSumsToZero(items, x.itemName);
    Seqs.IndexOfSnocNew(ItemNames(items), x.itemName);
  }

  /** Each entry's grams and revenue are the sums over the lines of its name, and its icon is
      the icon of the first such line. */
  lemma {:induction false} GroupSalesEntries(items: seq<BillItem>)
    ensures forall g :: g in GroupSales(items) ==> Summarises(items, g)
  {
    if items != [] {
      var p, x := items[..|items| - 1], items[|items| - 1];
      assert items == p + [x];
      GroupSalesEntries(p);
      GroupNamesOfGroupSales(p);
      var g := GroupSales(p);
      var names := GroupNames(g);
      var g' := AddSale(g, x);
      assert GroupSales(items) == g';
      forall e | e in g' ensures Summarises(items, e) {
        var k :| 0 <= k < |g'| && g'[k] == e;
        if x.itemName in names {
          var i := Seqs.IndexOf(names, x.itemName);
          if k == i {
            SummarisesSnocSame(p, x, g[i]);
          } else {
            assert names[k] != names[i];
            SummarisesSnocOther(p, x, g[k]);
          }
        } else if k < |g| {
          assert names[k] != x.itemName;
          SummarisesSnocOther(p, x, g[k]);
        } else {
          SummarisesSnocNew(p, x);
        }
      }
    }
  }

  /** `getMostSoldItems(limit)`: the entries sorted by grams sold, largest first, cut by
      `slice(0, limit)`. */
  function TopItems(bills: seq<BillRecord>, limit: int): (r: seq<ItemSales>)
    ensures Seqs.SortedDesc(r, QuantitySoldOf)
    ensures |r| == Seqs.SliceEnd(|Seqs.Distinct(ItemNames(AllItems(bills)))|, limit)
    ensures forall g :: g in r ==> g in GroupSales(AllItems(bills))
    ensures Seqs.NoDuplicates(GroupNames(r))
  {
    var groups := GroupSales(AllItems(bills));
    GroupNamesOfGroupSales(AllItems(bills));
    assert |groups| == |GroupNames(groups)|;
    var e := Seqs.SliceEnd(|groups|, limit);
    Seqs.SortDescPrefix(groups, QuantitySoldOf, e);
    SortedPrefixNamesDistinct(groups, e);
    Seqs.SortDesc(groups, QuantitySoldOf)[..e]
  }

  /** Entries with distinct names are distinct entries. */
  lemma NamesDistinctEntriesDistinct(groups: seq<ItemSales>)
    requires Seqs.NoDuplicates(GroupNames(groups))
    ensures Seqs.NoDuplicates(groups)
  {
    forall i, j | 0 <= i < j < |groups| ensures groups[i] != groups[j] {
      assert GroupNames(groups)[i] != GroupNames(groups)[j];
    }
  }

  /** Reordering entries with distinct names keeps the names distinct. */
  lemma NamesDistinctPermutation(s: seq<ItemSales>, r: seq<ItemSales>)
    requires multiset(r) == multiset(s) && Seqs.NoDuplicates(GroupNames(s))
    ensures Seqs.NoDuplicates(GroupNames(r))
  {
    NamesDistinctEntriesDistinct(s);
    Seqs.PermutationNoDuplicates(s, r);
    forall i, j | 0 <= i < j < |r| ensures GroupNames(r)[i] != GroupNames(r)[j] {
      assert r[i] in multiset(s) && r[j] in multiset(s);
      var a :| 0 <= a < |s| && s[a] == r[i];
      var b :| 0 <= b < |s| && s[b] == r[j];
      assert a != b;
      assert GroupNames(s)[a] != GroupNames(s)[b];
    }
  }

  /** Any prefix of the sorted entries keeps their names distinct. */
  lemma SortedPrefixNamesDistinct(groups: seq<ItemSales>, e: nat)
    requires Seqs.NoDuplicates(GroupNames(groups)) && e <= |groups|
    ensures Seqs.NoDuplicates(GroupNames(Seqs.SortDesc(groups, QuantitySoldOf)[..e]))
  {
    var r := Seqs.SortDesc(groups, QuantitySoldOf);
    NamesDistinctPermutation(groups, r);
    NamesDistinctPrefix(r, e);
  }

  /** A prefix of entries with distinct names has distinct names. */
  lemma NamesDistinctPrefix(r: seq<ItemSales>, e: nat)
    requires Seqs.NoDuplicates(GroupNames(r)) && e <= |r|
    ensures Seqs.NoDuplicates(GroupNames(r[..e]))
  {
    forall i, j | 0 <= i < j < e ensures GroupNames(r[..e])[i] != GroupNames(r[..e])[j] {
      assert GroupNames(r)[i] != GroupNames(r)[j];
    }
  }

  /** Each entry of the list sums the lines of its own name and carries the icon of the first
      such line. */
  lemma TopItemsSummarise(bills: seq<BillRecord>, limit: int, g: ItemSales)
    requires g in TopItems(bills, limit)
    ensures Summarises(AllItems(bills), g)
  {
    GroupSalesEntries(AllItems(bills));
  }

  /** An entry left out of the list sold no more than any entry kept. */
  lemma TopItemsKeepsTheLargest(bills: seq<BillRecord>, limit: int, g: ItemSales, h: ItemSales)
    requires g in TopItems(bills, limit)
    requires h in GroupSales(AllItems(bills)) && h !in TopItems(bills, limit)
    ensures h.quantitySold <= g.quantitySold
  {
    var groups := GroupSales(AllItems(bills));
    GroupNamesOfGroupSales(AllItems(bills));
    assert |groups| == |GroupNames(groups)|;
    var e := Seqs.SliceEnd(|groups|, limit);
    assert TopItems(bills, limit) == Seqs.SortDesc(groups, QuantitySoldOf)[..e];
    Seqs.SortDescLeftOut(groups, QuantitySoldOf, e, g, h);
  }
}
