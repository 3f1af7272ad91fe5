/** Turning a cart into priced bill lines and totals: `calculateBillTotal` and the per-entry
    pricing that both billing services perform (services/billingService.js and
    services/mongoBillingService.js). */
module Pricing {
  import opened Bill
  import Menu
  import Seqs

  /** A cart entry as the client sends it: its own copy of a menu item and a quantity. */
  datatype CartEntry = CartEntry(menuItem: Menu.MenuItem, quantityInGrams: real)

  function TotalPriceOf(item: BillItem): real { item.totalPrice }

  /** The sum of the lines' total prices, added from the left. */
  function Subtotal(items: seq<BillItem>): real {
    Seqs.SumBy(items, TotalPriceOf)
  }

  /** The subtotal of a concatenation is the sum of the subtotals. */
  lemma SubtotalAppend(a: seq<BillItem>, b: seq<BillItem>)
    ensures Subtotal(a + b) == Subtotal(a) + Subtotal(b)
  {
    Seqs.SumByAppend(a, b, TotalPriceOf);
  }

  /** The pair `calculateBillTotal` returns. */
  datatype Totals = Totals(subtotal: real, totalAmount: real)

  /** `calculateBillTotal`: the subtotal is the sum of the lines' totals and the amount due is
      the subtotal less the discount, with no floor at zero. */
  function CalculateBillTotal(items: seq<BillItem>, discount: real := 0.0): (t: Totals)
    ensures t.subtotal == Subtotal(items)
    ensures t.totalAmount + discount == t.subtotal
  {
    var subtotal := Subtotal(items);
    Totals(subtotal, subtotal - discount)
  }

  /** A discount larger than the subtotal yields a negative amount due; nothing clamps it. */
  lemma DiscountIsNotClamped(items: seq<BillItem>, discount: real)
    requires discount > Subtotal(items)
    ensures CalculateBillTotal(items, discount).totalAmount < 0.0
  {
  }

  /** Prices one cart entry from the entry's own copy of the menu item: name, icon and price per
      gram come from that copy and the line total is quantity times price. */
  function PriceEntry(e: CartEntry): (item: BillItem)
    ensures item.itemName == e.menuItem.name && item.icon == e.menuItem.icon
    ensures item.quantityInGrams == e.quantityInGrams && item.pricePerGram == e.menuItem.price
    ensures item.totalPrice == item.quantityInGrams * item.pricePerGram
  {
    BillItem(e.menuItem.name, e.menuItem.icon, e.quantityInGrams, e.menuItem.price,
             e.quantityInGrams * e.menuItem.price)
  }

  /** `cartItems.map(...)`: one line per cart entry, in cart order. */
  function PriceCart(cart: seq<CartEntry>): (items: seq<BillItem>)
    ensures |items| == |cart|
    ensures forall i :: 0 <= i < |cart| ==> items[i] == PriceEntry(cart[i])
  {
    seq(|cart|, i requires 0 <= i < |cart| => PriceEntry(cart[i]))
  }

  /** Pricing a cart extended by one entry extends the lines by that entry's line. */
  lemma PriceCartSnoc(cart: seq<CartEntry>, e: CartEntry)
    ensures PriceCart(cart + [e]) == PriceCart(cart) + [PriceEntry(e)]
  {
  }

  function LineValue(e: CartEntry): real { e.quantityInGrams * e.menuItem.price }

  /** The subtotal of a priced cart is the sum over its entries of quantity times the price
      carried by the entry. */
  lemma {:induction false} SubtotalOfCart(cart: seq<CartEntry>)
    ensures Subtotal(PriceCart(cart)) == Seqs.SumBy(cart, LineValue)
  {
    if cart != [] {
      var p := cart[..|cart| - 1];
      assert cart == p + [cart[|cart| - 1]];
      PriceCartSnoc(p, cart[|cart| - 1]);
      SubtotalOfCart(p);
      SubtotalAppend(PriceCart(p), [PriceEntry(cart[|cart| - 1])]);
      assert Subtotal([PriceEntry(cart[|cart| - 1])]) == LineValue(cart[|cart| - 1]);
    }
  }

  /** 500 g of an item priced at 0.025 per gram, without discount, costs 12.5. */
  lemma FiveHundredGramsScenario(item: Menu.MenuItem)
    requires item.price == 0.025
    ensures var lines := PriceCart([CartEntry(item, 500.0)]);
      && lines[0].totalPrice == 12.5
      && CalculateBillTotal(lines, 0.0) == Totals(12.5, 12.5)
  {
    var lines := PriceCart([CartEntry(item, 500.0)]);
    assert lines == [PriceEntry(CartEntry(item, 500.0))];
    assert Subtotal(lines) == Subtotal([]) + 12.5;
  }
}
