/**
 * The four invoice totals, combined from the standard-item folds and the
 * hourly subtotal. Hourly services contribute to the subtotal only.
 */
module TotalCalculator {
  import opened ItemCalculator
  import opened HourlyCalculator

  datatype Totals = Totals(subtotalHT: real, totalDiscount: real, totalVAT: real, totalTTC: real)

  function FinalTotals(items: seq<LineItem>, hourlyItems: seq<HourlyItem>): Totals {
    var itemsSubtotalHT := Subtotal(items);
    var totalDiscount := TotalDiscount(items);
    var totalVAT := TotalVAT(items);
    var hourlySubtotal := HourlySubtotal(hourlyItems);
    var subtotalHT := itemsSubtotalHT + hourlySubtotal;
    var totalTTC := subtotalHT + totalVAT;
    Totals(subtotalHT, totalDiscount, totalVAT, totalTTC)
  }

  /** The fields are the item folds and the hourly subtotal; discount and VAT
      depend on the standard items only, and hourly services never affect them. */
  lemma FinalTotalsFields(items: seq<LineItem>, hourlyItems: seq<HourlyItem>, otherHourly: seq<HourlyItem>)
    ensures var t := FinalTotals(items, hourlyItems);
            && t.subtotalHT == Subtotal(items) + HourlySubtotal(hourlyItems)
            && t.totalTTC == t.subtotalHT + t.totalVAT
            && t.totalDiscount == FinalTotals(items, otherHourly).totalDiscount
            && t.totalVAT == FinalTotals(items, otherHourly).totalVAT
  {
  }

  /** Both lists empty: all four totals are 0. */
  lemma EmptyTotals()
    ensures FinalTotals([], []) == Totals(0.0, 0.0, 0.0, 0.0)
  {
  }

  /** Appending a standard item raises the subtotal by its net, the discount by its
      discount amount, the VAT by its VAT amount and the grand total by net + VAT. */
  lemma AppendStandardItem(items: seq<LineItem>, hourlyItems: seq<HourlyItem>, it: LineItem)
    ensures var before, after := FinalTotals(items, hourlyItems), FinalTotals(items + [it], hourlyItems);
            && after.subtotalHT == before.subtotalHT + NetAmount(it)
            && after.totalDiscount == before.totalDiscount + DiscountAmount(it)
            && after.totalVAT == before.totalVAT + VatAmount(it)
            && after.totalTTC == before.totalTTC + NetAmount(it) + VatAmount(it)
  {
    AppendItem(items, it);
  }

  /** Appending an hourly service leaves discount and VAT unchanged and raises the
      subtotal and the grand total by its hourly total. */
  lemma AppendHourlyItem(items: seq<LineItem>, hourlyItems: seq<HourlyItem>, it: HourlyItem)
    ensures var before, after := FinalTotals(items, hourlyItems), FinalTotals(items, hourlyItems + [it]);
            && after.totalDiscount == before.totalDiscount
            && after.totalVAT == before.totalVAT
            && after.subtotalHT == before.subtotalHT + ItemHourlyTotal(it)
            && after.totalTTC == before.totalTTC + ItemHourlyTotal(it)
  {
    HourlyAppend(hourlyItems, it);
  }

  /** Replacing the quantity and price of item k changes every total by the new
      contribution minus the old one. */
  lemma ReplaceQuantityAndPrice(items: seq<LineItem>, hourlyItems: seq<HourlyItem>, k: nat,
                                quantity: real, unitPrice: real)
    requires k < |items|
    ensures var old_, new_ := items[k], items[k].(quantity := quantity, unitPrice := unitPrice);
            var before, after := FinalTotals(items, hourlyItems), FinalTotals(items[k := new_], hourlyItems);
            && after.subtotalHT == before.subtotalHT - NetAmount(old_) + NetAmount(new_)
            && after.totalDiscount == before.totalDiscount - DiscountAmount(old_) + DiscountAmount(new_)
            && after.totalVAT == before.totalVAT - VatAmount(old_) + VatAmount(new_)
            && after.totalTTC == after.subtotalHT + after.totalVAT
  {
    ReplaceItem(items, k, items[k].(quantity := quantity, unitPrice := unitPrice));
  }

  /** With non-negative quantities, prices and VAT rates and discounts of at most 100%,
      the grand total is at least the subtotal. */
  lemma TotalWithTaxAtLeastSubtotal(items: seq<LineItem>, hourlyItems: seq<HourlyItem>)
    requires forall i :: 0 <= i < |items| ==>
      items[i].quantity >= 0.0 && items[i].unitPrice >= 0.0 &&
      items[i].discount <= 100.0 && items[i].vatRate >= 0.0
    ensures FinalTotals(items, hourlyItems).totalTTC >= FinalTotals(items, hourlyItems).subtotalHT
  {
    TotalVATNonNegative(items);
  }

  /** For in-range standard items the grand total is the sum of the line totals
      plus the hourly subtotal. */
  lemma GrandTotalIsSumOfLines(items: seq<LineItem>, hourlyItems: seq<HourlyItem>)
    requires forall i :: 0 <= i < |items| ==> InRange(items[i])
    ensures FinalTotals(items, hourlyItems).totalTTC == SumLineTotals(items) + HourlySubtotal(hourlyItems)
  {
    FoldsMatchLineTotals(items);
  }

  /** Mixed invoice: 2 x 10 at 20% VAT and 8 h at 50 give 420 before tax, 4 VAT and 424 in all. */
  lemma MixedInvoiceExample()
    ensures FinalTotals([LineItem("i", "R", "D", 2.0, 10.0, 0.0, 20.0, 24.0)],
                        [HourlyItem("h", "H", 8.0, 50.0, 400.0)])
         == Totals(420.0, 0.0, 4.0, 424.0)
  {
    var it := LineItem("i", "R", "D", 2.0, 10.0, 0.0, 20.0, 24.0);
    var h := HourlyItem("h", "H", 8.0, 50.0, 400.0);
    AppendItem([], it);
    HourlyAppend([], h);
    assert [] + [it] == [it];
    assert [] + [h] == [h];
  }
}
