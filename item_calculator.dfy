/**
 * Line and aggregate arithmetic for standard invoice items
 * (quantity, unit price, discount percentage, VAT percentage).
 * Money is modelled as exact `real`, so the floating-point tolerances of
 * the original collapse into equalities.
 */
module ItemCalculator {

  /** A standard line item as stored in the invoice document. */
  datatype LineItem = LineItem(
    id: string,
    reference: string,
    description: string,
    quantity: real,
    unitPrice: real,
    discount: real,
    vatRate: real,
    lineTotal: real)

  /** Total of one line: zero for an invalid line, otherwise net amount plus VAT,
      with an out-of-range discount or a negative VAT rate treated as 0. */
  function LineTotal(quantity: real, unitPrice: real, discount: real, vatRate: real): (total: real)
    ensures total >= 0.0
    ensures quantity <= 0.0 || unitPrice < 0.0 ==> total == 0.0
  {
    if quantity <= 0.0 || unitPrice < 0.0 then 0.0
    else
      var d := if discount < 0.0 || discount > 100.0 then 0.0 else discount;
      var v := if vatRate < 0.0 then 0.0 else vatRate;
      var subtotal := quantity * unitPrice;
      var discountAmount := subtotal * (d / 100.0);
      var subtotalAfterDiscount := subtotal - discountAmount;
      var vatAmount := subtotalAfterDiscount * (v / 100.0);
      NonNegativeSum(subtotal, d, v);
      subtotalAfterDiscount + vatAmount
  }

  /** Each factor of a guarded line is non-negative, so its total is. */
  lemma NonNegativeSum(subtotal: real, d: real, v: real)
    requires subtotal >= 0.0 && 0.0 <= d <= 100.0 && v >= 0.0
    ensures var after := subtotal - subtotal * (d / 100.0);
            after >= 0.0 && after + after * (v / 100.0) >= 0.0
  {
    var after := subtotal - subtotal * (d / 100.0);
    assert after == subtotal * (1.0 - d / 100.0);
    assert after >= 0.0 by {
      assert 1.0 - d / 100.0 >= 0.0;
      ProductNonNegative(subtotal, 1.0 - d / 100.0);
    }
    ProductNonNegative(after, v / 100.0);
  }

  lemma ProductNonNegative(x: real, y: real)
    requires x >= 0.0 && y >= 0.0
    ensures x * y >= 0.0
  {
  }

  /** The guard rejects the line exactly when quantity <= 0 or unitPrice < 0. */
  predicate PassesGuard(quantity: real, unitPrice: real) {
    quantity > 0.0 && unitPrice >= 0.0
  }

  /** An item whose fields are all in the range the line calculator accepts unchanged. */
  predicate InRange(it: LineItem) {
    it.quantity > 0.0 && it.unitPrice >= 0.0 &&
    0.0 <= it.discount <= 100.0 && it.vatRate >= 0.0
  }

  /** The line total of an item, from its stored fields. */
  function ItemLineTotal(it: LineItem): real {
    LineTotal(it.quantity, it.unitPrice, it.discount, it.vatRate)
  }

  // Per-item amounts used by the aggregate folds. These read the raw fields:
  // the folds apply neither the guard nor the clamps of LineTotal.

  function Gross(it: LineItem): real {
    it.quantity * it.unitPrice
  }

  function DiscountAmount(it: LineItem): real {
    Gross(it) * (it.discount / 100.0)
  }

  function NetAmount(it: LineItem): real {
    Gross(it) - DiscountAmount(it)
  }

  function VatAmount(it: LineItem): real {
    NetAmount(it) * (it.vatRate / 100.0)
  }

  /** Subtotal before tax: left fold of the net amounts, starting at 0. */
  function Subtotal(items: seq<LineItem>): real
    decreases |items|
  {
    if |items| == 0 then 0.0
    else Subtotal(items[..|items| - 1]) + NetAmount(items[|items| - 1])
  }

  /** Total discount: left fold of the discount amounts. */
  function TotalDiscount(items: seq<LineItem>): real
    decreases |items|
  {
    if |items| == 0 then 0.0
    else TotalDiscount(items[..|items| - 1]) + DiscountAmount(items[|items| - 1])
  }

  /** Total VAT: left fold of the VAT amounts. */
  function TotalVAT(items: seq<LineItem>): real
    decreases |items|
  {
    if |items| == 0 then 0.0
    else TotalVAT(items[..|items| - 1]) + VatAmount(items[|items| - 1])
  }

  /** Reference sums used to state what the folds add up to. */
  function SumLineTotals(items: seq<LineItem>): real
    decreases |items|
  {
    if |items| == 0 then 0.0
    else SumLineTotals(items[..|items| - 1]) + ItemLineTotal(items[|items| - 1])
  }

  function SumGross(items: seq<LineItem>): real
    decreases |items|
  {
    if |items| == 0 then 0.0
    else SumGross(items[..|items| - 1]) + Gross(items[|items| - 1])
  }

  // ---------------------------------------------------------------------------
  // Properties of the line total

  /** Quantity <= 0 or a negative unit price zeroes the line. */
  lemma LineTotalInvalidIsZero(quantity: real, unitPrice: real, discount: real, vatRate: real)
    requires !PassesGuard(quantity, unitPrice)
    ensures LineTotal(quantity, unitPrice, discount, vatRate) == 0.0
  {
  }

  /** A discount outside [0, 100] behaves as no discount. */
  lemma LineTotalDiscountClamp(quantity: real, unitPrice: real, discount: real, vatRate: real)
    requires discount < 0.0 || discount > 100.0
    ensures LineTotal(quantity, unitPrice, discount, vatRate) == LineTotal(quantity, unitPrice, 0.0, vatRate)
  {
  }

  /** A negative VAT rate behaves as a VAT rate of 0. */
  lemma LineTotalVatClamp(quantity: real, unitPrice: real, discount: real, vatRate: real)
    requires vatRate < 0.0
    ensures LineTotal(quantity, unitPrice, discount, vatRate) == LineTotal(quantity, unitPrice, discount, 0.0)
  {
  }

  /** For guarded inputs the line total is q * p * (1 - d/100) * (1 + v/100). */
  lemma LineTotalFormula(quantity: real, unitPrice: real, discount: real, vatRate: real)
    requires PassesGuard(quantity, unitPrice)
    requires 0.0 <= discount <= 100.0 && vatRate >= 0.0
    ensures LineTotal(quantity, unitPrice, discount, vatRate)
         == quantity * unitPrice * (1.0 - discount / 100.0) * (1.0 + vatRate / 100.0)
  {
    var s := quantity * unitPrice;
    var after := s - s * (discount / 100.0);
    assert after == s * (1.0 - discount / 100.0);
    assert after + after * (vatRate / 100.0) == after * (1.0 + vatRate / 100.0);
  }

  /** The worked examples: 2 x 10 with no discount and no VAT is 20, with 10% discount 18,
      with 20% VAT 24, with both 21.6; quantity 0 or price -10 give 0. */
  lemma LineTotalExamples()
    ensures LineTotal(2.0, 10.0, 0.0, 0.0) == 20.0
    ensures LineTotal(2.0, 10.0, 10.0, 0.0) == 18.0
    ensures LineTotal(2.0, 10.0, 0.0, 20.0) == 24.0
    ensures LineTotal(2.0, 10.0, 10.0, 20.0) == 21.6
    ensures LineTotal(0.0, 10.0, 0.0, 0.0) == 0.0
    ensures LineTotal(2.0, -10.0, 0.0, 0.0) == 0.0
  {
  }

  // ---------------------------------------------------------------------------
  // Properties of the folds

  lemma SubtotalEmpty()
    ensures Subtotal([]) == 0.0 && TotalDiscount([]) == 0.0 && TotalVAT([]) == 0.0
  {
  }

  /** Appending an item adds its raw net, discount and VAT amounts to the three folds. */
  lemma AppendItem(items: seq<LineItem>, it: LineItem)
    ensures Subtotal(items + [it]) == Subtotal(items) + NetAmount(it)
    ensures TotalDiscount(items + [it]) == TotalDiscount(items) + DiscountAmount(it)
    ensures TotalVAT(items + [it]) == TotalVAT(items) + VatAmount(it)
    ensures SumLineTotals(items + [it]) == SumLineTotals(items) + ItemLineTotal(it)
    ensures SumGross(items + [it]) == SumGross(items) + Gross(it)
  {
    assert (items + [it])[..|items|] == items;
  }

  /** The three folds are additive over concatenation. */
  lemma {:induction false} FoldsConcat(a: seq<LineItem>, b: seq<LineItem>)
    ensures Subtotal(a + b) == Subtotal(a) + Subtotal(b)
    ensures TotalDiscount(a + b) == TotalDiscount(a) + TotalDiscount(b)
    ensures TotalVAT(a + b) == TotalVAT(a) + TotalVAT(b)
    decreases |b|
  {
    if |b| == 0 {
      assert a + b == a;
    } else {
      var b' := b[..|b| - 1];
      var last := b[|b| - 1];
      assert a + b == (a + b') + [last];
      assert b == b' + [last];
      FoldsConcat(a, b');
      AppendItem(a + b', last);
      AppendItem(b', last);
    }
  }

  /** Subtotal plus total discount is the gross amount sum of q * p, for every list. */
  lemma {:induction false} SubtotalPlusDiscountIsGross(items: seq<LineItem>)
    ensures Subtotal(items) + TotalDiscount(items) == SumGross(items)
    decreases |items|
  {
    if |items| > 0 {
      SubtotalPlusDiscountIsGross(items[..|items| - 1]);
    }
  }

  /** For in-range items the folds agree with the line totals: subtotal + VAT
      is the sum of the line totals. */
  lemma {:induction false} FoldsMatchLineTotals(items: seq<LineItem>)
    requires forall i :: 0 <= i < |items| ==> InRange(items[i])
    ensures Subtotal(items) + TotalVAT(items) == SumLineTotals(items)
    decreases |items|
  {
    if |items| > 0 {
      var last := items[|items| - 1];
      FoldsMatchLineTotals(items[..|items| - 1]);
      assert InRange(last);
      LineTotalFormula(last.quantity, last.unitPrice, last.discount, last.vatRate);
      var g := Gross(last);
      assert NetAmount(last) == g * (1.0 - last.discount / 100.0);
      assert NetAmount(last) + VatAmount(last)
          == g * (1.0 - last.discount / 100.0) * (1.0 + last.vatRate / 100.0);
    }
  }

  /** Without the range condition the folds and the line totals disagree:
      a 150% discount is ignored by LineTotal but applied by the folds. */
  lemma FoldsIgnoreClamp()
    ensures var it := LineItem("a", "R", "D", 1.0, 10.0, 150.0, 0.0, 10.0);
            Subtotal([it]) + TotalVAT([it]) == -5.0 && SumLineTotals([it]) == 10.0
  {
    var it := LineItem("a", "R", "D", 1.0, 10.0, 150.0, 0.0, 10.0);
    assert [it][..0] == [];
  }

  /** With q, p >= 0, d <= 100 and v >= 0 each VAT amount is non-negative, hence the total VAT. */
  lemma {:induction false} TotalVATNonNegative(items: seq<LineItem>)
    requires forall i :: 0 <= i < |items| ==>
      items[i].quantity >= 0.0 && items[i].unitPrice >= 0.0 &&
      items[i].discount <= 100.0 && items[i].vatRate >= 0.0
    ensures TotalVAT(items) >= 0.0
    decreases |items|
  {
    if |items| > 0 {
      var last := items[|items| - 1];
      TotalVATNonNegative(items[..|items| - 1]);
      ProductNonNegative(last.quantity, last.unitPrice);
      assert NetAmount(last) == Gross(last) * (1.0 - last.discount / 100.0);
      ProductNonNegative(Gross(last), 1.0 - last.discount / 100.0);
      ProductNonNegative(NetAmount(last), last.vatRate / 100.0);
    }
  }

  /** Replacing the item at position k changes each fold by (new - old) contribution. */
  lemma ReplaceItem(items: seq<LineItem>, k: nat, x: LineItem)
    requires k < |items|
    ensures Subtotal(items[k := x]) == Subtotal(items) - NetAmount(items[k]) + NetAmount(x)
    ensures TotalDiscount(items[k := x]) == TotalDiscount(items) - DiscountAmount(items[k]) + DiscountAmount(x)
    ensures TotalVAT(items[k := x]) == TotalVAT(items) - VatAmount(items[k]) + VatAmount(x)
  {
    var pre, post := items[..k], items[k + 1..];
    assert items == pre + [items[k]] + post;
    assert items[k := x] == pre + [x] + post;
    FoldsConcat(pre + [items[k]], post);
    FoldsConcat(pre + [x], post);
    AppendItem(pre, items[k]);
    AppendItem(pre, x);
  }

  /** The folds never read the stored line total: overwriting it changes none of them. */
  lemma FoldsIgnoreLineTotal(items: seq<LineItem>, k: nat, t: real)
    requires k < |items|
    ensures Subtotal(items[k := items[k].(lineTotal := t)]) == Subtotal(items)
    ensures TotalDiscount(items[k := items[k].(lineTotal := t)]) == TotalDiscount(items)
    ensures TotalVAT(items[k := items[k].(lineTotal := t)]) == TotalVAT(items)
  {
    var x := items[k].(lineTotal := t);
    assert Gross(x) == Gross(items[k]);
    assert DiscountAmount(x) == DiscountAmount(items[k]);
    assert VatAmount(x) == VatAmount(items[k]);
    ReplaceItem(items, k, x);
  }
}
