/**
 * Arithmetic for hourly services: hours times rate, with no discount and
 * no VAT dimension.
 */
module HourlyCalculator {

  /** An hourly service as stored in the invoice document. */
  datatype HourlyItem = HourlyItem(
    id: string,
    description: string,
    hours: real,
    hourlyRate: real,
    total: real)

  /** Total of one service: 0 when hours <= 0 or the rate is negative, else hours * rate. */
  function HourlyTotal(hours: real, hourlyRate: real): (total: real)
    ensures total >= 0.0
    ensures hours <= 0.0 || hourlyRate < 0.0 ==> total == 0.0
  {
    if hours <= 0.0 || hourlyRate < 0.0 then 0.0 else hours * hourlyRate
  }

  function ItemHourlyTotal(it: HourlyItem): real {
    HourlyTotal(it.hours, it.hourlyRate)
  }

  /** Left fold of the guarded per-service totals, starting at 0; never negative and
      never below any one service's total. */
  function HourlySubtotal(items: seq<HourlyItem>): (subtotal: real)
    ensures subtotal >= 0.0
    ensures forall i :: 0 <= i < |items| ==> subtotal >= ItemHourlyTotal(items[i])
    decreases |items|
  {
    if |items| == 0 then 0.0
    else HourlySubtotal(items[..|items| - 1]) + ItemHourlyTotal(items[|items| - 1])
  }

  /** For hours > 0 and a non-negative rate the total is the plain product. */
  lemma HourlyTotalFormula(hours: real, hourlyRate: real)
    requires hours > 0.0 && hourlyRate >= 0.0
    ensures HourlyTotal(hours, hourlyRate) == hours * hourlyRate
  {
  }

  /** The worked examples: 8 h at 50 is 400, 7.5 h at 60 is 450, 0 h or a negative rate give 0. */
  lemma HourlyTotalExamples()
    ensures HourlyTotal(8.0, 50.0) == 400.0
    ensures HourlyTotal(7.5, 60.0) == 450.0
    ensures HourlyTotal(0.0, 50.0) == 0.0
    ensures HourlyTotal(8.0, -50.0) == 0.0
  {
  }

  /** Appending a service adds its guarded total. */
  lemma HourlyAppend(items: seq<HourlyItem>, it: HourlyItem)
    ensures HourlySubtotal(items + [it]) == HourlySubtotal(items) + ItemHourlyTotal(it)
  {
    assert (items + [it])[..|items|] == items;
  }

  /** The subtotal is additive over concatenation. */
  lemma {:induction false} HourlySubtotalConcat(a: seq<HourlyItem>, b: seq<HourlyItem>)
    ensures HourlySubtotal(a + b) == HourlySubtotal(a) + HourlySubtotal(b)
    decreases |b|
  {
    if |b| == 0 {
      assert a + b == a;
    } else {
      var b', last := b[..|b| - 1], b[|b| - 1];
      assert a + b == (a + b') + [last];
      assert b == b' + [last];
      HourlySubtotalConcat(a, b');
      HourlyAppend(a + b', last);
      HourlyAppend(b', last);
    }
  }

  /** Replacing the service at position k changes the subtotal by new minus old total. */
  lemma HourlyReplace(items: seq<HourlyItem>, k: nat, x: HourlyItem)
    requires k < |items|
    ensures HourlySubtotal(items[k := x]) == HourlySubtotal(items) - ItemHourlyTotal(items[k]) + ItemHourlyTotal(x)
  {
    var pre, post := items[..k], items[k + 1..];
    assert items == pre + [items[k]] + post;
    assert items[k := x] == pre + [x] + post;
    HourlySubtotalConcat(pre + [items[k]], post);
    HourlySubtotalConcat(pre + [x], post);
    HourlyAppend(pre, items[k]);
    HourlyAppend(pre, x);
  }

  /** The worked example: 8 h at 50, 4 h at 75 and 2 h at 100 make 900; the empty list makes 0. */
  lemma HourlySubtotalExample()
    ensures HourlySubtotal([]) == 0.0
    ensures HourlySubtotal([HourlyItem("a", "A", 8.0, 50.0, 0.0),
                            HourlyItem("b", "B", 4.0, 75.0, 0.0),
                            HourlyItem("c", "C", 2.0, 100.0, 0.0)]) == 900.0
  {
    var a, b, c := HourlyItem("a", "A", 8.0, 50.0, 0.0), HourlyItem("b", "B", 4.0, 75.0, 0.0),
                   HourlyItem("c", "C", 2.0, 100.0, 0.0);
    HourlyAppend([], a);
    HourlyAppend([a], b);
    assert [a] + [b] == [a, b];
    HourlyAppend([a, b], c);
    assert [a, b] + [c] == [a, b, c];
  }

  /** The subtotal never reads the stored total: overwriting it changes nothing. */
  lemma SubtotalIgnoresStoredTotal(items: seq<HourlyItem>, k: nat, t: real)
    requires k < |items|
    ensures HourlySubtotal(items[k := items[k].(total := t)]) == HourlySubtotal(items)
  {
    HourlyReplace(items, k, items[k].(total := t));
  }
}
