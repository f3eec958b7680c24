/**
 * The reactive update scheduler: a duplicate-free, insertion-ordered queue of
 * update keys, a debounce timer that every request re-arms, a reentrancy latch,
 * and a flush that runs recalculation, item refreshes, hourly refreshes and the
 * general refresh in that order. Timer expiry is an explicit event and elapsed
 * times are inputs; screen updates are not modelled, only their effect on the
 * document and whether they stop on a malformed document.
 */
module Reactive {
  import opened Wrappers
  import opened ItemCalculator
  import opened HourlyCalculator
  import opened TotalCalculator
  import opened State
  import opened Invoice

  const MaxCalculationTime: real := 100.0
  const MaxUpdateTime: real := 50.0
  const WindowSize: nat := 100

  const Calculations: string := "calculations"
  const Display: string := "display"
  const ItemPrefix: string := "item-"
  const HourlyPrefix: string := "hourly-"

  function ItemKey(id: string): string { ItemPrefix + id }
  function HourlyKey(id: string): string { HourlyPrefix + id }

  predicate HasPrefix(u: string, prefix: string) {
    |prefix| <= |u| && u[..|prefix|] == prefix
  }

  predicate Distinct<T(==)>(s: seq<T>) {
    forall i, j :: 0 <= i < j < |s| ==> s[i] != s[j]
  }

  // ---------------------------------------------------------------------------
  // The queue

  /** Adding a key to the queue with set semantics. */
  function Enqueue(q: seq<string>, key: string): (r: seq<string>)
    ensures forall k :: k in r <==> k in q || k == key
    ensures Distinct(q) ==> Distinct(r)
    ensures |q| <= |r| <= |q| + 1 && r[..|q|] == q
    ensures key in q ==> r == q
  {
    if key in q then q else q + [key]
  }

  /** Re-adding a present key changes nothing. */
  lemma EnqueueIdempotent(q: seq<string>, key: string)
    ensures Enqueue(Enqueue(q, key), key) == Enqueue(q, key)
  {
  }

  // ---------------------------------------------------------------------------
  // The flush plan

  datatype Action = RecalcTotals | RefreshItem(id: string) | RefreshHourly(id: string) | RefreshGeneral

  /** The ids of the queued item keys, prefix removed, in queue order. */
  function ItemIds(us: seq<string>): seq<string>
    decreases |us|
  {
    if |us| == 0 then []
    else ItemIds(us[..|us| - 1]) +
         (if HasPrefix(us[|us| - 1], ItemPrefix) then [us[|us| - 1][|ItemPrefix|..]] else [])
  }

  /** The ids of the queued hourly keys, prefix removed, in queue order. */
  function HourlyIds(us: seq<string>): seq<string>
    decreases |us|
  {
    if |us| == 0 then []
    else HourlyIds(us[..|us| - 1]) +
         (if HasPrefix(us[|us| - 1], HourlyPrefix) then [us[|us| - 1][|HourlyPrefix|..]] else [])
  }

  function CalcPart(us: seq<string>): seq<Action> {
    if Calculations in us then [RecalcTotals] else []
  }

  function ItemPart(ids: seq<string>): seq<Action> {
    seq(|ids|, j requires 0 <= j < |ids| => RefreshItem(ids[j]))
  }

  function HourlyPart(ids: seq<string>): seq<Action> {
    seq(|ids|, j requires 0 <= j < |ids| => RefreshHourly(ids[j]))
  }

  function DisplayPart(us: seq<string>): seq<Action> {
    if Display in us then [RefreshGeneral] else []
  }

  /** What a flush of the snapshot `us` does, in order. */
  function FlushPlan(us: seq<string>): seq<Action> {
    CalcPart(us) + ItemPart(ItemIds(us)) + HourlyPart(HourlyIds(us)) + DisplayPart(us)
  }

  function Phase(a: Action): nat {
    match a
    case RecalcTotals => 0
    case RefreshItem(_) => 1
    case RefreshHourly(_) => 2
    case RefreshGeneral => 3
  }

  /** The plan runs the phases in order: recalculation, items, hourly services, display. */
  lemma PlanInPhaseOrder(us: seq<string>)
    ensures var plan := FlushPlan(us);
            forall i, j :: 0 <= i < j < |plan| ==> Phase(plan[i]) <= Phase(plan[j])
  {
    var c, it, h, d := CalcPart(us), ItemPart(ItemIds(us)), HourlyPart(HourlyIds(us)), DisplayPart(us);
    var plan := FlushPlan(us);
    forall i | 0 <= i < |plan|
      ensures Phase(plan[i]) == if i < |c| then 0
                                else if i < |c| + |it| then 1
                                else if i < |c| + |it| + |h| then 2
                                else 3
    {
      if i < |c| {
        assert plan[i] == c[i];
      } else if i < |c| + |it| {
        assert plan[i] == it[i - |c|];
      } else if i < |c| + |it| + |h| {
        assert plan[i] == h[i - |c| - |it|];
      } else {
        assert plan[i] == d[i - |c| - |it| - |h|];
      }
    }
  }

  /** A queued item key maps back to its id. */
  lemma ItemKeyStrips(id: string)
    ensures HasPrefix(ItemKey(id), ItemPrefix) && ItemKey(id)[|ItemPrefix|..] == id
  {
  }

  /** An id is refreshed by the item phase exactly when its item key was queued. */
  lemma {:induction false} ItemIdsExact(us: seq<string>, id: string)
    ensures id in ItemIds(us) <==> ItemKey(id) in us
    decreases |us|
  {
    if |us| > 0 {
      var pre, u := us[..|us| - 1], us[|us| - 1];
      assert us == pre + [u];
      ItemIdsExact(pre, id);
      if HasPrefix(u, ItemPrefix) {
        assert u == ItemPrefix + u[|ItemPrefix|..];
      }
    }
  }

  /** An id is refreshed by the hourly phase exactly when its hourly key was queued. */
  lemma {:induction false} HourlyIdsExact(us: seq<string>, id: string)
    ensures id in HourlyIds(us) <==> HourlyKey(id) in us
    decreases |us|
  {
    if |us| > 0 {
      var pre, u := us[..|us| - 1], us[|us| - 1];
      assert us == pre + [u];
      HourlyIdsExact(pre, id);
      if HasPrefix(u, HourlyPrefix) {
        assert u == HourlyPrefix + u[|HourlyPrefix|..];
      }
    }
  }

  /** Item refreshes keep queue order: the ids of a concatenation are concatenated. */
  lemma {:induction false} ItemIdsConcat(a: seq<string>, b: seq<string>)
    ensures ItemIds(a + b) == ItemIds(a) + ItemIds(b)
    decreases |b|
  {
    if |b| == 0 {
      assert a + b == a;
    } else {
      var b', u := b[..|b| - 1], b[|b| - 1];
      assert (a + b)[..|a + b| - 1] == a + b';
      ItemIdsConcat(a, b');
    }
  }

  /** Hourly refreshes keep queue order as well. */
  lemma {:induction false} HourlyIdsConcat(a: seq<string>, b: seq<string>)
    ensures HourlyIds(a + b) == HourlyIds(a) + HourlyIds(b)
    decreases |b|
  {
    if |b| == 0 {
      assert a + b == a;
    } else {
      var b', u := b[..|b| - 1], b[|b| - 1];
      assert (a + b)[..|a + b| - 1] == a + b';
      HourlyIdsConcat(a, b');
    }
  }

  /** Each queued key has its action in the plan, and each action in the plan comes
      from a queued key. */
  lemma PlanCoversQueue(us: seq<string>, id: string)
    ensures RecalcTotals in FlushPlan(us) <==> Calculations in us
    ensures RefreshGeneral in FlushPlan(us) <==> Display in us
    ensures RefreshItem(id) in FlushPlan(us) <==> ItemKey(id) in us
    ensures RefreshHourly(id) in FlushPlan(us) <==> HourlyKey(id) in us
  {
    var c, it, h, d := CalcPart(us), ItemPart(ItemIds(us)), HourlyPart(HourlyIds(us)), DisplayPart(us);
    assert FlushPlan(us) == c + it + h + d;
    ItemIdsExact(us, id);
    HourlyIdsExact(us, id);
    if RefreshItem(id) in it {
      var j :| 0 <= j < |it| && it[j] == RefreshItem(id);
      assert ItemIds(us)[j] == id;
    }
    if id in ItemIds(us) {
      var j :| 0 <= j < |ItemIds(us)| && ItemIds(us)[j] == id;
      assert it[j] == RefreshItem(id);
    }
    if RefreshHourly(id) in h {
      var j :| 0 <= j < |h| && h[j] == RefreshHourly(id);
      assert HourlyIds(us)[j] == id;
    }
    if id in HourlyIds(us) {
      var j :| 0 <= j < |HourlyIds(us)| && HourlyIds(us)[j] == id;
      assert h[j] == RefreshHourly(id);
    }
  }

  // ---------------------------------------------------------------------------
  // Running the plan on the document

  /** The first position holding a record whose `key` is `id`: the search that both
      `items.find` and `hourlyItems.find` perform. */
  function FindFirst<T>(records: seq<T>, key: T -> string, id: string): (r: Option<nat>)
    ensures r.Some? ==> r.value < |records| && key(records[r.value]) == id &&
                        forall j :: 0 <= j < r.value ==> key(records[j]) != id
    ensures r.None? ==> forall j :: 0 <= j < |records| ==> key(records[j]) != id
    decreases |records|
  {
    if |records| == 0 then None
    else if key(records[0]) == id then Some(0)
    else match FindFirst(records[1..], key, id)
         case Some(k) => Some(k + 1)
         case None => None
  }

  /** The first position holding an item with the given id. */
  function FindItem(items: seq<LineItem>, id: string): Option<nat> {
    FindFirst(items, (it: LineItem) => it.id, id)
  }

  /** The first position holding an hourly service with the given id. */
  function FindHourly(items: seq<HourlyItem>, id: string): Option<nat> {
    FindFirst(items, (it: HourlyItem) => it.id, id)
  }

  /** The item list with the first item of the given id carrying its recomputed line total. */
  function RefreshLine(items: seq<LineItem>, id: string): seq<LineItem> {
    match FindItem(items, id)
    case Some(k) => items[k := items[k].(lineTotal := ItemLineTotal(items[k]))]
    case None => items
  }

  /** The hourly list with the first service of the given id carrying its recomputed total. */
  function RefreshHourlyLine(items: seq<HourlyItem>, id: string): seq<HourlyItem> {
    match FindHourly(items, id)
    case Some(k) => items[k := items[k].(total := ItemHourlyTotal(items[k]))]
    case None => items
  }

  function SetHourlyDoc(doc: Node, items: seq<HourlyItem>): Node {
    Put(doc, ["invoice", "hourlyItems"], Leaf(HourlyList(items)))
  }

  /** Reading `invoice.totals` for display needs a present, non-null member. */
  predicate TotalsDisplayable(doc: Node) {
    match Get(doc, ["invoice", "totals"])
    case Some(t) => t != Leaf(Null)
    case None => false
  }

  /** One step of the plan; ok is false where the step throws. */
  function Perform(doc: Node, a: Action): Edit {
    match a
    case RecalcTotals => CalculateTotalsDoc(doc)
    case RefreshItem(id) =>
      (match ItemsOf(doc)
       case None => Edit(doc, false)
       case Some(items) =>
         if FindItem(items, id).None? then Edit(doc, true)
         else Edit(SetItemsDoc(doc, RefreshLine(items, id)), true))
    case RefreshHourly(id) =>
      (match HourlyOf(doc)
       case None => Edit(doc, false)
       case Some(items) =>
         if FindHourly(items, id).None? then Edit(doc, true)
         else Edit(SetHourlyDoc(doc, RefreshHourlyLine(items, id)), true))
    case RefreshGeneral => Edit(doc, TotalsDisplayable(doc))
  }

  datatype FlushOutcome = FlushOutcome(doc: Node, done: seq<Action>, failed: bool)

  /** The plan run step by step, stopping at the first step that throws; the changes
      made before it are kept. */
  function Run(doc: Node, plan: seq<Action>): (o: FlushOutcome)
    ensures o.done <= plan
    ensures !o.failed ==> o.done == plan
    decreases |plan|
  {
    if |plan| == 0 then FlushOutcome(doc, [], false)
    else
      var o := Run(doc, plan[..|plan| - 1]);
      if o.failed then o
      else
        var e := Perform(o.doc, plan[|plan| - 1]);
        FlushOutcome(e.doc, o.done + (if e.ok then [plan[|plan| - 1]] else []), !e.ok)
  }

  /** Once a step has thrown, the rest of the plan is skipped. */
  lemma {:induction false} RunStopsAtFailure(doc: Node, p: seq<Action>, q: seq<Action>)
    requires Run(doc, p).failed
    ensures Run(doc, p + q) == Run(doc, p)
    decreases |q|
  {
    if |q| == 0 {
      assert p + q == p;
    } else {
      assert (p + q)[..|p + q| - 1] == p + q[..|q| - 1];
      RunStopsAtFailure(doc, p, q[..|q| - 1]);
    }
  }

  /** Running a plan and then one more step. */
  lemma RunStep(doc: Node, p: seq<Action>, a: Action)
    ensures Run(doc, p + [a]) ==
      (var o := Run(doc, p);
       if o.failed then o
       else var e := Perform(o.doc, a);
            FlushOutcome(e.doc, o.done + (if e.ok then [a] else []), !e.ok))
  {
    assert (p + [a])[..|p + [a]| - 1] == p;
  }

  // What the steps do to the document

  /** The item refresh rewrites only the line total of the first matching item. */
  lemma RefreshLineSpec(items: seq<LineItem>, id: string)
    ensures var r := RefreshLine(items, id);
            && |r| == |items|
            && (FindItem(items, id).None? ==> r == items)
            && (FindItem(items, id).Some? ==>
                 var k := FindItem(items, id).value;
                 && r[k] == items[k].(lineTotal := LineTotal(items[k].quantity, items[k].unitPrice,
                                                               items[k].discount, items[k].vatRate))
                 && forall j :: 0 <= j < |items| && j != k ==> r[j] == items[j])
  {
  }

  /** Line totals do not enter the folds, so refreshing one leaves the totals as they were. */
  lemma RefreshLineKeepsTotals(items: seq<LineItem>, hourly: seq<HourlyItem>, id: string)
    ensures FinalTotals(RefreshLine(items, id), hourly) == FinalTotals(items, hourly)
  {
    var r := FindItem(items, id);
    if r.Some? {
      FoldsIgnoreLineTotal(items, r.value, ItemLineTotal(items[r.value]));
    }
  }

  /** The hourly refresh rewrites only the total of the first matching service. */
  lemma RefreshHourlyLineSpec(items: seq<HourlyItem>, id: string)
    ensures var r := RefreshHourlyLine(items, id);
            && |r| == |items|
            && (FindHourly(items, id).None? ==> r == items)
            && (FindHourly(items, id).Some? ==>
                 var k := FindHourly(items, id).value;
                 && r[k] == items[k].(total := HourlyTotal(items[k].hours, items[k].hourlyRate))
                 && forall j :: 0 <= j < |items| && j != k ==> r[j] == items[j])
  {
  }

  /** The hourly subtotal recomputes each service's total, so refreshing a stored
      total leaves the invoice totals as they were. */
  lemma RefreshHourlyKeepsTotals(items: seq<LineItem>, hourly: seq<HourlyItem>, id: string)
    ensures FinalTotals(items, RefreshHourlyLine(hourly, id)) == FinalTotals(items, hourly)
  {
    var r := FindHourly(hourly, id);
    if r.Some? {
      SubtotalIgnoresStoredTotal(hourly, r.value, ItemHourlyTotal(hourly[r.value]));
    }
  }

  /** Replacing the hourly list sets exactly the `hourlyItems` member of the invoice. */
  lemma SetHourlySpec(doc: Node, items: seq<HourlyItem>)
    requires HourlyOf(doc).Some?
    ensures InvoiceOf(SetHourlyDoc(doc, items)) == Some(InvoiceOf(doc).value["hourlyItems" := Leaf(HourlyList(items))])
    ensures HourlyOf(SetHourlyDoc(doc, items)) == Some(items)
    ensures ItemsOf(SetHourlyDoc(doc, items)) == ItemsOf(doc)
    ensures TotalsOf(SetHourlyDoc(doc, items)) == TotalsOf(doc)
  {
    ItemsThroughInvoice(doc);
    InvoiceMemberWritable(doc, "hourlyItems");
    WriteInvoiceMember(doc, "hourlyItems", Leaf(HourlyList(items)));
    ItemsThroughInvoice(SetHourlyDoc(doc, items));
  }

  /** The stored totals are those of the current lists. */
  predicate TotalsCurrent(doc: Node) {
    ItemsOf(doc).Some? && HourlyOf(doc).Some? &&
    TotalsOf(doc) == Some(FinalTotals(ItemsOf(doc).value, HourlyOf(doc).value))
  }

  /** Recalculation makes the totals current and every other step keeps them current. */
  lemma PerformKeepsTotalsCurrent(doc: Node, a: Action)
    requires TotalsCurrent(doc) || a == RecalcTotals
    ensures Perform(doc, a).ok ==> TotalsCurrent(Perform(doc, a).doc)
  {
    CalculateTotalsSpec(doc);
    match a
    case RecalcTotals =>
    case RefreshItem(id) =>
      if ItemsOf(doc).Some? && FindItem(ItemsOf(doc).value, id).Some? {
        var items := ItemsOf(doc).value;
        SetItemsSpec(doc, RefreshLine(items, id));
        ItemsThroughInvoice(doc);
        ItemsThroughInvoice(SetItemsDoc(doc, RefreshLine(items, id)));
        RefreshLineKeepsTotals(items, HourlyOf(doc).value, id);
      }
    case RefreshHourly(id) =>
      if HourlyOf(doc).Some? && FindHourly(HourlyOf(doc).value, id).Some? {
        var hourly := HourlyOf(doc).value;
        SetHourlySpec(doc, RefreshHourlyLine(hourly, id));
        RefreshHourlyKeepsTotals(ItemsOf(doc).value, hourly, id);
      }
    case RefreshGeneral =>
  }

  /** Running steps from a document whose totals are current keeps them current. */
  lemma {:induction false} RunKeepsTotalsCurrent(doc: Node, plan: seq<Action>)
    requires TotalsCurrent(doc)
    ensures !Run(doc, plan).failed ==> TotalsCurrent(Run(doc, plan).doc)
    decreases |plan|
  {
    if |plan| > 0 {
      var pre := plan[..|plan| - 1];
      RunKeepsTotalsCurrent(doc, pre);
      if !Run(doc, pre).failed {
        PerformKeepsTotalsCurrent(Run(doc, pre).doc, plan[|plan| - 1]);
      }
    }
  }

  lemma PartGrows(plan: seq<Action>, part: seq<Action>, i: nat)
    requires i < |part|
    ensures plan + part[..i + 1] == (plan + part[..i]) + [part[i]]
  {
    assert part[..i + 1] == part[..i] + [part[i]];
  }

  /** A phase loop that ran to the end, or stopped at a failure, has run the whole phase. */
  lemma PhaseEnds(doc: Node, plan: seq<Action>, part: seq<Action>, i: nat)
    requires i <= |part|
    requires i == |part| || Run(doc, plan + part[..i]).failed
    ensures Run(doc, plan + part) == Run(doc, plan + part[..i])
  {
    if i < |part| {
      RunStopsAtFailure(doc, plan + part[..i], part[i..]);
      assert plan + part[..i] + part[i..] == plan + part;
    } else {
      assert part[..i] == part;
    }
  }

  /** A one-step plan. */
  lemma RunSingle(doc: Node, a: Action)
    ensures Run(doc, [a]) == (var e := Perform(doc, a); FlushOutcome(e.doc, if e.ok then [a] else [], !e.ok))
  {
    RunStep(doc, [], a);
    assert [] + [a] == [a];
  }

  lemma Associate(p: seq<Action>, a: seq<Action>, b: seq<Action>, c: seq<Action>)
    ensures p + a + b + c == p + (a + b + c)
  {
  }

  /** A plan that starts with recalculation and does not throw ends with current totals. */
  lemma RecalcFirstLeavesTotalsCurrent(doc: Node, rest: seq<Action>)
    requires !Run(doc, [RecalcTotals] + rest).failed
    ensures TotalsCurrent(Run(doc, [RecalcTotals] + rest).doc)
  {
    RunSingle(doc, RecalcTotals);
    if Run(doc, [RecalcTotals]).failed {
      RunStopsAtFailure(doc, [RecalcTotals], rest);
    } else {
      PerformKeepsTotalsCurrent(doc, RecalcTotals);
      RunFrom(doc, [RecalcTotals], rest);
      RunKeepsTotalsCurrent(Run(doc, [RecalcTotals]).doc, rest);
    }
  }

  /** A flush that had 'calculations' queued and did not throw leaves the stored totals
      equal to the totals of the final item lists, whatever refreshes followed. */
  lemma FlushLeavesTotalsCurrent(doc: Node, us: seq<string>)
    requires Calculations in us
    requires !Run(doc, FlushPlan(us)).failed
    ensures TotalsCurrent(Run(doc, FlushPlan(us)).doc)
  {
    var a, b, c := ItemPart(ItemIds(us)), HourlyPart(HourlyIds(us)), DisplayPart(us);
    assert CalcPart(us) == [RecalcTotals];
    Associate([RecalcTotals], a, b, c);
    RecalcFirstLeavesTotalsCurrent(doc, a + b + c);
  }

  /** Running p + q after a successful p is running q from where p left off. */
  lemma {:induction false} RunFrom(doc: Node, p: seq<Action>, q: seq<Action>)
    requires !Run(doc, p).failed
    ensures Run(doc, p + q).doc == Run(Run(doc, p).doc, q).doc
    ensures Run(doc, p + q).failed == Run(Run(doc, p).doc, q).failed
    decreases |q|
  {
    if |q| == 0 {
      assert p + q == p;
    } else {
      var q' := q[..|q| - 1];
      assert (p + q)[..|p + q| - 1] == p + q';
      RunFrom(doc, p, q');
    }
  }

  // ---------------------------------------------------------------------------
  // Performance metrics

  /** Appending a measurement, dropping the oldest once the window exceeds 100. */
  function RecordTime(w: seq<real>, t: real): (r: seq<real>)
    ensures |w| <= WindowSize ==> |r| <= WindowSize
    ensures 0 < |r| <= |w| + 1 && r[|r| - 1] == t
    ensures r == (w + [t])[|w| + 1 - |r|..]
    ensures |w| < WindowSize ==> r == w + [t]
  {
    var pushed := w + [t];
    if |pushed| > WindowSize then pushed[1..] else pushed
  }

  /** The last n entries of s (all of s when it is shorter). */
  function LastN(s: seq<real>, n: nat): seq<real> {
    if |s| <= n then s else s[|s| - n..]
  }

  /** A window of at most 100 entries is always the last 100 measurements. */
  lemma RecordTimeKeepsLast(w: seq<real>, earlier: seq<real>, t: real)
    requires |w| <= WindowSize
    requires w == LastN(earlier, WindowSize)
    ensures RecordTime(w, t) == LastN(earlier + [t], WindowSize)
  {
    if |earlier| > WindowSize {
      assert (earlier + [t])[|earlier| + 1 - WindowSize..] == earlier[|earlier| - WindowSize..][1..] + [t];
    }
  }

  function Sum(w: seq<real>): real
    decreases |w|
  {
    if |w| == 0 then 0.0 else Sum(w[..|w| - 1]) + w[|w| - 1]
  }

  /** The mean of a window; 0 for an empty one. */
  function Average(w: seq<real>): real {
    if |w| == 0 then 0.0 else Sum(w) / (|w| as real)
  }

  /** The largest entry and 0, as `Math.max(...w, 0)`. */
  function MaxOrZero(w: seq<real>): (m: real)
    ensures m >= 0.0
    ensures forall i :: 0 <= i < |w| ==> w[i] <= m
    ensures m == 0.0 || m in w
    decreases |w|
  {
    if |w| == 0 then 0.0
    else
      var m := MaxOrZero(w[..|w| - 1]);
      if w[|w| - 1] > m then w[|w| - 1] else m
  }

  lemma {:induction false} SumBounded(w: seq<real>, m: real)
    requires forall i :: 0 <= i < |w| ==> 0.0 <= w[i] <= m
    ensures 0.0 <= Sum(w) <= (|w| as real) * m
    decreases |w|
  {
    if |w| > 0 {
      SumBounded(w[..|w| - 1], m);
    }
  }

  lemma DivideBounds(s: real, n: real, m: real)
    requires n > 0.0 && 0.0 <= s <= n * m
    ensures 0.0 <= s / n <= m
  {
    var q := s / n;
    assert q * n == s;
    if q > m {
      assert q * n > m * n;
    }
  }

  /** For non-negative measurements the average lies between 0 and the maximum. */
  lemma AverageBounds(w: seq<real>)
    requires forall i :: 0 <= i < |w| ==> w[i] >= 0.0
    ensures 0.0 <= Average(w) <= MaxOrZero(w)
  {
    if |w| > 0 {
      var m := MaxOrZero(w);
      SumBounded(w, m);
      DivideBounds(Sum(w), |w| as real, m);
    }
  }

  /** The worked example: 10, 20 and 30 ms average 20 with a maximum of 30. */
  lemma MetricsExample()
    ensures Average([10.0, 20.0, 30.0]) == 20.0
    ensures MaxOrZero([10.0, 20.0, 30.0]) == 30.0
    ensures Average([]) == 0.0 && MaxOrZero([]) == 0.0
  {
    assert [10.0, 20.0, 30.0][..2] == [10.0, 20.0];
    assert [10.0, 20.0][..1] == [10.0];
    assert [10.0][..0] == [];
    assert Sum([10.0, 20.0, 30.0]) == 60.0;
  }

  datatype Metrics = Metrics(
    averageCalculationTime: real,
    averageUpdateTime: real,
    totalCalculations: nat,
    totalUpdates: nat,
    maxCalculationTime: real,
    maxUpdateTime: real)

  /** What the performance check reports after a flush. */
  datatype Notice = SlowCalculations(average: real) | SlowUpdate(time: real, reason: string) | UpdateFailed

  function PerformanceNotices(calculationTimes: seq<real>, updateTime: real, reason: string): seq<Notice> {
    (if Average(calculationTimes) > MaxCalculationTime then [SlowCalculations(Average(calculationTimes))] else []) +
    (if updateTime > MaxUpdateTime then [SlowUpdate(updateTime, reason)] else [])
  }

  // ---------------------------------------------------------------------------
  // The scheduler

  class ReactiveSystem {
    const store: Store
    var updateQueue: seq<string>
    var isUpdating: bool
    /** The reason given to the pending debounce timer, if one is armed. */
    var debounceTimer: Option<string>
    var calculationTimes: seq<real>
    var updateTimes: seq<real>

    predicate Valid()
      reads this
    {
      Distinct(updateQueue) && |calculationTimes| <= WindowSize && |updateTimes| <= WindowSize
    }

    constructor (store: Store)
      ensures Valid()
      ensures this.store == store && updateQueue == [] && !isUpdating && debounceTimer.None?
      ensures calculationTimes == [] && updateTimes == []
    {
      this.store := store;
      updateQueue, isUpdating, debounceTimer := [], false, None;
      calculationTimes, updateTimes := [], [];
    }

    /** Adds a key and restarts the debounce timer. */
    method Request(key: string, reason: string)
      requires Valid()
      modifies this
      ensures Valid()
      ensures updateQueue == Enqueue(old(updateQueue), key) && debounceTimer == Some(reason)
      ensures isUpdating == old(isUpdating)
      ensures calculationTimes == old(calculationTimes) && updateTimes == old(updateTimes)
    {
      updateQueue := Enqueue(updateQueue, key);
      DebounceUpdate(reason);
    }

    /** Cancels any pending timer and arms a single new one for `reason`. */
    method DebounceUpdate(reason: string)
      modifies this
      ensures debounceTimer == Some(reason)
      ensures updateQueue == old(updateQueue) && isUpdating == old(isUpdating)
      ensures calculationTimes == old(calculationTimes) && updateTimes == old(updateTimes)
    {
      debounceTimer := Some(reason);
    }

    method ScheduleCalculationUpdate(reason: string)
      requires Valid()
      modifies this
      ensures Valid()
      ensures updateQueue == Enqueue(old(updateQueue), Calculations) && debounceTimer == Some(reason)
      ensures isUpdating == old(isUpdating)
      ensures calculationTimes == old(calculationTimes) && updateTimes == old(updateTimes)
    {
      Request(Calculations, reason);
    }

    method ScheduleDisplayUpdate(reason: string)
      requires Valid()
      modifies this
      ensures Valid()
      ensures updateQueue == Enqueue(old(updateQueue), Display) && debounceTimer == Some(reason)
      ensures isUpdating == old(isUpdating)
      ensures calculationTimes == old(calculationTimes) && updateTimes == old(updateTimes)
    {
      Request(Display, reason);
    }

    method ScheduleItemUpdate(itemId: string)
      requires Valid()
      modifies this
      ensures Valid()
      ensures updateQueue == Enqueue(old(updateQueue), ItemKey(itemId)) && debounceTimer == Some("item-update")
      ensures isUpdating == old(isUpdating)
      ensures calculationTimes == old(calculationTimes) && updateTimes == old(updateTimes)
    {
      Request(ItemKey(itemId), "item-update");
    }

    method ScheduleHourlyUpdate(itemId: string)
      requires Valid()
      modifies this
      ensures Valid()
      ensures updateQueue == Enqueue(old(updateQueue), HourlyKey(itemId)) && debounceTimer == Some("hourly-update")
      ensures isUpdating == old(isUpdating)
      ensures calculationTimes == old(calculationTimes) && updateTimes == old(updateTimes)
    {
      Request(HourlyKey(itemId), "hourly-update");
    }

    /** Recomputes and stores the totals, recording the calculation time on success. */
    method PerformCalculations(calcTime: real) returns (ok: bool)
      requires Valid()
      modifies this, store
      ensures Valid()
      ensures Edit(store.state, ok) == CalculateTotalsDoc(old(store.state))
      ensures calculationTimes == if ok then RecordTime(old(calculationTimes), calcTime) else old(calculationTimes)
      ensures updateQueue == old(updateQueue) && isUpdating == old(isUpdating)
      ensures debounceTimer == old(debounceTimer) && updateTimes == old(updateTimes)
    {
      ghost var doc := store.state;
      var items, hourlyItems := ItemsOf(store.state), HourlyOf(store.state);
      if items.None? || hourlyItems.None? {
        return false;
      }
      var totals := TotalsNode(FinalTotals(items.value, hourlyItems.value));
      assert CalculateTotalsDoc(doc) == Edit(Put(doc, ["invoice", "totals"], totals), true);
      var _ := store.UpdateState(["invoice", "totals"], totals);
      ok := true;
      calculationTimes := RecordTime(calculationTimes, calcTime);
    }

    method UpdateItemDisplay(itemId: string) returns (ok: bool)
      modifies store
      ensures Edit(store.state, ok) == Perform(old(store.state), RefreshItem(itemId))
    {
      var items := ItemsOf(store.state);
      if items.None? {
        return false;
      }
      var k := FindItem(items.value, itemId);
      if k.None? {
        return true;
      }
      var _ := store.UpdateState(["invoice", "items"], Leaf(ItemList(RefreshLine(items.value, itemId))));
      ok := true;
    }

    method UpdateHourlyDisplay(itemId: string) returns (ok: bool)
      modifies store
      ensures Edit(store.state, ok) == Perform(old(store.state), RefreshHourly(itemId))
    {
      var items := HourlyOf(store.state);
      if items.None? {
        return false;
      }
      var k := FindHourly(items.value, itemId);
      if k.None? {
        return true;
      }
      var _ := store.UpdateState(["invoice", "hourlyItems"], Leaf(HourlyList(RefreshHourlyLine(items.value, itemId))));
      ok := true;
    }

    method UpdateGeneralDisplay() returns (ok: bool)
      ensures Edit(store.state, ok) == Perform(store.state, RefreshGeneral)
    {
      ok := TotalsDisplayable(store.state);
    }

    /** The item phase: refreshes the items of `itemIds` in order, stopping at a step
        that throws (or not starting when an earlier phase threw). */
    method RefreshItems(itemIds: seq<string>, ghost doc0: Node, ghost plan: seq<Action>, out: FlushOutcome)
      returns (out': FlushOutcome)
      requires out == Run(doc0, plan) && store.state == out.doc
      modifies store
      ensures out' == Run(doc0, plan + ItemPart(itemIds)) && store.state == out'.doc
    {
      out' := out;
      var i := 0;
      assert plan + ItemPart(itemIds)[..0] == plan;
      while i < |itemIds| && !out'.failed
        invariant 0 <= i <= |itemIds|
        invariant out' == Run(doc0, plan + ItemPart(itemIds)[..i]) && store.state == out'.doc
      {
        var ok := UpdateItemDisplay(itemIds[i]);
        RunStep(doc0, plan + ItemPart(itemIds)[..i], RefreshItem(itemIds[i]));
        PartGrows(plan, ItemPart(itemIds), i);
        out' := FlushOutcome(store.state, out'.done + (if ok then [RefreshItem(itemIds[i])] else []), !ok);
        i := i + 1;
      }
      PhaseEnds(doc0, plan, ItemPart(itemIds), i);
    }

    /** The hourly phase, as the item phase. */
    method RefreshHourlies(hourlyIds: seq<string>, ghost doc0: Node, ghost plan: seq<Action>, out: FlushOutcome)
      returns (out': FlushOutcome)
      requires out == Run(doc0, plan) && store.state == out.doc
      modifies store
      ensures out' == Run(doc0, plan + HourlyPart(hourlyIds)) && store.state == out'.doc
    {
      out' := out;
      var j := 0;
      assert plan + HourlyPart(hourlyIds)[..0] == plan;
      while j < |hourlyIds| && !out'.failed
        invariant 0 <= j <= |hourlyIds|
        invariant out' == Run(doc0, plan + HourlyPart(hourlyIds)[..j]) && store.state == out'.doc
      {
        var ok := UpdateHourlyDisplay(hourlyIds[j]);
        RunStep(doc0, plan + HourlyPart(hourlyIds)[..j], RefreshHourly(hourlyIds[j]));
        PartGrows(plan, HourlyPart(hourlyIds), j);
        out' := FlushOutcome(store.state, out'.done + (if ok then [RefreshHourly(hourlyIds[j])] else []), !ok);
        j := j + 1;
      }
      PhaseEnds(doc0, plan, HourlyPart(hourlyIds), j);
    }

    /** The recalculation phase: runs only when 'calculations' was queued. */
    method RecalculationPhase(updates: seq<string>, calcTime: real) returns (out: FlushOutcome)
      requires Valid()
      modifies this, store
      ensures Valid()
      ensures out == Run(old(store.state), CalcPart(updates)) && store.state == out.doc
      ensures calculationTimes == (if Calculations in updates && CalculateTotalsDoc(old(store.state)).ok
                                   then RecordTime(old(calculationTimes), calcTime) else old(calculationTimes))
      ensures updateTimes == old(updateTimes)
      ensures updateQueue == old(updateQueue) && isUpdating == old(isUpdating)
      ensures debounceTimer == old(debounceTimer)
    {
      out := FlushOutcome(store.state, [], false);
      if Calculations in updates {
        ghost var doc0 := store.state;
        RunSingle(doc0, RecalcTotals);
        var ok := PerformCalculations(calcTime);
        out := FlushOutcome(store.state, if ok then [RecalcTotals] else [], !ok);
      }
    }

    /** The general refresh phase: runs only when 'display' was queued and nothing threw. */
    method DisplayPhase(updates: seq<string>, ghost doc0: Node, ghost plan: seq<Action>, out: FlushOutcome)
      returns (out': FlushOutcome)
      requires out == Run(doc0, plan) && store.state == out.doc
      ensures out' == Run(doc0, plan + DisplayPart(updates)) && store.state == out'.doc
    {
      out' := out;
      if Display in updates {
        if out.failed {
          RunStopsAtFailure(doc0, plan, [RefreshGeneral]);
        } else {
          var ok := UpdateGeneralDisplay();
          RunStep(doc0, plan, RefreshGeneral);
          out' := FlushOutcome(store.state, out.done + (if ok then [RefreshGeneral] else []), !ok);
        }
      } else {
        assert plan + DisplayPart(updates) == plan;
      }
    }

    /** Flushes the queue. While a flush is running a new one returns at once. */
    method ProcessUpdateQueue(reason: string, calcTime: real, updateTime: real) returns (notices: seq<Notice>)
      requires Valid()
      modifies this, store
      ensures Valid()
      ensures debounceTimer == old(debounceTimer)
      ensures old(isUpdating) ==>
        && notices == [] && isUpdating
        && store.state == old(store.state) && updateQueue == old(updateQueue)
        && calculationTimes == old(calculationTimes) && updateTimes == old(updateTimes)
      ensures !old(isUpdating) ==>
        var out := Run(old(store.state), FlushPlan(old(updateQueue)));
        && store.state == out.doc
        && updateQueue == []
        && !isUpdating
        && calculationTimes == (if Calculations in old(updateQueue) && CalculateTotalsDoc(old(store.state)).ok
                                then RecordTime(old(calculationTimes), calcTime) else old(calculationTimes))
        && updateTimes == (if out.failed then old(updateTimes) else RecordTime(old(updateTimes), updateTime))
        && notices == (if out.failed then [UpdateFailed]
                       else PerformanceNotices(calculationTimes, updateTime, reason))
    {
      if isUpdating {
        return [];
      }
      isUpdating := true;
      var updates := updateQueue;
      updateQueue := [];
      ghost var doc0 := store.state;
      var out := RecalculationPhase(updates, calcTime);
      out := RefreshItems(ItemIds(updates), doc0, CalcPart(updates), out);
      out := RefreshHourlies(HourlyIds(updates), doc0, CalcPart(updates) + ItemPart(ItemIds(updates)), out);
      out := DisplayPhase(updates, doc0,
                          CalcPart(updates) + ItemPart(ItemIds(updates)) + HourlyPart(HourlyIds(updates)), out);
      assert out == Run(doc0, FlushPlan(updates));

      if out.failed {
        notices := [UpdateFailed];
      } else {
        updateTimes := RecordTime(updateTimes, updateTime);
        notices := PerformanceNotices(calculationTimes, updateTime, reason);
      }
      isUpdating := false;
    }

    /** The debounce timer expires and flushes the queue with the reason it was armed with. */
    method TimerFires(calcTime: real, updateTime: real) returns (notices: seq<Notice>)
      requires Valid() && debounceTimer.Some?
      modifies this, store
      ensures Valid()
      ensures debounceTimer.None?
      ensures old(isUpdating) ==>
        && notices == [] && isUpdating
        && store.state == old(store.state) && updateQueue == old(updateQueue)
        && calculationTimes == old(calculationTimes) && updateTimes == old(updateTimes)
      ensures !old(isUpdating) ==>
        var out := Run(old(store.state), FlushPlan(old(updateQueue)));
        && store.state == out.doc
        && updateQueue == [] && !isUpdating
        && calculationTimes == (if Calculations in old(updateQueue) && CalculateTotalsDoc(old(store.state)).ok
                                then RecordTime(old(calculationTimes), calcTime) else old(calculationTimes))
        && updateTimes == (if out.failed then old(updateTimes) else RecordTime(old(updateTimes), updateTime))
        && notices == (if out.failed then [UpdateFailed]
                       else PerformanceNotices(calculationTimes, updateTime, old(debounceTimer).value))
    {
      var reason := debounceTimer.value;
      debounceTimer := None;
      notices := ProcessUpdateQueue(reason, calcTime, updateTime);
    }

    /** Queues a full recalculation and display refresh and flushes at once. */
    method ForceUpdate(calcTime: real, updateTime: real) returns (notices: seq<Notice>)
      requires Valid()
      modifies this, store
      ensures Valid()
      ensures debounceTimer == old(debounceTimer)
      ensures old(isUpdating) ==>
        && notices == [] && isUpdating
        && store.state == old(store.state)
        && updateQueue == Enqueue(Enqueue(old(updateQueue), Calculations), Display)
        && calculationTimes == old(calculationTimes) && updateTimes == old(updateTimes)
      ensures !old(isUpdating) ==>
        var us := Enqueue(Enqueue(old(updateQueue), Calculations), Display);
        var out := Run(old(store.state), FlushPlan(us));
        && store.state == out.doc
        && updateQueue == [] && !isUpdating
        && calculationTimes == (if CalculateTotalsDoc(old(store.state)).ok
                                then RecordTime(old(calculationTimes), calcTime) else old(calculationTimes))
        && updateTimes == (if out.failed then old(updateTimes) else RecordTime(old(updateTimes), updateTime))
        && notices == (if out.failed then [UpdateFailed]
                       else PerformanceNotices(calculationTimes, updateTime, "force-update"))
    {
      updateQueue := Enqueue(updateQueue, Calculations);
      updateQueue := Enqueue(updateQueue, Display);
      notices := ProcessUpdateQueue("force-update", calcTime, updateTime);
    }

    /** The current metrics: averages, counts and maxima of the two windows. */
    function GetPerformanceMetrics(): (m: Metrics)
      requires Valid()
      reads this
      ensures m.totalCalculations == |calculationTimes| <= WindowSize
      ensures m.totalUpdates == |updateTimes| <= WindowSize
      ensures m.averageCalculationTime == Average(calculationTimes)
      ensures m.averageUpdateTime == Average(updateTimes)
      ensures forall i :: 0 <= i < |calculationTimes| ==> calculationTimes[i] <= m.maxCalculationTime
      ensures forall i :: 0 <= i < |updateTimes| ==> updateTimes[i] <= m.maxUpdateTime
      ensures m.maxCalculationTime >= 0.0 && m.maxUpdateTime >= 0.0
    {
      Metrics(Average(calculationTimes), Average(updateTimes), |calculationTimes|, |updateTimes|,
              MaxOrZero(calculationTimes), MaxOrZero(updateTimes))
    }

    method ResetPerformanceMetrics()
      modifies this
      ensures calculationTimes == [] && updateTimes == []
      ensures updateQueue == old(updateQueue) && isUpdating == old(isUpdating)
      ensures debounceTimer == old(debounceTimer)
    {
      calculationTimes, updateTimes := [], [];
    }
  }
}
