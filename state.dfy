/**
 * The invoice document store: a nested document addressed by key paths,
 * a path write that creates missing intermediate objects, a shallow
 * top-level merge, the initial document, and the two item validators.
 */
module State {
  import opened Wrappers
  import opened ItemCalculator
  import opened HourlyCalculator
  import opened TotalCalculator

  /** Scalar and list values held at the leaves of the document. */
  datatype Value =
    | Str(s: string)
    | Num(x: real)
    | Bool(b: bool)
    | Null
    | Date(millis: int)
    | ItemList(items: seq<LineItem>)
    | HourlyList(hourlyItems: seq<HourlyItem>)

  /** A document node: a leaf value or an object with named members. */
  datatype Node = Leaf(value: Value) | Obj(fields: map<string, Node>)

  /** A key path, as produced by splitting a dotted path: never empty. */
  type Path = p: seq<string> | |p| >= 1 witness [""]

  /** JavaScript truthiness: objects, arrays and dates are truthy; "", 0, false and null are not. */
  predicate Truthy(n: Node) {
    match n
    case Obj(_) => true
    case Leaf(v) =>
      match v
      case Str(s) => s != ""
      case Num(x) => x != 0.0
      case Bool(b) => b
      case Null => false
      case _ => true
  }

  // ---------------------------------------------------------------------------
  // Reading and writing by path

  /** Reads the node at `path`; only objects have members. */
  function Get(n: Node, path: seq<string>): Option<Node>
    decreases |path|
  {
    if |path| == 0 then Some(n)
    else match n
      case Obj(m) => if path[0] in m then Get(m[path[0]], path[1..]) else None
      case Leaf(_) => None
  }

  /** The node the path walk moves to: an existing truthy member is reused,
      a missing or falsy one is replaced by a fresh empty object. */
  function Child(n: Node, key: string): Node {
    if n.Obj? && key in n.fields && Truthy(n.fields[key]) then n.fields[key] else Obj(map[])
  }

  /** Member assignment: sets `key` on an object; on a leaf it has no effect. */
  function SetKey(n: Node, key: string, v: Node): Node {
    match n
    case Obj(m) => Obj(m[key := v])
    case Leaf(_) => n
  }

  /** The document after writing `v` at `path`. */
  function Put(n: Node, path: Path, v: Node): Node
    decreases |path|
  {
    if |path| == 1 then SetKey(n, path[0], v)
    else SetKey(n, path[0], Put(Child(n, path[0]), path[1..], v))
  }

  /** The walk along `path` meets only objects, so the write lands. */
  predicate Writable(n: Node, path: Path)
    decreases |path|
  {
    n.Obj? && (|path| == 1 || Writable(Child(n, path[0]), path[1..]))
  }

  /** The node reached after `i` steps of the walk. */
  function Descend(n: Node, path: Path, i: nat): Node
    requires i < |path|
  {
    if i == 0 then n else Child(Descend(n, path, i - 1), path[i - 1])
  }

  /** One step of the write, seen from step `i` of the walk. */
  lemma PutFrom(n: Node, path: Path, v: Node, i: nat)
    requires i < |path| - 1
    ensures Put(Descend(n, path, i), path[i..], v)
         == SetKey(Descend(n, path, i), path[i], Put(Descend(n, path, i + 1), path[i + 1..], v))
  {
    assert path[i..][1..] == path[i + 1..];
  }

  /** Under a fresh empty object every path is writable. */
  lemma {:induction false} FreshWritable(path: Path)
    ensures Writable(Obj(map[]), path)
    decreases |path|
  {
    if |path| > 1 {
      FreshWritable(path[1..]);
    }
  }

  /** Read after write: a landed write is visible at its path. */
  lemma {:induction false} ReadAfterWrite(n: Node, path: Path, v: Node)
    requires Writable(n, path)
    ensures Get(Put(n, path, v), path) == Some(v)
    decreases |path|
  {
    if |path| > 1 {
      ReadAfterWrite(Child(n, path[0]), path[1..], v);
    }
  }

  /** A write whose walk meets a leaf leaves the document unchanged. */
  lemma {:induction false} PutLandsOrIgnored(n: Node, path: Path, v: Node)
    ensures !Writable(n, path) ==> Put(n, path, v) == n
    decreases |path|
  {
    if !Writable(n, path) && n.Obj? {
      var k := path[0];
      var c := Child(n, k);
      assert |path| > 1 && !Writable(c, path[1..]);
      if !(k in n.fields && Truthy(n.fields[k])) {
        FreshWritable(path[1..]);
        assert false;
      }
      PutLandsOrIgnored(c, path[1..], v);
      assert n.fields[k := c] == n.fields;
    }
  }

  /** The walk reaches a leaf before the last key. When the leaf is a primitive the
      loop of the source then reads a member of `undefined`, at the next step or in the
      final assignment, and throws a TypeError. The lists and the date are leaves here
      but objects in the source, which walks into them. */
  predicate WalkThrows(n: Node, path: Path) {
    exists i :: 0 <= i < |path| - 1 && Descend(n, path, i).Leaf?
  }

  /** The walk along a path, seen from its second step. */
  lemma {:induction false} DescendShift(n: Node, path: Path, i: nat)
    requires |path| > 1 && i < |path| - 1
    ensures Descend(n, path, i + 1) == Descend(Child(n, path[0]), path[1..], i)
    decreases i
  {
    if i > 0 {
      DescendShift(n, path, i - 1);
      assert path[1..][i - 1] == path[i];
    }
  }

  /** Every node of the walk, the last included, is an object. */
  predicate WalkAllObjects(n: Node, path: Path) {
    forall i :: 0 <= i < |path| ==> Descend(n, path, i).Obj?
  }

  /** A write lands exactly when every node of the walk is an object. */
  lemma {:induction false} WritableIff(n: Node, path: Path)
    ensures Writable(n, path) <==> WalkAllObjects(n, path)
    decreases |path|
  {
    assert Descend(n, path, 0) == n;
    if |path| > 1 {
      var c := Child(n, path[0]);
      var tail: Path := path[1..];
      WritableIff(c, tail);
      if WalkAllObjects(n, path) {
        forall i | 0 <= i < |tail|
          ensures Descend(c, tail, i).Obj?
        {
          DescendShift(n, path, i);
          assert Descend(n, path, i + 1).Obj?;
        }
        assert WalkAllObjects(c, tail);
      }
      if Writable(n, path) {
        assert WalkAllObjects(c, tail);
        forall i | 0 <= i < |path|
          ensures Descend(n, path, i).Obj?
        {
          if i > 0 {
            DescendShift(n, path, i - 1);
            assert Descend(c, tail, i - 1).Obj?;
          }
        }
      }
    }
  }

  /** One of the first `i` nodes of the walk is a leaf. */
  predicate LeafBefore(n: Node, path: Path, i: nat)
    requires i <= |path|
    decreases i
  {
    i > 0 && (LeafBefore(n, path, i - 1) || Descend(n, path, i - 1).Leaf?)
  }

  lemma {:induction false} LeafBeforeIff(n: Node, path: Path, i: nat)
    requires i <= |path|
    ensures LeafBefore(n, path, i) <==> exists j :: 0 <= j < i && Descend(n, path, j).Leaf?
    decreases i
  {
    if i > 0 {
      LeafBeforeIff(n, path, i - 1);
      if Descend(n, path, i - 1).Leaf? {
        assert exists j :: 0 <= j < i && Descend(n, path, j).Leaf?;
      }
    }
  }

  /** A throwing write changes nothing. */
  lemma ThrowingWriteUnchanged(n: Node, path: Path, v: Node)
    requires WalkThrows(n, path)
    ensures Put(n, path, v) == n
  {
    PathWriteOutcomes(n, path, v);
  }

  /** The three outcomes of a path write: it lands; or the walk meets a leaf at the
      last step, where the assignment is silently dropped; or it meets one earlier and
      throws. In the last two cases the document is unchanged. */
  lemma PathWriteOutcomes(n: Node, path: Path, v: Node)
    ensures Writable(n, path) ==> !WalkThrows(n, path)
    ensures !Writable(n, path) && !WalkThrows(n, path) ==> Descend(n, path, |path| - 1).Leaf?
    ensures !Writable(n, path) ==> Put(n, path, v) == n
    ensures |path| == 2 ==> (WalkThrows(n, path) <==> n.Leaf?)
  {
    WritableIff(n, path);
    PutLandsOrIgnored(n, path, v);
    if Writable(n, path) {
      assert forall i :: 0 <= i < |path| - 1 ==> !Descend(n, path, i).Leaf?;
    }
    if |path| == 2 && n.Leaf? {
      assert Descend(n, path, 0).Leaf?;
    }
  }

  /** On the initial document a write below the currency string, two keys below it,
      throws; one key below it is silently dropped. */
  lemma CurrencyWalkExamples(date: int, v: Node)
    ensures WalkThrows(InitialState(date), ["invoice", "currency", "a", "b"])
    ensures !WalkThrows(InitialState(date), ["invoice", "currency", "a"])
    ensures Put(InitialState(date), ["invoice", "currency", "a"], v) == InitialState(date)
  {
    var d := InitialState(date);
    var p4: Path := ["invoice", "currency", "a", "b"];
    var p3: Path := ["invoice", "currency", "a"];
    var inv := d.fields["invoice"];
    assert Descend(d, p4, 1) == inv;
    assert Descend(d, p4, 2) == S("EUR");
    assert Descend(d, p3, 1) == inv;
    assert Descend(d, p3, 2) == S("EUR");
    assert !Descend(d, p3, 0).Leaf? && !Descend(d, p3, 1).Leaf?;
    PathWriteOutcomes(d, p3, v);
    WritableIff(d, p3);
  }

  /** Reading below a missing or falsy node finds nothing. */
  lemma GetBelowFresh(q: seq<string>)
    requires |q| > 0
    ensures Get(Obj(map[]), q) == None
  {
  }

  /** Nothing off the path changes: a path `q` that agrees with `path` on the first
      `i` keys and then differs reads the same before and after the write. */
  lemma {:induction false} PutOffPath(n: Node, path: Path, v: Node, q: seq<string>, i: nat)
    requires i < |path| && i < |q|
    requires q[..i] == path[..i] && q[i] != path[i]
    ensures Get(Put(n, path, v), q) == Get(n, q)
    decreases i
  {
    var k := path[0];
    if n.Obj? && i > 0 {
      assert q[0] == k by { assert q[..i][0] == path[..i][0]; }
      var c := Child(n, k);
      assert q[1..][..i - 1] == path[1..][..i - 1] by {
        assert q[1..][..i - 1] == q[..i][1..];
        assert path[1..][..i - 1] == path[..i][1..];
      }
      PutOffPath(c, path[1..], v, q[1..], i - 1);
      if !(k in n.fields && Truthy(n.fields[k])) {
        GetBelowFresh(q[1..]);
      }
    }
  }

  /** Keys of an intermediate object that the walk keeps. */
  function KeptKeys(o: Option<Node>): set<string> {
    match o
    case Some(Obj(m)) => m.Keys
    case _ => {}
  }

  /** Every intermediate of a landed write is an object afterwards: an existing object
      keeps its keys and gains the next key; a missing or falsy one becomes a new
      object holding only the next key. */
  lemma {:induction false} PutIntermediates(n: Node, path: Path, v: Node, i: nat)
    requires Writable(n, path)
    requires 1 <= i < |path|
    ensures var r := Get(Put(n, path, v), path[..i]);
            r.Some? && r.value.Obj? && r.value.fields.Keys == KeptKeys(Get(n, path[..i])) + {path[i]}
    decreases i
  {
    var k := path[0];
    var c := Child(n, k);
    var rest: Path := path[1..];
    assert Writable(c, rest);
    assert Put(n, path, v) == Obj(n.fields[k := Put(c, rest, v)]);
    if i == 1 {
      assert path[..1] == [k];
      assert Get(Put(n, path, v), [k]) == Get(Put(c, rest, v), []);
      assert Get(n, [k]) == if k in n.fields then Get(n.fields[k], []) else None;
      if |rest| > 1 {
        assert Put(c, rest, v) == SetKey(c, rest[0], Put(Child(c, rest[0]), rest[1..], v));
      }
    } else {
      PutIntermediates(c, rest, v, i - 1);
      assert path[..i][1..] == rest[..i - 1];
      assert Get(Put(n, path, v), path[..i]) == Get(Put(c, rest, v), rest[..i - 1]);
      if k in n.fields && Truthy(n.fields[k]) {
        assert Get(n, path[..i]) == Get(c, rest[..i - 1]);
      } else {
        GetBelowFresh(rest[..i - 1]);
        if k in n.fields {
          assert n.fields[k].Leaf?;
        }
        assert Get(n, path[..i]) == None;
      }
    }
  }

  /** Two writes to paths that part ways are both retained, as with successive
      writes to different company fields. */
  lemma SuccessiveWritesRetained(n: Node, p1: Path, v1: Node, p2: Path, v2: Node, i: nat)
    requires Writable(n, p1)
    requires i < |p1| && i < |p2| && p1[..i] == p2[..i] && p1[i] != p2[i]
    ensures Get(Put(Put(n, p1, v1), p2, v2), p1) == Some(v1)
  {
    ReadAfterWrite(n, p1, v1);
    PutOffPath(Put(n, p1, v1), p2, v2, p1, i);
  }

  /** Shallow merge of new top-level keys over the document, right-biased. */
  function Merge(n: Node, newState: map<string, Node>): (r: Node)
    ensures r.Obj?
    ensures r.fields.Keys == newState.Keys + (if n.Obj? then n.fields.Keys else {})
    ensures forall k :: k in newState ==> r.fields[k] == newState[k]
    ensures n.Obj? ==> forall k :: k in n.fields && k !in newState ==> r.fields[k] == n.fields[k]
  {
    Obj((if n.Obj? then n.fields else map[]) + newState)
  }

  // ---------------------------------------------------------------------------
  // The initial document and typed accessors

  function S(s: string): Node { Leaf(Str(s)) }

  function TotalsNode(t: Totals): Node {
    Obj(map["subtotalHT" := Leaf(Num(t.subtotalHT)),
            "totalDiscount" := Leaf(Num(t.totalDiscount)),
            "totalVAT" := Leaf(Num(t.totalVAT)),
            "totalTTC" := Leaf(Num(t.totalTTC))])
  }

  function NumField(n: Node, key: string): Option<real> {
    if n.Obj? && key in n.fields && n.fields[key].Leaf? && n.fields[key].value.Num?
    then Some(n.fields[key].value.x) else None
  }

  /** Reads a totals object back: all four members must be numbers. */
  function ReadTotals(n: Node): (r: Option<Totals>)
    ensures r.Some? <==> NumField(n, "subtotalHT").Some? && NumField(n, "totalDiscount").Some? &&
                         NumField(n, "totalVAT").Some? && NumField(n, "totalTTC").Some?
  {
    match (NumField(n, "subtotalHT"), NumField(n, "totalDiscount"), NumField(n, "totalVAT"), NumField(n, "totalTTC"))
    case (Some(a), Some(b), Some(c), Some(d)) => Some(Totals(a, b, c, d))
    case _ => None
  }

  lemma TotalsRoundTrip(t: Totals)
    ensures ReadTotals(TotalsNode(t)) == Some(t)
  {
  }

  /** The document at session start; `date` stands for the clock reading of `new Date()`. */
  function InitialState(date: int): Node {
    Obj(map["invoice" := Obj(map[
      "id" := S(""),
      "number" := S(""),
      "date" := Leaf(Date(date)),
      "company" := Obj(map[
        "name" := S(""), "logo" := Leaf(Null), "address" := S(""),
        "phone" := S(""), "email" := S(""), "legalInfo" := S("")]),
      "items" := Leaf(ItemList([])),
      "hourlyItems" := Leaf(HourlyList([])),
      "totals" := TotalsNode(Totals(0.0, 0.0, 0.0, 0.0)),
      "theme" := S("default"),
      "currency" := S("EUR"),
      "customization" := Obj(map[
        "textColor" := S("#000000"),
        "backgroundColor" := S("#ffffff"),
        "autoUppercase" := Leaf(Bool(false)),
        "columnTitles" := Obj(map[
          "reference" := S("Référence"), "description" := S("Description"),
          "quantity" := S("Quantité"), "unitPrice" := S("Prix unitaire"), "total" := S("Total")]),
        "footerText" := S(""),
        "paymentMethod" := S("")])])])
  }

  /** The members of the `invoice` object, when it is one. */
  function InvoiceOf(doc: Node): Option<map<string, Node>> {
    match Get(doc, ["invoice"])
    case Some(Obj(m)) => Some(m)
    case _ => None
  }

  /** `invoice.items`, when it is a list of standard items. */
  function ItemsOf(doc: Node): Option<seq<LineItem>> {
    match Get(doc, ["invoice", "items"])
    case Some(Leaf(ItemList(s))) => Some(s)
    case _ => None
  }

  /** `invoice.hourlyItems`, when it is a list of hourly services. */
  function HourlyOf(doc: Node): Option<seq<HourlyItem>> {
    match Get(doc, ["invoice", "hourlyItems"])
    case Some(Leaf(HourlyList(s))) => Some(s)
    case _ => None
  }

  /** `invoice.totals`, when all four members are numbers. */
  function TotalsOf(doc: Node): Option<Totals> {
    match Get(doc, ["invoice", "totals"])
    case Some(n) => ReadTotals(n)
    case None => None
  }

  /** The members of the initial `invoice` object. */
  lemma InitialInvoiceMember(date: int, key: string)
    requires key in InitialState(date).fields["invoice"].fields
    ensures Get(InitialState(date), ["invoice", key]) == Some(InitialState(date).fields["invoice"].fields[key])
  {
    var p := ["invoice", key];
    var inv := InitialState(date).fields["invoice"];
    assert p[1..] == [key];
    assert Get(inv, [key]) == Get(inv.fields[key], []);
  }

  /** The initial document has no items, zero totals, currency EUR and theme default. */
  lemma InitialStateFacts(date: int)
    ensures ItemsOf(InitialState(date)) == Some([])
    ensures HourlyOf(InitialState(date)) == Some([])
    ensures TotalsOf(InitialState(date)) == Some(Totals(0.0, 0.0, 0.0, 0.0))
    ensures Get(InitialState(date), ["invoice", "currency"]) == Some(S("EUR"))
    ensures Get(InitialState(date), ["invoice", "theme"]) == Some(S("default"))
  {
    var m := InitialState(date).fields["invoice"].fields;
    assert m["items"] == Leaf(ItemList([]));
    assert m["hourlyItems"] == Leaf(HourlyList([]));
    assert m["totals"] == TotalsNode(Totals(0.0, 0.0, 0.0, 0.0));
    assert m["currency"] == S("EUR");
    assert m["theme"] == S("default");
    InitialInvoiceMember(date, "items");
    InitialInvoiceMember(date, "hourlyItems");
    InitialInvoiceMember(date, "totals");
    InitialInvoiceMember(date, "currency");
    InitialInvoiceMember(date, "theme");
    TotalsRoundTrip(Totals(0.0, 0.0, 0.0, 0.0));
  }

  // ---------------------------------------------------------------------------
  // Validation of entries

  /** The characters removed by `String.prototype.trim`: white space and line terminators. */
  predicate IsWhitespace(c: char) {
    c == ' ' || c == '\t' || c == '\n' || c == '\r' || c == '\U{000B}' || c == '\U{000C}' ||
    c == '\U{00A0}' || c == '\U{1680}' || ('\U{2000}' <= c <= '\U{200A}') ||
    c == '\U{2028}' || c == '\U{2029}' || c == '\U{202F}' || c == '\U{205F}' ||
    c == '\U{3000}' || c == '\U{FEFF}'
  }

  /** The string trims to the empty string. */
  predicate IsBlank(s: string) {
    forall i :: 0 <= i < |s| ==> IsWhitespace(s[i])
  }

  /** The member `key` of an object, as a property read. */
  function Field(n: Node, key: string): Option<Node> {
    if n.Obj? && key in n.fields then Some(n.fields[key]) else None
  }

  predicate IsNonBlankText(f: Option<Node>) {
    f.Some? && f.value.Leaf? && f.value.value.Str? && !IsBlank(f.value.value.s)
  }

  predicate IsPositiveNumber(f: Option<Node>) {
    f.Some? && f.value.Leaf? && f.value.value.Num? && f.value.value.x > 0.0
  }

  /** Display validation of a standard item, check by check. */
  predicate ValidateItem(item: Node) {
    if !Truthy(item) then false
    else if !IsNonBlankText(Field(item, "reference")) then false
    else if !IsNonBlankText(Field(item, "description")) then false
    else if !IsPositiveNumber(Field(item, "quantity")) then false
    else if !IsPositiveNumber(Field(item, "unitPrice")) then false
    else true
  }

  /** Display validation of an hourly service, check by check. */
  predicate ValidateHourlyItem(item: Node) {
    if !Truthy(item) then false
    else if !IsNonBlankText(Field(item, "description")) then false
    else if !IsPositiveNumber(Field(item, "hours")) then false
    else if !IsPositiveNumber(Field(item, "hourlyRate")) then false
    else true
  }

  /** A stored standard item as a document object. */
  function ItemNode(it: LineItem): Node {
    Obj(map["id" := S(it.id), "reference" := S(it.reference), "description" := S(it.description),
            "quantity" := Leaf(Num(it.quantity)), "unitPrice" := Leaf(Num(it.unitPrice)),
            "discount" := Leaf(Num(it.discount)), "vatRate" := Leaf(Num(it.vatRate)),
            "lineTotal" := Leaf(Num(it.lineTotal))])
  }

  /** A stored hourly service as a document object. */
  function HourlyNode(it: HourlyItem): Node {
    Obj(map["id" := S(it.id), "description" := S(it.description),
            "hours" := Leaf(Num(it.hours)), "hourlyRate" := Leaf(Num(it.hourlyRate)),
            "total" := Leaf(Num(it.total))])
  }

  /** A stored item is valid iff reference and description are not blank and
      quantity and unit price are positive. */
  lemma ValidateItemIff(it: LineItem)
    ensures ValidateItem(ItemNode(it)) <==>
      !IsBlank(it.reference) && !IsBlank(it.description) && it.quantity > 0.0 && it.unitPrice > 0.0
  {
    var n := ItemNode(it);
    assert Field(n, "reference") == Some(S(it.reference));
    assert Field(n, "description") == Some(S(it.description));
    assert Field(n, "quantity") == Some(Leaf(Num(it.quantity)));
    assert Field(n, "unitPrice") == Some(Leaf(Num(it.unitPrice)));
  }

  /** A stored hourly service is valid iff its description is not blank and
      hours and rate are positive. */
  lemma ValidateHourlyItemIff(it: HourlyItem)
    ensures ValidateHourlyItem(HourlyNode(it)) <==>
      !IsBlank(it.description) && it.hours > 0.0 && it.hourlyRate > 0.0
  {
    var n := HourlyNode(it);
    assert Field(n, "description") == Some(S(it.description));
    assert Field(n, "hours") == Some(Leaf(Num(it.hours)));
    assert Field(n, "hourlyRate") == Some(Leaf(Num(it.hourlyRate)));
  }

  /** A valid item never takes the zeroing branch of the line calculator, and its
      line total is positive unless its discount is exactly 100%. */
  lemma ValidItemIsPriced(it: LineItem)
    requires ValidateItem(ItemNode(it))
    ensures PassesGuard(it.quantity, it.unitPrice)
    ensures it.discount != 100.0 ==> ItemLineTotal(it) > 0.0
  {
    ValidateItemIff(it);
    var d := if it.discount < 0.0 || it.discount > 100.0 then 0.0 else it.discount;
    var v := if it.vatRate < 0.0 then 0.0 else it.vatRate;
    if it.discount != 100.0 {
      LineTotalFormula(it.quantity, it.unitPrice, d, v);
      if d != it.discount {
        LineTotalDiscountClamp(it.quantity, it.unitPrice, it.discount, it.vatRate);
      }
      if v != it.vatRate {
        LineTotalVatClamp(it.quantity, it.unitPrice, d, it.vatRate);
      }
      PositiveProduct(it.quantity, it.unitPrice);
      PositiveProduct(it.quantity * it.unitPrice, 1.0 - d / 100.0);
      PositiveProduct(it.quantity * it.unitPrice * (1.0 - d / 100.0), 1.0 + v / 100.0);
    }
  }

  lemma PositiveProduct(x: real, y: real)
    requires x > 0.0 && y > 0.0
    ensures x * y > 0.0
  {
  }

  /** A valid hourly service has a positive total. */
  lemma ValidHourlyIsPriced(it: HourlyItem)
    requires ValidateHourlyItem(HourlyNode(it))
    ensures ItemHourlyTotal(it) > 0.0
  {
    ValidateHourlyItemIff(it);
    PositiveProduct(it.hours, it.hourlyRate);
  }

  // ---------------------------------------------------------------------------
  // The store

  /** The single owner of the document. */
  /** The loop of `updateState` that walks the path: the nodes passed before the last
      key, the node reached, and whether every node passed is an object. */
  method WalkPath(root: Node, keys: Path) returns (containers: seq<Node>, current: Node, ok: bool)
    ensures |containers| == |keys| - 1
    ensures forall j :: 0 <= j < |containers| ==> containers[j] == Descend(root, keys, j)
    ensures current == Descend(root, keys, |keys| - 1)
    ensures ok <==> !WalkThrows(root, keys)
  {
    current, containers, ok := root, [], true;
    var i := 0;
    while i < |keys| - 1
      invariant 0 <= i <= |keys| - 1
      invariant |containers| == i
      invariant current == Descend(root, keys, i)
      invariant forall j :: 0 <= j < i ==> containers[j] == Descend(root, keys, j)
      invariant ok <==> !LeafBefore(root, keys, i)
    {
      if current.Leaf? {
        ok := false;
      }
      containers := containers + [current];
      current := Child(current, keys[i]);
      i := i + 1;
    }
    LeafBeforeIff(root, keys, |keys| - 1);
  }

  /** The final assignment, then the nodes of the walk rebuilt from the innermost
      outwards, each with its member on the path replaced. */
  method RebuildPath(root: Node, keys: Path, value: Node, containers: seq<Node>, current: Node)
    returns (node: Node)
    requires |containers| == |keys| - 1
    requires forall j :: 0 <= j < |containers| ==> containers[j] == Descend(root, keys, j)
    requires current == Descend(root, keys, |keys| - 1)
    ensures node == Put(root, keys, value)
  {
    var i := |keys| - 1;
    node := SetKey(current, keys[i], value);
    assert keys[i..] == [keys[i]];
    while i > 0
      invariant 0 <= i <= |keys| - 1
      invariant node == Put(Descend(root, keys, i), keys[i..], value)
    {
      i := i - 1;
      PutFrom(root, keys, value, i);
      node := SetKey(containers[i], keys[i], node);
    }
    assert keys[0..] == keys;
  }

  class Store {
    var state: Node

    constructor (date: int)
      ensures state == InitialState(date)
    {
      state := InitialState(date);
    }

    /** Shallow merge of `newState` over the top level of the document. */
    method SetState(newState: map<string, Node>)
      modifies this
      ensures state == Merge(old(state), newState)
    {
      state := Merge(state, newState);
    }

    /** Writes `value` at `path`. The walk collects the nodes it passes; since the
        document is a value, the write then rebuilds them from the innermost outwards.
        When the walk meets a leaf before the last key `ok` is false and the document
        is left as it was: for a primitive leaf the source throws there. */
    method UpdateState(path: Path, value: Node) returns (ok: bool)
      modifies this
      ensures ok <==> !WalkThrows(old(state), path)
      ensures state == Put(old(state), path, value)
    {
      var containers, current;
      containers, current, ok := WalkPath(state, path);
      if !ok {
        ThrowingWriteUnchanged(state, path, value);
        return;
      }
      state := RebuildPath(state, path, value, containers, current);
    }
  }
}
