/**
 * Invoice editing: company details, adding, removing and updating standard
 * items, theme and currency selection. Every edit writes the document through
 * the store's path write; item edits then recompute the invoice totals.
 * Item identifiers come from an injected fresh-id source (a parameter).
 */
module Invoice {
  import opened Wrappers
  import opened ItemCalculator
  import opened HourlyCalculator
  import opened TotalCalculator
  import opened State

  /** The argument of an item addition; every member may be missing. */
  datatype ItemInput = ItemInput(
    reference: Option<string>,
    description: Option<string>,
    quantity: Option<real>,
    unitPrice: Option<real>,
    discount: Option<real>,
    vatRate: Option<real>)

  /** The argument of an item update; the members present override the item's. */
  datatype ItemUpdate = ItemUpdate(
    id: Option<string>,
    reference: Option<string>,
    description: Option<string>,
    quantity: Option<real>,
    unitPrice: Option<real>,
    discount: Option<real>,
    vatRate: Option<real>)

  /** The outcome of an edit: the new document, and false when the edit stopped
      on a member of the wrong shape (a TypeError in the original). */
  datatype Edit = Edit(doc: Node, ok: bool)

  /** `x || fallback` on a text member: missing or empty gives the fallback. */
  function OrText(x: Option<string>, fallback: string): string {
    if x.Some? && x.value != "" then x.value else fallback
  }

  /** `x || fallback` on a numeric member: missing or 0 gives the fallback. */
  function OrNumber(x: Option<real>, fallback: real): real {
    if x.Some? && x.value != 0.0 then x.value else fallback
  }

  /** The stored form of a new item, with its line total computed. */
  function NewItem(id: string, input: ItemInput): LineItem {
    var it := LineItem(id, OrText(input.reference, ""), OrText(input.description, ""),
                       OrNumber(input.quantity, 1.0), OrNumber(input.unitPrice, 0.0),
                       OrNumber(input.discount, 0.0), OrNumber(input.vatRate, 0.0), 0.0);
    it.(lineTotal := ItemLineTotal(it))
  }

  /** Defaulting of a new item: missing text becomes "", a missing or zero quantity
      becomes 1, other missing numbers become 0; the line total is that of the
      stored fields and is never negative. */
  lemma NewItemDefaults(id: string, input: ItemInput)
    ensures var it := NewItem(id, input);
            && it.id == id
            && it.reference == input.reference.GetOr("")
            && it.description == input.description.GetOr("")
            && it.quantity == (if input.quantity.None? || input.quantity == Some(0.0) then 1.0
                               else input.quantity.value)
            && it.unitPrice == input.unitPrice.GetOr(0.0)
            && it.discount == input.discount.GetOr(0.0)
            && it.vatRate == input.vatRate.GetOr(0.0)
            && it.lineTotal == LineTotal(it.quantity, it.unitPrice, it.discount, it.vatRate)
            && it.lineTotal >= 0.0
  {
  }

  /** The items whose id differs from `id`, in their original order. */
  function RemoveById(items: seq<LineItem>, id: string): (r: seq<LineItem>)
    ensures |r| <= |items|
    ensures forall x :: x in r <==> x in items && x.id != id
    ensures (forall i :: 0 <= i < |items| ==> items[i].id != id) ==> r == items
    decreases |items|
  {
    if |items| == 0 then []
    else (if items[0].id != id then [items[0]] else []) + RemoveById(items[1..], id)
  }

  /** Removal from a list with a first item handles that item, then the rest. */
  lemma RemoveByIdCons(x: LineItem, s: seq<LineItem>, id: string)
    ensures RemoveById([x] + s, id) == (if x.id != id then [x] else []) + RemoveById(s, id)
  {
    assert ([x] + s)[1..] == s;
  }

  /** Removal distributes over concatenation, so relative order is kept. */
  lemma {:induction false} RemoveByIdConcat(a: seq<LineItem>, b: seq<LineItem>, id: string)
    ensures RemoveById(a + b, id) == RemoveById(a, id) + RemoveById(b, id)
    decreases |a|
  {
    if |a| > 0 {
      var x, rest := a[0], a[1..];
      var head := if x.id != id then [x] else [];
      assert a == [x] + rest;
      assert a + b == [x] + (rest + b);
      calc {
        RemoveById(a + b, id);
        == { RemoveByIdCons(x, rest + b, id); }
        head + RemoveById(rest + b, id);
        == { RemoveByIdConcat(rest, b, id); }
        head + (RemoveById(rest, id) + RemoveById(b, id));
        ==
        (head + RemoveById(rest, id)) + RemoveById(b, id);
        == { RemoveByIdCons(x, rest, id); }
        RemoveById(a, id) + RemoveById(b, id);
      }
    } else {
      assert a + b == b;
    }
  }

  /** The item after an update: the members present in `upd` override the item's,
      and the line total is recomputed from the merged fields. */
  function ApplyUpdate(it: LineItem, upd: ItemUpdate): LineItem {
    var merged := LineItem(upd.id.GetOr(it.id), upd.reference.GetOr(it.reference),
                           upd.description.GetOr(it.description), upd.quantity.GetOr(it.quantity),
                           upd.unitPrice.GetOr(it.unitPrice), upd.discount.GetOr(it.discount),
                           upd.vatRate.GetOr(it.vatRate), it.lineTotal);
    merged.(lineTotal := ItemLineTotal(merged))
  }

  /** Every item with the given id updated, the others untouched, length and order kept. */
  function UpdateById(items: seq<LineItem>, id: string, upd: ItemUpdate): (r: seq<LineItem>)
    ensures |r| == |items|
    ensures forall i :: 0 <= i < |items| && items[i].id != id ==> r[i] == items[i]
    ensures forall i :: 0 <= i < |items| && items[i].id == id ==> r[i] == ApplyUpdate(items[i], upd)
    decreases |items|
  {
    if |items| == 0 then []
    else [if items[0].id == id then ApplyUpdate(items[0], upd) else items[0]] + UpdateById(items[1..], id, upd)
  }

  /** An update for an id no item carries changes nothing. */
  lemma UpdateAbsentId(items: seq<LineItem>, id: string, upd: ItemUpdate)
    requires forall i :: 0 <= i < |items| ==> items[i].id != id
    ensures UpdateById(items, id, upd) == items
  {
  }

  /** Item ids are pairwise distinct. */
  predicate DistinctIds(items: seq<LineItem>) {
    forall i, j :: 0 <= i < j < |items| ==> items[i].id != items[j].id
  }

  /** A fresh id keeps the ids distinct after an addition. */
  lemma AddFreshKeepsIdsDistinct(items: seq<LineItem>, id: string, input: ItemInput)
    requires DistinctIds(items)
    requires forall i :: 0 <= i < |items| ==> items[i].id != id
    ensures DistinctIds(items + [NewItem(id, input)])
  {
  }

  // ---------------------------------------------------------------------------
  // Edits of the document

  /** Writes the four totals computed from the current item lists. */
  function CalculateTotalsDoc(doc: Node): Edit {
    match (ItemsOf(doc), HourlyOf(doc))
    case (Some(items), Some(hourly)) =>
      Edit(Put(doc, ["invoice", "totals"], TotalsNode(FinalTotals(items, hourly))), true)
    case _ => Edit(doc, false)
  }

  function SetItemsDoc(doc: Node, items: seq<LineItem>): Node {
    Put(doc, ["invoice", "items"], Leaf(ItemList(items)))
  }

  function AddItemDoc(doc: Node, input: ItemInput, id: string): Edit {
    match ItemsOf(doc)
    case Some(items) => CalculateTotalsDoc(SetItemsDoc(doc, items + [NewItem(id, input)]))
    case None => Edit(doc, false)
  }

  function RemoveItemDoc(doc: Node, id: string): Edit {
    match ItemsOf(doc)
    case Some(items) => CalculateTotalsDoc(SetItemsDoc(doc, RemoveById(items, id)))
    case None => Edit(doc, false)
  }

  function UpdateItemDoc(doc: Node, id: string, upd: ItemUpdate): Edit {
    match ItemsOf(doc)
    case Some(items) => CalculateTotalsDoc(SetItemsDoc(doc, UpdateById(items, id, upd)))
    case None => Edit(doc, false)
  }

  /** The current company members; a missing or non-object company spreads as {}. */
  function CompanyOf(doc: Node): map<string, Node> {
    match Get(doc, ["invoice", "company"])
    case Some(Obj(m)) => m
    case _ => map[]
  }

  /** Reading `invoice.company` throws only when `invoice` is missing or null. */
  predicate InvoiceReadable(doc: Node) {
    Get(doc, ["invoice"]).Some? && Get(doc, ["invoice"]) != Some(Leaf(Null))
  }

  function SetCompanyInfoDoc(doc: Node, companyData: map<string, Node>): Edit {
    if InvoiceReadable(doc)
    then Edit(Put(doc, ["invoice", "company"], Obj(CompanyOf(doc) + companyData)), true)
    else Edit(doc, false)
  }

  function ApplyThemeDoc(doc: Node, themeId: string): Node {
    Put(doc, ["invoice", "theme"], S(themeId))
  }

  function SetCurrencyDoc(doc: Node, currencyCode: string): Node {
    Put(doc, ["invoice", "currency"], S(currencyCode))
  }

  // ---------------------------------------------------------------------------
  // What the edits do

  /** The items list read through the `invoice` object. */
  lemma ItemsThroughInvoice(doc: Node)
    ensures ItemsOf(doc) == match InvoiceOf(doc)
      case Some(m) => (if "items" in m && m["items"].Leaf? && m["items"].value.ItemList?
                       then Some(m["items"].value.items) else None)
      case None => None
    ensures HourlyOf(doc) == match InvoiceOf(doc)
      case Some(m) => (if "hourlyItems" in m && m["hourlyItems"].Leaf? && m["hourlyItems"].value.HourlyList?
                       then Some(m["hourlyItems"].value.hourlyItems) else None)
      case None => None
    ensures TotalsOf(doc) == match InvoiceOf(doc)
      case Some(m) => (if "totals" in m then ReadTotals(m["totals"]) else None)
      case None => None
    ensures CompanyOf(doc) == match InvoiceOf(doc)
      case Some(m) => (if "company" in m && m["company"].Obj? then m["company"].fields else map[])
      case None => map[]
  {
    if doc.Obj? && "invoice" in doc.fields {
      var inv := doc.fields["invoice"];
      assert Get(doc, ["invoice", "items"]) == Get(inv, ["items"]);
      assert Get(doc, ["invoice", "hourlyItems"]) == Get(inv, ["hourlyItems"]);
      assert Get(doc, ["invoice", "totals"]) == Get(inv, ["totals"]);
      assert Get(doc, ["invoice", "company"]) == Get(inv, ["company"]);
    }
  }

  /** Writing a member of `invoice`: when the walk lands, the invoice object afterwards is
      the old one (or a new empty one) with exactly that member set, and every other
      top-level member keeps its value. */
  lemma WriteInvoiceMember(doc: Node, key: string, v: Node)
    requires Writable(doc, ["invoice", key])
    ensures InvoiceOf(Put(doc, ["invoice", key], v)) == Some(InvoiceOf(doc).GetOr(map[])[key := v])
    ensures forall k :: k != "invoice" ==> Get(Put(doc, ["invoice", key], v), [k]) == Get(doc, [k])
  {
    var p: Path := ["invoice", key];
    PutIntermediates(doc, p, v, 1);
    ReadAfterWrite(doc, p, v);
    assert p[..1] == ["invoice"];
    var c := Child(doc, "invoice");
    assert Put(doc, p, v) == Obj(doc.fields["invoice" := SetKey(c, key, v)]);
    if "invoice" in doc.fields && Truthy(doc.fields["invoice"]) {
      assert c == doc.fields["invoice"];
    }
    forall k | k != "invoice"
      ensures Get(Put(doc, ["invoice", key], v), [k]) == Get(doc, [k])
    {
      PutOffPath(doc, p, v, [k], 0);
    }
  }

  /** Whenever `invoice` is an object its members can be written. */
  lemma InvoiceMemberWritable(doc: Node, key: string)
    requires InvoiceOf(doc).Some?
    ensures Writable(doc, ["invoice", key])
  {
    var p: Path := ["invoice", key];
    assert p[1..] == [key];
  }

  /** Replacing the item list sets exactly the `items` member of the invoice. */
  lemma SetItemsSpec(doc: Node, items: seq<LineItem>)
    requires ItemsOf(doc).Some?
    ensures InvoiceOf(SetItemsDoc(doc, items)) == Some(InvoiceOf(doc).value["items" := Leaf(ItemList(items))])
    ensures ItemsOf(SetItemsDoc(doc, items)) == Some(items)
    ensures HourlyOf(SetItemsDoc(doc, items)) == HourlyOf(doc)
  {
    ItemsThroughInvoice(doc);
    InvoiceMemberWritable(doc, "items");
    WriteInvoiceMember(doc, "items", Leaf(ItemList(items)));
    ItemsThroughInvoice(SetItemsDoc(doc, items));
  }

  /** Recomputing the totals sets exactly the `totals` member of the invoice, to the
      totals of the two lists, and fails, changing nothing, when either is not a list. */
  lemma CalculateTotalsSpec(doc: Node)
    ensures var e := CalculateTotalsDoc(doc);
            && (e.ok <==> ItemsOf(doc).Some? && HourlyOf(doc).Some?)
            && (!e.ok ==> e.doc == doc)
            && (e.ok ==> && InvoiceOf(e.doc) == Some(InvoiceOf(doc).value["totals" := TotalsNode(FinalTotals(ItemsOf(doc).value, HourlyOf(doc).value))])
                         && ItemsOf(e.doc) == ItemsOf(doc)
                         && HourlyOf(e.doc) == HourlyOf(doc)
                         && TotalsOf(e.doc) == Some(FinalTotals(ItemsOf(doc).value, HourlyOf(doc).value)))
  {
    ItemsThroughInvoice(doc);
    if ItemsOf(doc).Some? && HourlyOf(doc).Some? {
      var t := FinalTotals(ItemsOf(doc).value, HourlyOf(doc).value);
      InvoiceMemberWritable(doc, "totals");
      WriteInvoiceMember(doc, "totals", TotalsNode(t));
      ItemsThroughInvoice(Put(doc, ["invoice", "totals"], TotalsNode(t)));
      TotalsRoundTrip(t);
    }
  }

  /** Replacing the item list and recomputing: the invoice gets exactly the new list
      and, when the hourly list is a list, the totals of the two lists. */
  lemma SetItemsThenTotals(doc: Node, items: seq<LineItem>)
    requires ItemsOf(doc).Some?
    ensures var e := CalculateTotalsDoc(SetItemsDoc(doc, items));
            && ItemsOf(e.doc) == Some(items)
            && (e.ok <==> HourlyOf(doc).Some?)
            && (e.ok ==> TotalsOf(e.doc) == Some(FinalTotals(items, HourlyOf(doc).value)))
  {
    SetItemsSpec(doc, items);
    CalculateTotalsSpec(SetItemsDoc(doc, items));
  }

  /** Adding appends exactly one item at the end, earlier items unchanged, and leaves
      the totals equal to those of the new lists; an invoice without an item list is
      left as it is. */
  lemma AddItemSpec(doc: Node, input: ItemInput, id: string)
    ensures ItemsOf(doc).None? ==> AddItemDoc(doc, input, id) == Edit(doc, false)
    ensures ItemsOf(doc).Some? ==>
      var e := AddItemDoc(doc, input, id);
      && ItemsOf(e.doc) == Some(ItemsOf(doc).value + [NewItem(id, input)])
      && (e.ok <==> HourlyOf(doc).Some?)
      && (e.ok ==> TotalsOf(e.doc) == Some(FinalTotals(ItemsOf(e.doc).value, HourlyOf(doc).value)))
  {
    if ItemsOf(doc).Some? {
      SetItemsThenTotals(doc, ItemsOf(doc).value + [NewItem(id, input)]);
    }
  }

  /** Removing keeps exactly the items with another id, in order, and recomputes the totals. */
  lemma RemoveItemSpec(doc: Node, id: string)
    ensures ItemsOf(doc).None? ==> RemoveItemDoc(doc, id) == Edit(doc, false)
    ensures ItemsOf(doc).Some? ==>
      var e := RemoveItemDoc(doc, id);
      && ItemsOf(e.doc) == Some(RemoveById(ItemsOf(doc).value, id))
      && (e.ok <==> HourlyOf(doc).Some?)
      && (e.ok ==> TotalsOf(e.doc) == Some(FinalTotals(ItemsOf(e.doc).value, HourlyOf(doc).value)))
  {
    if ItemsOf(doc).Some? {
      SetItemsThenTotals(doc, RemoveById(ItemsOf(doc).value, id));
    }
  }

  /** Updating rewrites the matching items only and recomputes the totals. */
  lemma UpdateItemSpec(doc: Node, id: string, upd: ItemUpdate)
    ensures ItemsOf(doc).None? ==> UpdateItemDoc(doc, id, upd) == Edit(doc, false)
    ensures ItemsOf(doc).Some? ==>
      var e := UpdateItemDoc(doc, id, upd);
      && ItemsOf(e.doc) == Some(UpdateById(ItemsOf(doc).value, id, upd))
      && (e.ok <==> HourlyOf(doc).Some?)
      && (e.ok ==> TotalsOf(e.doc) == Some(FinalTotals(ItemsOf(e.doc).value, HourlyOf(doc).value)))
  {
    if ItemsOf(doc).Some? {
      SetItemsThenTotals(doc, UpdateById(ItemsOf(doc).value, id, upd));
    }
  }

  /** Company information is merged over the current company members; when `invoice`
      is an object nothing but its `company` member changes. */
  lemma SetCompanyInfoSpec(doc: Node, companyData: map<string, Node>)
    requires InvoiceOf(doc).Some?
    ensures var e := SetCompanyInfoDoc(doc, companyData);
            && e.ok
            && InvoiceOf(e.doc) == Some(InvoiceOf(doc).value["company" := Obj(CompanyOf(doc) + companyData)])
            && CompanyOf(e.doc) == CompanyOf(doc) + companyData
  {
    ItemsThroughInvoice(doc);
    var newCompany := Obj(CompanyOf(doc) + companyData);
    InvoiceMemberWritable(doc, "company");
    WriteInvoiceMember(doc, "company", newCompany);
    ItemsThroughInvoice(Put(doc, ["invoice", "company"], newCompany));
  }

  /** Theme and currency selection each write their own member of `invoice` only. */
  lemma ThemeAndCurrencySpec(doc: Node, themeId: string, currencyCode: string)
    requires InvoiceOf(doc).Some?
    ensures InvoiceOf(ApplyThemeDoc(doc, themeId)) == Some(InvoiceOf(doc).value["theme" := S(themeId)])
    ensures InvoiceOf(SetCurrencyDoc(doc, currencyCode)) == Some(InvoiceOf(doc).value["currency" := S(currencyCode)])
  {
    InvoiceMemberWritable(doc, "theme");
    WriteInvoiceMember(doc, "theme", S(themeId));
    InvoiceMemberWritable(doc, "currency");
    WriteInvoiceMember(doc, "currency", S(currencyCode));
  }

  // ---------------------------------------------------------------------------
  // The manager

  class InvoiceManager {
    const store: Store

    constructor (store: Store)
      ensures this.store == store
    {
      this.store := store;
    }

    method SetCompanyInfo(companyData: map<string, Node>) returns (ok: bool)
      modifies store
      ensures Edit(store.state, ok) == SetCompanyInfoDoc(old(store.state), companyData)
    {
      if !InvoiceReadable(store.state) {
        return false;
      }
      var _ := store.UpdateState(["invoice", "company"], Obj(CompanyOf(store.state) + companyData));
      ok := true;
    }

    /** Adds an item under `freshId`, the value drawn from the id source. */
    method AddItem(item: ItemInput, freshId: string) returns (ok: bool)
      modifies store
      ensures Edit(store.state, ok) == AddItemDoc(old(store.state), item, freshId)
    {
      var currentItems := ItemsOf(store.state);
      if currentItems.None? {
        return false;
      }
      var newItem := NewItem(freshId, item);
      var _ := store.UpdateState(["invoice", "items"], Leaf(ItemList(currentItems.value + [newItem])));
      ok := CalculateTotals();
    }

    method RemoveItem(itemId: string) returns (ok: bool)
      modifies store
      ensures Edit(store.state, ok) == RemoveItemDoc(old(store.state), itemId)
    {
      var currentItems := ItemsOf(store.state);
      if currentItems.None? {
        return false;
      }
      var _ := store.UpdateState(["invoice", "items"], Leaf(ItemList(RemoveById(currentItems.value, itemId))));
      ok := CalculateTotals();
    }

    method UpdateItem(itemId: string, updates: ItemUpdate) returns (ok: bool)
      modifies store
      ensures Edit(store.state, ok) == UpdateItemDoc(old(store.state), itemId, updates)
    {
      var currentItems := ItemsOf(store.state);
      if currentItems.None? {
        return false;
      }
      var _ := store.UpdateState(["invoice", "items"], Leaf(ItemList(UpdateById(currentItems.value, itemId, updates))));
      ok := CalculateTotals();
    }

    method CalculateTotals() returns (ok: bool)
      modifies store
      ensures Edit(store.state, ok) == CalculateTotalsDoc(old(store.state))
    {
      var items, hourlyItems := ItemsOf(store.state), HourlyOf(store.state);
      if items.None? || hourlyItems.None? {
        return false;
      }
      var _ := store.UpdateState(["invoice", "totals"], TotalsNode(FinalTotals(items.value, hourlyItems.value)));
      ok := true;
    }

    method ApplyTheme(themeId: string)
      modifies store
      ensures store.state == ApplyThemeDoc(old(store.state), themeId)
    {
      var _ := store.UpdateState(["invoice", "theme"], S(themeId));
    }

    method SetCurrency(currencyCode: string)
      modifies store
      ensures store.state == SetCurrencyDoc(old(store.state), currencyCode)
    {
      var _ := store.UpdateState(["invoice", "currency"], S(currencyCode));
    }
  }
}
