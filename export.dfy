/** The admin export: the admin gate, the product-to-deco map, the detailed sheet (one row
    per order item) and the distribution summary, which groups items by product, SKU, colour
    and size, counts them, keeps the first deco seen and sorts by name, colour and size.
    The export button and the admin page share the summary; they differ in the detailed
    columns and in how a failed fetch ends the export. */
module AdminExport {
  import opened Base

  // ---------------------------------------------------------------- the admin gate

  const AdminCode := "ADMIN"

  /** `adminAuth === 'true' || (userCode !== null && userCode.toUpperCase() === 'ADMIN')`. */
  predicate IsAdmin(adminAuth: Option<string>, userCode: Option<string>) {
    adminAuth == Some("true") || (userCode.Some? && ToUpper(userCode.value) == AdminCode)
  }

  lemma UpperIsLetter(c: char, up: char)
    requires IsAsciiUpper(up)
    ensures UpperChar(c) == up <==> LowerChar(c) == LowerChar(up)
  {
  }

  /** The stored code is the admin code in any letter case. */
  lemma AdminCodeAnyCase(u: string)
    ensures ToUpper(u) == AdminCode <==> ToLower(u) == "admin"
  {
    var lower := "admin";
    assert forall k :: 0 <= k < 5 ==> lower[k] == LowerChar(AdminCode[k]);
    if |u| == 5 {
      forall k | 0 <= k < 5
        ensures UpperChar(u[k]) == AdminCode[k] <==> LowerChar(u[k]) == lower[k]
      {
        UpperIsLetter(u[k], AdminCode[k]);
      }
      if ToLower(u) == lower {
        assert forall k :: 0 <= k < 5 ==> ToUpper(u)[k] == AdminCode[k];
      }
      if ToUpper(u) == AdminCode {
        assert forall k :: 0 <= k < 5 ==> ToLower(u)[k] == lower[k];
      }
    }
  }

  datatype AdminView = Authenticated | RedirectHome

  /** The admin page's effect: load the orders for an admin, send anyone else to `/`. */
  function AdminGuard(adminAuth: Option<string>, userCode: Option<string>): (v: AdminView)
    ensures v == Authenticated <==> IsAdmin(adminAuth, userCode)
  {
    if IsAdmin(adminAuth, userCode) then Authenticated else RedirectHome
  }

  // ---------------------------------------------------------------- the deco map

  datatype ProductDeco = ProductDeco(id: string, deco: Option<string>)

  /** `productDecoMap` after the `forEach`: each product with a non-empty deco sets its id, a
      later one overwriting an earlier one. */
  function DecoMapOf(products: seq<ProductDeco>): (m: map<string, string>)
    ensures forall id :: id in m ==> m[id] != ""
    decreases |products|
  {
    if products == [] then map[]
    else
      var last := products[|products| - 1];
      var m := DecoMapOf(products[..|products| - 1]);
      if Truthy(last.deco) then m[last.id := last.deco.value] else m
  }

  method BuildDecoMap(products: seq<ProductDeco>) returns (m: map<string, string>)
    ensures m == DecoMapOf(products)
  {
    m := map[];
    var i := 0;
    while i < |products|
      invariant 0 <= i <= |products|
      invariant m == DecoMapOf(products[..i])
    {
      assert products[..i + 1][..i] == products[..i];
      if Truthy(products[i].deco) {
        m := m[products[i].id := products[i].deco.value];
      }
      i := i + 1;
    }
    assert products[..i] == products;
  }

  /** The map holds exactly the ids of products with a non-empty deco. */
  lemma {:induction false} DecoMapKeys(products: seq<ProductDeco>, id: string)
    ensures id in DecoMapOf(products) <==>
      exists k :: 0 <= k < |products| && products[k].id == id && Truthy(products[k].deco)
    decreases |products|
  {
    if products != [] {
      var n := |products| - 1;
      var init := products[..n];
      DecoMapKeys(init, id);
      if exists k :: 0 <= k < |products| && products[k].id == id && Truthy(products[k].deco) {
        var k :| 0 <= k < |products| && products[k].id == id && Truthy(products[k].deco);
        if k < n {
          assert init[k] == products[k];
        }
      }
      if exists k :: 0 <= k < |init| && init[k].id == id && Truthy(init[k].deco) {
        var k :| 0 <= k < |init| && init[k].id == id && Truthy(init[k].deco);
        assert products[k] == init[k];
      }
    }
  }

  /** The deco kept for an id is that of the last product with that id and a non-empty deco. */
  lemma {:induction false} DecoMapLastWins(products: seq<ProductDeco>, k: int)
    requires 0 <= k < |products| && Truthy(products[k].deco)
    requires forall j :: k < j < |products| && products[j].id == products[k].id ==> !Truthy(products[j].deco)
    ensures products[k].id in DecoMapOf(products)
    ensures DecoMapOf(products)[products[k].id] == products[k].deco.value
    decreases |products|
  {
    var n := |products| - 1;
    if k < n {
      var init := products[..n];
      assert init[k] == products[k];
      DecoMapLastWins(init, k);
    }
  }

  datatype ExportItem = ExportItem(
    productId: Option<string>, productName: string,
    sku: Option<string>, color: Option<string>, size: Option<string>)

  /** `item.product_id ? (productDecoMap.get(item.product_id) || '') : ''`. */
  function DecoOf(item: ExportItem, decos: map<string, string>): (d: string)
    ensures Truthy(item.productId) && item.productId.value in decos ==> d == decos[item.productId.value]
    ensures !(Truthy(item.productId) && item.productId.value in decos) ==> d == ""
  {
    if Truthy(item.productId) && item.productId.value in decos then decos[item.productId.value] else ""
  }

  // ---------------------------------------------------------------- the detailed sheet

  datatype ExportOrder = ExportOrder(
    orderNumber: string, code: string, firstName: string, lastName: string, email: string,
    program: string, tshirtSize: Option<string>,
    shippingName: string, shippingAttention: Option<string>, shippingAddress: string,
    shippingAddress2: Option<string>, shippingCity: string, shippingState: string,
    shippingZip: string, shippingCountry: string, items: seq<ExportItem>)

  function TotalItems(orders: seq<ExportOrder>): nat
    decreases |orders|
  {
    if orders == [] then 0 else TotalItems(orders[..|orders| - 1]) + |orders[|orders| - 1].items|
  }

  /** Each item with its order, in order: what `flatMap` walks. */
  function Lines(orders: seq<ExportOrder>): (r: seq<(ExportOrder, ExportItem)>)
    ensures |r| == TotalItems(orders)
    decreases |orders|
  {
    if orders == [] then []
    else
      var last := orders[|orders| - 1];
      Lines(orders[..|orders| - 1]) + seq(|last.items|, j requires 0 <= j < |last.items| => (last, last.items[j]))
  }

  /** Item `j` of order `i` is line number (items of the orders before `i`) + `j`. */
  lemma {:induction false} LineAt(orders: seq<ExportOrder>, i: int, j: int)
    requires 0 <= i < |orders| && 0 <= j < |orders[i].items|
    ensures TotalItems(orders[..i]) + j < |Lines(orders)|
    ensures Lines(orders)[TotalItems(orders[..i]) + j] == (orders[i], orders[i].items[j])
    decreases |orders|
  {
    var n := |orders| - 1;
    var init := orders[..n];
    if i < n {
      assert init[..i] == orders[..i];
      assert init[i] == orders[i];
      LineAt(init, i, j);
      LinesKeepPrefix(orders, TotalItems(orders[..i]) + j);
    } else {
      assert orders[..i] == init;
      LinesOfLastOrder(orders, j);
    }
  }

  /** The lines of all orders but the last come first, unchanged. */
  lemma LinesKeepPrefix(orders: seq<ExportOrder>, k: int)
    requires |orders| > 0 && 0 <= k < TotalItems(orders[..|orders| - 1])
    ensures k < |Lines(orders)| && Lines(orders)[k] == Lines(orders[..|orders| - 1])[k]
  {
  }

  /** The last order's items follow, each paired with that order. */
  lemma LinesOfLastOrder(orders: seq<ExportOrder>, j: int)
    requires |orders| > 0 && 0 <= j < |orders[|orders| - 1].items|
    ensures TotalItems(orders[..|orders| - 1]) + j < |Lines(orders)|
    ensures Lines(orders)[TotalItems(orders[..|orders| - 1]) + j] == (orders[|orders| - 1], orders[|orders| - 1].items[j])
  {
  }

  /** A row of the export button's detailed sheet (the order date is not modelled). */
  datatype ButtonRow = ButtonRow(
    orderNumber: string, email: string, productName: string, customerItem: string,
    color: string, size: string, shippingName: string, shippingAddress: string,
    shippingCity: string, shippingState: string, shippingZip: string, shippingCountry: string)

  /** A row of the admin page's detailed sheet (the order date is not modelled). */
  datatype PageRow = PageRow(
    orderNumber: string, code: string, firstName: string, lastName: string, email: string,
    program: string, tshirtSize: string, productName: string, customerItem: string,
    color: string, size: string, shippingName: string, shippingAttention: string,
    shippingAddress: string, shippingAddress2: string, shippingCity: string,
    shippingState: string, shippingZip: string, shippingCountry: string)

  function ButtonRowOf(line: (ExportOrder, ExportItem)): ButtonRow {
    var (o, it) := line;
    ButtonRow(o.orderNumber, o.email, it.productName, OrEmpty(it.sku), OrEmpty(it.color), OrEmpty(it.size),
      o.shippingName, o.shippingAddress, o.shippingCity, o.shippingState, o.shippingZip, o.shippingCountry)
  }

  function PageRowOf(line: (ExportOrder, ExportItem)): PageRow {
    var (o, it) := line;
    PageRow(o.orderNumber, o.code, o.firstName, o.lastName, o.email, o.program, OrEmpty(o.tshirtSize),
      it.productName, OrEmpty(it.sku), OrEmpty(it.color), OrEmpty(it.size),
      o.shippingName, OrEmpty(o.shippingAttention), o.shippingAddress, OrEmpty(o.shippingAddress2),
      o.shippingCity, o.shippingState, o.shippingZip, o.shippingCountry)
  }

  function ButtonDetailedRows(orders: seq<ExportOrder>): (r: seq<ButtonRow>)
    ensures |r| == TotalItems(orders)
  {
    var lines := Lines(orders);
    seq(|lines|, k requires 0 <= k < |lines| => ButtonRowOf(lines[k]))
  }

  function PageDetailedRows(orders: seq<ExportOrder>): (r: seq<PageRow>)
    ensures |r| == TotalItems(orders)
  {
    var lines := Lines(orders);
    seq(|lines|, k requires 0 <= k < |lines| => PageRowOf(lines[k]))
  }

  /** The button's detailed sheet has one row per item, in order, carrying the order's number,
      email and shipping fields, with a missing SKU, colour or size shown as `''`. */
  lemma ButtonRowPerItem(orders: seq<ExportOrder>, i: int, j: int)
    requires 0 <= i < |orders| && 0 <= j < |orders[i].items|
    ensures var k := TotalItems(orders[..i]) + j; var o := orders[i]; var it := o.items[j];
      k < |ButtonDetailedRows(orders)| &&
      ButtonDetailedRows(orders)[k] == ButtonRow(o.orderNumber, o.email, it.productName,
        OrEmpty(it.sku), OrEmpty(it.color), OrEmpty(it.size), o.shippingName, o.shippingAddress,
        o.shippingCity, o.shippingState, o.shippingZip, o.shippingCountry)
  {
    LineAt(orders, i, j);
  }

  /** The page's detailed sheet has one row per item, in order, carrying the order's code and
      program, with T-shirt size, attention and second address line defaulted to `''`. */
  lemma PageRowPerItem(orders: seq<ExportOrder>, i: int, j: int)
    requires 0 <= i < |orders| && 0 <= j < |orders[i].items|
    ensures var k := TotalItems(orders[..i]) + j; var o := orders[i]; var it := o.items[j];
      k < |PageDetailedRows(orders)| &&
      PageDetailedRows(orders)[k] == PageRow(o.orderNumber, o.code, o.firstName, o.lastName, o.email,
        o.program, OrEmpty(o.tshirtSize), it.productName, OrEmpty(it.sku), OrEmpty(it.color), OrEmpty(it.size),
        o.shippingName, OrEmpty(o.shippingAttention), o.shippingAddress, OrEmpty(o.shippingAddress2),
        o.shippingCity, o.shippingState, o.shippingZip, o.shippingCountry)
  {
    LineAt(orders, i, j);
  }

  // ---------------------------------------------------------------- the summary key

  function KeyFields(item: ExportItem): seq<string> {
    [item.productName, OrEmpty(item.sku), OrElse(item.color, "N/A"), OrElse(item.size, "N/A")]
  }

  /** `[name, sku || '', color || 'N/A', size || 'N/A'].join('|')`. */
  function SummaryKey(item: ExportItem): string {
    Join(KeyFields(item), "|")
  }

  /** `const [a, b, c, d] = key.split('|')`: the first four pieces (absent ones as `''`). */
  function Recovered(key: string): (r: seq<string>)
    ensures |r| == 4
  {
    var parts := Split(key, '|');
    seq(4, k requires 0 <= k < 4 => if k < |parts| then parts[k] else "")
  }

  /** The four fields come back from the key exactly when none of them contains `|`. */
  lemma KeySplitsBack(f: seq<string>)
    requires |f| == 4
    ensures Recovered(Join(f, "|")) == f <==> forall k :: 0 <= k < 4 ==> '|' !in f[k]
  {
    if forall k :: 0 <= k < 4 ==> '|' !in f[k] {
      SplitJoin(f, '|');
    }
  }

  /** An item's key fields come back from its key when its name, SKU, colour and size are free
      of `|`; this is what lets the summary rows show the columns they were grouped by. */
  lemma SummaryKeyRoundTrip(item: ExportItem)
    requires '|' !in item.productName && '|' !in OrEmpty(item.sku)
    requires '|' !in OrEmpty(item.color) && '|' !in OrEmpty(item.size)
    ensures Recovered(SummaryKey(item)) == KeyFields(item)
  {
    KeySplitsBack(KeyFields(item));
  }

  // ---------------------------------------------------------------- the summary

  datatype SummaryEntry = SummaryEntry(key: string, quantity: nat, deco: string)

  /** Where `key` sits in the summary, if it is there. */
  function FindKey(summary: seq<SummaryEntry>, key: string): (r: Option<nat>)
    ensures r.Some? ==> r.value < |summary| && summary[r.value].key == key
    ensures r.None? ==> forall i :: 0 <= i < |summary| ==> summary[i].key != key
  {
    if summary == [] then None
    else if summary[0].key == key then Some(0)
    else match FindKey(summary[1..], key)
      case None => None
      case Some(i) => Some(i + 1)
  }

  /** `summaryMap.set`: one more for an existing key (its deco kept), a new entry otherwise. */
  function AddItem(summary: seq<SummaryEntry>, key: string, deco: string): seq<SummaryEntry> {
    match FindKey(summary, key)
    case Some(i) => summary[i := summary[i].(quantity := summary[i].quantity + 1)]
    case None => summary + [SummaryEntry(key, 1, deco)]
  }

  function Quantities(summary: seq<SummaryEntry>): nat
    decreases |summary|
  {
    if summary == [] then 0 else Quantities(summary[..|summary| - 1]) + summary[|summary| - 1].quantity
  }

  predicate DistinctKeys(summary: seq<SummaryEntry>) {
    forall i, j :: 0 <= i < j < |summary| ==> summary[i].key != summary[j].key
  }

  lemma {:induction false} QuantitiesUpdate(s: seq<SummaryEntry>, i: int, e: SummaryEntry)
    requires 0 <= i < |s|
    ensures Quantities(s[i := e]) == Quantities(s) - s[i].quantity + e.quantity
    decreases |s|
  {
    var n := |s| - 1;
    if i < n {
      assert s[i := e][..n] == s[..n][i := e];
      QuantitiesUpdate(s[..n], i, e);
    } else {
      assert s[i := e][..n] == s[..n];
    }
  }

  /** Every entry counts at least one item. */
  predicate PositiveQuantities(summary: seq<SummaryEntry>) {
    forall i :: 0 <= i < |summary| ==> summary[i].quantity >= 1
  }

  /** Adding an item keeps the keys distinct and the quantities positive, and adds one to the total. */
  lemma AddItemKeeps(s: seq<SummaryEntry>, key: string, deco: string)
    requires DistinctKeys(s) && PositiveQuantities(s)
    ensures DistinctKeys(AddItem(s, key, deco)) && PositiveQuantities(AddItem(s, key, deco))
    ensures Quantities(AddItem(s, key, deco)) == Quantities(s) + 1
  {
    match FindKey(s, key)
    case Some(i) =>
      BumpKeeps(s, i);
    case None =>
      AppendKeeps(s, SummaryEntry(key, 1, deco));
  }

  /** Counting one more item in an entry keeps the keys and the positive quantities. */
  lemma BumpKeeps(s: seq<SummaryEntry>, i: int)
    requires 0 <= i < |s| && DistinctKeys(s) && PositiveQuantities(s)
    ensures DistinctKeys(s[i := s[i].(quantity := s[i].quantity + 1)])
    ensures PositiveQuantities(s[i := s[i].(quantity := s[i].quantity + 1)])
    ensures Quantities(s[i := s[i].(quantity := s[i].quantity + 1)]) == Quantities(s) + 1
  {
    QuantitiesUpdate(s, i, s[i].(quantity := s[i].quantity + 1));
  }

  /** Appending an entry with a new key and quantity 1 keeps the keys distinct. */
  lemma AppendKeeps(s: seq<SummaryEntry>, e: SummaryEntry)
    requires DistinctKeys(s) && PositiveQuantities(s) && e.quantity == 1
    requires forall i :: 0 <= i < |s| ==> s[i].key != e.key
    ensures DistinctKeys(s + [e]) && PositiveQuantities(s + [e])
    ensures Quantities(s + [e]) == Quantities(s) + 1
  {
    assert (s + [e])[..|s|] == s;
  }

  /** The summary of `items` in the order the nested `forEach` visits them. */
  function SummaryOf(items: seq<ExportItem>, decos: map<string, string>): (s: seq<SummaryEntry>)
    ensures DistinctKeys(s) && PositiveQuantities(s)
    ensures Quantities(s) == |items|
    decreases |items|
  {
    if items == [] then []
    else
      var last := items[|items| - 1];
      var s := SummaryOf(items[..|items| - 1], decos);
      AddItemKeeps(s, SummaryKey(last), DecoOf(last, decos));
      AddItem(s, SummaryKey(last), DecoOf(last, decos))
  }

  /** The quantity the summary records for `key`; 0 when the key is absent. */
  function QuantityOf(summary: seq<SummaryEntry>, key: string): nat {
    match FindKey(summary, key)
    case None => 0
    case Some(i) => summary[i].quantity
  }

  /** Adding an item with key `k` adds one to the quantity of `k` and leaves every other key's. */
  lemma AddItemQuantity(s: seq<SummaryEntry>, k: string, deco: string, key: string)
    requires DistinctKeys(s) && PositiveQuantities(s)
    ensures QuantityOf(AddItem(s, k, deco), key) == QuantityOf(s, key) + (if k == key then 1 else 0)
  {
    match FindKey(s, k)
    case Some(p) =>
      QuantityOnBump(s, p, key);
    case None =>
      QuantityOnAppend(s, SummaryEntry(k, 1, deco), key);
  }

  /** Counting one more item in entry `p` adds one to that entry's key only. */
  lemma QuantityOnBump(s: seq<SummaryEntry>, p: int, key: string)
    requires 0 <= p < |s| && DistinctKeys(s) && PositiveQuantities(s)
    ensures QuantityOf(s[p := s[p].(quantity := s[p].quantity + 1)], key) ==
      QuantityOf(s, key) + (if s[p].key == key then 1 else 0)
  {
    var r := s[p := s[p].(quantity := s[p].quantity + 1)];
    BumpKeeps(s, p);
    FindKeyUnique(s, key);
    FindKeyUnique(r, key);
    assert forall i :: 0 <= i < |r| ==> r[i].key == s[i].key;
    if FindKey(s, key).Some? {
      assert r[FindKey(s, key).value].key == key;
    }
    if FindKey(r, key).Some? {
      assert s[FindKey(r, key).value].key == key;
    }
  }

  /** Appending an entry for a new key gives that key quantity 1 and leaves the others. */
  lemma QuantityOnAppend(s: seq<SummaryEntry>, e: SummaryEntry, key: string)
    requires DistinctKeys(s) && PositiveQuantities(s) && e.quantity == 1
    requires forall i :: 0 <= i < |s| ==> s[i].key != e.key
    ensures QuantityOf(s + [e], key) == QuantityOf(s, key) + (if e.key == key then 1 else 0)
  {
    var r := s + [e];
    AppendKeeps(s, e);
    FindKeyUnique(s, key);
    FindKeyUnique(r, key);
    assert forall i :: 0 <= i < |s| ==> r[i] == s[i];
    assert r[|s|] == e;
    if FindKey(s, key).Some? {
      assert r[FindKey(s, key).value].key == key;
    }
  }

  /** Items whose summary key is `key`, counted. */
  function CountKey(items: seq<ExportItem>, key: string): nat
    decreases |items|
  {
    if items == [] then 0
    else CountKey(items[..|items| - 1], key) + (if SummaryKey(items[|items| - 1]) == key then 1 else 0)
  }

  /** The summary has an entry for a key exactly when some item has that key, and the entry's
      quantity is the number of such items. */
  lemma {:induction false} SummaryCounts(items: seq<ExportItem>, decos: map<string, string>, key: string)
    ensures QuantityOf(SummaryOf(items, decos), key) == CountKey(items, key)
    ensures FindKey(SummaryOf(items, decos), key).Some? <==> CountKey(items, key) > 0
    decreases |items|
  {
    if items != [] {
      var n := |items| - 1;
      SummaryCounts(items[..n], decos, key);
      AddItemQuantity(SummaryOf(items[..n], decos), SummaryKey(items[n]), DecoOf(items[n], decos), key);
    }
  }

  /** With distinct keys, the position `FindKey` reports is the only one holding the key. */
  lemma FindKeyUnique(s: seq<SummaryEntry>, key: string)
    requires DistinctKeys(s)
    ensures forall i :: 0 <= i < |s| && s[i].key == key ==> FindKey(s, key) == Some(i)
  {
    forall i | 0 <= i < |s| && s[i].key == key
      ensures FindKey(s, key) == Some(i)
    {
      assert FindKey(s, key).Some?;
    }
  }

  /** The first item carrying `key`. */
  function FirstWithKey(items: seq<ExportItem>, key: string): (r: Option<nat>)
    ensures r.Some? ==> r.value < |items| && SummaryKey(items[r.value]) == key
    ensures r.Some? ==> forall j :: 0 <= j < r.value ==> SummaryKey(items[j]) != key
    ensures r.None? ==> forall j :: 0 <= j < |items| ==> SummaryKey(items[j]) != key
    decreases |items|
  {
    if items == [] then None
    else
      var n := |items| - 1;
      match FirstWithKey(items[..n], key)
      case Some(i) => Some(i)
      case None => if SummaryKey(items[n]) == key then Some(n) else None
  }

  /** A key's deco is the one of the first item that created the entry; later items leave it. */
  lemma {:induction false} SummaryKeepsFirstDeco(items: seq<ExportItem>, decos: map<string, string>, i: int)
    requires 0 <= i < |SummaryOf(items, decos)|
    ensures FirstWithKey(items, SummaryOf(items, decos)[i].key).Some?
    ensures SummaryOf(items, decos)[i].deco ==
      DecoOf(items[FirstWithKey(items, SummaryOf(items, decos)[i].key).value], decos)
    decreases |items|, 1
  {
    var n := |items| - 1;
    match FindKey(SummaryOf(items[..n], decos), SummaryKey(items[n]))
    case Some(p) => FirstDecoOnRepeat(items, decos, i, p);
    case None => FirstDecoOnNew(items, decos, i);
  }

  /** Entry `i` of the summary of `items` carries the deco of the first item with its key. */
  predicate DecoIsFirst(items: seq<ExportItem>, decos: map<string, string>, i: int)
    requires 0 <= i < |SummaryOf(items, decos)|
  {
    var e := SummaryOf(items, decos)[i];
    FirstWithKey(items, e.key).Some? && e.deco == DecoOf(items[FirstWithKey(items, e.key).value], decos)
  }

  /** The last item repeats a key: only that entry's count changes. */
  lemma {:induction false} FirstDecoOnRepeat(items: seq<ExportItem>, decos: map<string, string>, i: int, p: nat)
    requires |items| > 0 && 0 <= i < |SummaryOf(items, decos)|
    requires FindKey(SummaryOf(items[..|items| - 1], decos), SummaryKey(items[|items| - 1])) == Some(p)
    ensures DecoIsFirst(items, decos, i)
    decreases |items|, 0
  {
    var n := |items| - 1;
    var init := items[..n];
    var s := SummaryOf(init, decos);
    var r := SummaryOf(items, decos);
    SummaryOfLast(items, decos);
    AddItemRepeat(s, SummaryKey(items[n]), DecoOf(items[n], decos), p, i);
    SummaryKeepsFirstDeco(init, decos, i);
    FirstWithKeyOfInit(items, s[i].key);
  }

  /** The summary of non-empty `items` is the summary of all but the last, plus the last. */
  lemma SummaryOfLast(items: seq<ExportItem>, decos: map<string, string>)
    requires |items| > 0
    ensures var n := |items| - 1;
      SummaryOf(items, decos) == AddItem(SummaryOf(items[..n], decos), SummaryKey(items[n]), DecoOf(items[n], decos))
  {
  }

  /** Adding an item with a key already present keeps every entry's key and deco. */
  lemma AddItemRepeat(s: seq<SummaryEntry>, key: string, deco: string, p: nat, i: int)
    requires FindKey(s, key) == Some(p) && 0 <= i < |AddItem(s, key, deco)|
    ensures i < |s| && AddItem(s, key, deco)[i].key == s[i].key && AddItem(s, key, deco)[i].deco == s[i].deco
  {
  }

  /** A key first seen before the last item is first seen at the same place with it. */
  lemma FirstWithKeyOfInit(items: seq<ExportItem>, key: string)
    requires |items| > 0 && FirstWithKey(items[..|items| - 1], key).Some?
    ensures FirstWithKey(items, key) == FirstWithKey(items[..|items| - 1], key)
    ensures items[FirstWithKey(items, key).value] == items[..|items| - 1][FirstWithKey(items, key).value]
  {
  }

  /** The last item brings a new key: its entry is appended with the item's own deco. */
  lemma {:induction false} FirstDecoOnNew(items: seq<ExportItem>, decos: map<string, string>, i: int)
    requires |items| > 0 && 0 <= i < |SummaryOf(items, decos)|
    requires FindKey(SummaryOf(items[..|items| - 1], decos), SummaryKey(items[|items| - 1])).None?
    ensures DecoIsFirst(items, decos, i)
    decreases |items|, 0
  {
    var n := |items| - 1;
    var init := items[..n];
    var s := SummaryOf(init, decos);
    var r := SummaryOf(items, decos);
    var lastKey := SummaryKey(items[n]);
    assert r == s + [SummaryEntry(lastKey, 1, DecoOf(items[n], decos))];
    if i < |s| {
      SummaryKeepsFirstDeco(init, decos, i);
    } else {
      assert FirstWithKey(init, lastKey).None? by {
        if FirstWithKey(init, lastKey).Some? {
          SummaryCounts(init, decos, lastKey);
          CountKeyPositive(init, lastKey, FirstWithKey(init, lastKey).value);
        }
      }
    }
  }

  lemma {:induction false} CountKeyPositive(items: seq<ExportItem>, key: string, j: int)
    requires 0 <= j < |items| && SummaryKey(items[j]) == key
    ensures CountKey(items, key) > 0
    decreases |items|
  {
    var n := |items| - 1;
    if j < n {
      assert items[..n][j] == items[j];
      CountKeyPositive(items[..n], key, j);
    }
  }

  /** The orders' items in the order the nested loops visit them. */
  function AllItems(orders: seq<ExportOrder>): (r: seq<ExportItem>)
    ensures |r| == TotalItems(orders)
    decreases |orders|
  {
    if orders == [] then [] else AllItems(orders[..|orders| - 1]) + orders[|orders| - 1].items
  }

  /** One more item is one more `AddItem`. */
  lemma SummaryOfSnoc(items: seq<ExportItem>, item: ExportItem, decos: map<string, string>)
    ensures SummaryOf(items + [item], decos) == AddItem(SummaryOf(items, decos), SummaryKey(item), DecoOf(item, decos))
  {
    assert (items + [item])[..|items|] == items;
  }

  lemma SummaryOfStep(prior: seq<ExportItem>, items: seq<ExportItem>, j: int, decos: map<string, string>)
    requires 0 <= j < |items|
    ensures SummaryOf(prior + items[..j + 1], decos) ==
      AddItem(SummaryOf(prior + items[..j], decos), SummaryKey(items[j]), DecoOf(items[j], decos))
  {
    assert prior + items[..j + 1] == (prior + items[..j]) + [items[j]];
    SummaryOfSnoc(prior + items[..j], items[j], decos);
  }

  /** The inner `forEach`: one order's items added to the summary, one at a time. */
  method AddItems(summary: seq<SummaryEntry>, ghost prior: seq<ExportItem>, items: seq<ExportItem>, decos: map<string, string>)
    returns (r: seq<SummaryEntry>)
    requires summary == SummaryOf(prior, decos)
    ensures r == SummaryOf(prior + items, decos)
  {
    r := summary;
    var j := 0;
    assert prior + items[..0] == prior;
    while j < |items|
      invariant 0 <= j <= |items|
      invariant r == SummaryOf(prior + items[..j], decos)
    {
      SummaryOfStep(prior, items, j, decos);
      r := AddItem(r, SummaryKey(items[j]), DecoOf(items[j], decos));
      j := j + 1;
    }
    assert items[..j] == items;
  }

  /** The nested `forEach` that fills `summaryMap`, order by order. */
  method Summarize(orders: seq<ExportOrder>, decos: map<string, string>) returns (summary: seq<SummaryEntry>)
    ensures summary == SummaryOf(AllItems(orders), decos)
  {
    summary := [];
    var i := 0;
    while i < |orders|
      invariant 0 <= i <= |orders|
      invariant summary == SummaryOf(AllItems(orders[..i]), decos)
    {
      assert orders[..i + 1][..i] == orders[..i];
      assert AllItems(orders[..i + 1]) == AllItems(orders[..i]) + orders[i].items;
      summary := AddItems(summary, AllItems(orders[..i]), orders[i].items, decos);
      i := i + 1;
    }
    assert orders[..i] == orders;
  }

  // ---------------------------------------------------------------- sorting the summary

  datatype SummaryRow = SummaryRow(
    productName: string, customerItem: string, color: string, size: string, deco: string, quantity: nat)

  /** An entry as a row: its key split back into the four columns. */
  function RowOf(e: SummaryEntry): SummaryRow {
    var f := Recovered(e.key);
    SummaryRow(f[0], f[1], f[2], f[3], e.deco, e.quantity)
  }

  /** `a.localeCompare(b) < 0`, read as code-unit lexicographic order. */
  predicate Less(a: string, b: string)
    decreases |a|
  {
    b != [] && (a == [] || a[0] < b[0] || (a[0] == b[0] && Less(a[1..], b[1..])))
  }

  lemma {:induction false} LessIrreflexive(a: string)
    ensures !Less(a, a)
    decreases |a|
  {
    if a != [] {
      LessIrreflexive(a[1..]);
    }
  }

  lemma {:induction false} LessTransitive(a: string, b: string, c: string)
    requires Less(a, b) && Less(b, c)
    ensures Less(a, c)
    decreases |a|
  {
    if a != [] && a[0] == b[0] && b[0] == c[0] {
      LessTransitive(a[1..], b[1..], c[1..]);
    }
  }

  lemma {:induction false} LessTotal(a: string, b: string)
    requires a != b
    ensures Less(a, b) || Less(b, a)
    decreases |a|
  {
    if a != [] && b != [] && a[0] == b[0] {
      assert a == [a[0]] + a[1..] && b == [b[0]] + b[1..];
      LessTotal(a[1..], b[1..]);
    }
  }

  /** The comparator: name, then colour, then size; the SKU is not a key. */
  predicate Before(x: SummaryRow, y: SummaryRow) {
    if x.productName != y.productName then Less(x.productName, y.productName)
    else if x.color != y.color then Less(x.color, y.color)
    else Less(x.size, y.size)
  }

  lemma BeforeAsymmetric(x: SummaryRow, y: SummaryRow)
    ensures !(Before(x, y) && Before(y, x))
  {
    if x.productName != y.productName {
      if Less(x.productName, y.productName) && Less(y.productName, x.productName) {
        LessTransitive(x.productName, y.productName, x.productName);
        LessIrreflexive(x.productName);
      }
    } else if x.color != y.color {
      if Less(x.color, y.color) && Less(y.color, x.color) {
        LessTransitive(x.color, y.color, x.color);
        LessIrreflexive(x.color);
      }
    } else if Less(x.size, y.size) && Less(y.size, x.size) {
      LessTransitive(x.size, y.size, x.size);
      LessIrreflexive(x.size);
    }
  }

  lemma LessNotBothWays(a: string, b: string)
    requires Less(a, b)
    ensures !Less(b, a) && a != b
  {
    if Less(b, a) {
      LessTransitive(a, b, a);
      LessIrreflexive(a);
    }
    if a == b {
      LessIrreflexive(a);
    }
  }

  /** `Before` is a strict weak order: if `x` is before `z`, any `y` is after `x` or before `z`. */
  lemma BeforeSplits(x: SummaryRow, y: SummaryRow, z: SummaryRow)
    requires Before(x, z)
    ensures Before(x, y) || Before(y, z)
  {
    if !Before(x, y) && !Before(y, z) {
      var (xn, yn, zn) := (x.productName, y.productName, z.productName);
      var (xc, yc, zc) := (x.color, y.color, z.color);
      if xn != yn { LessTotal(xn, yn); }
      if yn != zn { LessTotal(yn, zn); }
      if xn != zn {
        LessNotBothWays(xn, zn);
        if xn != yn && yn != zn { LessTransitive(zn, yn, xn); }
      } else if xn != yn {
        LessNotBothWays(yn, xn);
      } else if xc != zc {
        if xc != yc { LessTotal(xc, yc); }
        if yc != zc { LessTotal(yc, zc); }
        LessNotBothWays(xc, zc);
        if xc != yc && yc != zc { LessTransitive(zc, yc, xc); }
      } else if xc != yc {
        LessTotal(xc, yc);
        LessNotBothWays(yc, xc);
      } else {
        if x.size != y.size { LessTotal(x.size, y.size); }
        if y.size != z.size { LessTotal(y.size, z.size); }
        LessNotBothWays(x.size, z.size);
        if x.size != y.size && y.size != z.size { LessTransitive(z.size, y.size, x.size); }
      }
    }
  }

  /** No row is followed by one the comparator puts before it. */
  predicate SortedRows(rows: seq<SummaryRow>) {
    forall i, j :: 0 <= i < j < |rows| ==> !Before(rows[j], rows[i])
  }

  /** Insert `x` before the first row that is not before it. */
  function Insert(x: SummaryRow, rows: seq<SummaryRow>): (r: seq<SummaryRow>)
    requires SortedRows(rows)
    ensures SortedRows(r)
    ensures multiset(r) == multiset(rows) + multiset{x}
    decreases |rows|
  {
    if rows == [] then [x]
    else if !Before(rows[0], x) then
      forall j | 0 <= j < |rows|
        ensures !Before(rows[j], x)
      {
        if Before(rows[j], x) {
          BeforeSplits(rows[j], rows[0], x);
        }
      }
      [x] + rows
    else
      var rest := Insert(x, rows[1..]);
      assert rows == [rows[0]] + rows[1..];
      InsertKeepsHeadFirst(x, rows, rest);
      [rows[0]] + rest
  }

  /** When `x` goes after the head, the head still comes first among the rest with `x` in it. */
  lemma InsertKeepsHeadFirst(x: SummaryRow, rows: seq<SummaryRow>, rest: seq<SummaryRow>)
    requires rows != [] && SortedRows(rows) && Before(rows[0], x)
    requires SortedRows(rest) && multiset(rest) == multiset(rows[1..]) + multiset{x}
    ensures SortedRows([rows[0]] + rest)
  {
    forall j | 0 <= j < |rest|
      ensures !Before(rest[j], rows[0])
    {
      assert rest[j] in multiset(rest);
      if rest[j] == x {
        BeforeAsymmetric(x, rows[0]);
      } else {
        assert rest[j] in multiset(rows[1..]);
        var k :| 0 <= k < |rows[1..]| && rows[1..][k] == rest[j];
        assert rows[k + 1] == rest[j];
      }
    }
    var r := [rows[0]] + rest;
    forall i, j | 0 <= i < j < |r|
      ensures !Before(r[j], r[i])
    {
      assert r[j] == rest[j - 1];
      if i > 0 {
        assert r[i] == rest[i - 1];
      }
    }
  }

  /** `.sort(...)` on the summary rows: sorted by the comparator, the same rows. */
  function SortRows(rows: seq<SummaryRow>): (r: seq<SummaryRow>)
    ensures SortedRows(r)
    ensures multiset(r) == multiset(rows)
    decreases |rows|
  {
    if rows == [] then []
    else
      assert rows == [rows[0]] + rows[1..];
      Insert(rows[0], SortRows(rows[1..]))
  }

  /** Rows already in order, ties included, are left exactly as they are: the sort never swaps
      two rows the comparator calls equal when they already stand in order. */
  lemma {:induction false} SortRowsKeepsSorted(rows: seq<SummaryRow>)
    requires SortedRows(rows)
    ensures SortRows(rows) == rows
    decreases |rows|
  {
    if rows != [] {
      var tail := rows[1..];
      assert SortedRows(tail) by {
        forall i, j | 0 <= i < j < |tail|
          ensures !Before(tail[j], tail[i])
        {
          assert tail[j] == rows[j + 1] && tail[i] == rows[i + 1];
        }
      }
      SortRowsKeepsSorted(tail);
      if tail != [] {
        assert !Before(rows[1], rows[0]);
      }
      assert [rows[0]] + tail == rows;
    }
  }

  /** Rows the comparator cannot tell apart: the same name, colour and size. */
  predicate SameKey(x: SummaryRow, y: SummaryRow) {
    x.productName == y.productName && x.color == y.color && x.size == y.size
  }

  /** The rows with `z`'s key, in the order they stand. */
  function KeyClass(rows: seq<SummaryRow>, z: SummaryRow): seq<SummaryRow> {
    if rows == [] then []
    else (if SameKey(rows[0], z) then [rows[0]] else []) + KeyClass(rows[1..], z)
  }

  lemma SortedTail(rows: seq<SummaryRow>)
    requires rows != [] && SortedRows(rows)
    ensures SortedRows(rows[1..])
  {
    var tail := rows[1..];
    forall i, j | 0 <= i < j < |tail|
      ensures !Before(tail[j], tail[i])
    {
      assert tail[j] == rows[j + 1] && tail[i] == rows[i + 1];
    }
  }

  /** Inserting puts `x` ahead of every row with its key, and moves no other row of a key class. */
  lemma {:induction false} InsertStable(x: SummaryRow, rows: seq<SummaryRow>, z: SummaryRow)
    requires SortedRows(rows)
    ensures KeyClass(Insert(x, rows), z) == (if SameKey(x, z) then [x] else []) + KeyClass(rows, z)
    decreases |rows|
  {
    var own := if SameKey(x, z) then [x] else [];
    if rows == [] {
      assert Insert(x, rows) == [x];
      assert [x][1..] == [];
      assert KeyClass([x], z) == own + KeyClass([], z);
    } else if !Before(rows[0], x) {
      assert Insert(x, rows) == [x] + rows;
      assert ([x] + rows)[1..] == rows;
      assert KeyClass([x] + rows, z) == own + KeyClass(rows, z);
    } else {
      SortedTail(rows);
      var rest := Insert(x, rows[1..]);
      assert Insert(x, rows) == [rows[0]] + rest;
      InsertStable(x, rows[1..], z);
      var head := if SameKey(rows[0], z) then [rows[0]] else [];
      assert ([rows[0]] + rest)[1..] == rest;
      assert KeyClass([rows[0]] + rest, z) == head + KeyClass(rest, z);
      assert KeyClass(rows, z) == head + KeyClass(rows[1..], z);
      if SameKey(x, z) && SameKey(rows[0], z) {
        LessIrreflexive(x.size);
        assert false;
      }
      EmptyCommutes(head, own, KeyClass(rows[1..], z));
    }
  }

  lemma EmptyCommutes(a: seq<SummaryRow>, b: seq<SummaryRow>, c: seq<SummaryRow>)
    requires a == [] || b == []
    ensures a + (b + c) == b + (a + c)
  {
  }

  /** The sort is stable: the rows of each key class come out in the order they went in. */
  lemma {:induction false} SortRowsStable(rows: seq<SummaryRow>, z: SummaryRow)
    ensures KeyClass(SortRows(rows), z) == KeyClass(rows, z)
    decreases |rows|
  {
    if rows != [] {
      SortRowsStable(rows[1..], z);
      InsertStable(rows[0], SortRows(rows[1..]), z);
    }
  }

  function SummaryRows(summary: seq<SummaryEntry>): (r: seq<SummaryRow>)
    ensures |r| == |summary|
  {
    seq(|summary|, i requires 0 <= i < |summary| => RowOf(summary[i]))
  }

  // ---------------------------------------------------------------- the exports

  datatype Workbook<R> = Workbook(detailed: seq<R>, summary: seq<SummaryRow>)

  function SummarySheet(orders: seq<ExportOrder>, products: seq<ProductDeco>): seq<SummaryRow> {
    SortRows(SummaryRows(SummaryOf(AllItems(orders), DecoMapOf(products))))
  }

  /** The export button: nothing for a non-admin or when a fetch fails (the alert), else both sheets.
      `None` for `orders` or `products` stands for a failed fetch. */
  function ButtonExport(isAdmin: bool, orders: Option<seq<ExportOrder>>, products: Option<seq<ProductDeco>>): (w: Option<Workbook<ButtonRow>>)
    ensures w.Some? <==> isAdmin && orders.Some? && products.Some?
  {
    if !isAdmin || orders.None? || products.None? then None
    else Some(Workbook(ButtonDetailedRows(orders.value), SummarySheet(orders.value, products.value)))
  }

  /** The admin page's export: aborts before any sheet when the product fetch fails. */
  function PageExport(orders: seq<ExportOrder>, products: Option<seq<ProductDeco>>): (w: Option<Workbook<PageRow>>)
    ensures w.Some? <==> products.Some?
  {
    if products.None? then None
    else Some(Workbook(PageDetailedRows(orders), SummarySheet(orders, products.value)))
  }

  /** The export button on the admin page is disabled while there are no orders. */
  predicate ExportDisabled(orders: seq<ExportOrder>) {
    |orders| == 0
  }

  /** The summary's quantities add up to the number of items in the detailed sheet, and every
      row has quantity at least one. */
  lemma SummaryMatchesDetail(orders: seq<ExportOrder>, products: seq<ProductDeco>)
    ensures var rows := SummarySheet(orders, products);
      RowQuantities(rows) == |PageDetailedRows(orders)| == |ButtonDetailedRows(orders)|
      && forall i :: 0 <= i < |rows| ==> rows[i].quantity >= 1
  {
    var s := SummaryOf(AllItems(orders), DecoMapOf(products));
    SortedSummaryTotal(s);
    SortedSummaryPositive(s);
  }

  /** Sorting the rows of a summary keeps its total. */
  lemma SortedSummaryTotal(s: seq<SummaryEntry>)
    ensures RowQuantities(SortRows(SummaryRows(s))) == Quantities(s)
  {
    RowQuantitiesOfEntries(s);
    SortQuantities(SummaryRows(s));
  }

  /** Every row of a sorted summary with positive quantities has quantity at least one. */
  lemma SortedSummaryPositive(s: seq<SummaryEntry>)
    requires PositiveQuantities(s)
    ensures var rows := SortRows(SummaryRows(s)); forall i :: 0 <= i < |rows| ==> rows[i].quantity >= 1
  {
    var unsorted := SummaryRows(s);
    var rows := SortRows(unsorted);
    forall i | 0 <= i < |rows|
      ensures rows[i].quantity >= 1
    {
      assert rows[i] in multiset(unsorted);
      var j :| 0 <= j < |unsorted| && unsorted[j] == rows[i];
      assert unsorted[j].quantity == s[j].quantity;
    }
  }

  function RowQuantities(rows: seq<SummaryRow>): nat
    decreases |rows|
  {
    if rows == [] then 0 else rows[0].quantity + RowQuantities(rows[1..])
  }

  lemma {:induction false} RowQuantitiesOfEntries(s: seq<SummaryEntry>)
    ensures RowQuantities(SummaryRows(s)) == Quantities(s)
    decreases |s|
  {
    if s != [] {
      var n := |s| - 1;
      RowQuantitiesOfEntries(s[..n]);
      assert SummaryRows(s) == SummaryRows(s[..n]) + [RowOf(s[n])];
      RowQuantitiesAppend(SummaryRows(s[..n]), [RowOf(s[n])]);
    }
  }

  lemma {:induction false} RowQuantitiesAppend(a: seq<SummaryRow>, b: seq<SummaryRow>)
    ensures RowQuantities(a + b) == RowQuantities(a) + RowQuantities(b)
    decreases |a|
  {
    if a != [] {
      assert (a + b)[1..] == a[1..] + b;
      RowQuantitiesAppend(a[1..], b);
    } else {
      assert a + b == b;
    }
  }

  /** Inserting a row adds its quantity to the total. */
  lemma {:induction false} InsertQuantities(x: SummaryRow, rows: seq<SummaryRow>)
    requires SortedRows(rows)
    ensures RowQuantities(Insert(x, rows)) == x.quantity + RowQuantities(rows)
    decreases |rows|
  {
    if rows != [] && Before(rows[0], x) {
      InsertQuantities(x, rows[1..]);
      assert Insert(x, rows)[1..] == Insert(x, rows[1..]);
    } else {
      assert Insert(x, rows)[1..] == rows;
    }
  }

  /** Sorting does not change the total quantity. */
  lemma {:induction false} SortQuantities(rows: seq<SummaryRow>)
    ensures RowQuantities(SortRows(rows)) == RowQuantities(rows)
    decreases |rows|
  {
    if rows != [] {
      SortQuantities(rows[1..]);
      InsertQuantities(rows[0], SortRows(rows[1..]));
    }
  }

  /** The admin page's `exportToExcel`: the deco map and summary filled by loops, then both sheets. */
  method ExportFromPage(orders: seq<ExportOrder>, products: Option<seq<ProductDeco>>) returns (w: Option<Workbook<PageRow>>)
    ensures w == PageExport(orders, products)
  {
    if products.None? {
      return None;
    }
    var decos := BuildDecoMap(products.value);
    var summary := Summarize(orders, decos);
    return Some(Workbook(PageDetailedRows(orders), SortRows(SummaryRows(summary))));
  }

  /** The export button's `exportToExcel`. */
  method ExportFromButton(isAdmin: bool, orders: Option<seq<ExportOrder>>, products: Option<seq<ProductDeco>>)
    returns (w: Option<Workbook<ButtonRow>>)
    ensures w == ButtonExport(isAdmin, orders, products)
  {
    if !isAdmin || orders.None? || products.None? {
      return None;
    }
    var decos := BuildDecoMap(products.value);
    var summary := Summarize(orders.value, decos);
    return Some(Workbook(ButtonDetailedRows(orders.value), SortRows(SummaryRows(summary))));
  }
}
