/** The fulfillment-partner XML export: escaping of element text with the five
    predefined entities of XML 1.0 (section 4.6), elements, the expansion of kit
    order items into their components, the status filter, and the assembly of
    the document from orders that the database calls would have fetched. */
module FulfillmentXml {
  import opened Base

  // ------------------------------------------------------------------ schema

  /** The configurable element names of the export. */
  datatype Schema = Schema(
    orders: string, order: string, orderNumber: string,
    customer: string, firstName: string, lastName: string, email: string,
    classDate: string, classType: string, program: string, status: string,
    shippingAddress: string, shippingName: string, shippingAttention: string,
    shippingAddress1: string, shippingAddress2: string, shippingCity: string,
    shippingState: string, shippingZip: string, shippingCountry: string,
    lineItems: string, lineItem: string, productName: string, sku: string,
    color: string, size: string, orderDate: string)

  /** The element names used when the caller passes no schema. */
  const DefaultSchema: Schema := Schema(
    "Orders", "Order", "OrderNumber",
    "Customer", "FirstName", "LastName", "Email",
    "ClassDate", "ClassType", "Program", "Status",
    "ShippingAddress", "Name", "Attention",
    "Address1", "Address2", "City",
    "State", "Zip", "Country",
    "LineItems", "LineItem", "ProductName", "SKU",
    "Color", "Size", "OrderDate")

  const XmlDeclaration: string := "<?xml version=\"1.0\" encoding=\"UTF-8\"?>"

  // ------------------------------------------------------------------ escaping

  /** `s` with every occurrence of the character `c` replaced by `t`
      (`replace` with a global one-character pattern). */
  function ReplaceAll(s: string, c: char, t: string): string
    decreases |s|
  {
    if s == [] then [] else (if s[0] == c then t else [s[0]]) + ReplaceAll(s[1..], c, t)
  }

  lemma {:induction false} ReplaceAllAppend(a: string, b: string, c: char, t: string)
    ensures ReplaceAll(a + b, c, t) == ReplaceAll(a, c, t) + ReplaceAll(b, c, t)
    decreases |a|
  {
    if a == [] {
      assert a + b == b;
    } else {
      assert (a + b)[0] == a[0];
      assert (a + b)[1..] == a[1..] + b;
      ReplaceAllAppend(a[1..], b, c, t);
    }
  }

  /** The replacement text of each of the five characters escapeXml handles. */
  datatype Entities = Entities(amp: string, lt: string, gt: string, quot: string, apos: string)

  /** The five predefined entities of XML 1.0, section 4.6. */
  const XmlEntities: Entities := Entities("&amp;", "&lt;", "&gt;", "&quot;", "&apos;")

  /** Five global replacements in escapeXml's order: `&` first, then `<`, `>`, `"` and `'`. */
  function ReplaceChain(s: string, e: Entities): string {
    ReplaceAll(ReplaceAll(ReplaceAll(ReplaceAll(ReplaceAll(
      s, '&', e.amp), '<', e.lt), '>', e.gt), '"', e.quot), '\'', e.apos)
  }

  /** escapeXml as written. */
  function EscapeXml(text: string): string {
    ReplaceChain(text, XmlEntities)
  }

  /** What one character becomes when each special character is replaced once. */
  function EntityOf(c: char, e: Entities): string {
    if c == '&' then e.amp
    else if c == '<' then e.lt
    else if c == '>' then e.gt
    else if c == '"' then e.quot
    else if c == '\'' then e.apos
    else [c]
  }

  function MapEntities(s: string, e: Entities): string
    decreases |s|
  {
    if s == [] then [] else EntityOf(s[0], e) + MapEntities(s[1..], e)
  }

  /** No replacement text contains a character that a LATER replacement rewrites. */
  predicate LaterStepsSkip(e: Entities) {
    '<' !in e.amp && '>' !in e.amp && '"' !in e.amp && '\'' !in e.amp
    && '>' !in e.lt && '"' !in e.lt && '\'' !in e.lt
    && '"' !in e.gt && '\'' !in e.gt
    && '\'' !in e.quot
  }

  lemma ReplaceAllSingle(c: char, x: char, t: string)
    ensures ReplaceAll([c], x, t) == if c == x then t else [c]
  {
    assert [c][1..] == [];
  }

  lemma {:induction false} ReplaceAllAbsent(s: string, x: char, t: string)
    requires x !in s
    ensures ReplaceAll(s, x, t) == s
    decreases |s|
  {
    if s != [] {
      ReplaceAllAbsent(s[1..], x, t);
      assert s == [s[0]] + s[1..];
    }
  }

  /** On one character, the chain produces exactly that character's replacement. */
  lemma ReplaceChainOne(c: char, e: Entities)
    requires LaterStepsSkip(e)
    ensures ReplaceChain([c], e) == EntityOf(c, e)
  {
    ReplaceAllSingle(c, '&', e.amp);
    if c == '&' {
      ReplaceAllAbsent(e.amp, '<', e.lt);
      ReplaceAllAbsent(e.amp, '>', e.gt);
      ReplaceAllAbsent(e.amp, '"', e.quot);
      ReplaceAllAbsent(e.amp, '\'', e.apos);
    } else {
      ReplaceAllSingle(c, '<', e.lt);
      if c == '<' {
        ReplaceAllAbsent(e.lt, '>', e.gt);
        ReplaceAllAbsent(e.lt, '"', e.quot);
        ReplaceAllAbsent(e.lt, '\'', e.apos);
      } else {
        ReplaceAllSingle(c, '>', e.gt);
        if c == '>' {
          ReplaceAllAbsent(e.gt, '"', e.quot);
          ReplaceAllAbsent(e.gt, '\'', e.apos);
        } else {
          ReplaceAllSingle(c, '"', e.quot);
          if c == '"' {
            ReplaceAllAbsent(e.quot, '\'', e.apos);
          } else {
            ReplaceAllSingle(c, '\'', e.apos);
          }
        }
      }
    }
  }

  lemma ReplaceChainAppend(a: string, b: string, e: Entities)
    ensures ReplaceChain(a + b, e) == ReplaceChain(a, e) + ReplaceChain(b, e)
  {
    var a1 := ReplaceAll(a, '&', e.amp);
    var b1 := ReplaceAll(b, '&', e.amp);
    ReplaceAllAppend(a, b, '&', e.amp);
    var a2 := ReplaceAll(a1, '<', e.lt);
    var b2 := ReplaceAll(b1, '<', e.lt);
    ReplaceAllAppend(a1, b1, '<', e.lt);
    var a3 := ReplaceAll(a2, '>', e.gt);
    var b3 := ReplaceAll(b2, '>', e.gt);
    ReplaceAllAppend(a2, b2, '>', e.gt);
    var a4 := ReplaceAll(a3, '"', e.quot);
    var b4 := ReplaceAll(b3, '"', e.quot);
    ReplaceAllAppend(a3, b3, '"', e.quot);
    ReplaceAllAppend(a4, b4, '\'', e.apos);
  }

  /** When no replacement text feeds a later replacement, the chain replaces
      every character exactly once. */
  lemma {:induction false} ReplaceChainPerCharacter(s: string, e: Entities)
    requires LaterStepsSkip(e)
    ensures ReplaceChain(s, e) == MapEntities(s, e)
    decreases |s|
  {
    if s != [] {
      assert s == [s[0]] + s[1..];
      ReplaceChainAppend([s[0]], s[1..], e);
      ReplaceChainOne(s[0], e);
      ReplaceChainPerCharacter(s[1..], e);
    }
  }

  /** The entity one character escapes to (or the character itself). */
  function EscapeChar(c: char): string {
    EntityOf(c, XmlEntities)
  }

  /** Reference definition: escape character by character. */
  function EscapeEach(s: string): string {
    MapEntities(s, XmlEntities)
  }

  /** Because `&` is replaced first, the entities introduced by the later
      replacements are never escaped again: the chain escapes each character
      exactly once. */
  lemma EscapeXmlIsPerCharacter(s: string)
    ensures EscapeXml(s) == EscapeEach(s)
  {
    assert LaterStepsSkip(XmlEntities);
    ReplaceChainPerCharacter(s, XmlEntities);
  }

  /** One of the five predefined entities starts at position `i` of `r`. */
  predicate EntityAt(r: string, i: int) {
    OccursAt(r, "&amp;", i) || OccursAt(r, "&lt;", i) || OccursAt(r, "&gt;", i)
    || OccursAt(r, "&quot;", i) || OccursAt(r, "&apos;", i)
  }

  predicate IsMarkupChar(c: char) {
    c == '<' || c == '>' || c == '"' || c == '\''
  }

  /** Safe element text: no raw `<`, `>`, `"` or `'`, and every `&` begins an entity. */
  predicate WellEscaped(r: string) {
    forall i :: 0 <= i < |r| ==> !IsMarkupChar(r[i]) && (r[i] == '&' ==> EntityAt(r, i))
  }

  lemma EntityAtAppend(a: string, b: string, i: int)
    ensures 0 <= i < |a| && EntityAt(a, i) ==> EntityAt(a + b, i)
    ensures 0 <= i < |b| && EntityAt(b, i) ==> EntityAt(a + b, |a| + i)
  {
    var es := ["&amp;", "&lt;", "&gt;", "&quot;", "&apos;"];
    forall e | e in es
      ensures 0 <= i < |a| && OccursAt(a, e, i) ==> OccursAt(a + b, e, i)
      ensures 0 <= i < |b| && OccursAt(b, e, i) ==> OccursAt(a + b, e, |a| + i)
    {
      if 0 <= i < |a| && OccursAt(a, e, i) { OccursAtAppendRight(a, b, e, i); }
      if 0 <= i < |b| && OccursAt(b, e, i) { OccursAtAppendLeft(a, b, e, i); }
    }
  }

  lemma WellEscapedAppend(a: string, b: string)
    requires WellEscaped(a) && WellEscaped(b)
    ensures WellEscaped(a + b)
  {
    forall i | 0 <= i < |a + b|
      ensures !IsMarkupChar((a + b)[i]) && ((a + b)[i] == '&' ==> EntityAt(a + b, i))
    {
      if i < |a| {
        assert (a + b)[i] == a[i];
        EntityAtAppend(a, b, i);
      } else {
        var k := i - |a|;
        assert (a + b)[i] == b[k];
        EntityAtAppend(a, b, k);
      }
    }
  }

  /** escapeXml output contains no raw markup character, and every `&` in it
      begins one of the five predefined entities. */
  lemma {:induction false} EscapeXmlWellEscaped(s: string)
    ensures WellEscaped(EscapeXml(s))
  {
    EscapeXmlIsPerCharacter(s);
    EscapeEachWellEscaped(s);
  }

  lemma {:induction false} EscapeEachWellEscaped(s: string)
    ensures WellEscaped(EscapeEach(s))
    decreases |s|
  {
    if s != [] {
      EscapeCharWellEscaped(s[0]);
      EscapeEachWellEscaped(s[1..]);
      WellEscapedAppend(EscapeChar(s[0]), EscapeEach(s[1..]));
    }
  }

  lemma EscapeCharWellEscaped(c: char)
    ensures WellEscaped(EscapeChar(c))
  {
    var e := EscapeChar(c);
    if c == '&' || c == '<' || c == '>' || c == '"' || c == '\'' {
      EntityWellEscaped(e);
    }
  }

  lemma EntityWellEscaped(e: string)
    requires e in ["&amp;", "&lt;", "&gt;", "&quot;", "&apos;"]
    ensures WellEscaped(e)
  {
    assert OccursAt(e, e, 0);
    assert forall i :: 1 <= i < |e| ==> e[i] != '&';
  }

  /** Text with none of the five special characters is left unchanged. */
  lemma {:induction false} EscapeXmlPlainText(s: string)
    requires forall i :: 0 <= i < |s| ==> s[i] != '&' && !IsMarkupChar(s[i])
    ensures EscapeXml(s) == s
  {
    EscapeXmlIsPerCharacter(s);
    EscapeEachPlain(s);
  }

  lemma {:induction false} EscapeEachPlain(s: string)
    requires forall i :: 0 <= i < |s| ==> s[i] != '&' && !IsMarkupChar(s[i])
    ensures EscapeEach(s) == s
    decreases |s|
  {
    if s != [] {
      EscapeEachPlain(s[1..]);
      assert s == [s[0]] + s[1..];
    }
  }

  /** Decoding of the five predefined entities; any other character is kept. */
  function Unescape(r: string): string
    decreases |r|
  {
    if r == [] then []
    else if r[0] != '&' then [r[0]] + Unescape(r[1..])
    else if StartsWith(r, "&amp;") then "&" + Unescape(r[5..])
    else if StartsWith(r, "&lt;") then "<" + Unescape(r[4..])
    else if StartsWith(r, "&gt;") then ">" + Unescape(r[4..])
    else if StartsWith(r, "&quot;") then "\"" + Unescape(r[6..])
    else if StartsWith(r, "&apos;") then "'" + Unescape(r[6..])
    else [r[0]] + Unescape(r[1..])
  }

  /** escapeXml is reversible: decoding the entities gives the text back. */
  lemma {:induction false} UnescapeEscapeXml(s: string)
    ensures Unescape(EscapeXml(s)) == s
  {
    EscapeXmlIsPerCharacter(s);
    UnescapeEscapeEach(s);
  }

  lemma {:induction false} UnescapeEscapeEach(s: string)
    ensures Unescape(EscapeEach(s)) == s
    decreases |s|
  {
    if s != [] {
      UnescapeEscapeEach(s[1..]);
      UnescapeEscapeChar(s[0], EscapeEach(s[1..]));
      assert s == [s[0]] + s[1..];
    }
  }

  /** The escape of each of the five characters, and of any other. */
  lemma EscapeCharCases(c: char)
    ensures EscapeChar(c) ==
      if c == '&' then "&amp;" else if c == '<' then "&lt;" else if c == '>' then "&gt;"
      else if c == '"' then "&quot;" else if c == '\'' then "&apos;" else [c]
  {
  }

  /** Decoding the escape of one character, followed by anything, gives the
      character back and continues after its escape. */
  lemma UnescapeEscapeChar(c: char, rest: string)
    ensures Unescape(EscapeChar(c) + rest) == [c] + Unescape(rest)
  {
    EscapeCharCases(c);
    var r := EscapeChar(c) + rest;
    if c == '&' {
      assert r[..5] == "&amp;";
      assert r[5..] == rest;
    } else if c == '<' {
      assert r[..4] == "&lt;";
      assert r[4..] == rest;
      assert r[1] == 'l';
    } else if c == '>' {
      assert r[..4] == "&gt;";
      assert r[4..] == rest;
      assert r[1] == 'g';
    } else if c == '"' {
      assert r[..6] == "&quot;";
      assert r[6..] == rest;
      assert r[1] == 'q';
    } else if c == '\'' {
      assert r[..6] == "&apos;";
      assert r[6..] == rest;
      assert r[1] == 'a' && r[2] == 'p';
    } else {
      assert r[0] == c;
      assert r[1..] == rest;
    }
  }

  /** element(name, content): the escaped content between an opening and a
      closing tag; null, undefined and '' give an empty element. */
  function Element(name: string, content: Option<string>): string {
    var safe := if Truthy(content) then EscapeXml(content.value) else "";
    "<" + name + ">" + safe + "</" + name + ">"
  }

  /** The text between the tags of an element decodes to the content (or to
      '' when there was none), and carries no raw markup, so a value can never
      open or close an element of its own; without content the element is empty. */
  lemma ElementContent(name: string, content: Option<string>)
    ensures var e := Element(name, content);
      var open := |name| + 2;
      open + |name| + 3 <= |e|
      && StartsWith(e, "<" + name + ">")
      && EndsWith(e, "</" + name + ">")
      && Unescape(e[open..|e| - |name| - 3]) == OrEmpty(content)
      && WellEscaped(e[open..|e| - |name| - 3])
      && (!Truthy(content) ==> |e| == 2 * |name| + 5)
  {
    var e := Element(name, content);
    var safe := if Truthy(content) then EscapeXml(content.value) else "";
    assert e == ("<" + name + ">") + safe + ("</" + name + ">");
    assert e[|name| + 2..|e| - |name| - 3] == safe;
    if Truthy(content) {
      UnescapeEscapeXml(content.value);
      EscapeXmlWellEscaped(content.value);
    }
  }

  // ------------------------------------------------------------------ kit expansion

  datatype KitComponent = KitComponent(name: string)

  /** The product columns the export reads: id, category and the kit components. */
  datatype ProductInfo = ProductInfo(id: string, category: string, kitItems: Option<seq<KitComponent>>)

  datatype OrderItem = OrderItem(
    orderId: string,
    productId: Option<string>,
    productName: string,
    sku: Option<string>,
    color: Option<string>,
    size: Option<string>)

  datatype LineItem = LineItem(productName: string, sku: string, color: string, size: string)

  /** The product map built with `forEach`/`set`: a later row with the same id
      overwrites an earlier one. */
  function ProductMapOf(products: seq<ProductInfo>): map<string, ProductInfo>
    decreases |products|
  {
    if products == [] then map[]
    else
      var last := products[|products| - 1];
      ProductMapOf(products[..|products| - 1])[last.id := last]
  }

  method BuildProductInfoMap(products: seq<ProductInfo>) returns (m: map<string, ProductInfo>)
    ensures m == ProductMapOf(products)
  {
    m := map[];
    var i := 0;
    while i < |products|
      invariant 0 <= i <= |products|
      invariant m == ProductMapOf(products[..i])
    {
      assert products[..i + 1][..i] == products[..i];
      m := m[products[i].id := products[i]];
      i := i + 1;
    }
    assert products[..i] == products;
  }

  /** The map's keys are exactly the ids of the rows. */
  lemma {:induction false} ProductMapKeys(products: seq<ProductInfo>, id: string)
    ensures id in ProductMapOf(products) <==> exists k :: 0 <= k < |products| && products[k].id == id
    decreases |products|
  {
    if products != [] {
      var n := |products| - 1;
      var init := products[..n];
      ProductMapKeys(init, id);
      if exists k :: 0 <= k < |products| && products[k].id == id {
        var k :| 0 <= k < |products| && products[k].id == id;
        if k < n {
          assert init[k] == products[k];
        }
      }
      if exists k :: 0 <= k < |init| && init[k].id == id {
        var k :| 0 <= k < |init| && init[k].id == id;
        assert products[k] == init[k];
      }
    }
  }

  /** A later row with the same id overwrites an earlier one: each id is bound
      to the last row carrying it. */
  lemma {:induction false} ProductMapLastWins(products: seq<ProductInfo>, k: int)
    requires 0 <= k < |products|
    requires forall j :: k < j < |products| ==> products[j].id != products[k].id
    ensures products[k].id in ProductMapOf(products)
    ensures ProductMapOf(products)[products[k].id] == products[k]
    decreases |products|
  {
    var n := |products| - 1;
    if k < n {
      var init := products[..n];
      assert init[k] == products[k];
      ProductMapLastWins(init, k);
    }
  }

  /** The kit lookup of one item: a truthy product id that is a key of the map. */
  function InfoOf(item: OrderItem, info: map<string, ProductInfo>): Option<ProductInfo> {
    if Truthy(item.productId) && item.productId.value in info then Some(info[item.productId.value]) else None
  }

  predicate IsKit(p: Option<ProductInfo>) {
    p.Some? && p.value.category == "kit"
  }

  predicate NamesComponent(components: seq<KitComponent>, name: string) {
    exists k :: 0 <= k < |components| && components[k].name == name
  }

  /** A kit item that was already stored as one component: its name is a
      component name of its kit and it has no SKU, colour or size. */
  predicate IsAlreadyComponent(item: OrderItem, p: Option<ProductInfo>) {
    IsKit(p) && p.value.kitItems.Some?
    && NamesComponent(p.value.kitItems.value, item.productName)
    && !Truthy(item.sku) && !Truthy(item.color) && !Truthy(item.size)
  }

  predicate ExpandsIntoComponents(item: OrderItem, p: Option<ProductInfo>) {
    IsKit(p) && p.value.kitItems.Some? && |p.value.kitItems.value| > 0 && !IsAlreadyComponent(item, p)
  }

  function ComponentLines(components: seq<KitComponent>): (r: seq<LineItem>)
    ensures |r| == |components|
    ensures forall k :: 0 <= k < |r| ==> r[k] == LineItem(components[k].name, "", "", "")
    decreases |components|
  {
    if components == [] then []
    else [LineItem(components[0].name, "", "", "")] + ComponentLines(components[1..])
  }

  function CopyLine(item: OrderItem): LineItem {
    LineItem(item.productName, OrEmpty(item.sku), OrEmpty(item.color), OrEmpty(item.size))
  }

  /** The lines one stored item contributes. */
  function ExpandItem(item: OrderItem, info: map<string, ProductInfo>): seq<LineItem> {
    var p := InfoOf(item, info);
    if ExpandsIntoComponents(item, p) then ComponentLines(p.value.kitItems.value)
    else [CopyLine(item)]
  }

  /** The lines of a sequence of items: each item's expansion, in item order. */
  function ExpandAll(items: seq<OrderItem>, info: map<string, ProductInfo>): seq<LineItem>
    decreases |items|
  {
    if items == [] then []
    else ExpandAll(items[..|items| - 1], info) + ExpandItem(items[|items| - 1], info)
  }

  /** expandOrderItems: a `for` loop over the items, pushing into `result`. */
  method ExpandOrderItems(items: seq<OrderItem>, info: map<string, ProductInfo>) returns (result: seq<LineItem>)
    ensures result == ExpandAll(items, info)
  {
    result := [];
    var i := 0;
    while i < |items|
      invariant 0 <= i <= |items|
      invariant result == ExpandAll(items[..i], info)
    {
      var item := items[i];
      var p := InfoOf(item, info);
      if ExpandsIntoComponents(item, p) {
        result := PushComponents(result, p.value.kitItems.value);
      } else {
        result := result + [CopyLine(item)];
      }
      assert items[..i + 1][..i] == items[..i];
      i := i + 1;
    }
    assert items[..i] == items;
  }

  /** The inner `forEach` over a kit's components: one line per component, pushed in order. */
  method PushComponents(result: seq<LineItem>, components: seq<KitComponent>) returns (r: seq<LineItem>)
    ensures r == result + ComponentLines(components)
  {
    r := result;
    var k := 0;
    while k < |components|
      invariant 0 <= k <= |components|
      invariant r == result + ComponentLines(components[..k])
    {
      ComponentLinesSnoc(components, k);
      r := r + [LineItem(components[k].name, "", "", "")];
      k := k + 1;
    }
    assert components[..k] == components;
  }

  /** One more component adds its line at the end. */
  lemma ComponentLinesSnoc(components: seq<KitComponent>, k: int)
    requires 0 <= k < |components|
    ensures ComponentLines(components[..k + 1]) == ComponentLines(components[..k]) + [LineItem(components[k].name, "", "", "")]
  {
  }

  /** One more item adds its own lines at the end. */
  lemma ExpandAllSnoc(items: seq<OrderItem>, item: OrderItem, info: map<string, ProductInfo>)
    ensures ExpandAll(items + [item], info) == ExpandAll(items, info) + ExpandItem(item, info)
  {
    var all := items + [item];
    assert all[..|all| - 1] == items;
  }

  /** The append property carries over to one more item at the end. */
  lemma ExpandAllAppendStep(a: seq<OrderItem>, c: seq<OrderItem>, z: OrderItem, info: map<string, ProductInfo>)
    requires ExpandAll(a + c, info) == ExpandAll(a, info) + ExpandAll(c, info)
    ensures ExpandAll(a + (c + [z]), info) == ExpandAll(a, info) + ExpandAll(c + [z], info)
  {
    assert a + (c + [z]) == (a + c) + [z];
    ExpandAllSnoc(a + c, z, info);
    ExpandAllSnoc(c, z, info);
    LinesAssociate(ExpandAll(a, info), ExpandAll(c, info), ExpandItem(z, info));
  }

  lemma LinesAssociate(x: seq<LineItem>, y: seq<LineItem>, e: seq<LineItem>)
    ensures (x + y) + e == x + (y + e)
  {
  }

  /** Expansion keeps item order: the lines of `a + b` are the lines of `a`
      followed by the lines of `b`. */
  lemma {:induction false} ExpandAllAppend(a: seq<OrderItem>, b: seq<OrderItem>, info: map<string, ProductInfo>)
    ensures ExpandAll(a + b, info) == ExpandAll(a, info) + ExpandAll(b, info)
    decreases |b|
  {
    if b == [] {
      assert a + b == a;
    } else {
      var n := |b| - 1;
      ExpandAllAppend(a, b[..n], info);
      assert b == b[..n] + [b[n]];
      ExpandAllAppendStep(a, b[..n], b[n], info);
    }
  }

  /** An item whose product is unknown or not a kit yields one copied line. */
  lemma NonKitItemIsCopied(item: OrderItem, info: map<string, ProductInfo>)
    requires !IsKit(InfoOf(item, info))
    ensures ExpandItem(item, info) == [LineItem(item.productName, OrEmpty(item.sku), OrEmpty(item.color), OrEmpty(item.size))]
  {
  }

  /** A kit item with components that is not already a component yields one
      line per component, named by the components in order, with empty SKU,
      colour and size. */
  lemma KitItemExpands(item: OrderItem, info: map<string, ProductInfo>)
    requires IsKit(InfoOf(item, info))
    requires var p := InfoOf(item, info).value; p.kitItems.Some? && |p.kitItems.value| > 0
    requires !IsAlreadyComponent(item, InfoOf(item, info))
    ensures var cs := InfoOf(item, info).value.kitItems.value;
      |ExpandItem(item, info)| == |cs|
      && forall k :: 0 <= k < |cs| ==> ExpandItem(item, info)[k] == LineItem(cs[k].name, "", "", "")
  {
  }

  /** An item that is already one of its kit's components yields exactly one line. */
  lemma AlreadyExpandedItemIsCopied(item: OrderItem, info: map<string, ProductInfo>)
    requires IsAlreadyComponent(item, InfoOf(item, info))
    ensures ExpandItem(item, info) == [LineItem(item.productName, "", "", "")]
  {
  }

  // ------------------------------------------------------------------ status filter

  function TrimAll(parts: seq<string>): (r: seq<string>)
    ensures |r| == |parts|
    ensures forall k :: 0 <= k < |r| ==> r[k] == Trim(parts[k])
  {
    if parts == [] then [] else [Trim(parts[0])] + TrimAll(parts[1..])
  }

  /** `filter(Boolean)` on strings: drop the empty ones, keep the order. */
  function DropEmpty(parts: seq<string>): (r: seq<string>)
    ensures forall k :: 0 <= k < |r| ==> r[k] != "" && r[k] in parts
    ensures forall k :: 0 <= k < |parts| && parts[k] != "" ==> parts[k] in r
  {
    if parts == [] then []
    else if parts[0] == "" then DropEmpty(parts[1..])
    else [parts[0]] + DropEmpty(parts[1..])
  }

  lemma TrimKeepsAbsent(s: string, c: char)
    requires c !in s
    ensures c !in Trim(s)
  {
    TrimSpec(s);
  }

  /** The trimmed non-empty parts of a comma-separated status list. */
  function StatusList(filter: string): seq<string> {
    DropEmpty(TrimAll(Split(filter, ',')))
  }

  /** The statuses to filter on, or None when no filtering is done. */
  function ParseStatusFilter(filter: Option<string>): Option<seq<string>> {
    if !Truthy(filter) then None
    else if |StatusList(filter.value)| > 0 then Some(StatusList(filter.value))
    else None
  }

  /** Each kept part is non-empty and has no white space at either end. */
  lemma TrimmedPartsWellFormed(parts: seq<string>, k: int)
    requires 0 <= k < |DropEmpty(TrimAll(parts))|
    ensures var st := DropEmpty(TrimAll(parts))[k];
      st != "" && !IsJsSpace(st[0]) && !IsJsSpace(st[|st| - 1])
  {
    var trimmed := TrimAll(parts);
    var st := DropEmpty(trimmed)[k];
    assert st in trimmed;
    var j :| 0 <= j < |trimmed| && trimmed[j] == st;
    assert st == Trim(parts[j]);
    TrimSpec(parts[j]);
  }

  /** Every part is empty or white space only. */
  predicate AllBlank(parts: seq<string>) {
    forall k :: 0 <= k < |parts| ==> Trim(parts[k]) == ""
  }

  /** Nothing is kept exactly when every part is blank. */
  lemma TrimmedPartsEmpty(parts: seq<string>)
    ensures |DropEmpty(TrimAll(parts))| == 0 <==> AllBlank(parts)
  {
    var trimmed := TrimAll(parts);
    var kept := DropEmpty(trimmed);
    if |kept| == 0 {
      forall k | 0 <= k < |parts| ensures Trim(parts[k]) == "" {
        if trimmed[k] != "" { assert false; }
      }
    } else {
      assert kept[0] in trimmed;
      var j :| 0 <= j < |trimmed| && trimmed[j] == kept[0];
      assert Trim(parts[j]) != "";
    }
  }

  /** No status contains a comma. */
  lemma StatusesHaveNoComma(filter: string, k: int)
    requires 0 <= k < |StatusList(filter)|
    ensures ',' !in StatusList(filter)[k]
  {
    var parts := Split(filter, ',');
    var trimmed := TrimAll(parts);
    var st := StatusList(filter)[k];
    assert st in trimmed;
    var j :| 0 <= j < |trimmed| && trimmed[j] == st;
    TrimKeepsAbsent(parts[j], ',');
  }

  /** Every comma-separated part that is not blank contributes its trimmed text. */
  lemma StatusesComplete(filter: string, k: int)
    requires 0 <= k < |Split(filter, ',')| && Trim(Split(filter, ',')[k]) != ""
    ensures Trim(Split(filter, ',')[k]) in StatusList(filter)
  {
    var trimmed := TrimAll(Split(filter, ','));
    assert trimmed[k] == Trim(Split(filter, ',')[k]);
  }

  /** No filtering happens exactly when the filter is absent or empty, or all
      of its comma-separated parts are blank. */
  lemma NoStatusFilterIffBlank(filter: Option<string>)
    ensures ParseStatusFilter(filter).None? <==> (!Truthy(filter) || AllBlank(Split(filter.value, ',')))
  {
    if Truthy(filter) {
      TrimmedPartsEmpty(Split(filter.value, ','));
    }
  }

  /** The query's status condition: an order passes when there is no filter
      or its status is one of the listed ones. */
  predicate PassesStatusFilter(status: string, filter: Option<string>) {
    var r := ParseStatusFilter(filter);
    r.None? || status in r.value
  }

  // ------------------------------------------------------------------ document

  datatype DbOrder = DbOrder(
    id: string,
    orderNumber: string,
    firstName: string,
    lastName: string,
    email: string,
    program: string,
    status: string,
    classDate: Option<string>,
    classType: Option<string>,
    shippingName: string,
    shippingAttention: Option<string>,
    shippingAddress: string,
    shippingAddress2: Option<string>,
    shippingCity: string,
    shippingState: string,
    shippingZip: string,
    shippingCountry: string,
    createdAt: string)

  /** The calendar day of a timestamp already in UTC ISO form: the text before `T`. */
  function DayOf(timestamp: string): string {
    Split(timestamp, 'T')[0]
  }

  /** The rows of `items` that belong to the order, in their stored order. */
  function ItemsOf(orderId: string, items: seq<OrderItem>): (r: seq<OrderItem>)
    ensures forall k :: 0 <= k < |r| ==> r[k] in items && r[k].orderId == orderId
    ensures forall k :: 0 <= k < |items| && items[k].orderId == orderId ==> items[k] in r
    ensures |items| == 1 ==> r == (if items[0].orderId == orderId then items else [])
  {
    if items == [] then []
    else if items[0].orderId == orderId then [items[0]] + ItemsOf(orderId, items[1..])
    else ItemsOf(orderId, items[1..])
  }

  /** Selecting an order's items from two runs of rows is selecting from each, in turn: with the
      one-row case above this fixes the result, rows kept in stored order and each once. */
  lemma {:induction false} ItemsOfAppend(orderId: string, a: seq<OrderItem>, b: seq<OrderItem>)
    ensures ItemsOf(orderId, a + b) == ItemsOf(orderId, a) + ItemsOf(orderId, b)
    decreases |a|
  {
    if a == [] {
      assert a + b == b;
    } else {
      assert (a + b)[1..] == a[1..] + b;
      ItemsOfAppend(orderId, a[1..], b);
    }
  }

  /** The orders the status query returns, in the order the database returned them. */
  function SelectByStatus(orders: seq<DbOrder>, filter: Option<string>): (r: seq<DbOrder>)
    ensures forall k :: 0 <= k < |r| ==> r[k] in orders && PassesStatusFilter(r[k].status, filter)
    ensures forall k :: 0 <= k < |orders| && PassesStatusFilter(orders[k].status, filter) ==> orders[k] in r
    ensures ParseStatusFilter(filter).None? ==> r == orders
    ensures r == [] <==> forall k :: 0 <= k < |orders| ==> !PassesStatusFilter(orders[k].status, filter)
  {
    if orders == [] then []
    else if PassesStatusFilter(orders[0].status, filter) then [orders[0]] + SelectByStatus(orders[1..], filter)
    else SelectByStatus(orders[1..], filter)
  }

  /** One row is kept exactly when it passes. */
  lemma SelectByStatusOne(a: seq<DbOrder>, filter: Option<string>)
    requires |a| == 1
    ensures SelectByStatus(a, filter) == (if PassesStatusFilter(a[0].status, filter) then a else [])
  {
    var rest := a[1..];
    assert rest == [];
    assert SelectByStatus(rest, filter) == [];
    if PassesStatusFilter(a[0].status, filter) {
      assert SelectByStatus(a, filter) == [a[0]] + SelectByStatus(rest, filter);
      assert [a[0]] + [] == a;
    } else {
      assert SelectByStatus(a, filter) == SelectByStatus(rest, filter);
    }
  }

  /** Selecting from two runs of rows is selecting from each, in turn, and one row is kept exactly
      when it passes: together these fix the result, the passing rows in the order the database
      returned them, each once. */
  lemma {:induction false} SelectByStatusAppend(a: seq<DbOrder>, b: seq<DbOrder>, filter: Option<string>)
    ensures SelectByStatus(a + b, filter) == SelectByStatus(a, filter) + SelectByStatus(b, filter)
    decreases |a|
  {
    if a == [] {
      assert a + b == b;
    } else {
      assert (a + b)[1..] == a[1..] + b;
      SelectByStatusAppend(a[1..], b, filter);
    }
  }

  function MapLineItemElements(schema: Schema, lines: seq<LineItem>): (r: seq<string>)
    ensures |r| == |lines|
    ensures forall k :: 0 <= k < |r| ==> r[k] == LineItemElement(schema, lines[k])
  {
    if lines == [] then [] else [LineItemElement(schema, lines[0])] + MapLineItemElements(schema, lines[1..])
  }

  function LineItemElement(schema: Schema, li: LineItem): string {
    "    <" + schema.lineItem + ">"
    + Element(schema.productName, Some(li.productName)) + Element(schema.sku, Some(li.sku))
    + Element(schema.color, Some(li.color)) + Element(schema.size, Some(li.size))
    + "</" + schema.lineItem + ">"
  }

  /** The parts one after the other (`join('')`). */
  function Concat(parts: seq<string>): string {
    if parts == [] then "" else parts[0] + Concat(parts[1..])
  }

  function CustomerBlock(schema: Schema, o: DbOrder): string {
    var classDay := if Truthy(o.classDate) then DayOf(o.classDate.value) else "";
    Concat([Element(schema.firstName, Some(o.firstName)), Element(schema.lastName, Some(o.lastName)),
      Element(schema.email, Some(o.email)), Element(schema.classDate, Some(classDay)),
      Element(schema.classType, o.classType), Element(schema.program, Some(o.program)),
      Element(schema.status, Some(o.status))])
  }

  function ShippingBlock(schema: Schema, o: DbOrder): string {
    Concat([Element(schema.shippingName, Some(o.shippingName)), Element(schema.shippingAttention, o.shippingAttention),
      Element(schema.shippingAddress1, Some(o.shippingAddress)), Element(schema.shippingAddress2, o.shippingAddress2),
      Element(schema.shippingCity, Some(o.shippingCity)), Element(schema.shippingState, Some(o.shippingState)),
      Element(schema.shippingZip, Some(o.shippingZip)), Element(schema.shippingCountry, Some(o.shippingCountry))])
  }

  /** Everything of an order's element up to its line items. */
  function OrderHead(schema: Schema, o: DbOrder): string {
    Concat(["  <", schema.order, ">\n    ", Element(schema.orderNumber, Some(o.orderNumber)),
      "\n    <", schema.customer, ">", CustomerBlock(schema, o), "</", schema.customer, ">",
      "\n    <", schema.shippingAddress, ">", ShippingBlock(schema, o), "</", schema.shippingAddress, ">",
      "\n    ", Element(schema.orderDate, Some(DayOf(o.createdAt))),
      "\n    <", schema.lineItems, ">\n"])
  }

  /** Everything of an order's element after its line items. */
  function OrderTail(schema: Schema): string {
    "\n    </" + schema.lineItems + ">\n  </" + schema.order + ">"
  }

  /** One order's element, laid out as the template literal lays it out. */
  function OrderElement(schema: Schema, o: DbOrder, lines: seq<LineItem>): string {
    OrderHead(schema, o) + Join(MapLineItemElements(schema, lines), "\n") + OrderTail(schema)
  }

  /** The element of an order with its items, expanded. */
  function OrderElementOf(schema: Schema, o: DbOrder, items: seq<OrderItem>, info: map<string, ProductInfo>): string {
    OrderElement(schema, o, ExpandAll(ItemsOf(o.id, items), info))
  }

  function OrderElements(schema: Schema, orders: seq<DbOrder>, items: seq<OrderItem>, info: map<string, ProductInfo>): (r: seq<string>)
    ensures |r| == |orders|
    ensures forall k :: 0 <= k < |r| ==> r[k] == OrderElementOf(schema, orders[k], items, info)
  {
    seq(|orders|, k requires 0 <= k < |orders| => OrderElementOf(schema, orders[k], items, info))
  }

  function EmptyDocument(schema: Schema): string {
    XmlDeclaration + "\n<" + schema.orders + ">\n</" + schema.orders + ">"
  }

  /** The declaration and the root element around the order elements, one per line. */
  function Document(schema: Schema, elems: seq<string>): string {
    XmlDeclaration + "\n" + "<" + schema.orders + ">\n" + Join(elems, "\n") + "\n</" + schema.orders + ">"
  }

  /** The tail of buildFulfillmentXml: the orders the status query selects,
      each with its expanded items, inside the root element, under the given
      schema or the default one. */
  function BuildFulfillmentXml(schemaOption: Option<Schema>, orders: seq<DbOrder>, products: seq<ProductInfo>,
                               items: seq<OrderItem>, statusFilter: Option<string>): string
  {
    var schema := if schemaOption.Some? then schemaOption.value else DefaultSchema;
    var selected := SelectByStatus(orders, statusFilter);
    if |selected| == 0 then EmptyDocument(schema)
    else Document(schema, OrderElements(schema, selected, items, ProductMapOf(products)))
  }

  /** Some selected order's item query returned an error. */
  predicate ItemQueryFails(selected: seq<DbOrder>, failing: set<string>) {
    exists k :: 0 <= k < |selected| && selected[k].id in failing
  }

  /** buildFulfillmentXml with its queries' answers given: `None` for a query that returns an
      error, and `failing` the order ids whose item query does. The orders query is read first;
      with no order selected the function returns before the product and item queries, and
      otherwise any error among them is thrown (`None`). */
  function FetchAndBuild(schemaOption: Option<Schema>, ordersQ: Option<seq<DbOrder>>,
                         productsQ: Option<seq<ProductInfo>>, items: seq<OrderItem>, failing: set<string>,
                         statusFilter: Option<string>): (r: Option<string>)
    ensures r.None? <==> (ordersQ.None?
      || (SelectByStatus(ordersQ.value, statusFilter) != []
          && (productsQ.None? || ItemQueryFails(SelectByStatus(ordersQ.value, statusFilter), failing))))
    ensures r.Some? ==> r.value == BuildFulfillmentXml(schemaOption, ordersQ.value,
      if productsQ.Some? then productsQ.value else [], items, statusFilter)
  {
    if ordersQ.None? then None
    else
      var selected := SelectByStatus(ordersQ.value, statusFilter);
      if selected == [] then Some(EmptyDocument(if schemaOption.Some? then schemaOption.value else DefaultSchema))
      else if productsQ.None? || ItemQueryFails(selected, failing) then None
      else Some(BuildFulfillmentXml(schemaOption, ordersQ.value, productsQ.value, items, statusFilter))
  }

  /** With no order selected, failed product or item queries do not matter: they are never made. */
  lemma EmptySelectionSkipsLaterQueries(schemaOption: Option<Schema>, orders: seq<DbOrder>,
                                        productsQ: Option<seq<ProductInfo>>, items: seq<OrderItem>,
                                        failing: set<string>, statusFilter: Option<string>)
    requires SelectByStatus(orders, statusFilter) == []
    ensures FetchAndBuild(schemaOption, Some(orders), productsQ, items, failing, statusFilter)
      == Some(EmptyDocument(if schemaOption.Some? then schemaOption.value else DefaultSchema))
  {
  }

  /** Where the k-th part begins in `Join(parts, sep)`. */
  function JoinOffset(parts: seq<string>, sep: string, k: nat): nat
    requires k <= |parts|
  {
    if k == 0 then 0 else JoinOffset(parts, sep, k - 1) + |parts[k - 1]| + |sep|
  }

  /** Each part occurs in the joined string at its offset; offsets grow with
      the index, so the parts appear in order and do not overlap. */
  lemma {:induction false} JoinPartAt(parts: seq<string>, sep: string, k: nat)
    requires k < |parts|
    ensures OccursAt(Join(parts, sep), parts[k], JoinOffset(parts, sep, k))
    decreases |parts|
  {
    if k == 0 {
      if |parts| > 1 {
        assert Join(parts, sep) == parts[0] + (sep + Join(parts[1..], sep));
        OccursAtAppendRight(parts[0], sep + Join(parts[1..], sep), parts[0], 0);
      }
    } else {
      JoinPartAt(parts[1..], sep, k - 1);
      JoinOffsetShift(parts, sep, k);
      assert Join(parts, sep) == (parts[0] + sep) + Join(parts[1..], sep);
      OccursAtAppendLeft(parts[0] + sep, Join(parts[1..], sep), parts[k], JoinOffset(parts[1..], sep, k - 1));
    }
  }

  lemma {:induction false} JoinOffsetShift(parts: seq<string>, sep: string, k: nat)
    requires 1 <= k <= |parts|
    ensures JoinOffset(parts, sep, k) == |parts[0]| + |sep| + JoinOffset(parts[1..], sep, k - 1)
    decreases k
  {
    if k > 1 {
      JoinOffsetShift(parts, sep, k - 1);
    }
  }

  /** A part of a joined sequence occurs in any text that wraps the join. */
  lemma JoinedPartInContext(whole: string, head: string, parts: seq<string>, sep: string, tail: string, k: nat)
    requires whole == head + Join(parts, sep) + tail
    requires k < |parts|
    ensures OccursAt(whole, parts[k], |head| + JoinOffset(parts, sep, k))
  {
    JoinPartAt(parts, sep, k);
    OccursAtAppendLeft(head, Join(parts, sep), parts[k], JoinOffset(parts, sep, k));
    OccursAtAppendRight(head + Join(parts, sep), tail, parts[k], |head| + JoinOffset(parts, sep, k));
  }

  /** The document lists the order elements in the order given, each on its
      own line after the root's opening tag, without overlap. */
  lemma DocumentListsOrdersInOrder(schema: Schema, elems: seq<string>, k: nat)
    requires k < |elems|
    ensures OccursAt(Document(schema, elems), elems[k],
                     |XmlDeclaration| + |schema.orders| + 4 + JoinOffset(elems, "\n", k))
    ensures k + 1 < |elems| ==> JoinOffset(elems, "\n", k) + |elems[k]| < JoinOffset(elems, "\n", k + 1)
  {
    var head := XmlDeclaration + "\n" + "<" + schema.orders + ">\n";
    JoinedPartInContext(Document(schema, elems), head, elems, "\n", "\n</" + schema.orders + ">", k);
  }

  /** Under the default schema the empty document is exactly this text. */
  lemma DefaultEmptyDocument()
    ensures EmptyDocument(DefaultSchema) == "<?xml version=\"1.0\" encoding=\"UTF-8\"?>\n<Orders>\n</Orders>"
  {
  }

  /** With no selected order the document is the declaration and an empty root element. */
  lemma EmptyExport(schemaOption: Option<Schema>, orders: seq<DbOrder>, products: seq<ProductInfo>,
                    items: seq<OrderItem>, statusFilter: Option<string>)
    requires forall k :: 0 <= k < |orders| ==> !PassesStatusFilter(orders[k].status, statusFilter)
    ensures BuildFulfillmentXml(schemaOption, orders, products, items, statusFilter)
      == EmptyDocument(if schemaOption.Some? then schemaOption.value else DefaultSchema)
  {
  }
}
