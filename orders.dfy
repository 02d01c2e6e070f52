/** Order placement: the next order number, stock decrements, and the `POST` handler that
    validates a request, rejects a reused access code, records the order with its items
    and marks the code used. The four tables are sequences held by `OrderStore`; rows are
    kept in insertion order, so the newest order is the last one. */
module Orders {
  import opened Base

  // ---------------------------------------------------------------- decimal numbers

  predicate AllDigits(s: string) {
    forall i :: 0 <= i < |s| ==> IsAsciiDigit(s[i])
  }

  function DigitValue(c: char): nat
    requires IsAsciiDigit(c)
  {
    c as int - '0' as int
  }

  function DigitChar(d: nat): (c: char)
    requires d < 10
    ensures IsAsciiDigit(c) && DigitValue(c) == d
  {
    ('0' as int + d) as char
  }

  /** `parseInt(d, 10)` for a string of decimal digits. */
  function DigitsValue(d: string): nat
    requires AllDigits(d)
    decreases |d|
  {
    if d == [] then 0 else 10 * DigitsValue(d[..|d| - 1]) + DigitValue(d[|d| - 1])
  }

  /** `String(n)`: the decimal digits of `n`, without leading zeros. */
  function Decimal(n: nat): (r: string)
    ensures AllDigits(r) && r != []
    ensures r[0] == '0' ==> n == 0
    ensures DigitsValue(r) == n
  {
    if n < 10 then [DigitChar(n)]
    else
      var r := Decimal(n / 10) + [DigitChar(n % 10)];
      assert r[..|r| - 1] == Decimal(n / 10);
      r
  }

  function Pow10(k: nat): nat {
    if k == 0 then 1 else 10 * Pow10(k - 1)
  }

  /** A number of at least `10^k` has more than `k` digits. */
  lemma {:induction false} DecimalWidth(n: nat, k: nat)
    requires Pow10(k) <= n
    ensures |Decimal(n)| > k
    decreases k
  {
    if k > 0 {
      DecimalWidth(n / 10, k - 1);
    }
  }

  /** Leading zeros do not change the value `parseInt` reads. */
  lemma {:induction false} LeadingZero(d: string)
    requires AllDigits(d)
    ensures AllDigits(['0'] + d) && DigitsValue(['0'] + d) == DigitsValue(d)
    decreases |d|
  {
    if d != [] {
      LeadingZero(d[..|d| - 1]);
      assert (['0'] + d)[..|d|] == ['0'] + d[..|d| - 1];
    }
  }

  lemma {:induction false} PadZerosKeepsValue(d: string, k: nat)
    requires AllDigits(d)
    ensures AllDigits(PadStart(d, k, '0'))
    ensures DigitsValue(PadStart(d, k, '0')) == DigitsValue(d)
    decreases k - |d|
  {
    if |d| < k {
      LeadingZero(d);
      PadZerosKeepsValue(['0'] + d, k);
    }
  }

  // ---------------------------------------------------------------- order numbers

  const OrderPrefix := "RANH-"
  const FirstOrderNumber := "RANH-001"
  /** The two patterns, lower-cased: `/RANH-(\d+)/i` and the legacy `/ra-new-hire-(\d+)/i`. */
  const NewTag := "ranh-"
  const LegacyTag := "ra-new-hire-"

  /** `w` equals the lower-case `tag` up to ASCII letter case, as the `i` flag compares. */
  predicate TagMatch(w: string, tag: string) {
    |w| == |tag| && forall k :: 0 <= k < |w| ==> LowerChar(w[k]) == tag[k]
  }

  /** The case-insensitive `tag` followed by a digit occurs at `i`: where the regex matches. */
  predicate TaggedAt(s: string, tag: string, i: int) {
    0 <= i && i + |tag| < |s| && TagMatch(s[i..i + |tag|], tag) && IsAsciiDigit(s[i + |tag|])
  }

  /** The leftmost match position at or after `from`, as the regex search finds it. */
  function FindTagged(s: string, tag: string, from: nat): (r: Option<nat>)
    ensures r.Some? ==> from <= r.value && TaggedAt(s, tag, r.value)
    ensures r.Some? ==> forall j :: from <= j < r.value ==> !TaggedAt(s, tag, j)
    ensures r.None? ==> forall j :: from <= j ==> !TaggedAt(s, tag, j)
    decreases |s| - from
  {
    if from + |tag| >= |s| then None
    else if TaggedAt(s, tag, from) then Some(from)
    else FindTagged(s, tag, from + 1)
  }

  /** The greedy `\d+` run starting at `j`. */
  function DigitRun(s: string, j: nat): (r: string)
    requires j <= |s|
    ensures AllDigits(r) && j + |r| <= |s| && r == s[j..j + |r|]
    ensures j + |r| == |s| || !IsAsciiDigit(s[j + |r|])
    decreases |s| - j
  {
    if j < |s| && IsAsciiDigit(s[j]) then
      var rest := DigitRun(s, j + 1);
      assert s[j..j + 1 + |rest|] == [s[j]] + s[j + 1..j + 1 + |rest|];
      [s[j]] + rest
    else []
  }

  /** The first capture group of the case-insensitive `tag(\d+)`, if the pattern matches. */
  function Captured(s: string, tag: string): (r: Option<string>)
    ensures r.Some? ==> AllDigits(r.value) && r.value != []
    ensures r.None? <==> forall i :: !TaggedAt(s, tag, i)
  {
    match FindTagged(s, tag, 0)
    case None => None
    case Some(i) => Some(DigitRun(s, i + |tag|))
  }

  /** The sequence number read from the last order number: the new form first, then the legacy one. */
  function SequenceNumber(last: string): Option<nat> {
    match Captured(last, NewTag)
    case Some(d) => Some(DigitsValue(d))
    case None =>
      match Captured(last, LegacyTag)
      case Some(d) => Some(DigitsValue(d))
      case None => None
  }

  /** `RANH-` and the number zero-padded to at least three digits. */
  function FormatOrderNumber(n: nat): (r: string)
    ensures StartsWith(r, OrderPrefix) && |r| >= |OrderPrefix| + 3 && AllDigits(r[|OrderPrefix|..])
  {
    var digits := PadStart(Decimal(n), 3, '0');
    PadZerosKeepsValue(Decimal(n), 3);
    var r := OrderPrefix + digits;
    assert r[|OrderPrefix|..] == digits;
    r
  }

  /** The query for the most recent order number: failed, or the rows it returned. */
  datatype NumberQuery = QueryFailed | Rows(numbers: seq<string>)

  /** `generateOrderNumber`, given the answer of the query for the newest order. */
  function GenerateOrderNumber(q: NumberQuery): (r: string)
    ensures StartsWith(r, OrderPrefix) && |r| >= |OrderPrefix| + 3 && AllDigits(r[|OrderPrefix|..])
    ensures q.QueryFailed? || q.numbers == [] ==> r == FirstOrderNumber
    ensures q.Rows? && q.numbers != [] && SequenceNumber(q.numbers[0]).Some? ==>
      r == FormatOrderNumber(SequenceNumber(q.numbers[0]).value + 1)
    ensures q.Rows? && q.numbers != [] && SequenceNumber(q.numbers[0]).None? ==> r == FirstOrderNumber
  {
    if q.QueryFailed? || q.numbers == [] then FormatOrderNumber(0 + 1)
    else
      match SequenceNumber(q.numbers[0])
      case Some(n) => FormatOrderNumber(n + 1)
      case None => FormatOrderNumber(0 + 1)
  }

  lemma FirstOrderNumberIsOne()
    ensures FormatOrderNumber(1) == FirstOrderNumber
  {
    assert Decimal(1) == "1";
    assert PadStart("01", 3, '0') == PadStart("001", 3, '0') == "001";
    assert PadStart("1", 3, '0') == "001";
    assert OrderPrefix + "001" == FirstOrderNumber;
  }

  /** A string made of the tag (in any letter case) and digits captures exactly those digits. */
  lemma CapturedAfterTag(p: string, tag: string, d: string)
    requires TagMatch(p, tag) && AllDigits(d) && d != []
    ensures Captured(p + d, tag) == Some(d)
  {
    var s := p + d;
    assert s[..|p|] == p;
    assert s[|p|] == d[0];
    assert TaggedAt(s, tag, 0);
    assert FindTagged(s, tag, 0) == Some(0);
    var run := DigitRun(s, |p|);
    assert run == s[|p|..] == d;
  }

  lemma PrefixesMatch()
    ensures TagMatch(OrderPrefix, NewTag)
    ensures TagMatch(LegacyTag, LegacyTag)
  {
  }

  /** A generated number reads back as the number it was made from. */
  lemma FormattedReadsBack(n: nat)
    ensures SequenceNumber(FormatOrderNumber(n)) == Some(n)
  {
    var digits := PadStart(Decimal(n), 3, '0');
    PadZerosKeepsValue(Decimal(n), 3);
    PrefixesMatch();
    CapturedAfterTag(OrderPrefix, NewTag, digits);
  }

  /** The number after a generated one continues the sequence: `RANH-n` is followed by `RANH-(n+1)`. */
  lemma NextAfterFormatted(n: nat)
    ensures GenerateOrderNumber(Rows([FormatOrderNumber(n)])) == FormatOrderNumber(n + 1)
  {
    var q := Rows([FormatOrderNumber(n)]);
    FormattedReadsBack(n);
    assert SequenceNumber(q.numbers[0]) == Some(n);
  }

  /** No position of a legacy number matches the new pattern. */
  lemma NoNewTagInLegacy(d: string, i: int)
    requires AllDigits(d)
    ensures !TaggedAt(LegacyTag + d, NewTag, i)
  {
    var s := LegacyTag + d;
    if 0 <= i && i + 5 < |s| {
      var w := s[i..i + 5];
      if i + 4 >= 12 {
        assert w[4] == d[i + 4 - 12];
      } else {
        assert w[3] == LegacyTag[i + 3];
      }
    }
  }

  /** A legacy number `ra-new-hire-n` reads as `n`. */
  lemma LegacyReadsBack(n: nat)
    ensures SequenceNumber(LegacyTag + Decimal(n)) == Some(n)
  {
    var s := LegacyTag + Decimal(n);
    forall i
      ensures !TaggedAt(s, NewTag, i)
    {
      NoNewTagInLegacy(Decimal(n), i);
    }
    assert Captured(s, NewTag).None?;
    PrefixesMatch();
    CapturedAfterTag(LegacyTag, LegacyTag, Decimal(n));
  }

  /** A legacy number `ra-new-hire-n` continues into the new sequence as `RANH-(n+1)`. */
  lemma NextAfterLegacy(n: nat)
    ensures GenerateOrderNumber(Rows([LegacyTag + Decimal(n)])) == FormatOrderNumber(n + 1)
  {
    var q := Rows([LegacyTag + Decimal(n)]);
    LegacyReadsBack(n);
    assert SequenceNumber(q.numbers[0]) == Some(n);
  }

  /** Numbers past 999 are not truncated to three digits. */
  lemma WideNumbersKept(n: nat)
    requires n >= 1000
    ensures FormatOrderNumber(n) == OrderPrefix + Decimal(n)
  {
    DecimalWidth(n, 3);
  }

  /** The query `order('created_at', desc).limit(1)` over orders kept in creation order. */
  function LatestNumberQuery(orders: seq<Order>): (q: NumberQuery)
    ensures q.Rows? && |q.numbers| <= 1
    ensures q.numbers == [] <==> orders == []
    ensures orders != [] ==> q.numbers == [orders[|orders| - 1].orderNumber]
  {
    if orders == [] then Rows([]) else Rows([orders[|orders| - 1].orderNumber])
  }

  // ---------------------------------------------------------------- tables

  datatype KitComponent = KitComponent(name: string)

  datatype Product = Product(
    id: string, name: string, category: string, program: string,
    customerItemNumber: Option<string>, kitItems: Option<seq<KitComponent>>,
    inventory: Option<int>, inventoryBySize: Option<map<string, Option<int>>>)

  datatype Order = Order(
    id: string, code: string, email: string, firstName: string, lastName: string,
    orderNumber: string, program: string, tshirtSize: string,
    shippingName: string, shippingAttention: Option<string>, shippingAddress: string,
    shippingAddress2: Option<string>, shippingCity: string, shippingState: string,
    shippingZip: string, shippingCountry: string,
    classDate: Option<string>, classType: Option<string>)

  datatype OrderItem = OrderItem(
    orderId: string, productId: string, productName: string,
    sku: Option<string>, color: Option<string>, size: Option<string>)

  datatype AccessCode = AccessCode(id: string, code: string, used: bool, orderId: Option<string>, email: Option<string>)

  datatype Db = Db(products: seq<Product>, orders: seq<Order>, items: seq<OrderItem>, accessCodes: seq<AccessCode>)

  /** `x.single()`: the row when exactly one matched, nothing otherwise. */
  function Single<T>(rows: seq<T>): (r: Option<T>)
    ensures r.Some? <==> |rows| == 1
    ensures r.Some? ==> r.value == rows[0]
  {
    if |rows| == 1 then Some(rows[0]) else None
  }

  function OrdersWithCode(orders: seq<Order>, code: string): (r: seq<Order>)
    ensures forall o :: o in r <==> o in orders && o.code == code
  {
    if orders == [] then []
    else (if orders[0].code == code then [orders[0]] else []) + OrdersWithCode(orders[1..], code)
  }

  function AccessCodesWithCode(codes: seq<AccessCode>, code: string): (r: seq<AccessCode>)
    ensures forall a :: a in r <==> a in codes && a.code == code
  {
    if codes == [] then []
    else (if codes[0].code == code then [codes[0]] else []) + AccessCodesWithCode(codes[1..], code)
  }

  function ProductsWithId(products: seq<Product>, id: string): (r: seq<Product>)
    ensures forall p :: p in r <==> p in products && p.id == id
  {
    if products == [] then []
    else (if products[0].id == id then [products[0]] else []) + ProductsWithId(products[1..], id)
  }

  predicate IsRaTshirt(p: Product) {
    p.category == "tshirt" && p.program == "RA"
  }

  function RaTshirts(products: seq<Product>): (r: seq<Product>)
    ensures forall p :: p in r <==> p in products && IsRaTshirt(p)
  {
    if products == [] then []
    else (if IsRaTshirt(products[0]) then [products[0]] else []) + RaTshirts(products[1..])
  }

  /** One order per access code: the invariant the duplicate check is there to keep. */
  predicate UniqueCodes(orders: seq<Order>) {
    forall i, j :: 0 <= i < j < |orders| ==> orders[i].code != orders[j].code
  }

  /** With codes unique, `single()` on the code finds an order exactly when one exists. */
  lemma {:induction false} UniqueCodesSingle(orders: seq<Order>, code: string)
    requires UniqueCodes(orders)
    ensures |OrdersWithCode(orders, code)| <= 1
    ensures |OrdersWithCode(orders, code)| == 1 <==> exists o :: o in orders && o.code == code
  {
    if orders != [] {
      UniqueCodesSingle(orders[1..], code);
      if orders[0].code == code {
        forall o | o in orders[1..]
          ensures o.code != code
        {
          var j :| 0 <= j < |orders[1..]| && orders[1..][j] == o;
          assert orders[j + 1] == o;
        }
        assert OrdersWithCode(orders[1..], code) == [];
      }
    }
  }

  // ---------------------------------------------------------------- inventory

  /** `n || 0` for a stored count. */
  function StockOf(n: Option<int>): int {
    if n.Some? then n.value else 0
  }

  /** The size has its own counter: a size was given and is already a key of the per-size map. */
  predicate SizeTracked(p: Product, size: Option<string>) {
    Truthy(size) && p.inventoryBySize.Some? && size.value in p.inventoryBySize.value
  }

  /** The row `updateInventory` writes back: overall stock less `q`, with no lower bound, and the
      given size's counter less `q` when that size is tracked. */
  function Decrement(p: Product, size: Option<string>, q: int): (r: Product)
    ensures r == p.(inventory := r.inventory, inventoryBySize := r.inventoryBySize)
    ensures r.inventory == Some(StockOf(p.inventory) - q)
    ensures r.inventoryBySize.Some? <==> p.inventoryBySize.Some?
    ensures r.inventoryBySize.Some? ==> r.inventoryBySize.value.Keys == p.inventoryBySize.value.Keys
    ensures r.inventoryBySize.Some? ==> forall k :: k in r.inventoryBySize.value ==>
      r.inventoryBySize.value[k] ==
        (if SizeTracked(p, size) && k == size.value then Some(StockOf(p.inventoryBySize.value[k]) - q)
         else p.inventoryBySize.value[k])
  {
    var bySize :=
      if SizeTracked(p, size) then
        var m := p.inventoryBySize.value;
        Some(m[size.value := Some(StockOf(m[size.value]) - q)])
      else p.inventoryBySize;
    p.(inventory := Some(StockOf(p.inventory) - q), inventoryBySize := bySize)
  }

  /** Decrements add up: two of them are one by the sum, so stock counts the units taken. */
  lemma DecrementTwice(p: Product, size: Option<string>, a: int, b: int)
    ensures Decrement(Decrement(p, size, a), size, b) == Decrement(p, size, a + b)
  {
    var once := Decrement(p, size, a);
    assert SizeTracked(once, size) <==> SizeTracked(p, size);
    if SizeTracked(p, size) {
      var m := p.inventoryBySize.value;
      var k := size.value;
      assert once.inventoryBySize.value == m[k := Some(StockOf(m[k]) - a)];
      assert m[k := Some(StockOf(m[k]) - a)][k := Some(StockOf(m[k]) - a - b)] == m[k := Some(StockOf(m[k]) - (a + b))];
    }
  }

  /** Taking `q` units and then `-q` units gives the row back, when its counts are present. */
  lemma DecrementUndone(p: Product, size: Option<string>, q: int)
    requires p.inventory.Some?
    requires SizeTracked(p, size) ==> p.inventoryBySize.value[size.value].Some?
    ensures Decrement(Decrement(p, size, q), size, -q) == p
  {
    DecrementTwice(p, size, q, -q);
    var m := p.inventoryBySize;
    if SizeTracked(p, size) {
      assert m.value[size.value := Some(StockOf(m.value[size.value]))] == m.value;
    }
  }

  /** Stock may go negative: an empty product can still be ordered (backorder). */
  lemma BackorderAllowed(p: Product)
    requires p.inventory == Some(0)
    ensures Decrement(p, None, 1).inventory == Some(-1)
  {
  }

  /** The product table after `updateInventory(id, size, q)`: nothing when the fetch by id does
      not return exactly one row (the function throws), else that row decremented. */
  function UpdatedInventory(products: seq<Product>, id: string, size: Option<string>, q: int): (r: Option<seq<Product>>)
    ensures r.None? <==> |ProductsWithId(products, id)| != 1
    ensures r.Some? ==> |r.value| == |products|
    ensures r.Some? ==> forall i :: 0 <= i < |products| && products[i].id != id ==> r.value[i] == products[i]
    ensures r.Some? ==> forall i :: 0 <= i < |products| && products[i].id == id ==>
      r.value[i] == Decrement(products[i], size, q)
  {
    if |ProductsWithId(products, id)| != 1 then None
    else Some(seq(|products|, i requires 0 <= i < |products| =>
      if products[i].id == id then Decrement(products[i], size, q) else products[i]))
  }

  // ---------------------------------------------------------------- the POST handler

  datatype Shipping = Shipping(
    name: string, attention: Option<string>, address: string, address2: Option<string>,
    city: string, state: string, zip: string, country: Option<string>)

  datatype OrderRequest = OrderRequest(
    code: Option<string>, email: Option<string>, firstName: Option<string>, lastName: Option<string>,
    program: Option<string>, tshirtSize: Option<string>, kitId: Option<string>,
    shipping: Option<Shipping>, classDate: Option<string>, classType: Option<string>)

  datatype Response = Ok(orderNumber: string, orderId: string) | BadRequest(error: string) | ServerError

  const MissingFieldsError := "Missing required fields"
  const DuplicateOrderError := "This code has already been used. Each code can only be used once."
  const UsedCodeError := "This code has already been used."

  predicate MissingField(req: OrderRequest) {
    !Truthy(req.code) || !Truthy(req.email) || !Truthy(req.firstName) || !Truthy(req.lastName)
    || !Truthy(req.program) || !Truthy(req.tshirtSize) || !Truthy(req.kitId) || req.shipping.None?
  }

  /** `code.toUpperCase().trim()`. */
  function NormalizeCode(code: string): (r: string)
    ensures r == [] || (!IsJsSpace(r[0]) && !IsJsSpace(r[|r| - 1]))
    ensures forall i :: 0 <= i < |r| ==> !IsAsciiLower(r[i])
    ensures TrimmedFrom(ToUpper(code), r)
  {
    TrimEndsClean(ToUpper(code));
    TrimIsTrimmedFrom(ToUpper(code));
    TrimmedUpperNoLower(code);
    Trim(ToUpper(code))
  }

  /** The trimmed upper-cased code has no lower-case letter left. */
  lemma TrimmedUpperNoLower(code: string)
    ensures forall k :: 0 <= k < |Trim(ToUpper(code))| ==> !IsAsciiLower(Trim(ToUpper(code))[k])
  {
    var u := ToUpper(code);
    var r := Trim(u);
    var i := |u| - |TrimStart(u)|;
    TrimSpec(u);
    forall k | 0 <= k < |r|
      ensures !IsAsciiLower(r[k])
    {
      assert r[k] == u[i + k];
    }
  }

  /** The row inserted into the orders table. */
  function NewOrder(req: OrderRequest, code: string, number: string, id: string): Order
    requires !MissingField(req)
  {
    var s := req.shipping.value;
    Order(id, code, ToLower(req.email.value), req.firstName.value, req.lastName.value,
      number, req.program.value, req.tshirtSize.value,
      s.name, OrNull(s.attention), s.address, OrNull(s.address2), s.city, s.state, s.zip,
      OrElse(s.country, "USA"), OrNull(req.classDate), OrNull(req.classType))
  }

  /** The t-shirt line: `<name> - <size>`, with SKU `<base>-<size>` when a base SKU exists. */
  function TshirtLine(orderId: string, t: Product, size: string): (r: OrderItem)
    ensures r.productName == t.name + " - " + size && r.size == Some(size) && r.color.None?
    ensures r.sku.Some? <==> Truthy(t.customerItemNumber)
    ensures r.sku.Some? ==> r.sku.value == t.customerItemNumber.value + "-" + size
  {
    OrderItem(orderId, t.id, t.name + " - " + size,
      if Truthy(t.customerItemNumber) then Some(t.customerItemNumber.value + "-" + size) else None,
      None, Some(size))
  }

  /** One line per kit component, in order, carrying the kit's id and no SKU, colour or size. */
  function ComponentLines(orderId: string, kitId: string, components: seq<KitComponent>): (r: seq<OrderItem>)
    ensures |r| == |components|
    ensures forall i :: 0 <= i < |r| ==> r[i] == OrderItem(orderId, kitId, components[i].name, None, None, None)
  {
    if components == [] then []
    else
      ComponentLines(orderId, kitId, components[..|components| - 1])
        + [OrderItem(orderId, kitId, components[|components| - 1].name, None, None, None)]
  }

  predicate HasComponents(kit: Product) {
    kit.kitItems.Some? && |kit.kitItems.value| > 0
  }

  /** The kit's lines: its components, or the kit itself when it lists none. */
  function KitLines(orderId: string, kit: Product): (r: seq<OrderItem>)
    ensures HasComponents(kit) ==> |r| == |kit.kitItems.value|
    ensures !HasComponents(kit) ==> r == [OrderItem(orderId, kit.id, kit.name, OrNull(kit.customerItemNumber), None, None)]
    ensures forall i :: 0 <= i < |r| ==> r[i].productId == kit.id && r[i].color.None? && r[i].size.None?
  {
    if HasComponents(kit) then ComponentLines(orderId, kit.id, kit.kitItems.value)
    else [OrderItem(orderId, kit.id, kit.name, OrNull(kit.customerItemNumber), None, None)]
  }

  /** The access-code rows after the code is marked used by the new order. */
  function MarkUsed(codes: seq<AccessCode>, id: string, orderId: string, email: string): (r: seq<AccessCode>)
    ensures |r| == |codes|
    ensures forall i :: 0 <= i < |codes| ==>
      r[i] == if codes[i].id == id then codes[i].(used := true, orderId := Some(orderId), email := Some(email)) else codes[i]
  {
    seq(|codes|, i requires 0 <= i < |codes| =>
      if codes[i].id == id then codes[i].(used := true, orderId := Some(orderId), email := Some(email)) else codes[i])
  }

  /** The outcome of the checks before anything is written: the rejection, if any. */
  function Rejection(db: Db, req: OrderRequest): Option<string> {
    if MissingField(req) then Some(MissingFieldsError)
    else
      var code := NormalizeCode(req.code.value);
      var accessCode := Single(AccessCodesWithCode(db.accessCodes, code));
      if Single(OrdersWithCode(db.orders, code)).Some? then Some(DuplicateOrderError)
      else if accessCode.Some? && accessCode.value.used then Some(UsedCodeError)
      else None
  }

  /** The product table and the order lines after the t-shirt and kit steps; `failed` when an
      inventory update threw, with the table as it was at that point. */
  datatype Fulfilment = Fulfilment(products: seq<Product>, lines: seq<OrderItem>, failed: bool)

  /** The t-shirt step: when exactly one RA t-shirt product exists, its line and the decrement
      of its stock and size counter. */
  function TshirtStep(products: seq<Product>, orderId: string, size: string): (f: Fulfilment)
    ensures Single(RaTshirts(products)).None? ==> f == Fulfilment(products, [], false)
    ensures Single(RaTshirts(products)).Some? ==> f.lines == [TshirtLine(orderId, Single(RaTshirts(products)).value, size)]
    ensures !f.failed ==> |f.products| == |products|
  {
    var tshirt := Single(RaTshirts(products));
    if tshirt.None? then Fulfilment(products, [], false)
    else
      var after := UpdatedInventory(products, tshirt.value.id, Some(size), 1);
      if after.None? then Fulfilment(products, [TshirtLine(orderId, tshirt.value, size)], true)
      else Fulfilment(after.value, [TshirtLine(orderId, tshirt.value, size)], false)
  }

  /** The kit step: the kit's lines and the decrement of its stock. */
  function KitStep(products: seq<Product>, kit: Option<Product>, orderId: string): (f: Fulfilment)
    ensures kit.None? ==> f == Fulfilment(products, [], false)
    ensures kit.Some? ==> f.lines == KitLines(orderId, kit.value)
    ensures !f.failed ==> |f.products| == |products|
  {
    if kit.None? then Fulfilment(products, [], false)
    else
      var after := UpdatedInventory(products, kit.value.id, None, 1);
      if after.None? then Fulfilment(products, KitLines(orderId, kit.value), true)
      else Fulfilment(after.value, KitLines(orderId, kit.value), false)
  }

  /** The t-shirt step, then the kit step; the kit row is the one read before either update. */
  function Fulfil(products: seq<Product>, orderId: string, size: string, kitId: string): (f: Fulfilment)
    ensures !f.failed ==> |f.products| == |products|
    ensures Single(RaTshirts(products)).Some? ==>
      |f.lines| >= 1 && f.lines[0] == TshirtLine(orderId, Single(RaTshirts(products)).value, size)
    ensures !f.failed ==>
      |f.lines| == (if Single(RaTshirts(products)).Some? then 1 else 0)
        + (if Single(ProductsWithId(products, kitId)).Some? then |KitLines(orderId, Single(ProductsWithId(products, kitId)).value)| else 0)
  {
    var t := TshirtStep(products, orderId, size);
    if t.failed then t
    else
      var k := KitStep(t.products, Single(ProductsWithId(products, kitId)), orderId);
      Fulfilment(k.products, t.lines + k.lines, k.failed)
  }

  /** A product row after both steps: one unit taken for the t-shirt (and its size) when it is
      the t-shirt row, one more when it is the kit row. */
  function Taken(p: Product, tshirt: Option<Product>, kit: Option<Product>, size: string): (r: Product)
    ensures r.id == p.id
    ensures var n := (if tshirt.Some? && p.id == tshirt.value.id then 1 else 0)
        + (if kit.Some? && p.id == kit.value.id then 1 else 0);
      r.inventory == (if n == 0 then p.inventory else Some(StockOf(p.inventory) - n))
  {
    var once := if tshirt.Some? && p.id == tshirt.value.id then Decrement(p, Some(size), 1) else p;
    if kit.Some? && p.id == kit.value.id then Decrement(once, None, 1) else once
  }

  /** When neither update throws, every product row has lost exactly the units the order took. */
  lemma FulfilTakesStock(products: seq<Product>, orderId: string, size: string, kitId: string)
    ensures var f := Fulfil(products, orderId, size, kitId);
      !f.failed ==> |f.products| == |products| && forall i :: 0 <= i < |products| ==>
        f.products[i] == Taken(products[i], Single(RaTshirts(products)), Single(ProductsWithId(products, kitId)), size)
  {
    var tshirt := Single(RaTshirts(products));
    var kit := Single(ProductsWithId(products, kitId));
    var t := TshirtStep(products, orderId, size);
    if !t.failed {
      var k := KitStep(t.products, kit, orderId);
      if !k.failed {
        assert Fulfil(products, orderId, size, kitId).products == k.products;
        StepsTakeStock(products, t.products, k.products, tshirt, kit, size);
      }
    }
  }

  /** Row by row, a table updated for the t-shirt and then for the kit is the table `Taken`. */
  lemma StepsTakeStock(products: seq<Product>, mid: seq<Product>, last: seq<Product>,
                       tshirt: Option<Product>, kit: Option<Product>, size: string)
    requires tshirt.None? ==> mid == products
    requires tshirt.Some? ==> Some(mid) == UpdatedInventory(products, tshirt.value.id, Some(size), 1)
    requires kit.None? ==> last == mid
    requires kit.Some? ==> Some(last) == UpdatedInventory(mid, kit.value.id, None, 1)
    ensures |last| == |products|
    ensures forall i :: 0 <= i < |products| ==> last[i] == Taken(products[i], tshirt, kit, size)
  {
    forall i | 0 <= i < |products|
      ensures last[i] == Taken(products[i], tshirt, kit, size)
    {
      var once := if tshirt.Some? && products[i].id == tshirt.value.id then Decrement(products[i], Some(size), 1) else products[i];
      assert mid[i] == once;
      assert once.id == products[i].id;
    }
  }

  /** The access-code rows after a successful order: the code's row, if `single()` found it, marked used. */
  function CodesAfter(codes: seq<AccessCode>, code: string, orderId: string, email: string): seq<AccessCode> {
    var accessCode := Single(AccessCodesWithCode(codes, code));
    if accessCode.Some? then MarkUsed(codes, accessCode.value.id, orderId, email) else codes
  }

  /** The whole handler on a database snapshot; `orderId` is the id the database assigns. */
  function PlaceOrder(db: Db, req: OrderRequest, orderId: string): (Db, Response) {
    var rejection := Rejection(db, req);
    if rejection.Some? then (db, BadRequest(rejection.value))
    else
      var code := NormalizeCode(req.code.value);
      var number := GenerateOrderNumber(LatestNumberQuery(db.orders));
      var orders := db.orders + [NewOrder(req, code, number, orderId)];
      var f := Fulfil(db.products, orderId, req.tshirtSize.value, req.kitId.value);
      if f.failed then (db.(orders := orders, products := f.products), ServerError)
      else
        (Db(f.products, orders, db.items + f.lines, CodesAfter(db.accessCodes, code, orderId, ToLower(req.email.value))),
         Ok(number, orderId))
  }

  // ---------------------------------------------------------------- properties of the handler

  /** An accepted request: the order row is written first, then the fulfilment decides between
      500 (with the stock as it stood) and 200 (with the lines and the used code). */
  lemma PlaceOrderAccepted(db: Db, req: OrderRequest, orderId: string)
    requires Rejection(db, req).None?
    ensures !MissingField(req)
    ensures var code := NormalizeCode(req.code.value);
      var number := GenerateOrderNumber(LatestNumberQuery(db.orders));
      var orders := db.orders + [NewOrder(req, code, number, orderId)];
      var f := Fulfil(db.products, orderId, req.tshirtSize.value, req.kitId.value);
      PlaceOrder(db, req, orderId) ==
        if f.failed then (db.(orders := orders, products := f.products), ServerError)
        else (Db(f.products, orders, db.items + f.lines, CodesAfter(db.accessCodes, code, orderId, ToLower(req.email.value))),
              Ok(number, orderId))
  {
  }

  /** A request missing a required field is refused with 400 and changes nothing. */
  lemma MissingFieldRejected(db: Db, req: OrderRequest, orderId: string)
    requires MissingField(req)
    ensures PlaceOrder(db, req, orderId) == (db, BadRequest(MissingFieldsError))
  {
  }

  /** With one order per code, a code that already has an order, or whose single access-code
      row is used, is rejected. */
  lemma ReusedCodeIsRejection(db: Db, req: OrderRequest)
    requires !MissingField(req)
    requires UniqueCodes(db.orders)
    requires (exists o :: o in db.orders && o.code == NormalizeCode(req.code.value))
      || (|AccessCodesWithCode(db.accessCodes, NormalizeCode(req.code.value))| == 1 &&
          (exists a :: a in db.accessCodes && a.code == NormalizeCode(req.code.value) && a.used))
    ensures Rejection(db, req).Some?
  {
    var code := NormalizeCode(req.code.value);
    UniqueCodesSingle(db.orders, code);
    if !(exists o :: o in db.orders && o.code == code) {
      SingleUsedRow(db.accessCodes, code);
    }
  }

  lemma SingleUsedRow(codes: seq<AccessCode>, code: string)
    requires |AccessCodesWithCode(codes, code)| == 1
    requires exists a :: a in codes && a.code == code && a.used
    ensures Single(AccessCodesWithCode(codes, code)).value.used
  {
    var a :| a in codes && a.code == code && a.used;
    assert a in AccessCodesWithCode(codes, code);
  }

  /** A code that already has an order, or whose access-code row is used, is refused with 400
      before anything is written. */
  lemma ReusedCodeRejected(db: Db, req: OrderRequest, orderId: string)
    requires !MissingField(req)
    requires UniqueCodes(db.orders)
    requires (exists o :: o in db.orders && o.code == NormalizeCode(req.code.value))
      || (|AccessCodesWithCode(db.accessCodes, NormalizeCode(req.code.value))| == 1 &&
          (exists a :: a in db.accessCodes && a.code == NormalizeCode(req.code.value) && a.used))
    ensures PlaceOrder(db, req, orderId).0 == db
    ensures PlaceOrder(db, req, orderId).1.BadRequest?
  {
    ReusedCodeIsRejection(db, req);
  }

  /** The order table after the handler: unchanged on a rejection, else one new row, written
      before the items (so it stays even when a stock update throws). */
  lemma PlaceOrderOrders(db: Db, req: OrderRequest, orderId: string)
    ensures Rejection(db, req).Some? ==> PlaceOrder(db, req, orderId).0.orders == db.orders
    ensures Rejection(db, req).None? ==>
      PlaceOrder(db, req, orderId).0.orders ==
        db.orders + [NewOrder(req, NormalizeCode(req.code.value), GenerateOrderNumber(LatestNumberQuery(db.orders)), orderId)]
  {
  }

  /** Placing an order keeps one order per access code. */
  lemma PlaceOrderKeepsCodesUnique(db: Db, req: OrderRequest, orderId: string)
    requires UniqueCodes(db.orders)
    ensures UniqueCodes(PlaceOrder(db, req, orderId).0.orders)
  {
    PlaceOrderOrders(db, req, orderId);
    if Rejection(db, req).None? {
      var code := NormalizeCode(req.code.value);
      UniqueCodesSingle(db.orders, code);
      AppendKeepsCodesUnique(db.orders, NewOrder(req, code, GenerateOrderNumber(LatestNumberQuery(db.orders)), orderId));
    }
  }

  /** A row whose code no earlier row has keeps the codes unique. */
  lemma AppendKeepsCodesUnique(orders: seq<Order>, o: Order)
    requires UniqueCodes(orders)
    requires !exists p :: p in orders && p.code == o.code
    ensures UniqueCodes(orders + [o])
  {
    var all := orders + [o];
    forall i, j | 0 <= i < j < |all|
      ensures all[i].code != all[j].code
    {
      assert all[i] == orders[i];
      if j < |orders| {
        assert all[j] == orders[j];
      } else {
        assert orders[i] in orders;
      }
    }
  }

  /** An accepted order is appended with the normalised code, the lower-cased email and the
      next number; the t-shirt line, when the RA t-shirt exists, is the first new line. */
  lemma CreatedOrder(db: Db, req: OrderRequest, orderId: string)
    requires PlaceOrder(db, req, orderId).1.Ok?
    ensures !MissingField(req)
    ensures var (after, resp) := PlaceOrder(db, req, orderId);
      |after.orders| == |db.orders| + 1
      && after.orders[..|db.orders|] == db.orders
      && after.orders[|db.orders|].code == NormalizeCode(req.code.value)
      && after.orders[|db.orders|].email == ToLower(req.email.value)
      && after.orders[|db.orders|].orderNumber == resp.orderNumber == GenerateOrderNumber(LatestNumberQuery(db.orders))
      && after.items[..|db.items|] == db.items
      && (Single(RaTshirts(db.products)).Some? ==>
            after.items[|db.items|] == TshirtLine(orderId, Single(RaTshirts(db.products)).value, req.tshirtSize.value))
  {
    var (after, resp) := PlaceOrder(db, req, orderId);
    var f := Fulfil(db.products, orderId, req.tshirtSize.value, req.kitId.value);
    assert after.items == db.items + f.lines;
    assert after.orders[..|db.orders|] == db.orders;
    assert after.items[..|db.items|] == db.items;
  }

  /** An accepted order has taken one unit of the RA t-shirt (and of its size) and one of the
      kit; every other product row is as it was. */
  lemma CreatedTakesStock(db: Db, req: OrderRequest, orderId: string)
    requires PlaceOrder(db, req, orderId).1.Ok?
    ensures !MissingField(req)
    ensures var after := PlaceOrder(db, req, orderId).0;
      |after.products| == |db.products| && forall i :: 0 <= i < |db.products| ==>
        after.products[i] == Taken(db.products[i], Single(RaTshirts(db.products)),
          Single(ProductsWithId(db.products, req.kitId.value)), req.tshirtSize.value)
  {
    PlaceOrderAccepted(db, req, orderId);
    FulfilTakesStock(db.products, orderId, req.tshirtSize.value, req.kitId.value);
  }

  /** An accepted order has one line for the t-shirt (when the RA t-shirt exists) plus one per
      kit component, or one for a kit without components. */
  lemma CreatedLineCount(db: Db, req: OrderRequest, orderId: string)
    requires PlaceOrder(db, req, orderId).1.Ok?
    ensures !MissingField(req)
    ensures var kit := Single(ProductsWithId(db.products, req.kitId.value));
      |PlaceOrder(db, req, orderId).0.items| == |db.items|
        + (if Single(RaTshirts(db.products)).Some? then 1 else 0)
        + (if kit.None? then 0 else if HasComponents(kit.value) then |kit.value.kitItems.value| else 1)
  {
  }

  /** An accepted order marks its access-code row used, by this order and the lower-cased email. */
  lemma CreatedMarksCodeUsed(db: Db, req: OrderRequest, orderId: string, i: int)
    requires PlaceOrder(db, req, orderId).1.Ok?
    requires 0 <= i < |db.accessCodes|
    requires !MissingField(req) && AccessCodesWithCode(db.accessCodes, NormalizeCode(req.code.value)) == [db.accessCodes[i]]
    ensures var a := PlaceOrder(db, req, orderId).0.accessCodes[i];
      a.used && a.orderId == Some(orderId) && a.email == Some(ToLower(req.email.value))
  {
    var code := NormalizeCode(req.code.value);
    assert PlaceOrder(db, req, orderId).0.accessCodes == CodesAfter(db.accessCodes, code, orderId, ToLower(req.email.value));
  }

  // ---------------------------------------------------------------- the store

  /** The four tables as fields updated in place by the handler. */
  class OrderStore {
    var products: seq<Product>
    var orders: seq<Order>
    var items: seq<OrderItem>
    var accessCodes: seq<AccessCode>

    constructor (db: Db)
      ensures State() == db
    {
      products := db.products;
      orders := db.orders;
      items := db.items;
      accessCodes := db.accessCodes;
    }

    function State(): Db
      reads this
    {
      Db(products, orders, items, accessCodes)
    }

    predicate Valid()
      reads this
    {
      UniqueCodes(orders)
    }

    /** `updateInventory`: fetch the row by id, write back the decremented counts. */
    method UpdateInventory(productId: string, size: Option<string>, quantity: int) returns (ok: bool)
      modifies this
      ensures var r := UpdatedInventory(old(products), productId, size, quantity);
        ok == r.Some? && products == (if ok then r.value else old(products))
      ensures orders == old(orders) && items == old(items) && accessCodes == old(accessCodes)
    {
      var rows := ProductsWithId(products, productId);
      if |rows| != 1 {
        return false;
      }
      var before := products;
      products := seq(|before|, i requires 0 <= i < |before| =>
        if before[i].id == productId then Decrement(before[i], size, quantity) else before[i]);
      return true;
    }

    /** The kit's component lines, pushed one by one. */
    method PushComponentLines(orderItems: seq<OrderItem>, orderId: string, kit: Product) returns (r: seq<OrderItem>)
      requires HasComponents(kit)
      ensures r == orderItems + KitLines(orderId, kit)
    {
      var components := kit.kitItems.value;
      r := orderItems;
      var k := 0;
      while k < |components|
        invariant 0 <= k <= |components|
        invariant r == orderItems + ComponentLines(orderId, kit.id, components[..k])
      {
        r := r + [OrderItem(orderId, kit.id, components[k].name, None, None, None)];
        k := k + 1;
        assert components[..k][..k - 1] == components[..k - 1];
      }
      assert components[..k] == components;
    }

    /** The t-shirt step of the handler. */
    method OrderTshirt(orderId: string, size: string) returns (lines: seq<OrderItem>, failed: bool)
      modifies this
      ensures Fulfilment(products, lines, failed) == TshirtStep(old(products), orderId, size)
      ensures orders == old(orders) && items == old(items) && accessCodes == old(accessCodes)
    {
      var tshirt := Single(RaTshirts(products));
      if tshirt.None? {
        return [], false;
      }
      lines := [TshirtLine(orderId, tshirt.value, size)];
      var ok := UpdateInventory(tshirt.value.id, Some(size), 1);
      failed := !ok;
    }

    /** The kit step of the handler, for the kit row read at the start. */
    method OrderKit(kit: Option<Product>, orderId: string) returns (lines: seq<OrderItem>, failed: bool)
      modifies this
      ensures Fulfilment(products, lines, failed) == KitStep(old(products), kit, orderId)
      ensures orders == old(orders) && items == old(items) && accessCodes == old(accessCodes)
    {
      if kit.None? {
        return [], false;
      }
      if HasComponents(kit.value) {
        lines := PushComponentLines([], orderId, kit.value);
      } else {
        lines := [OrderItem(orderId, kit.value.id, kit.value.name, OrNull(kit.value.customerItemNumber), None, None)];
      }
      var ok := UpdateInventory(kit.value.id, None, 1);
      failed := !ok;
    }

    /** The t-shirt and kit part of the handler: push their lines and decrement their stock. */
    method FulfilOrder(orderId: string, size: string, kitId: string) returns (orderItems: seq<OrderItem>, failed: bool)
      modifies this
      ensures Fulfilment(products, orderItems, failed) == Fulfil(old(products), orderId, size, kitId)
      ensures orders == old(orders) && items == old(items) && accessCodes == old(accessCodes)
    {
      var kit := Single(ProductsWithId(products, kitId));
      orderItems, failed := OrderTshirt(orderId, size);
      if failed {
        return;
      }
      var kitLines;
      kitLines, failed := OrderKit(kit, orderId);
      orderItems := orderItems + kitLines;
    }

    /** `POST /api/orders`, with `orderId` the id the database gives the new order row. */
    method Post(req: OrderRequest, orderId: string) returns (resp: Response)
      modifies this
      ensures (State(), resp) == PlaceOrder(old(State()), req, orderId)
      ensures old(Valid()) ==> Valid()
    {
      if old(Valid()) {
        PlaceOrderKeepsCodesUnique(State(), req, orderId);
      }
      if MissingField(req) {
        return BadRequest(MissingFieldsError);
      }
      var code := NormalizeCode(req.code.value);
      var accessCode := Single(AccessCodesWithCode(accessCodes, code));
      var existingOrder := Single(OrdersWithCode(orders, code));
      if existingOrder.Some? {
        return BadRequest(DuplicateOrderError);
      }
      if accessCode.Some? && accessCode.value.used {
        return BadRequest(UsedCodeError);
      }
      assert Rejection(State(), req).None?;
      resp := Accept(req, orderId);
    }

    /** The handler past its checks: the order row, then the fulfilment, then the items and the code. */
    method Accept(req: OrderRequest, orderId: string) returns (resp: Response)
      requires Rejection(State(), req).None?
      modifies this
      ensures (State(), resp) == PlaceOrder(old(State()), req, orderId)
    {
      PlaceOrderAccepted(State(), req, orderId);
      var code := NormalizeCode(req.code.value);
      var number := GenerateOrderNumber(LatestNumberQuery(orders));
      orders := orders + [NewOrder(req, code, number, orderId)];
      var orderItems, failed := FulfilOrder(orderId, req.tshirtSize.value, req.kitId.value);
      if failed {
        return ServerError;
      }
      items := items + orderItems;
      accessCodes := CodesAfter(accessCodes, code, orderId, ToLower(req.email.value));
      return Ok(number, orderId);
    }
  }
}
