# RA new-hire ordering wizard, modelled in Dafny

The system is a Next.js web shop through which a new hire of the RA and LIFT programs orders a
welcome package. The hire signs in with a six-letter access code, then chooses a program, a
T-shirt size, a kit, and a shipping address. A review page places the order. An admin exports
the orders to a spreadsheet, and a fulfillment partner pulls them as XML. A second product page
serves a tenant with YETI drinkware and coloured apparel.

This project models the decision logic of that system, file by file:

- `fulfillment_xml.dfy` (`FulfillmentXml`) models the XML export in `lib/fulfillment-xml.ts`:
  - `escapeXml` and `element`;
  - `expandOrderItems`, written as a loop;
  - parsing of the status filter;
  - the assembly of the document.
- `fulfillment_auth.dfy` (`FulfillmentAuth`) models the API-key check and the 401 gate of the
  pull endpoint.
- `image_utils.dfy` (`ImageUtils`) models colour normalisation, image paths and the colour
  thumbnail map.
- `orders.dfy` (`Orders`) models order placement:
  - order-number generation;
  - stock decrements;
  - the `POST` handler, as a class `OrderStore` that holds the product, order, order-item and
    access-code tables.
- `export.dfy` (`AdminExport`) models the admin spreadsheet export of both the admin page and
  the export button: the admin gate, the detailed rows, the summary that groups and counts, and
  its sort.
- The wizard pages are classes that hold the page's state, a model of `sessionStorage`, and the
  route the page navigates to:
  - `landing.dfy` for the access-code page;
  - `tshirt_size.dfy`;
  - `kit_selection.dfy`;
  - `shipping.dfy`;
  - `review.dfy`;
  - `product.dfy` for the second tenant's product page.
- `session.dfy` (`Session`) holds the stored session keys and the "first missing step" guard
  that the pages share.
- `base.dfy` (`Base`) models the JavaScript string operations the code relies on: `trim`,
  `split`, `join`, `indexOf`, `replace` with a string pattern, `padStart`, and ASCII case
  mapping. It also holds `Option` and JavaScript truthiness.

Database reads are parameters, and database writes are updates to in-memory maps. A page's
event handler is a method whose inputs include what its queries returned.

## Model

| member | source | states |
|---|---|---|
| FulfillmentXml.ReplaceChainPerCharacter | lib/fulfillment-xml.ts:70-77 | When no replacement text holds a character that a later replacement rewrites, the five chained global replacements act on each character independently. |
| FulfillmentXml.EscapeXmlIsPerCharacter | lib/fulfillment-xml.ts:70-77 | `escapeXml` replaces `&` first, so it equals escaping character by character. The entities it adds are never escaped again. |
| FulfillmentXml.EscapeXmlWellEscaped | lib/fulfillment-xml.ts:70-77 | The output of `escapeXml` has no raw `<`, `>`, `"` or `'`, and every `&` in it begins one of the five predefined entities of XML 1.0, section 4.6. |
| FulfillmentXml.EscapeXmlPlainText | lib/fulfillment-xml.ts:70-77 | Text with none of the five special characters comes out of `escapeXml` unchanged. |
| FulfillmentXml.UnescapeEscapeXml | lib/fulfillment-xml.ts:70-77 | Decoding the five entities of the output of `escapeXml` gives the input back, for every input. |
| FulfillmentXml.ElementContent | lib/fulfillment-xml.ts:80-83 | `element(name, c)` is the opening tag, then text that decodes to `c` (or to `''`) with no raw markup, then the closing tag. With null, undefined or `''` content it is `<name></name>`. |
| FulfillmentXml.ProductMapKeys | lib/fulfillment-xml.ts:161-162 | The product map filled with `forEach`/`set` has exactly the ids of the product rows as keys. |
| FulfillmentXml.ProductMapLastWins | lib/fulfillment-xml.ts:161-162 | A row that no later row with the same id follows is the row its id maps to: a later `set` overwrites an earlier one. |
| FulfillmentXml.BuildProductInfoMap | lib/fulfillment-xml.ts:161-162 | The loop builds the product map that `ProductMapOf` defines, and so has the two properties above. |
| FulfillmentXml.ExpandOrderItems | lib/fulfillment-xml.ts:86-125 | The `for` loop that pushes into `result` yields exactly each item's expansion, concatenated in item order. |
| FulfillmentXml.PushComponents | lib/fulfillment-xml.ts:105-112 | The inner `forEach` appends one line per kit component, in component order. |
| FulfillmentXml.ComponentLines | lib/fulfillment-xml.ts:105-112 | There is one line per component, with the component's name and an empty SKU, colour and size. |
| FulfillmentXml.ExpandAllAppend | lib/fulfillment-xml.ts:92-122 | Expansion keeps item order: the lines of `a + b` are the lines of `a`, then the lines of `b`. |
| FulfillmentXml.NonKitItemIsCopied | lib/fulfillment-xml.ts:93-121 | An item whose product is unknown or not of category `kit` yields one line. The line copies the name and maps a missing SKU, colour or size to `''`. |
| FulfillmentXml.KitItemExpands | lib/fulfillment-xml.ts:103-112 | A kit item with components that is not already a component yields one line per component, in order, with an empty SKU, colour and size. |
| FulfillmentXml.AlreadyExpandedItemIsCopied | lib/fulfillment-xml.ts:95-121 | An item whose name is one of its kit's component names, and which has no SKU, colour or size, yields exactly one line. |
| FulfillmentXml.TrimAll | lib/fulfillment-xml.ts:138 | `map((s) => s.trim())` keeps the length and trims each part. |
| FulfillmentXml.DropEmpty | lib/fulfillment-xml.ts:138 | `filter(Boolean)` keeps exactly the non-empty parts. |
| FulfillmentXml.TrimmedPartsWellFormed | lib/fulfillment-xml.ts:138 | Every status kept is non-empty and has no white space at either end. |
| FulfillmentXml.TrimmedPartsEmpty | lib/fulfillment-xml.ts:138-139 | Nothing is kept exactly when every part is blank. |
| FulfillmentXml.StatusesHaveNoComma | lib/fulfillment-xml.ts:138 | No status in the list contains a comma. |
| FulfillmentXml.StatusesComplete | lib/fulfillment-xml.ts:138 | Every comma-separated part that is not blank contributes its trimmed text to the list. |
| FulfillmentXml.NoStatusFilterIffBlank | lib/fulfillment-xml.ts:137-142 | No status filtering happens exactly when the filter is absent, empty, or made only of blank parts. |
| FulfillmentXml.SelectByStatus | lib/fulfillment-xml.ts:137-148 | The orders selected are exactly those that pass the status condition. Without a filter, all orders are selected, and none is selected exactly when no order passes. |
| FulfillmentXml.SelectByStatusAppend | lib/fulfillment-xml.ts:137-148 | Selecting from two runs of rows is selecting from each and concatenating, so the selected orders keep the order, and the repeats, in which the database returned them. |
| FulfillmentXml.SelectByStatusOne | lib/fulfillment-xml.ts:137-148 | A single row is kept exactly when its status passes the filter. |
| FulfillmentXml.ItemsOf | lib/fulfillment-xml.ts:165-175 | An order's items are exactly the item rows with its id. A single row is kept exactly when it carries the id. |
| FulfillmentXml.ItemsOfAppend | lib/fulfillment-xml.ts:165-175 | Taking an order's items from two runs of rows is taking them from each and concatenating, so the items keep their stored order and their repeats. |
| FulfillmentXml.MapLineItemElements | lib/fulfillment-xml.ts:205-215 | There is one `LineItem` element per expanded line, in line order. |
| FulfillmentXml.OrderElements | lib/fulfillment-xml.ts:177-226 | There is one order element per selected order, in order, each built from that order's expanded items. |
| FulfillmentXml.DocumentListsOrdersInOrder | lib/fulfillment-xml.ts:228-231 | Each order element occurs in the document at its offset after the root's opening tag. The elements appear in the given order, without overlap. |
| FulfillmentXml.DefaultEmptyDocument | lib/fulfillment-xml.ts:151-153 | Under the default schema, the document with no orders is the XML declaration followed by an empty `Orders` element. |
| FulfillmentXml.EmptyExport | lib/fulfillment-xml.ts:151-153 | When no order passes the status filter, the document is the declaration and an empty root element. |
| FulfillmentXml.FetchAndBuild | lib/fulfillment-xml.ts:147-173 | The builder throws exactly when the orders query fails, or when some order is selected and the products query or the item query of a selected order fails. Otherwise the document is the one built from the rows. |
| FulfillmentXml.EmptySelectionSkipsLaterQueries | lib/fulfillment-xml.ts:150-157 | With no order selected, the empty document is returned whatever the product and item queries would have answered. |
| FulfillmentAuth.StripBearer | app/api/fulfillment/orders/route.ts:19 | With a leading `Bearer` (any case) followed by white space, what is removed after the scheme is all white space and the rest starts with a non-space. Any other header is unchanged. |
| FulfillmentAuth.HeaderKey | app/api/fulfillment/orders/route.ts:19 | Without an `Authorization` header there is no header key. |
| FulfillmentAuth.OpenWithoutKey | app/api/fulfillment/orders/route.ts:16-17 | When no key, or an empty key, is configured, every request is authorised. |
| FulfillmentAuth.AuthorizedIffKeyPresented | app/api/fulfillment/orders/route.ts:15-22 | With a key configured, a request is authorised exactly when its header key or its `?key=` equals the configured key. Empty keys never match. |
| FulfillmentAuth.StripBearerOfToken | app/api/fulfillment/orders/route.ts:19 | `Bearer` in any letter case, followed by any non-empty white space, is stripped from a token, leaving the key. |
| FulfillmentAuth.BearerTokenAccepted | app/api/fulfillment/orders/route.ts:15-22 | The configured key sent as `Bearer <key>`, in any case and with any white space after the scheme, is accepted. |
| FulfillmentAuth.Get | app/api/fulfillment/orders/route.ts:24-46 | The request gets 401 exactly when it is not authorised. An authorised request gets 500 with the fixed message exactly when the builder throws. Otherwise the body is the document built with `status` passed unchanged, `undefined` when absent. |
| Base.ValueAt | app/api/fulfillment/orders/route.ts:30-31 | A query parameter, or a property of the parsed shipping record, is present exactly when the key is there, and it then holds the stored value. |
| ImageUtils.Capitalize | lib/imageUtils.ts:32 | A capitalised word has the same length as the word. Its first letter is upper-cased and the rest lower-cased. |
| ImageUtils.NormalizeColorForImage | lib/imageUtils.ts:12-34 | The six listed names map to their fixed forms, and any other colour follows the default rule. For every colour the model covers, the result never contains a space. |
| ImageUtils.DefaultColorNameIsColorWithoutSpaces | lib/imageUtils.ts:28-33 | Up to letter case, the default form is the colour with its spaces deleted, and it is shorter by the number of spaces. |
| ImageUtils.TnfBlackIsListed | lib/imageUtils.ts:19-25 | `TNF Black` gives `TNFBlack`, whereas the default rule would give `TnfBlack`. |
| ImageUtils.YetiSizeNumberDigits | lib/imageUtils.ts:53 | A YETI size `<d>oz` becomes `0<d>`, and `<d><e>oz` becomes `<d><e>`, so `8oz` gives `08`. |
| ImageUtils.ItemPart | lib/imageUtils.ts:59-70 | An item number without the `SYKEDT-` prefix is used unchanged. With the prefix, the prefix is removed, and if a dash remains only the text after the last dash is kept. |
| ImageUtils.YetiKitWithoutSize | lib/imageUtils.ts:51-70 | Without a size, the YETI kit number goes through the generic rule and keeps only `08`. |
| ImageUtils.GetProductImagePath | lib/imageUtils.ts:43-77 | There is no path exactly when the item number or the colour is missing or empty. The YETI kit number with a size gets the size-specific name. Every other case gets `/images/SYKEDT_<item part>_<colour>.jpg`. |
| ImageUtils.GenerateColorThumbnails | lib/imageUtils.ts:83-99 | Returns null exactly for a missing item number or a missing or empty colour list. Otherwise, the keys are exactly the non-empty colours, each mapped to its size-less image path. |
| Orders.Decimal | app/api/orders/route.ts:31 | `String(n)` gives decimal digits with no leading zero (except for 0 itself), and `parseInt` reads them back as `n`. |
| Orders.PadZerosKeepsValue | app/api/orders/route.ts:31 | `padStart(k, '0')` keeps the string all digits and keeps its value. |
| Orders.FindTagged | app/api/orders/route.ts:26-35 | The regex search finds the leftmost position where the tag, in any letter case, is followed by a digit. It finds none exactly when there is no such position. |
| Orders.DigitRun | app/api/orders/route.ts:26-35 | The greedy `\d+` takes the longest run of digits at the match. |
| Orders.Captured | app/api/orders/route.ts:26-35 | A capture is a non-empty string of digits. There is none exactly when the pattern occurs nowhere. |
| Orders.FormatOrderNumber | app/api/orders/route.ts:31 | A formatted number is `RANH-` followed by at least three digits. |
| Orders.GenerateOrderNumber | app/api/orders/route.ts:5-44 | The result always has the `RANH-ddd` form. It is `RANH-001` when the query fails, returns no rows, or the newest number has no sequence number. Otherwise it is the newest sequence number plus one, zero-padded. |
| Orders.FirstOrderNumberIsOne | app/api/orders/route.ts:16-43 | The fallback `RANH-001` is the number formatted from 1. |
| Orders.CapturedAfterTag | app/api/orders/route.ts:26-35 | The tag, in any letter case, followed by digits captures exactly those digits. |
| Orders.FormattedReadsBack | app/api/orders/route.ts:25-32 | A generated number `RANH-n` reads back as `n`. |
| Orders.NextAfterFormatted | app/api/orders/route.ts:25-32 | After `RANH-n`, the next number is `RANH-(n+1)`. |
| Orders.NoNewTagInLegacy | app/api/orders/route.ts:26-35 | A legacy number never matches the `RANH-` pattern, so the legacy branch is the one that reads it. |
| Orders.LegacyReadsBack | app/api/orders/route.ts:34-40 | A legacy `ra-new-hire-n` reads as `n`. |
| Orders.NextAfterLegacy | app/api/orders/route.ts:34-40 | A legacy `ra-new-hire-n` continues into the new sequence as `RANH-(n+1)`. |
| Orders.WideNumbersKept | app/api/orders/route.ts:31 | Numbers of 1000 and above keep all their digits: padding never truncates. |
| Orders.LatestNumberQuery | app/api/orders/route.ts:7-11 | The newest-order query returns at most one row, and no row exactly when there are no orders. Otherwise the row is the number of the order written last. |
| Orders.Single | app/api/orders/route.ts:111-115 | `.single()` gives the row exactly when exactly one row matched. |
| Orders.UniqueCodesSingle | app/api/orders/route.ts:117-122 | With one order per code, the code query finds at most one order, and finds one exactly when an order with that code exists. |
| Orders.Decrement | app/api/orders/route.ts:58-79 | The overall stock becomes (old or 0) minus the quantity, with no lower bound. The per-size map changes only at a given size that is already a key, which drops by the quantity. Its key set and every other field are unchanged. |
| Orders.DecrementTwice | app/api/orders/route.ts:58-68 | Two decrements equal one decrement by the sum, so the stock counts the units taken. |
| Orders.DecrementUndone | app/api/orders/route.ts:58-68 | Decrementing by `q` and then by `-q` restores a row whose counts were present. |
| Orders.BackorderAllowed | app/api/orders/route.ts:58-59 | A product with stock 0 can still be ordered, and its stock becomes -1. |
| Orders.UpdatedInventory | app/api/orders/route.ts:47-92 | The update fails unless the fetch by id returns exactly one row. Otherwise, only the rows with that id change, each to its decremented form. |
| Orders.NormalizeCode | app/api/orders/route.ts:108 | The stored code is the upper-cased code with exactly its leading and trailing white space removed. It has no white space at either end and no lower-case letter. |
| Orders.TshirtLine | app/api/orders/route.ts:187-200 | The T-shirt line is named `<name> - <size>`, carries the size and no colour, and has SKU `<base>-<size>` exactly when a base SKU exists. |
| Orders.ComponentLines | app/api/orders/route.ts:209-218 | There is one line per kit component, in order, with the kit's id and no SKU, colour or size. |
| Orders.KitLines | app/api/orders/route.ts:207-235 | A kit with components gives one line per component. A kit without components gives itself as a single line. Every line carries the kit's id and no colour or size. |
| Orders.MarkUsed | app/api/orders/route.ts:249-259 | Only the rows with the access code's id change: each is marked used by the order, with the lower-cased email. |
| Orders.TshirtStep | app/api/orders/route.ts:170-204 | Without exactly one RA T-shirt product nothing happens. Otherwise the T-shirt line is produced. |
| Orders.KitStep | app/api/orders/route.ts:207-235 | Without a single kit row nothing happens. Otherwise the kit's lines are produced. |
| Orders.Fulfil | app/api/orders/route.ts:184-235 | The T-shirt line, when the RA T-shirt exists, comes first. Without a failed stock update, there is one line for the T-shirt plus the kit's lines. |
| Orders.Taken | app/api/orders/route.ts:47-92 | A product row after both steps keeps its id, and its stock is lower by the number of steps that take that row (one for the T-shirt, one for the kit), with no lower bound. |
| Orders.FulfilTakesStock | app/api/orders/route.ts:184-235 | When neither stock update throws, every product row has lost exactly the units the order took: the T-shirt row one unit and one of its size, the kit row one unit, and the other rows nothing. |
| Orders.StepsTakeStock | app/api/orders/route.ts:203-234 | A table updated for the T-shirt and then for the kit equals, row by row, the table with the units taken. |
| Orders.MissingFieldRejected | app/api/orders/route.ts:100-105 | A request missing any of the eight required fields gets 400 and changes nothing. |
| Orders.ReusedCodeIsRejection | app/api/orders/route.ts:117-137 | With one order per code, a code that already has an order, or whose single access-code row is used, is refused. |
| Orders.SingleUsedRow | app/api/orders/route.ts:111-132 | When exactly one access-code row has the code and a used row exists, `.single()` returns a used row. |
| Orders.ReusedCodeRejected | app/api/orders/route.ts:117-137 | A reused code gets 400 before anything is written. |
| Orders.PlaceOrderOrders | app/api/orders/route.ts:117-167 | On a rejection the order table is unchanged. Otherwise exactly one row is appended, with the normalised code and the next number. It stays even if a later stock update throws. |
| Orders.PlaceOrderAccepted | app/api/orders/route.ts:139-274 | A request that passes the checks always writes the order row. It answers 500 with the stock as the updates left it when a stock update throws. Otherwise it answers 200 (`Ok`) with the new lines and the code marked used. |
| Orders.PlaceOrderKeepsCodesUnique | app/api/orders/route.ts:117-165 | Placing an order keeps one order per access code. |
| Orders.AppendKeepsCodesUnique | app/api/orders/route.ts:117-129 | Adding an order whose code no earlier order has keeps one order per code. |
| Orders.CreatedOrder | app/api/orders/route.ts:140-204 | An accepted order is appended with the normalised code, the lower-cased email and the generated number, which the response returns. Existing rows are kept. The T-shirt line is the first new item. |
| Orders.CreatedTakesStock | app/api/orders/route.ts:184-235 | An accepted order has taken one unit of the RA T-shirt and of its size, and one of the kit. Every other product row is as it was. |
| Orders.CreatedLineCount | app/api/orders/route.ts:184-246 | An accepted order adds one item for the T-shirt (when the RA T-shirt exists), plus one per kit component, or one for a kit without components. |
| Orders.CreatedMarksCodeUsed | app/api/orders/route.ts:248-259 | An accepted order marks its access-code row used, with this order's id and the lower-cased email. |
| Orders.OrderStore.constructor | app/api/orders/route.ts:94 | The store starts holding the given tables. |
| Orders.OrderStore.UpdateInventory | app/api/orders/route.ts:47-92 | The method writes back the product table as `UpdatedInventory` defines it, and reports failure exactly when that is undefined. The other tables are unchanged. |
| Orders.OrderStore.PushComponentLines | app/api/orders/route.ts:209-218 | The `forEach` appends the kit's component lines in order. |
| Orders.OrderStore.OrderTshirt | app/api/orders/route.ts:169-204 | The T-shirt step on the store matches `TshirtStep`. |
| Orders.OrderStore.OrderKit | app/api/orders/route.ts:206-235 | The kit step on the store matches `KitStep`. |
| Orders.OrderStore.FulfilOrder | app/api/orders/route.ts:169-235 | The T-shirt step and then the kit step match `Fulfil`. |
| Orders.OrderStore.Post | app/api/orders/route.ts:94-274 | The handler leaves the tables, and returns the response, that `PlaceOrder` gives on the old tables. It keeps the store's invariant of one order per code. |
| Orders.OrderStore.Accept | app/api/orders/route.ts:139-268 | Past the checks, the store ends as `PlaceOrder` gives: the order row, then the fulfilment, then the items and the used code. |
| AdminExport.AdminCodeAnyCase | components/AdminExportButton.tsx:19 | A stored code upper-cases to `ADMIN` exactly when it is `admin` in some letter case. |
| AdminExport.AdminGuard | app/admin/page.tsx:16-31 | The admin page loads the orders exactly for an admin: `adminAuth` is `'true'`, or the upper-cased `userCode` is `ADMIN`. Anyone else is sent to `/`. |
| AdminExport.DecoMapOf | components/AdminExportButton.tsx:45-50 | Every deco in the map is non-empty. |
| AdminExport.BuildDecoMap | components/AdminExportButton.tsx:45-50 | The `forEach` that fills `productDecoMap` builds the map that `DecoMapOf` defines. |
| AdminExport.DecoMapKeys | components/AdminExportButton.tsx:45-50 | The map holds exactly the ids of the products that have a non-empty deco. |
| AdminExport.DecoMapLastWins | components/AdminExportButton.tsx:46-49 | An id maps to the deco of the last product row with that id and a non-empty deco. |
| AdminExport.DecoOf | components/AdminExportButton.tsx:103 | An item gets its product's deco when its product id is set and mapped. Otherwise it gets `''`. |
| AdminExport.Lines | components/AdminExportButton.tsx:71-72 | The `flatMap` walks exactly as many lines as there are items. |
| AdminExport.LineAt | components/AdminExportButton.tsx:71-72 | Item `j` of order `i` is line number (items of the earlier orders) + `j`. |
| AdminExport.ButtonDetailedRows | components/AdminExportButton.tsx:71-87 | The button's detailed sheet has one row per item. |
| AdminExport.PageDetailedRows | app/admin/page.tsx:91-114 | The page's detailed sheet has one row per item. |
| AdminExport.ButtonRowPerItem | components/AdminExportButton.tsx:71-87 | Each item's row sits at its line number. It is the whole row: the order's number, email and six shipping fields, and the item's name, with a missing SKU, colour or size shown as `''`. |
| AdminExport.PageRowPerItem | app/admin/page.tsx:91-114 | Each item's row sits at its line number with the order's columns, including code and program. T-shirt size, attention and second address line default to `''`. |
| AdminExport.Recovered | components/AdminExportButton.tsx:118 | Destructuring the key split on the bar character always gives four columns. |
| AdminExport.KeySplitsBack | components/AdminExportButton.tsx:95-118 | The four fields come back from the joined key exactly when none of them contains the bar character. |
| AdminExport.SummaryKeyRoundTrip | components/AdminExportButton.tsx:95-118 | An item's name, SKU-or-`''`, colour-or-`N/A` and size-or-`N/A` come back from its key when none of them contains the bar character. |
| AdminExport.FindKey | components/AdminExportButton.tsx:107 | `summaryMap.get(key)` finds the entry with that key, or reports that none has it. |
| AdminExport.AddItemKeeps | components/AdminExportButton.tsx:107-112 | Adding an item keeps the keys distinct and every quantity at least 1, and adds exactly one to the total. |
| AdminExport.SummaryOf | components/AdminExportButton.tsx:92-114 | The summary has distinct keys, every quantity is at least 1, and the quantities sum to the number of items. |
| AdminExport.AddItemQuantity | components/AdminExportButton.tsx:107-112 | An item adds one to its own key's quantity and leaves every other key's quantity unchanged. |
| AdminExport.SummaryCounts | components/AdminExportButton.tsx:92-114 | Each key's quantity is the number of items with that key. A key has an entry exactly when some item has it. |
| AdminExport.FirstWithKey | components/AdminExportButton.tsx:107-111 | Finds the first item with a given key, or reports that none has it. |
| AdminExport.SummaryKeepsFirstDeco | components/AdminExportButton.tsx:103-112 | A key's deco is the deco of the first item that created the entry. Later items keep it. |
| AdminExport.AddItems | components/AdminExportButton.tsx:93-113 | The inner `forEach` adds one order's items to the summary, one at a time. |
| AdminExport.Summarize | components/AdminExportButton.tsx:92-114 | The nested `forEach` builds the summary that `SummaryOf` defines over all items, order by order. |
| AdminExport.LessTransitive | components/AdminExportButton.tsx:130-135 | `localeCompare`, read as code-unit order, is transitive. |
| AdminExport.LessTotal | components/AdminExportButton.tsx:130-135 | Two different strings are ordered one way or the other. |
| AdminExport.BeforeAsymmetric | components/AdminExportButton.tsx:127-136 | The comparator (name, then colour, then size) never puts two rows each before the other. |
| AdminExport.BeforeSplits | components/AdminExportButton.tsx:127-136 | The comparator is a strict weak order, so sorting by it is well defined. The SKU is not a key. |
| AdminExport.Insert | components/AdminExportButton.tsx:127-136 | Inserting a row into sorted rows keeps them sorted and adds exactly that row. |
| AdminExport.SortRows | components/AdminExportButton.tsx:117-136 | The summary rows come out sorted by name, colour and size, as a permutation of the rows. |
| AdminExport.SortRowsKeepsSorted | components/AdminExportButton.tsx:117-136 | Rows already in order, ties included, come out exactly as they went in. |
| AdminExport.InsertStable | components/AdminExportButton.tsx:117-136 | Inserting a row puts it ahead of every row with the same name, colour and size, and moves no other row of any such class. |
| AdminExport.SortRowsStable | components/AdminExportButton.tsx:117-136 | The sort is stable: rows with the same name, colour and size (which may differ in SKU) come out in the order they went in. |
| AdminExport.SummaryRows | components/AdminExportButton.tsx:117-126 | There is one row per summary entry. |
| AdminExport.ButtonExport | components/AdminExportButton.tsx:23-42 | The button builds sheets exactly for an admin whose two fetches succeeded. |
| AdminExport.PageExport | app/admin/page.tsx:71-80 | The page builds sheets exactly when the product fetch succeeded. On a failure it aborts before any sheet is built. |
| AdminExport.SummaryMatchesDetail | app/admin/page.tsx:91-163 | The summary's quantities add up to the number of rows in either detailed sheet, and every summary row has quantity at least 1. |
| AdminExport.SortQuantities | app/admin/page.tsx:144-163 | Sorting does not change the total quantity. |
| AdminExport.ExportFromPage | app/admin/page.tsx:71-163 | The page's `exportToExcel`, with its loops, builds exactly the workbook that `PageExport` specifies. |
| AdminExport.ExportFromButton | components/AdminExportButton.tsx:23-136 | The button's `exportToExcel`, with its loops, builds exactly the workbook that `ButtonExport` specifies. |
| Landing.CapitalsOnly | app/page.tsx:119 | `.replace(/[^A-Z]/g, '')` keeps only capital ASCII letters and never lengthens the text. |
| Landing.CapitalsOnlyKeeps | app/page.tsx:119 | A string of capitals passes through the filter unchanged. |
| Landing.SanitizeCode | app/page.tsx:117-122 | The sanitised input has at most six characters, all of them `A`-`Z`. |
| Landing.SanitizeKeepsLetters | app/page.tsx:119 | Up to six letters typed in any case come out upper-cased and otherwise unchanged. |
| Landing.SanitizeIdempotent | app/page.tsx:119 | Sanitising twice is the same as sanitising once. |
| Landing.AdminBeforeFormat | app/page.tsx:27-38 | A code that normalises to `ADMIN` signs in as admin before the six-letter check and whatever the lookups say. |
| Landing.SignedInCode | app/page.tsx:28-45 | A signed-in code is the upper-cased, trimmed input. It is `ADMIN` exactly for an admin, and six capitals for anyone else. |
| Landing.UsedCodeNeverSignsIn | app/page.tsx:47-80 | A used access code, an existing order, or a lookup error other than `PGRST116` never lets a regular user in. |
| Landing.SanitizedCodeOutcome | app/page.tsx:41-87 | A sanitised code is already normalised. Six sanitised letters other than `ADMIN` get in exactly when the code is not marked used and the order lookup found no row. |
| Landing.LandingPage.constructor | app/page.tsx:15-17 | The page starts with an empty code, no error and not loading. |
| Landing.LandingPage.OnChange | app/page.tsx:117-122 | Typing stores the sanitised input and clears the error. Nothing else changes. |
| Landing.LandingPage.HandleStart | app/page.tsx:19-88 | A rejection sets its message and leaves the session and the route unchanged. The admin code stores `userCode` and `adminAuth='true'` and goes to `/admin`. A valid code stores `userCode`, removes `adminAuth` and goes to `/program`. |
| Session.TextAt | app/shipping/page.tsx:38-41 | `getItem(key)` gives a stored string exactly when a plain string is stored under the key. |
| Session.FirstMissing | app/shipping/page.tsx:43-61 | A guard that checks steps in order redirects nowhere exactly when every step is done. Otherwise it redirects to the page of the first step not done. |
| Session.FirstMissingAppend | app/review/page.tsx:23-54 | A guard over two lists of steps redirects where the first list's guard does, and otherwise where the second list's does. |
| Session.ShippingGuardChain | app/shipping/page.tsx:43-61 | The shipping guard is the chain of early returns: no `userCode` goes to `/`, a program other than RA or LIFT to `/program`, no size to `/tshirt-size`, and no kit to `/kit-selection`. |
| Session.ReviewGuardExtendsShipping | app/review/page.tsx:31-54 | The review guard is the shipping guard followed by the check for a saved shipping form, which sends the user to `/shipping`. |
| Session.ReviewGuardPassesEarlierPages | app/review/page.tsx:31-54 | A session that passes the review guard also passes the shipping, kit and T-shirt guards. |
| Shipping.WithField | app/shipping/page.tsx:125-131 | `{ ...formData, [name]: value }` sets the named field and leaves the other four unchanged. |
| Shipping.Validate | app/shipping/page.tsx:87-111 | The form is accepted exactly when all five checks pass. Otherwise the reported problem is the first failing check in source order: first name, last name, email with `@`, class date, then class type among the four options. |
| Shipping.ShippingRecordFields | app/shipping/page.tsx:114-117 | The stored record is the five form fields plus the whole default address. The two key sets are disjoint, so neither overrides the other. |
| Shipping.RecordHoldsForm | app/shipping/page.tsx:114-118 | Each form field is stored under its own name. |
| Shipping.RestoreSubmitted | app/shipping/page.tsx:66-118 | Restoring the record that `handleSubmit` stored gives back the submitted form. |
| Shipping.RestoreField | app/shipping/page.tsx:70-76 | Each restored field is the saved value under its key, or `''` when the key is missing. |
| Shipping.ShippingPage.constructor | app/shipping/page.tsx:12-22 | The page starts with an empty form and no error. |
| Shipping.ShippingPage.Mount | app/shipping/page.tsx:36-81 | A session missing a step is redirected to that step's page and nothing else changes. Otherwise the program is read and the saved form restored; a missing or unparsable saved value leaves the form as it was. |
| Shipping.ShippingPage.HandleSubmit | app/shipping/page.tsx:83-123 | An invalid form shows its first problem and changes nothing else. A valid form is stored with the default address, `orderEmail` is set to the lower-cased email, and the route is `/review`. |
| Shipping.ShippingPage.HandleChange | app/shipping/page.tsx:125-131 | Only the named field changes, and the error is cleared. |
| Shipping.SubmittedSessionReachesReview | app/shipping/page.tsx:113-122 | A session that passed the shipping guard and then submitted a valid form passes the review page's guard. |
| TshirtSize.InventoryForSize | app/tshirt-size/page.tsx:81-84 | The count is known exactly when the product has a per-size map with a non-null entry for the size, and it is then that entry. |
| TshirtSize.AnyAvailable | app/tshirt-size/page.tsx:91-93 | `sizes.some(isSizeAvailable)` holds exactly when some listed size has a known positive count. |
| TshirtSize.HasAnyAvailableSize | app/tshirt-size/page.tsx:91-113 | Some size is available exactly when one of the eight listed sizes is. |
| TshirtSize.UnlistedSizeIgnored | app/tshirt-size/page.tsx:91-113 | Stock for a size the picker does not list is available for that size, but never makes the page count as in stock. |
| TshirtSize.FormatIndex | app/tshirt-size/page.tsx:149-153 | `formats.indexOf(format)` is the format's position in `jpg`, `svg`, `webp`, or -1 when it is not listed. |
| TshirtSize.ExtensionIsLastPart | app/tshirt-size/page.tsx:151 | `split('.').pop()` of `<stem>.<ext>` is the extension when the extension has no dot. |
| TshirtSize.StemRemoved | app/tshirt-size/page.tsx:152 | For a stem without a dot, removing the first `.<ext>` leaves the stem. |
| TshirtSize.FallbackAdvances | app/tshirt-size/page.tsx:146-158 | A failed image is retried as jpg, then svg, then webp. An extension not in the list, such as png, goes to jpg, and after webp the source is left alone. |
| TshirtSize.TshirtSizePage.constructor | app/tshirt-size/page.tsx:22-27 | The page starts loading, with nothing selected and no error. |
| TshirtSize.TshirtSizePage.Mount | app/tshirt-size/page.tsx:29-79 | Without program RA or LIFT the page goes to `/program` and nothing else changes, the program included. Otherwise it stops loading. A loaded product gets the fixed tee thumbnail. No row, or `PGRST116`, shows "not found", and any other error shows its message. |
| TshirtSize.TshirtSizePage.OnSizeChange | app/tshirt-size/page.tsx:176-187 | An available size is selected and the error cleared. An unavailable size only sets the out-of-stock error and keeps the previous selection. The empty choice clears the selection. Only an available size is ever selected. |
| TshirtSize.TshirtSizePage.HandleContinue | app/tshirt-size/page.tsx:95-111 | No size shows an error, and so does an unavailable size. Otherwise the size is stored and the route is `/kit-selection`. |
| TshirtSize.TshirtSizePage.OnImageError | app/tshirt-size/page.tsx:146-158 | The image source moves to the next format when there is one, and otherwise stays. Nothing else on the page changes. |
| KitSelection.Find | app/kit-selection/page.tsx:68-83 | `kits.find` returns nothing exactly when no kit has the id, and otherwise the first kit with it. |
| KitSelection.SelectableIffInStock | app/kit-selection/page.tsx:67-75 | With distinct ids, a listed kit can be chosen exactly when its inventory is positive. |
| KitSelection.KitSelectionPage.constructor | app/kit-selection/page.tsx:21-27 | The page starts loading, with no kits, no selection and no error. |
| KitSelection.KitSelectionPage.Mount | app/kit-selection/page.tsx:29-65 | Without program RA or LIFT the page goes to `/program`, and without a size to `/tshirt-size`. Otherwise the kits are loaded, or the error message is shown, and loading stops. |
| KitSelection.KitSelectionPage.HandleKitSelect | app/kit-selection/page.tsx:67-75 | Only an existing kit with inventory above 0 is selected, and the error is cleared. Otherwise the error is set and the selection is unchanged. Only the selection and the error can change. |
| KitSelection.KitSelectionPage.OnCardClick | app/kit-selection/page.tsx:125-131 | Clicking an out-of-stock card changes nothing. Any other click is `handleKitSelect`. |
| KitSelection.KitSelectionPage.HandleContinue | app/kit-selection/page.tsx:77-94 | No selection shows an error, and so does a missing or empty kit. Otherwise the kit id is stored and the route is `/shipping`. |
| KitSelection.ContinueCompletesKitStep | app/kit-selection/page.tsx:77-94 | A session that passed the kit guard and stored a kit has the kit step done and still passes the guard. |
| Review.RequestOf | app/review/page.tsx:111-122 | The posted body carries the code, program, size and kit from the page. Email and names come from the shipping record, and the record itself is sent. The class date and type are sent exactly when they are non-empty, and are `null` otherwise. |
| Review.SubmittedSessionRequestComplete | app/review/page.tsx:111-122 | A session that passes the guard and holds a form the shipping page accepted yields a request that the order API does not reject for a missing field. That request carries the form's email, class date and class type. |
| Review.ValidRecordRequest | app/review/page.tsx:111-122 | An accepted form's email, first and last name reach the request non-empty, and so do its class date and type. |
| Review.ReviewGuardChain | app/review/page.tsx:31-54 | The shared first-missing-step guard, applied to the review page's five steps, is exactly the page's chain of early returns, in the page's order. |
| Review.AfterOrder | app/review/page.tsx:133-140 | After an order, the session holds the order number, has the program, size, kit, shipping and order-email keys removed, and keeps every other key unchanged. |
| Review.RemovedOneByOne | app/review/page.tsx:136-140 | Five single removals, one after another, remove all five cleared keys. |
| Review.AfterOrderRestartsWizard | app/review/page.tsx:133-140 | After an order the code is still signed in. The review, shipping, kit and T-shirt pages all send the user back to choose a program. |
| Review.LoadNotice | app/review/page.tsx:68-95 | When both lookups succeed the message is unchanged. When either fails there is a message: the error's own text, or the load fallback. |
| Review.MessageOr | app/review/page.tsx:125-146 | `err.message` is shown when it is non-empty, and the fallback otherwise. |
| Review.SubmitError | app/review/page.tsx:125-146 | A refused order shows the server's `error` field, or "Failed to submit order". A request that threw shows its own message, or the retry fallback. There is always a message. |
| Review.ReviewPage.constructor | app/review/page.tsx:13-21 | The page starts loading, with no selections, no products, no error, and not submitting. |
| Review.ReviewPage.Guard | app/review/page.tsx:31-54 | The guard passes exactly when no step is missing. Otherwise the route is the first missing step's page. When it passes, the route is unchanged and a shipping record is stored. |
| Review.ReviewPage.Mount | app/review/page.tsx:23-95 | A session with a missing step is sent to that step's page while the page keeps loading. A stored shipping value that does not parse to a record leaves the page loading. In both cases the selections, the products and the error are unchanged. Otherwise the stored selections and the record become the page's state, the product lookups' results are shown, and loading stops. The session is never changed. |
| Review.ReviewPage.ReadSelections | app/review/page.tsx:57-65 | The page's program, size, kit and shipping come from the session, with a missing size or kit read as empty. Then the products are loaded. |
| Review.ReviewPage.LoadProducts | app/review/page.tsx:68-95 | A failed T-shirt lookup keeps both products. A failed kit lookup sets only the T-shirt. Otherwise both products are set. The first failure's message is shown, and loading always stops. |
| Review.ReviewPage.HandleSubmit | app/review/page.tsx:97-147 | The posted body is `RequestOf` the page's state. A placed order leaves the session as `AfterOrder` with its number, the route is `/confirmation`, and the page stays submitting. A refused or failed request shows `SubmitError`, stops submitting, and leaves the session and route unchanged. The selections and the products are never changed. |
| ProductSelection.FindProduct | app/product/page.tsx:27 | `products.find` returns nothing exactly when no product has the id, and otherwise the first listed product with that id. |
| ProductSelection.YetiColorOptions | app/product/page.tsx:371-378 | For the 26oz bottle the colour list is every listed colour except `White`. For the other sizes it is every listed colour, unchanged. |
| ProductSelection.ThumbnailUrl | app/product/page.tsx:31-93 | Without a selected product there is no thumbnail, and a thumbnail that is shown is never empty. |
| ProductSelection.YetiThumbnailFollowsActiveSize | app/product/page.tsx:37-51 | For the YETI kit with its item number, a colour chosen for the active size shows `/images/SYKEDT-YETI-<two-digit size>-<normalised colour>.jpg` for that size. |
| ProductSelection.YetiThumbnailBeforeChoice | app/product/page.tsx:52-62 | Before a YETI colour is chosen for the active size, the first listed colour is shown at 8oz. |
| ProductSelection.ColorThumbnailFirst | app/product/page.tsx:67-73 | For any other product, a chosen colour with its own entry in the colour-thumbnail map shows that entry, ahead of every other source. |
| ProductSelection.ChosenColorShown | app/product/page.tsx:67-79 | A chosen colour on a product with an item number always shows a picture of that colour: its own thumbnail or the generated `SYKEDT_` path. It never falls back to a legacy black or white image. |
| ProductSelection.LegacyBlackBeforeFirstColor | app/product/page.tsx:81-84 | With no colour chosen, a legacy black image wins over the white one and over the first colour's generated path. |
| ProductSelection.LegacyWhiteBeforeFirstColor | app/product/page.tsx:81-84 | With no colour chosen and no legacy black image, the legacy white image wins over the first colour's generated path and the product's own thumbnail. |
| ProductSelection.FirstColorBeforeOwnThumbnail | app/product/page.tsx:81-92 | With no colour chosen and no legacy images, a product with an item number shows `/images/SYKEDT_<item part>_<first colour>.jpg`, ahead of its own thumbnail. |
| ProductSelection.OwnThumbnailLast | app/product/page.tsx:81-92 | With no colour chosen, no legacy images and no colours listed, the product's own thumbnail is shown, or nothing when it is empty. |
| ProductSelection.BulletLines | app/product/page.tsx:280-281 | No more lines are shown than the text has, and every shown line is trimmed at both ends. |
| ProductSelection.Bulleted | app/product/page.tsx:280-281 | Each item becomes one line that is the bullet followed by the item. |
| ProductSelection.BulletLineShown | app/product/page.tsx:280-281 | A line made of the bullet and an item passes the filter, and it shows exactly the item. |
| ProductSelection.BulletLinesOfItems | app/product/page.tsx:280-281 | Lines of bullet and item show exactly the items, in order. |
| ProductSelection.SpecItemsOfBulletedText | app/product/page.tsx:280-281 | With the intended bullet, a specification written as bulleted lines, joined by line breaks, shows every item in order without its bullet. |
| ProductSelection.SpecItemsAsWrittenDropsBullets | app/product/page.tsx:280-281 | With the bullet literal as it is written in the file, a one-line specification that starts with the real bullet shows nothing. |
| ProductSelection.SpecItemsShowsBulletedLine | app/product/page.tsx:280-281 | The same one-line specification shows its item once the bullet is the intended one. |
| ProductSelection.ProductPage.constructor | app/product/page.tsx:13-25 | The page starts loading, with no products, no selection, no error, the 8oz size active and no YETI colours. |
| ProductSelection.ProductPage.Mount | app/product/page.tsx:95-121 | Without a stored user email the page goes to `/` and keeps loading. Otherwise the rows are loaded, or the error message is shown, and loading stops. The choices (product, colour, size, YETI cup and colours) are never changed. |
| ProductSelection.ProductPage.OnProductChange | app/product/page.tsx:200-226 | The new product is selected, and the error, the active YETI size (back to 8oz) and the three YETI colours are reset. Colour and size are then the automatic choices for that product. |
| ProductSelection.ProductPage.AutoSelect | app/product/page.tsx:213-225 | For a product other than the YETI kit, the colour becomes the first listed colour only when one is required and listed, and the size becomes the only size only when one is required and exactly one is listed. |
| ProductSelection.ProductPage.OnYetiSizeClick | app/product/page.tsx:300-339 | The clicked size becomes the active one, and the error is cleared. |
| ProductSelection.ProductPage.OnYetiColorChange | app/product/page.tsx:357-367 | The colour is recorded for the active size only, the other two sizes keep theirs, and the error is cleared. |
| ProductSelection.ProductPage.OnColorChange | app/product/page.tsx:405-408 | The chosen colour is selected, and the error is cleared. |
| ProductSelection.ProductPage.OnSizeChange | app/product/page.tsx:426-429 | The chosen size is selected, and the error is cleared. |
| ProductSelection.ProductPage.HandleContinue | app/product/page.tsx:123-165 | No product shows an error. The YETI kit needs all three colours. Any other product needs a colour only when it requires one, and a size only when it requires one. On success the selection is saved with empty colour or size as `null`, and the route is `/shipping`. |
| ProductSelection.AutoChoiceSatisfiesContinue | app/product/page.tsx:213-225 | Right after a product is picked, continuing never stops at the colour check when the product lists a non-empty first colour, nor at the size check when it lists exactly one size. No colour is picked for a product that does not require one. |

## Left out

- Database and network calls: every query result is a parameter, and every write is an update of the `OrderStore` tables. The partner push endpoint (`app/api/fulfillment/push/route.ts`), which only posts the document to a listener, is not part of this model.
- Concurrency: the read-modify-write of order numbers and stock, and the parallel per-order item fetches, are modelled one after another.
- Dates and time: `new Date()`, `toISOString`, `toLocaleDateString`, the `used_at` timestamp and the order date column of both detailed sheets are not modelled.
- FulfillmentAuth.Get: the `since` parameter is not modelled. It only narrows the database query, so the `orders` argument stands for the rows that query returned.
- Locale: `localeCompare` is read as code-unit lexicographic order, and the summary sort is proved against that order.
- Character case: upper- and lower-casing map ASCII letters only. JavaScript maps all of Unicode.
- Regular expressions are written as explicit character predicates and scans: the access-code sanitiser, the order-number patterns, and the `Bearer` prefix.
- `parseInt` is exact here. Numbers beyond 2^53 lose precision in JavaScript.
- XLSX workbook building and file writing: only the row data given to `json_to_sheet` is modelled.
- JSX rendering and styling, and the decorative components (logos, the flying planes, the thumbnail modal, the confirmation and layout pages).
- `JSON.stringify` and `JSON.parse`: a stored shipping record is a map of its fields. A plain text value under the shipping key stands for text that does not parse to a record. On the review page this makes the effect throw, so the page stays loading.
- Review.ShippingOf: a required address field missing from the stored record is read as `''`. In the source it is `undefined`. The order API only checks that `shipping` is present (`app/api/orders/route.ts:100`), so the `undefined` field reaches the insert (`:153-159`). The model's order row holds `''` there instead.
- The product page's `userEmail` check reads a key that no modelled page writes, so the signed-in email is a parameter of `Mount`. The `product` entry it saves is the page's `saved` field, not a `sessionStorage` key.
- Failed queries whose `error` the source ignores are read as the `data` they return (no row). The throws of `buildFulfillmentXml` and the 500 answer of the fulfillment `GET` are modelled (`FetchAndBuild`, `Get`). In `POST /api/orders` the 500 answer is modelled only for a failed stock update. A failed order insert (`app/api/orders/route.ts:167`) and a failed item insert (`:243`) are not modelled: each is a database error that no modelled input describes.
- ImageUtils.NormalizeColorForImage: colour names that are members of `Object.prototype` (`constructor`, `toString`, `valueOf`, `hasOwnProperty`, `__proto__` and the like) are not modelled. The source's lookup in a plain object literal (`lib/imageUtils.ts:24-26`) finds the inherited member for them and returns that function or object instead of a string. The model applies the default rule to them.
- Orders.PlaceOrder: the body of the 500 answer is not modelled. The source sends `error.message || 'Failed to create order'` (`app/api/orders/route.ts:266-272`), and the message comes from the database error, which no modelled input describes. `ServerError` carries no text.
- AdminExport.ExportDisabled is a predicate with no property of its own: the admin page's export button is disabled exactly when there are no orders.
- The admin page repeats the export button's summary logic (`app/admin/page.tsx:117-163`). Both views use one definition, `Summarize`, and its sort.
- ProductSelection.ProductPage.AutoSelect: the branch that would choose `Black` cannot be taken, because a list that holds `Black` is not empty and the branch before it is taken instead. The model asserts that this branch is unreachable.
- TshirtSize.FallbackAdvances is proved for a dot-free stem and extension. A real image source is an absolute URL with dots in its host. The fallback then removes the first occurrence of `.<ext>`, which the method `OnImageError` still models exactly through `NextImageSrc`.
- Mis-encoded display strings other than the specification bullet (for example the check mark next to a chosen YETI colour) only affect rendering and are not modelled.

## Findings

| source | as written | input that shows it | evidently intended | confidence | as-written member | corrected member |
|---|---|---|---|---|---|---|
| app/product/page.tsx:280-281 | The bullet literal is `‚Ä¢`, the three characters that the UTF-8 bytes of `•` become when read as Mac OS Roman. No line written with a real bullet starts with it. | A specification line `• Steel` shows nothing. | The line shows `Steel`. | medium, not executed | ProductSelection.SpecItemsAsWrittenDropsBullets | ProductSelection.SpecItemsOfBulletedText |
