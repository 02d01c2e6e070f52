/** The product page of the second tenant's store: the product picker with its automatic colour
    and size choice, the YETI kit's three per-size colours (white is not offered for the 26oz
    bottle), the thumbnail fallback chain, `handleContinue`, and the bullet list shown from a
    product's specification text. */
module ProductSelection {
  import opened Base
  import opened ImageUtils

  datatype ShopProduct = ShopProduct(
    id: string, name: string, thumbnailUrl: Option<string>,
    thumbnailUrlBlack: Option<string>, thumbnailUrlWhite: Option<string>,
    colorThumbnails: Option<map<string, string>>, specs: Option<string>,
    requiresColor: bool, requiresSize: bool,
    availableColors: Option<seq<string>>, availableSizes: Option<seq<string>>,
    customerItemNumber: Option<string>)

  const YetiKitName := "YETI Kit"

  /** `products.find(p => p.id === id)`: the first product with that id. */
  function FindProduct(products: seq<ShopProduct>, id: string): (r: Option<ShopProduct>)
    ensures r.None? <==> forall i :: 0 <= i < |products| ==> products[i].id != id
    ensures r.Some? ==> r.value.id == id && r.value in products
    ensures r.Some? ==> exists i :: FirstProductWithId(products, id, i) && r.value == products[i]
    decreases |products|
  {
    if products == [] then None
    else if products[0].id == id then
      assert FirstProductWithId(products, id, 0);
      Some(products[0])
    else
      var r := FindProduct(products[1..], id);
      assert forall i :: 1 <= i < |products| ==> products[i] == products[1..][i - 1];
      if r.Some? then
        var i :| FirstProductWithId(products[1..], id, i) && r.value == products[1..][i];
        assert FirstProductWithId(products, id, i + 1);
        r
      else r
  }

  /** `products[i]` is the first product with that id. */
  predicate FirstProductWithId(products: seq<ShopProduct>, id: string, i: int) {
    0 <= i < |products| && products[i].id == id && forall j :: 0 <= j < i ==> products[j].id != id
  }

  predicate IsYeti(p: Option<ShopProduct>) {
    p.Some? && p.value.name == YetiKitName
  }

  /** The list holds at least one entry. */
  predicate NonEmpty(xs: Option<seq<string>>) {
    xs.Some? && |xs.value| > 0
  }

  // ---------------------------------------------------------------- the YETI kit's colours

  /** The colour chosen for the size whose button is active; any size but 8oz and 26oz is the 35oz. */
  function ActiveColor(activeSize: string, color8: string, color26: string, color35: string): string {
    if activeSize == "8oz" then color8 else if activeSize == "26oz" then color26 else color35
  }

  /** The colour options for the active size: every listed colour, except `White` for the 26oz
      bottle, in the listed order; none when the product lists no colours. */
  function YetiColorOptions(colors: seq<string>, activeSize: string): (r: seq<string>)
    ensures |r| <= |colors|
    ensures forall c :: c in r <==> c in colors && !(activeSize == "26oz" && c == "White")
    ensures activeSize != "26oz" ==> r == colors
    decreases |colors|
  {
    if colors == [] then []
    else
      var rest := YetiColorOptions(colors[1..], activeSize);
      assert colors == [colors[0]] + colors[1..];
      if activeSize == "26oz" && colors[0] == "White" then rest else [colors[0]] + rest
  }

  // ---------------------------------------------------------------- the thumbnail

  /** `getThumbnailUrl`: the image shown for the selected product. */
  function ThumbnailUrl(selected: Option<ShopProduct>, selectedColor: string,
                        activeSize: string, color8: string, color26: string, color35: string): (r: Option<string>)
    ensures selected.None? ==> r.None?
    ensures r.Some? ==> r.value != ""
  {
    if selected.None? then None
    else
      var p := selected.value;
      if p.name == YetiKitName then
        var color := ActiveColor(activeSize, color8, color26, color35);
        var active := if color != "" then GetProductImagePath(p.customerItemNumber, color, Some(activeSize)) else None;
        if active.Some? then active
        else if NonEmpty(p.availableColors) then
          GetProductImagePath(p.customerItemNumber, p.availableColors.value[0], Some("8oz"))
        else None
      else
        var fromMap := if selectedColor != "" && p.colorThumbnails.Some? && selectedColor in p.colorThumbnails.value
          then p.colorThumbnails.value[selectedColor] else "";
        var generated := if selectedColor != "" then GetProductImagePath(p.customerItemNumber, selectedColor, None) else None;
        var first := if NonEmpty(p.availableColors)
          then GetProductImagePath(p.customerItemNumber, p.availableColors.value[0], None) else None;
        if fromMap != "" then Some(fromMap)
        else if generated.Some? then generated
        else if Truthy(p.thumbnailUrlBlack) then p.thumbnailUrlBlack
        else if Truthy(p.thumbnailUrlWhite) then p.thumbnailUrlWhite
        else if first.Some? then first
        else OrNull(p.thumbnailUrl)
  }

  /** For the YETI kit with its item number, a colour chosen for the active size shows that size's
      file, named with the size's two digits. */
  lemma YetiThumbnailFollowsActiveSize(p: ShopProduct, activeSize: string, color8: string, color26: string, color35: string)
    requires p.name == YetiKitName && p.customerItemNumber == Some(YetiKitNumber) && activeSize != ""
    requires ActiveColor(activeSize, color8, color26, color35) != ""
    ensures ThumbnailUrl(Some(p), "", activeSize, color8, color26, color35) ==
      Some("/images/SYKEDT-YETI-" + YetiSizeNumber(activeSize) + "-"
        + NormalizeColorForImage(ActiveColor(activeSize, color8, color26, color35)) + ".jpg")
  {
  }

  /** Before any YETI colour is chosen the first listed colour is shown at 8oz. */
  lemma YetiThumbnailBeforeChoice(p: ShopProduct, activeSize: string)
    requires p.name == YetiKitName && p.customerItemNumber == Some(YetiKitNumber)
    requires NonEmpty(p.availableColors) && p.availableColors.value[0] != ""
    ensures ThumbnailUrl(Some(p), "", activeSize, "", "", "") ==
      Some("/images/SYKEDT-YETI-" + YetiSizeNumber("8oz") + "-"
        + NormalizeColorForImage(p.availableColors.value[0]) + ".jpg")
  {
  }

  /** For any other product, a colour with its own thumbnail shows it, ahead of every other source. */
  lemma ColorThumbnailFirst(p: ShopProduct, color: string, c8: string, c26: string, c35: string, active: string)
    requires p.name != YetiKitName && color != "" && p.colorThumbnails.Some?
    requires color in p.colorThumbnails.value && p.colorThumbnails.value[color] != ""
    ensures ThumbnailUrl(Some(p), color, active, c8, c26, c35) == Some(p.colorThumbnails.value[color])
  {
  }

  /** A chosen colour on a product with an item number always shows a picture of that colour: its
      own thumbnail or the generated path, never a legacy black or white image. */
  lemma ChosenColorShown(p: ShopProduct, color: string, c8: string, c26: string, c35: string, active: string)
    requires p.name != YetiKitName && color != "" && Truthy(p.customerItemNumber)
    ensures var r := ThumbnailUrl(Some(p), color, active, c8, c26, c35);
      (p.colorThumbnails.Some? && color in p.colorThumbnails.value && r == Some(p.colorThumbnails.value[color]))
      || r == Some("/images/SYKEDT_" + ItemPart(p.customerItemNumber.value) + "_" + NormalizeColorForImage(color) + ".jpg")
  {
  }

  /** With no colour chosen, the legacy black image wins over the white one and over the first
      colour's generated path. */
  lemma LegacyBlackBeforeFirstColor(p: ShopProduct, c8: string, c26: string, c35: string, active: string)
    requires p.name != YetiKitName && Truthy(p.thumbnailUrlBlack)
    ensures ThumbnailUrl(Some(p), "", active, c8, c26, c35) == p.thumbnailUrlBlack
  {
  }

  /** With no colour chosen and no legacy black image, the legacy white image wins over the
      first colour's generated path and over the product's own thumbnail. */
  lemma LegacyWhiteBeforeFirstColor(p: ShopProduct, c8: string, c26: string, c35: string, active: string)
    requires p.name != YetiKitName && !Truthy(p.thumbnailUrlBlack) && Truthy(p.thumbnailUrlWhite)
    ensures ThumbnailUrl(Some(p), "", active, c8, c26, c35) == p.thumbnailUrlWhite
  {
  }

  /** With no colour chosen and no legacy images, a product with an item number shows the
      generated path of its first listed colour, ahead of its own thumbnail. */
  lemma FirstColorBeforeOwnThumbnail(p: ShopProduct, c8: string, c26: string, c35: string, active: string)
    requires p.name != YetiKitName && !Truthy(p.thumbnailUrlBlack) && !Truthy(p.thumbnailUrlWhite)
    requires NonEmpty(p.availableColors) && p.availableColors.value[0] != "" && Truthy(p.customerItemNumber)
    ensures ThumbnailUrl(Some(p), "", active, c8, c26, c35) ==
      Some("/images/SYKEDT_" + ItemPart(p.customerItemNumber.value) + "_"
        + NormalizeColorForImage(p.availableColors.value[0]) + ".jpg")
  {
  }

  /** With no colour chosen, no legacy images and no colours listed, the product's own thumbnail
      is shown, or nothing when it is empty. */
  lemma OwnThumbnailLast(p: ShopProduct, c8: string, c26: string, c35: string, active: string)
    requires p.name != YetiKitName && !Truthy(p.thumbnailUrlBlack) && !Truthy(p.thumbnailUrlWhite)
    requires !NonEmpty(p.availableColors)
    ensures ThumbnailUrl(Some(p), "", active, c8, c26, c35) == OrNull(p.thumbnailUrl)
  {
  }

  // ---------------------------------------------------------------- the specifications list

  /** The bullet a specification line starts with. */
  const Bullet := "\U{2022}"

  /** The bullet literal as the page's source holds it: the three characters the UTF-8 bytes of
      `•` read as in the Mac OS Roman encoding. */
  const BulletAsWritten := "\U{201A}\U{00C4}\U{00A2}"

  /** `.filter(line => line.trim().startsWith(b)).map(line => line.replace(b, '').trim())`. */
  function BulletLines(lines: seq<string>, bullet: string): (r: seq<string>)
    ensures |r| <= |lines|
    ensures forall i :: 0 <= i < |r| ==> Unpadded(r[i])
    decreases |lines|
  {
    if lines == [] then []
    else
      var rest := BulletLines(lines[1..], bullet);
      if StartsWith(Trim(lines[0]), bullet) then
        var shown := Trim(ReplaceFirst(lines[0], bullet, ""));
        TrimEndsClean(ReplaceFirst(lines[0], bullet, ""));
        [shown] + rest
      else rest
  }

  /** The list items shown for a product's specification text, split on line breaks. */
  function SpecItems(specs: string, bullet: string): seq<string> {
    BulletLines(Split(specs, '\n'), bullet)
  }

  /** Each item behind its bullet, one per line. */
  function Bulleted(items: seq<string>, bullet: string): (r: seq<string>)
    ensures |r| == |items|
    ensures forall i :: 0 <= i < |r| ==> r[i] == bullet + items[i]
  {
    seq(|items|, i requires 0 <= i < |items| => bullet + items[i])
  }

  /** An item the list can carry: one line, not empty, no surrounding white space. */
  predicate ListItem(item: string) {
    '\n' !in item && item != [] && !IsJsSpace(item[0]) && !IsJsSpace(item[|item| - 1])
  }

  /** A line made of the bullet and an item shows the item. */
  lemma BulletLineShown(item: string, bullet: string)
    requires ListItem(item) && bullet != [] && !IsJsSpace(bullet[0])
    ensures StartsWith(Trim(bullet + item), bullet)
    ensures Trim(ReplaceFirst(bullet + item, bullet, "")) == item
  {
    var line := bullet + item;
    TrimKeeps(line);
    assert line[..|bullet|] == bullet;
    ReplaceFirstPrefix(line, bullet, "");
    assert line[|bullet|..] == item;
    TrimKeeps(item);
  }

  /** Lines of bullet and item show exactly the items, in order. */
  lemma {:induction false} BulletLinesOfItems(items: seq<string>, bullet: string)
    requires forall i :: 0 <= i < |items| ==> ListItem(items[i])
    requires bullet != [] && !IsJsSpace(bullet[0])
    ensures BulletLines(Bulleted(items, bullet), bullet) == items
    decreases |items|
  {
    if items != [] {
      var lines := Bulleted(items, bullet);
      assert lines[1..] == Bulleted(items[1..], bullet);
      BulletLineShown(items[0], bullet);
      BulletLinesOfItems(items[1..], bullet);
    }
  }

  /** With the intended bullet, a specification written as bulleted lines shows every item, in
      order, without its bullet. */
  lemma SpecItemsOfBulletedText(items: seq<string>)
    requires |items| >= 1 && forall i :: 0 <= i < |items| ==> ListItem(items[i]) && Bullet[0] !in items[i]
    ensures SpecItems(Join(Bulleted(items, Bullet), "\n"), Bullet) == items
  {
    var lines := Bulleted(items, Bullet);
    forall i | 0 <= i < |lines|
      ensures '\n' !in lines[i]
    {
      assert lines[i] == Bullet + items[i];
    }
    SplitJoin(lines, '\n');
    BulletLinesOfItems(items, Bullet);
  }

  /** With the literal as written, no line that starts with the bullet is shown. */
  lemma SpecItemsAsWrittenDropsBullets(item: string)
    requires '\n' !in item
    ensures SpecItems(Bullet + item, BulletAsWritten) == []
  {
    var line := Bullet + item;
    SplitNoSeparator(line, '\n');
    TrimSpec(line);
    assert line[0] != BulletAsWritten[0];
  }

  /** The same one-line text shows its item once the bullet is the intended one. */
  lemma SpecItemsShowsBulletedLine(item: string)
    requires ListItem(item)
    ensures SpecItems(Bullet + item, Bullet) == [item]
  {
    SplitNoSeparator(Bullet + item, '\n');
    BulletLineShown(item, Bullet);
  }

  // ---------------------------------------------------------------- the page

  /** The message above the form; `NoError` is the empty string. */
  datatype Notice = NoError | LoadFailed(message: string) | ChooseProduct | ChooseEachColor
    | ChooseColor | ChooseSize

  function NoticeText(n: Notice): string {
    match n
    case NoError => ""
    case LoadFailed(m) => if m == "" then "Failed to load products" else m
    case ChooseProduct => "Please select a product"
    case ChooseEachColor => "Please select a color for each size"
    case ChooseColor => "Please select a color"
    case ChooseSize => "Please select a size"
  }

  /** The `product` entry written for the shipping page. */
  datatype Selection =
    | YetiSelection(productId: string, color8: string, color26: string, color35: string)
    | RegularSelection(productId: string, color: Option<string>, size: Option<string>)

  /** The colour picked automatically when `p` is chosen: the first listed colour of a product that
      needs one, and none otherwise. */
  function AutoColor(p: Option<ShopProduct>): string {
    if p.Some? && !IsYeti(p) && p.value.requiresColor && NonEmpty(p.value.availableColors)
    then p.value.availableColors.value[0] else ""
  }

  /** The size picked automatically: the only size of a product that needs one and has one. */
  function AutoSize(p: Option<ShopProduct>): string {
    if p.Some? && !IsYeti(p) && p.value.requiresSize && p.value.availableSizes.Some? && |p.value.availableSizes.value| == 1
    then p.value.availableSizes.value[0] else ""
  }

  class ProductPage {
    var products: seq<ShopProduct>
    var selectedProductId: string
    var selectedColor: string
    var selectedSize: string
    var loading: bool
    var error: Notice
    var activeYetiSize: string
    var yeti8ozColor: string
    var yeti26ozColor: string
    var yeti35ozColor: string
    var saved: Option<Selection>
    var route: Option<string>

    constructor()
      ensures products == [] && selectedProductId == "" && selectedColor == "" && selectedSize == ""
      ensures loading && error == NoError && activeYetiSize == "8oz"
      ensures yeti8ozColor == "" && yeti26ozColor == "" && yeti35ozColor == "" && saved == None && route == None
    {
      products := [];
      selectedProductId := "";
      selectedColor := "";
      selectedSize := "";
      loading := true;
      error := NoError;
      activeYetiSize := "8oz";
      yeti8ozColor := "";
      yeti26ozColor := "";
      yeti35ozColor := "";
      saved := None;
      route := None;
    }

    function Selected(): Option<ShopProduct>
      reads this
    {
      FindProduct(products, selectedProductId)
    }

    /** The `useEffect` and `loadProducts`: without a signed-in email the user goes back to the
        start; otherwise the products (or the load error) arrive. */
    method Mount(userEmail: Option<string>, rows: Option<seq<ShopProduct>>, message: string)
      modifies this`route, this`products, this`error, this`loading
      ensures selectedProductId == old(selectedProductId) && saved == old(saved)
      ensures !Truthy(userEmail) ==>
        route == Some("/") && loading == old(loading) && products == old(products) && error == old(error)
      ensures Truthy(userEmail) && rows.Some? ==>
        route == old(route) && !loading && products == rows.value && error == old(error)
      ensures Truthy(userEmail) && rows.None? ==>
        route == old(route) && !loading && products == old(products) && error == LoadFailed(message)
    {
      if !Truthy(userEmail) {
        route := Some("/");
        return;
      }
      if rows.Some? {
        products := rows.value;
      } else {
        error := LoadFailed(message);
      }
      loading := false;
    }

    /** The product picker's `onChange`: every choice is reset, then a colour and a size may be
        picked automatically for a product other than the YETI kit. */
    method OnProductChange(productId: string)
      modifies this`selectedProductId, this`selectedSize, this`selectedColor, this`error
      modifies this`activeYetiSize, this`yeti8ozColor, this`yeti26ozColor, this`yeti35ozColor
      ensures selectedProductId == productId && error == NoError && activeYetiSize == "8oz"
      ensures yeti8ozColor == "" && yeti26ozColor == "" && yeti35ozColor == ""
      ensures selectedColor == AutoColor(FindProduct(products, productId))
      ensures selectedSize == AutoSize(FindProduct(products, productId))
    {
      selectedProductId := productId;
      selectedSize := "";
      selectedColor := "";
      error := NoError;
      activeYetiSize := "8oz";
      yeti8ozColor := "";
      yeti26ozColor := "";
      yeti35ozColor := "";
      var product := FindProduct(products, productId);
      if !IsYeti(product) {
        AutoSelect(product);
      }
    }

    /** The automatic choice for a product other than the YETI kit, made after the reset. A list
        that holds `Black` is not empty, so the branch choosing `Black` is never taken. */
    method AutoSelect(product: Option<ShopProduct>)
      modifies this`selectedColor, this`selectedSize
      requires !IsYeti(product) && selectedColor == "" && selectedSize == ""
      ensures selectedColor == AutoColor(product) && selectedSize == AutoSize(product)
    {
      if product.Some? && product.value.requiresColor && NonEmpty(product.value.availableColors) {
        selectedColor := product.value.availableColors.value[0];
      } else if product.Some? && product.value.requiresColor && product.value.availableColors.Some?
        && "Black" in product.value.availableColors.value {
        assert false;
      }
      if product.Some? && product.value.requiresSize && product.value.availableSizes.Some?
        && |product.value.availableSizes.value| == 1 {
        selectedSize := product.value.availableSizes.value[0];
      }
    }

    /** A YETI size button: that size becomes the one being configured. */
    method OnYetiSizeClick(size: string)
      modifies this`activeYetiSize, this`error
      ensures activeYetiSize == size && error == NoError
    {
      activeYetiSize := size;
      error := NoError;
    }

    /** The YETI colour picker: the colour is recorded for the active size only. */
    method OnYetiColorChange(color: string)
      modifies this`yeti8ozColor, this`yeti26ozColor, this`yeti35ozColor, this`error
      ensures error == NoError
      ensures ActiveColor(activeYetiSize, yeti8ozColor, yeti26ozColor, yeti35ozColor) == color
      ensures activeYetiSize == "8oz" ==> yeti26ozColor == old(yeti26ozColor) && yeti35ozColor == old(yeti35ozColor)
      ensures activeYetiSize == "26oz" ==> yeti8ozColor == old(yeti8ozColor) && yeti35ozColor == old(yeti35ozColor)
      ensures activeYetiSize != "8oz" && activeYetiSize != "26oz" ==>
        yeti8ozColor == old(yeti8ozColor) && yeti26ozColor == old(yeti26ozColor)
    {
      if activeYetiSize == "8oz" {
        yeti8ozColor := color;
      } else if activeYetiSize == "26oz" {
        yeti26ozColor := color;
      } else {
        yeti35ozColor := color;
      }
      error := NoError;
    }

    /** The colour picker of a product other than the YETI kit. */
    method OnColorChange(color: string)
      modifies this`selectedColor, this`error
      ensures selectedColor == color && error == NoError
    {
      selectedColor := color;
      error := NoError;
    }

    /** The size picker. */
    method OnSizeChange(size: string)
      modifies this`selectedSize, this`error
      ensures selectedSize == size && error == NoError
    {
      selectedSize := size;
      error := NoError;
    }

    /** `handleContinue`. */
    method HandleContinue()
      modifies this`error, this`saved, this`route
      ensures selectedProductId == "" ==> error == ChooseProduct && saved == old(saved) && route == old(route)
      ensures selectedProductId != "" && IsYeti(Selected()) ==>
        if yeti8ozColor == "" || yeti26ozColor == "" || yeti35ozColor == "" then
          error == ChooseEachColor && saved == old(saved) && route == old(route)
        else
          error == old(error) && route == Some("/shipping")
          && saved == Some(YetiSelection(selectedProductId, yeti8ozColor, yeti26ozColor, yeti35ozColor))
      ensures selectedProductId != "" && !IsYeti(Selected()) ==>
        var p := Selected();
        if p.Some? && p.value.requiresColor && selectedColor == "" then
          error == ChooseColor && saved == old(saved) && route == old(route)
        else if p.Some? && p.value.requiresSize && selectedSize == "" then
          error == ChooseSize && saved == old(saved) && route == old(route)
        else
          error == old(error) && route == Some("/shipping")
          && saved == Some(RegularSelection(selectedProductId, OrNull(Some(selectedColor)), OrNull(Some(selectedSize))))
    {
      if selectedProductId == "" {
        error := ChooseProduct;
        return;
      }
      var selectedProduct := FindProduct(products, selectedProductId);
      if IsYeti(selectedProduct) {
        if yeti8ozColor == "" || yeti26ozColor == "" || yeti35ozColor == "" {
          error := ChooseEachColor;
          return;
        }
        saved := Some(YetiSelection(selectedProductId, yeti8ozColor, yeti26ozColor, yeti35ozColor));
      } else {
        if selectedProduct.Some? && selectedProduct.value.requiresColor && selectedColor == "" {
          error := ChooseColor;
          return;
        }
        if selectedProduct.Some? && selectedProduct.value.requiresSize && selectedSize == "" {
          error := ChooseSize;
          return;
        }
        saved := Some(RegularSelection(selectedProductId, OrNull(Some(selectedColor)), OrNull(Some(selectedSize))));
      }
      route := Some("/shipping");
    }
  }

  /** Right after a product is picked, continuing never stops at the colour check when the product
      lists a colour, nor at the size check when it lists exactly one size. */
  lemma AutoChoiceSatisfiesContinue(p: ShopProduct)
    requires p.name != YetiKitName
    ensures p.requiresColor && NonEmpty(p.availableColors) && p.availableColors.value[0] != "" ==>
      AutoColor(Some(p)) != ""
    ensures p.requiresSize && p.availableSizes.Some? && |p.availableSizes.value| == 1 ==>
      AutoSize(Some(p)) == p.availableSizes.value[0]
    ensures !p.requiresColor ==> AutoColor(Some(p)) == ""
  {
  }
}
