/** The T-shirt size page: per-size stock read from the product's `inventory_by_size`, the
    size picker that refuses sizes out of stock, `handleContinue`, and the image's fallback
    through other file formats when one fails to load. */
module TshirtSize {
  import opened Base
  import opened Session

  datatype TshirtProduct = TshirtProduct(
    id: string, name: string, thumbnailUrl: Option<string>,
    availableSizes: Option<seq<string>>, inventoryBySize: Option<map<string, Option<int>>>)

  /** The sizes offered, in the order the picker lists them. */
  const Sizes: seq<string> := ["XS", "S", "M", "L", "XL", "2XL", "3XL", "4XL"]

  /** The thumbnail every T-shirt is shown with, whatever the product row says. */
  const TeeThumbnail := "/images/RA-NH-TEE.png"

  // ---------------------------------------------------------------- stock

  /** `getInventoryForSize`: `null` without a per-size map or without an entry for the size. */
  function InventoryForSize(product: Option<TshirtProduct>, size: string): (r: Option<int>)
    ensures r.Some? <==>
      (product.Some? && product.value.inventoryBySize.Some?
       && size in product.value.inventoryBySize.value && product.value.inventoryBySize.value[size].Some?)
    ensures r.Some? ==> r == product.value.inventoryBySize.value[size]
  {
    if product.None? || product.value.inventoryBySize.None? then None
    else if size in product.value.inventoryBySize.value then product.value.inventoryBySize.value[size]
    else None
  }

  /** `isSizeAvailable`: the count is known and positive. */
  predicate IsSizeAvailable(product: Option<TshirtProduct>, size: string) {
    var n := InventoryForSize(product, size);
    n.Some? && n.value > 0
  }

  /** `sizes.some(isSizeAvailable)`. */
  function AnyAvailable(product: Option<TshirtProduct>, sizes: seq<string>): (r: bool)
    ensures r <==> exists i :: 0 <= i < |sizes| && IsSizeAvailable(product, sizes[i])
    decreases |sizes|
  {
    if sizes == [] then false
    else
      var rest := AnyAvailable(product, sizes[1..]);
      assert forall i :: 1 <= i < |sizes| ==> sizes[i] == sizes[1..][i - 1];
      IsSizeAvailable(product, sizes[0]) || rest
  }

  /** `hasAnyAvailableSize`. */
  function HasAnyAvailableSize(product: Option<TshirtProduct>): (r: bool)
    ensures r <==> exists s :: s in Sizes && IsSizeAvailable(product, s)
  {
    AnyAvailable(product, Sizes)
  }

  /** Stock for a size the picker does not list never makes the page count as in stock. */
  lemma UnlistedSizeIgnored(product: TshirtProduct, size: string, n: int)
    requires size !in Sizes && n > 0 && product.inventoryBySize.Some?
    requires forall s :: s in Sizes ==> !IsSizeAvailable(Some(product), s)
    ensures IsSizeAvailable(Some(product.(inventoryBySize := Some(product.inventoryBySize.value[size := Some(n)]))), size)
    ensures !HasAnyAvailableSize(Some(product.(inventoryBySize := Some(product.inventoryBySize.value[size := Some(n)]))))
  {
    var q := Some(product.(inventoryBySize := Some(product.inventoryBySize.value[size := Some(n)])));
    forall s | s in Sizes
      ensures !IsSizeAvailable(q, s)
    {
      assert s != size;
      assert InventoryForSize(q, s) == InventoryForSize(Some(product), s);
    }
  }

  // ---------------------------------------------------------------- the image fallback

  const Formats: seq<string> := ["jpg", "svg", "webp"]

  /** `formats.indexOf(format)`. */
  function FormatIndex(format: string): (i: int)
    ensures -1 <= i < |Formats|
    ensures i >= 0 ==> Formats[i] == format
    ensures i == -1 ==> format !in Formats
  {
    if format == "jpg" then 0 else if format == "svg" then 1 else if format == "webp" then 2 else -1
  }

  /** `currentSrc.split('.').pop() || 'png'`. */
  function CurrentFormat(src: string): string {
    var ext := Last(Split(src, '.'));
    if ext == "" then "png" else ext
  }

  /** The image's `onError`: the next source to try, or `None` when the source is left as it is. */
  function NextImageSrc(src: string): Option<string> {
    var format := CurrentFormat(src);
    var basePath := ReplaceFirst(src, "." + format, "");
    var i := FormatIndex(format);
    if i < |Formats| - 1 then Some(basePath + "." + Formats[i + 1]) else None
  }

  /** The format tried after `format`: jpg after anything unlisted, then svg, then webp, then none. */
  function FollowingFormat(format: string): Option<string> {
    if format == "jpg" then Some("svg")
    else if format == "svg" then Some("webp")
    else if format == "webp" then None
    else Some("jpg")
  }

  /** The extension after the last dot is what `split('.').pop()` returns. */
  lemma ExtensionIsLastPart(b: string, e: string)
    requires '.' !in e
    ensures Last(Split(b + "." + e, '.')) == e
  {
    var s := b + "." + e;
    var l := Last(Split(s, '.'));
    LastPartIsSuffix(s, '.');
    assert s[|b|] == '.';
    LastPartFollowsSeparator(s, '.');
    assert '.' !in l;
    assert s[|s| - |e|..] == e;
  }

  /** In a path whose stem has no dot, the first `.<ext>` is the extension. */
  lemma StemRemoved(b: string, e: string)
    requires '.' !in b
    ensures ReplaceFirst(b + "." + e, "." + e, "") == b
  {
    var s := b + "." + e;
    assert OccursAt(s, "." + e, |b|);
    forall j | 0 <= j < |b|
      ensures !OccursAt(s, "." + e, j)
    {
      assert s[j] == b[j];
    }
    assert IndexOf(s, "." + e) == Some(|b|);
    assert s[..|b|] == b;
  }

  /** For a dot-free stem and a non-empty extension, a failed image is retried as jpg, svg, webp in
      turn (anything unlisted, such as png, goes to jpg), and a failed webp is left alone. */
  lemma FallbackAdvances(b: string, e: string)
    requires '.' !in b && '.' !in e && e != ""
    ensures NextImageSrc(b + "." + e) ==
      if FollowingFormat(e).Some? then Some(b + "." + FollowingFormat(e).value) else None
  {
    ExtensionIsLastPart(b, e);
    StemRemoved(b, e);
  }

  // ---------------------------------------------------------------- the page

  /** What the `.single()` query for the RA T-shirt returned. */
  datatype TshirtQuery = Loaded(product: TshirtProduct) | NoData | QueryError(code: string, message: string)

  /** The message under the picker; `NoError` is the empty string. */
  datatype Notice = NoError | ProductNotFound | LoadFailed(message: string)
    | ChooseSize | SelectedOutOfStock | SizeOutOfStock

  function NoticeText(n: Notice): string {
    match n
    case NoError => ""
    case ProductNotFound => "T-shirt product not found. Please run the SQL script to add products."
    case LoadFailed(m) => "Error: " + (if m == "" then "Failed to load t-shirt product" else m)
    case ChooseSize => "Please select a t-shirt size"
    case SelectedOutOfStock => "Selected size is out of stock"
    case SizeOutOfStock => "This size is out of stock"
  }

  class TshirtSizePage {
    var program: Option<string>
    var product: Option<TshirtProduct>
    var imageSrc: Option<string>
    var selectedSize: string
    var loading: bool
    var error: Notice
    var storage: Storage
    var route: Option<string>

    constructor(storage: Storage)
      ensures program == None && product == None && imageSrc == None && selectedSize == ""
      ensures loading && error == NoError && this.storage == storage && route == None
    {
      program := None;
      product := None;
      imageSrc := None;
      selectedSize := "";
      loading := true;
      error := NoError;
      this.storage := storage;
      route := None;
    }

    /** Only an available size, or none, is ever selected. */
    predicate SelectionValid()
      reads this
    {
      selectedSize == "" || IsSizeAvailable(product, selectedSize)
    }

    /** The `useEffect` and `loadTShirtProduct`, with the query's result given. */
    method Mount(q: TshirtQuery)
      modifies this`route, this`program, this`error, this`product, this`imageSrc, this`loading
      ensures storage == old(storage) && selectedSize == old(selectedSize)
      ensures FirstMissing(storage, TshirtSizeSteps).Some? ==>
        route == FirstMissing(storage, TshirtSizeSteps) && loading == old(loading) && program == old(program)
        && product == old(product) && error == old(error) && imageSrc == old(imageSrc)
      ensures FirstMissing(storage, TshirtSizeSteps).None? ==>
        route == old(route) && !loading && program == TextAt(storage, ProgramKey)
        && match q
           case Loaded(p) =>
             product == Some(p.(thumbnailUrl := Some(TeeThumbnail))) && imageSrc == Some(TeeThumbnail)
             && error == old(error)
           case NoData => error == ProductNotFound && product == old(product)
           case QueryError(c, m) =>
             error == (if c == "PGRST116" then ProductNotFound else LoadFailed(m)) && product == old(product)
    {
      if !ProgramChosenIn(storage) {
        route := Some("/program");
        return;
      }
      program := TextAt(storage, ProgramKey);
      match q {
        case QueryError(c, m) =>
          if c == "PGRST116" {
            error := ProductNotFound;
          } else {
            error := LoadFailed(m);
          }
        case NoData =>
          error := ProductNotFound;
        case Loaded(p) =>
          product := Some(p.(thumbnailUrl := Some(TeeThumbnail)));
          imageSrc := Some(TeeThumbnail);
      }
      loading := false;
    }

    /** The picker's `onChange`: an available size is selected, an unavailable one only sets the
        error, and the empty choice clears the selection. */
    method OnSizeChange(newSize: string)
      modifies this`selectedSize, this`error
      requires SelectionValid()
      ensures SelectionValid()
      ensures product == old(product) && storage == old(storage) && route == old(route)
      ensures newSize != "" && IsSizeAvailable(product, newSize) ==> selectedSize == newSize && error == NoError
      ensures newSize != "" && !IsSizeAvailable(product, newSize) ==>
        selectedSize == old(selectedSize) && error == SizeOutOfStock
      ensures newSize == "" ==> selectedSize == "" && error == NoError
    {
      if newSize != "" && IsSizeAvailable(product, newSize) {
        selectedSize := newSize;
        error := NoError;
      } else if newSize != "" && !IsSizeAvailable(product, newSize) {
        error := SizeOutOfStock;
      } else {
        selectedSize := "";
        error := NoError;
      }
    }

    /** `handleContinue`. */
    method HandleContinue()
      modifies this`error, this`storage, this`route
      ensures selectedSize == old(selectedSize) && product == old(product)
      ensures selectedSize == "" ==> error == ChooseSize && storage == old(storage) && route == old(route)
      ensures selectedSize != "" && !IsSizeAvailable(product, selectedSize) ==>
        error == SelectedOutOfStock && storage == old(storage) && route == old(route)
      ensures selectedSize != "" && IsSizeAvailable(product, selectedSize) ==>
        error == old(error) && storage == old(storage)[SizeKey := Text(selectedSize)] && route == Some("/kit-selection")
    {
      if selectedSize == "" {
        error := ChooseSize;
        return;
      }
      if !IsSizeAvailable(product, selectedSize) {
        error := SelectedOutOfStock;
        return;
      }
      storage := storage[SizeKey := Text(selectedSize)];
      route := Some("/kit-selection");
    }

    /** The image's `onError`. */
    method OnImageError()
      modifies this`imageSrc
      requires imageSrc.Some?
      ensures imageSrc == (if NextImageSrc(old(imageSrc).value).Some? then NextImageSrc(old(imageSrc).value) else old(imageSrc))
      ensures product == old(product) && selectedSize == old(selectedSize) && storage == old(storage)
    {
      var next := NextImageSrc(imageSrc.value);
      if next.Some? {
        imageSrc := next;
      }
    }
  }
}
