/** The kit page: its two-step guard, the kit cards whose click selects only a kit in stock,
    and `handleContinue`, which stores the selected kit's id. */
module KitSelection {
  import opened Base
  import opened Session

  datatype Kit = Kit(id: string, name: string, inventory: int)

  /** `kits.find(k => k.id === id)`: the first kit with that id. */
  function Find(kits: seq<Kit>, id: string): (r: Option<Kit>)
    ensures r.None? <==> forall i :: 0 <= i < |kits| ==> kits[i].id != id
    ensures r.Some? ==> exists i :: FirstWithId(kits, id, i) && r.value == kits[i]
    decreases |kits|
  {
    if kits == [] then None
    else if kits[0].id == id then
      assert FirstWithId(kits, id, 0);
      Some(kits[0])
    else
      var r := Find(kits[1..], id);
      assert forall i :: 1 <= i < |kits| ==> kits[i] == kits[1..][i - 1];
      if r.Some? then
        var i :| FirstWithId(kits[1..], id, i) && r.value == kits[1..][i];
        assert FirstWithId(kits, id, i + 1);
        r
      else r
  }

  /** `kits[i]` is the first kit with that id. */
  predicate FirstWithId(kits: seq<Kit>, id: string, i: int) {
    0 <= i < |kits| && kits[i].id == id && forall j :: 0 <= j < i ==> kits[j].id != id
  }

  /** A card is disabled, and greyed out, when its kit has no stock. */
  predicate OutOfStock(k: Kit) {
    k.inventory <= 0
  }

  /** The kit with this id can be chosen: it is listed and in stock. */
  predicate Selectable(kits: seq<Kit>, id: string) {
    var k := Find(kits, id);
    k.Some? && !OutOfStock(k.value)
  }

  /** With distinct ids, a listed kit can be chosen exactly when it is in stock. */
  lemma SelectableIffInStock(kits: seq<Kit>, i: int)
    requires 0 <= i < |kits|
    requires forall a, b :: 0 <= a < b < |kits| ==> kits[a].id != kits[b].id
    ensures Selectable(kits, kits[i].id) <==> kits[i].inventory > 0
  {
    var r := Find(kits, kits[i].id);
    var j :| FirstWithId(kits, kits[i].id, j) && r.value == kits[j];
  }

  /** The message under the cards; `NoError` is the empty string. */
  datatype Notice = NoError | LoadFailed(message: string) | KitOutOfStock | ChooseKit | SelectedOutOfStock

  function NoticeText(n: Notice): string {
    match n
    case NoError => ""
    case LoadFailed(m) => if m == "" then "Failed to load kits" else m
    case KitOutOfStock => "This kit is out of stock"
    case ChooseKit => "Please select a kit"
    case SelectedOutOfStock => "Selected kit is out of stock"
  }

  /** What the kit query returned: the rows (`data || []`), or an error's message. */
  datatype KitQuery = Rows(kits: seq<Kit>) | QueryError(message: string)

  class KitSelectionPage {
    var program: Option<string>
    var kits: seq<Kit>
    var selectedKitId: string
    var loading: bool
    var error: Notice
    var storage: Storage
    var route: Option<string>

    constructor(storage: Storage)
      ensures program == None && kits == [] && selectedKitId == "" && loading && error == NoError
      ensures this.storage == storage && route == None
    {
      program := None;
      kits := [];
      selectedKitId := "";
      loading := true;
      error := NoError;
      this.storage := storage;
      route := None;
    }

    /** The selection is empty or names a kit that could be chosen. */
    predicate SelectionValid()
      reads this
    {
      selectedKitId == "" || Selectable(kits, selectedKitId)
    }

    /** The `useEffect` and `loadKits`, with the query's result given. */
    method Mount(q: KitQuery)
      modifies this`route, this`program, this`kits, this`error, this`loading
      ensures storage == old(storage) && selectedKitId == old(selectedKitId)
      ensures FirstMissing(storage, KitSelectionSteps).Some? ==>
        route == FirstMissing(storage, KitSelectionSteps) && loading == old(loading)
        && kits == old(kits) && error == old(error) && program == old(program)
      ensures FirstMissing(storage, KitSelectionSteps).None? ==>
        route == old(route) && !loading && program == TextAt(storage, ProgramKey)
        && (q.Rows? ==> kits == q.kits && error == old(error))
        && (q.QueryError? ==> kits == old(kits) && error == LoadFailed(q.message))
    {
      if !ProgramChosenIn(storage) {
        route := Some("/program");
        return;
      }
      if !Present(storage, SizeKey) {
        route := Some("/tshirt-size");
        return;
      }
      program := TextAt(storage, ProgramKey);
      match q {
        case Rows(ks) =>
          kits := ks;
        case QueryError(m) =>
          error := LoadFailed(m);
      }
      loading := false;
    }

    /** `handleKitSelect`. */
    method HandleKitSelect(kitId: string)
      modifies this`selectedKitId, this`error
      requires SelectionValid()
      ensures SelectionValid()
      ensures kits == old(kits) && storage == old(storage) && route == old(route)
      ensures Selectable(kits, kitId) ==> selectedKitId == kitId && error == NoError
      ensures !Selectable(kits, kitId) ==> selectedKitId == old(selectedKitId) && error == KitOutOfStock
    {
      var kit := Find(kits, kitId);
      if kit.Some? && kit.value.inventory > 0 {
        selectedKitId := kitId;
        error := NoError;
      } else {
        error := KitOutOfStock;
      }
    }

    /** A card's `onClick`: nothing at all for a kit out of stock. */
    method OnCardClick(kit: Kit)
      modifies this`selectedKitId, this`error
      requires SelectionValid()
      ensures SelectionValid()
      ensures kits == old(kits) && storage == old(storage) && route == old(route)
      ensures OutOfStock(kit) ==> selectedKitId == old(selectedKitId) && error == old(error)
      ensures !OutOfStock(kit) && Selectable(kits, kit.id) ==> selectedKitId == kit.id && error == NoError
      ensures !OutOfStock(kit) && !Selectable(kits, kit.id) ==>
        selectedKitId == old(selectedKitId) && error == KitOutOfStock
    {
      if !OutOfStock(kit) {
        HandleKitSelect(kit.id);
      }
    }

    /** `handleContinue`. */
    method HandleContinue()
      modifies this`error, this`storage, this`route
      ensures selectedKitId == old(selectedKitId) && kits == old(kits)
      ensures selectedKitId == "" ==> error == ChooseKit && storage == old(storage) && route == old(route)
      ensures selectedKitId != "" && !Selectable(kits, selectedKitId) ==>
        error == SelectedOutOfStock && storage == old(storage) && route == old(route)
      ensures selectedKitId != "" && Selectable(kits, selectedKitId) ==>
        error == old(error) && storage == old(storage)[KitKey := Text(selectedKitId)] && route == Some("/shipping")
    {
      if selectedKitId == "" {
        error := ChooseKit;
        return;
      }
      var selectedKit := Find(kits, selectedKitId);
      if selectedKit.None? || selectedKit.value.inventory <= 0 {
        error := SelectedOutOfStock;
        return;
      }
      storage := storage[KitKey := Text(selectedKitId)];
      route := Some("/shipping");
    }
  }

  /** A page that passed its guard and stored a kit leaves a session past the kit page's own
      guard, with the kit step done. */
  lemma ContinueCompletesKitStep(storage: Storage, id: string)
    requires FirstMissing(storage, KitSelectionSteps).None? && id != ""
    ensures Done(storage[KitKey := Text(id)], KitChosen)
    ensures FirstMissing(storage[KitKey := Text(id)], KitSelectionSteps).None?
  {
    assert Done(storage, KitSelectionSteps[0]) && Done(storage, KitSelectionSteps[1]);
    assert TextAt(storage[KitKey := Text(id)], ProgramKey) == TextAt(storage, ProgramKey);
  }
}
