/** The review page: the five-step guard, the order request it posts to the order API (built
    from the session and the saved shipping record), and what it does with the response: an
    error message, or the order number stored, the wizard's selections cleared and the
    confirmation page shown. The product lookups and the API call are parameters. */
module Review {
  import opened Base
  import opened Session
  import opened Shipping
  import Orders

  /** The saved record as the order API reads it; a missing required address field reads as `''`. */
  function ShippingOf(fields: map<string, string>): Orders.Shipping {
    Orders.Shipping(
      OrEmpty(ValueAt(fields, "name")), ValueAt(fields, "attention"), OrEmpty(ValueAt(fields, "address")),
      ValueAt(fields, "address2"), OrEmpty(ValueAt(fields, "city")), OrEmpty(ValueAt(fields, "state")),
      OrEmpty(ValueAt(fields, "zip")), ValueAt(fields, "country"))
  }

  /** The body `handleSubmit` posts: contact fields from the shipping record, the selections from
      the page, and the class date and type as `null` when empty. */
  function RequestOf(code: Option<string>, program: Option<string>, tshirtSize: string, kitId: string,
                     shipping: map<string, string>): (r: Orders.OrderRequest)
    ensures r.code == code && r.program == program && r.shipping == Some(ShippingOf(shipping))
    ensures r.tshirtSize == Some(tshirtSize) && r.kitId == Some(kitId)
    ensures r.email == ValueAt(shipping, "email") && r.firstName == ValueAt(shipping, "firstName")
      && r.lastName == ValueAt(shipping, "lastName")
    ensures r.classDate.Some? <==> Truthy(ValueAt(shipping, "classDate"))
    ensures r.classType.Some? <==> Truthy(ValueAt(shipping, "classType"))
    ensures r.classDate.Some? ==> r.classDate.value == shipping["classDate"]
    ensures r.classType.Some? ==> r.classType.value == shipping["classType"]
  {
    Orders.OrderRequest(
      code, ValueAt(shipping, "email"), ValueAt(shipping, "firstName"), ValueAt(shipping, "lastName"),
      program, Some(tshirtSize), Some(kitId), Some(ShippingOf(shipping)),
      OrNull(ValueAt(shipping, "classDate")), OrNull(ValueAt(shipping, "classType")))
  }

  /** The request a session that reached this page sends, read as the page reads it. */
  function SessionRequest(storage: Storage): Orders.OrderRequest
    requires ShippingKey in storage && storage[ShippingKey].Record?
  {
    RequestOf(TextAt(storage, UserCodeKey), TextAt(storage, ProgramKey), OrEmpty(TextAt(storage, SizeKey)),
      OrEmpty(TextAt(storage, KitKey)), storage[ShippingKey].fields)
  }

  /** Every key but the shipping record holds a plain string, as the pages store them. */
  predicate PlainStrings(storage: Storage) {
    forall k :: k in storage && k != ShippingKey ==> storage[k].Text?
  }

  /** A session that passes the guard and holds a form the shipping page accepted yields a request
      the order API does not turn away for a missing field, with the class date and type sent. */
  lemma SubmittedSessionRequestComplete(storage: Storage, f: Form)
    requires FirstMissing(storage, ReviewSteps).None? && PlainStrings(storage)
    requires ShippingKey in storage && storage[ShippingKey] == Record(ShippingRecord(f)) && Validate(f).None?
    ensures !Orders.MissingField(SessionRequest(storage))
    ensures SessionRequest(storage).classDate == Some(f.classDate)
    ensures SessionRequest(storage).classType == Some(f.classType)
    ensures SessionRequest(storage).email == Some(f.email)
  {
    GuardedSelections(storage);
    ValidRecordRequest(TextAt(storage, UserCodeKey), TextAt(storage, ProgramKey), OrEmpty(TextAt(storage, SizeKey)),
      OrEmpty(TextAt(storage, KitKey)), f);
  }

  /** Past the guard, the code, the program, the size and the kit are all non-empty strings. */
  lemma GuardedSelections(storage: Storage)
    requires FirstMissing(storage, ReviewSteps).None? && PlainStrings(storage)
    ensures Truthy(TextAt(storage, UserCodeKey)) && Truthy(TextAt(storage, ProgramKey))
    ensures OrEmpty(TextAt(storage, SizeKey)) != "" && OrEmpty(TextAt(storage, KitKey)) != ""
  {
    ReviewGuardChain(storage);
  }

  /** The contact fields and class of an accepted form reach the request, all non-empty. */
  lemma ValidRecordRequest(code: Option<string>, program: Option<string>, tshirtSize: string, kitId: string, f: Form)
    requires Validate(f).None?
    ensures var r := RequestOf(code, program, tshirtSize, kitId, ShippingRecord(f));
      Truthy(r.email) && Truthy(r.firstName) && Truthy(r.lastName)
      && r.email == Some(f.email) && r.classDate == Some(f.classDate) && r.classType == Some(f.classType)
  {
    RecordHoldsForm(f);
    assert Passes(f, NoFirstName) && Passes(f, NoLastName) && Passes(f, NoClassDate) && Passes(f, BadClassType);
    TrimSpec(f.firstName);
    TrimSpec(f.lastName);
  }

  /** The guard as the page writes it: one early return per step, in the steps' order. */
  lemma ReviewGuardChain(storage: Storage)
    ensures FirstMissing(storage, ReviewSteps) ==
      if !Present(storage, UserCodeKey) then Some("/")
      else if !ProgramChosenIn(storage) then Some("/program")
      else if !Present(storage, SizeKey) then Some("/tshirt-size")
      else if !Present(storage, KitKey) then Some("/kit-selection")
      else if !Present(storage, ShippingKey) then Some("/shipping")
      else None
  {
    ReviewGuardExtendsShipping(storage);
    ShippingGuardChain(storage);
  }

  /** The keys a placed order clears; `userCode` stays. */
  const ClearedKeys: set<Key> := {ProgramKey, SizeKey, KitKey, ShippingKey, OrderEmailKey}

  /** The session after an order: its number stored and the selections removed. */
  function AfterOrder(storage: Storage, orderNumber: string): (r: Storage)
    ensures r.Keys == storage.Keys - ClearedKeys + {OrderNumberKey}
    ensures r[OrderNumberKey] == Text(orderNumber)
    ensures forall k :: k in storage && k !in ClearedKeys && k != OrderNumberKey ==> r[k] == storage[k]
  {
    storage[OrderNumberKey := Text(orderNumber)] - ClearedKeys
  }

  /** Removing the cleared keys one at a time removes them all. */
  lemma RemovedOneByOne(s: Storage)
    ensures s - {ProgramKey} - {SizeKey} - {KitKey} - {ShippingKey} - {OrderEmailKey} == s - ClearedKeys
  {
  }

  /** After an order the code is still signed in and every page from the program step on sends
      the user back to choose a program again. */
  lemma AfterOrderRestartsWizard(storage: Storage, orderNumber: string)
    requires Present(storage, UserCodeKey)
    ensures Present(AfterOrder(storage, orderNumber), UserCodeKey)
    ensures FirstMissing(AfterOrder(storage, orderNumber), ReviewSteps) == Some("/program")
    ensures FirstMissing(AfterOrder(storage, orderNumber), ShippingSteps) == Some("/program")
    ensures FirstMissing(AfterOrder(storage, orderNumber), KitSelectionSteps) == Some("/program")
    ensures FirstMissing(AfterOrder(storage, orderNumber), TshirtSizeSteps) == Some("/program")
  {
    var after := AfterOrder(storage, orderNumber);
    assert TextAt(after, ProgramKey) == None;
    assert FirstUndone(after, ReviewSteps, 1);
  }

  /** What the two product lookups of `loadProducts` returned. */
  datatype ProductLoad = TshirtFailed(message: string) | KitFailed(tshirt: string, message: string)
    | Loaded(tshirt: string, kit: string)

  /** The T-shirt shown once the lookups are done: kept as it was when its own lookup failed. */
  function LoadedTshirt(load: ProductLoad, prior: Option<string>): Option<string> {
    if load.TshirtFailed? then prior else Some(load.tshirt)
  }

  /** The kit shown once the lookups are done: set only when both lookups succeeded. */
  function LoadedKit(load: ProductLoad, prior: Option<string>): Option<string> {
    if load.Loaded? then Some(load.kit) else prior
  }

  /** The message once the lookups are done: `err.message || 'Failed to load product information'`
      for the first lookup that failed. */
  function LoadNotice(load: ProductLoad, prior: Notice): (n: Notice)
    ensures load.Loaded? ==> n == prior
    ensures !load.Loaded? ==> n != NoError
  {
    if load.Loaded? then prior else MessageOr(load.message, LoadFailed)
  }

  /** What came back from posting the order. */
  datatype SubmitResponse =
    | Placed(orderNumber: string)
    | Refused(error: Option<string>)  // a non-OK status; `error` is the body's `error` field
    | Unreachable(message: string)    // the request itself threw

  /** The message on the page: one reported by the server or a thrown error, or one of the
      page's own fallbacks for an error without a message. `NoError` is the empty string. */
  datatype Notice = NoError | Reported(message: string) | LoadFailed | SubmitFailed | SubmitFailedRetry

  function NoticeText(n: Notice): string {
    match n
    case NoError => ""
    case Reported(m) => m
    case LoadFailed => "Failed to load product information"
    case SubmitFailed => "Failed to submit order"
    case SubmitFailedRetry => "Failed to submit order. Please try again."
  }

  /** `err.message || fallback`. */
  function MessageOr(message: string, fallback: Notice): (n: Notice)
    ensures message != "" ==> n == Reported(message)
    ensures message == "" ==> n == fallback
  {
    if message != "" then Reported(message) else fallback
  }

  /** The message shown after a failed submit: the body's `error` field, else the plain fallback;
      a request that threw shows its own message, else the fallback asking to retry. */
  function SubmitError(r: SubmitResponse): (n: Notice)
    requires !r.Placed?
    ensures r.Refused? ==> n == MessageOr(OrEmpty(r.error), SubmitFailed)
    ensures r.Unreachable? ==> n == MessageOr(r.message, SubmitFailedRetry)
    ensures n != NoError
  {
    match r
    case Refused(e) => MessageOr(OrEmpty(e), SubmitFailed)
    case Unreachable(msg) => MessageOr(msg, SubmitFailedRetry)
  }

  class ReviewPage {
    var program: Option<string>
    var tshirtSize: string
    var kitId: string
    var shipping: Option<map<string, string>>
    var tshirtProduct: Option<string>
    var kitProduct: Option<string>
    var loading: bool
    var submitting: bool
    var error: Notice
    var storage: Storage
    var route: Option<string>

    constructor(storage: Storage)
      ensures program == None && tshirtSize == "" && kitId == "" && shipping == None
      ensures tshirtProduct == None && kitProduct == None && loading && !submitting && error == NoError
      ensures this.storage == storage && route == None
      ensures Ready()
    {
      program := None;
      tshirtSize := "";
      kitId := "";
      shipping := None;
      tshirtProduct := None;
      kitProduct := None;
      loading := true;
      submitting := false;
      error := NoError;
      this.storage := storage;
      route := None;
    }

    /** The page leaves its loading state only after the shipping record was read. */
    predicate Ready()
      reads this
    {
      !loading ==> shipping.Some?
    }

    /** The `useEffect`'s checks, one early return per step in order: the first step not done
        sends the user back to its page. */
    method Guard() returns (passed: bool)
      modifies this`route
      ensures passed <==> FirstMissing(storage, ReviewSteps).None?
      ensures !passed ==> route == FirstMissing(storage, ReviewSteps)
      ensures passed ==> route == old(route) && Present(storage, ShippingKey)
    {
      if !Present(storage, UserCodeKey) {
        route := Some("/");
        return false;
      }
      if !ProgramChosenIn(storage) {
        route := Some("/program");
        return false;
      }
      if !Present(storage, SizeKey) {
        route := Some("/tshirt-size");
        return false;
      }
      if !Present(storage, KitKey) {
        route := Some("/kit-selection");
        return false;
      }
      if !Present(storage, ShippingKey) {
        route := Some("/shipping");
        return false;
      }
      return true;
    }

    /** The `useEffect` and `loadProducts`. A stored shipping value that is not a record makes
        `JSON.parse` throw, which stops the effect with the page still loading. */
    method Mount(load: ProductLoad)
      modifies this`route, this`program, this`tshirtSize, this`kitId, this`shipping, this`tshirtProduct, this`kitProduct, this`error, this`loading
      requires Ready()
      ensures Ready()
      ensures storage == old(storage) && submitting == old(submitting)
      ensures FirstMissing(storage, ReviewSteps).Some? || !storage[ShippingKey].Record? ==>
        program == old(program) && tshirtSize == old(tshirtSize) && kitId == old(kitId)
        && tshirtProduct == old(tshirtProduct) && kitProduct == old(kitProduct) && error == old(error)
      ensures FirstMissing(storage, ReviewSteps).Some? ==>
        route == FirstMissing(storage, ReviewSteps) && loading == old(loading) && shipping == old(shipping)
      ensures FirstMissing(storage, ReviewSteps).None? && !storage[ShippingKey].Record? ==>
        route == old(route) && loading == old(loading) && shipping == old(shipping) && error == old(error)
      ensures FirstMissing(storage, ReviewSteps).None? && storage[ShippingKey].Record? ==>
        route == old(route) && !loading && program == TextAt(storage, ProgramKey)
        && tshirtSize == OrEmpty(TextAt(storage, SizeKey)) && kitId == OrEmpty(TextAt(storage, KitKey))
        && shipping == Some(storage[ShippingKey].fields)
        && tshirtProduct == LoadedTshirt(load, old(tshirtProduct)) && kitProduct == LoadedKit(load, old(kitProduct))
        && error == LoadNotice(load, old(error))
    {
      var passed := Guard();
      if !passed {
        return;
      }
      if !storage[ShippingKey].Record? {
        return;
      }
      ReadSelections(load);
    }

    /** The effect past its guard: the stored selections and parsed shipping record become the
        page's state, then the products are loaded. */
    method ReadSelections(load: ProductLoad)
      modifies this`program, this`tshirtSize, this`kitId, this`shipping, this`tshirtProduct, this`kitProduct, this`error, this`loading
      requires ShippingKey in storage && storage[ShippingKey].Record?
      ensures !loading && program == TextAt(storage, ProgramKey)
        && tshirtSize == OrEmpty(TextAt(storage, SizeKey)) && kitId == OrEmpty(TextAt(storage, KitKey))
        && shipping == Some(storage[ShippingKey].fields)
        && tshirtProduct == LoadedTshirt(load, old(tshirtProduct)) && kitProduct == LoadedKit(load, old(kitProduct))
        && error == LoadNotice(load, old(error))
    {
      program := TextAt(storage, ProgramKey);
      tshirtSize := OrEmpty(TextAt(storage, SizeKey));
      kitId := OrEmpty(TextAt(storage, KitKey));
      shipping := Some(storage[ShippingKey].fields);
      LoadProducts(load);
    }

    /** `loadProducts`: the T-shirt lookup, then the kit lookup; the first failure is shown. */
    method LoadProducts(load: ProductLoad)
      modifies this`tshirtProduct, this`kitProduct, this`error, this`loading
      requires shipping.Some?
      ensures Ready() && !loading
      ensures tshirtProduct == LoadedTshirt(load, old(tshirtProduct)) && kitProduct == LoadedKit(load, old(kitProduct))
      ensures error == LoadNotice(load, old(error))
    {
      match load {
        case TshirtFailed(m) =>
          error := MessageOr(m, LoadFailed);
        case KitFailed(t, m) =>
          tshirtProduct := Some(t);
          error := MessageOr(m, LoadFailed);
        case Loaded(t, k) =>
          tshirtProduct := Some(t);
          kitProduct := Some(k);
      }
      loading := false;
    }

    /** The session writes of a placed order: its number is stored, then the wizard's keys removed. */
    method ClearAfterOrder(orderNumber: string)
      modifies this`storage
      ensures storage == AfterOrder(old(storage), orderNumber)
    {
      storage := storage[OrderNumberKey := Text(orderNumber)];
      storage := storage - {ProgramKey};
      storage := storage - {SizeKey};
      storage := storage - {KitKey};
      storage := storage - {ShippingKey};
      storage := storage - {OrderEmailKey};
      RemovedOneByOne(old(storage)[OrderNumberKey := Text(orderNumber)]);
    }

    /** `handleSubmit`, with the API's response given; `req` is the body it posts. */
    method HandleSubmit(response: SubmitResponse) returns (req: Orders.OrderRequest)
      modifies this`error, this`submitting, this`storage, this`route
      requires Ready() && !loading
      ensures Ready()
      ensures shipping.Some?
      ensures req == RequestOf(TextAt(old(storage), UserCodeKey), program, tshirtSize, kitId, shipping.value)
      ensures program == old(program) && tshirtSize == old(tshirtSize) && kitId == old(kitId)
      ensures tshirtProduct == old(tshirtProduct) && kitProduct == old(kitProduct)
      ensures shipping == old(shipping) && loading == old(loading)
      ensures response.Placed? ==>
        error == NoError && submitting && route == Some("/confirmation")
        && storage == AfterOrder(old(storage), response.orderNumber)
      ensures !response.Placed? ==>
        error == SubmitError(response) && !submitting && storage == old(storage) && route == old(route)
    {
      error := NoError;
      submitting := true;
      var userCode := TextAt(storage, UserCodeKey);
      req := RequestOf(userCode, program, tshirtSize, kitId, shipping.value);
      match response {
        case Placed(n) =>
          ClearAfterOrder(n);
          route := Some("/confirmation");
        case Refused(e) =>
          error := SubmitError(response);
          submitting := false;
        case Unreachable(m) =>
          error := SubmitError(response);
          submitting := false;
      }
    }
  }
}
