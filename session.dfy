/** The browser session shared by the wizard's pages: the `sessionStorage` keys they read and
    write, and the "send the user back to the first step not yet done" guard each page runs
    when it mounts. A stored value is a plain string or a record the shipping page serialised;
    serialisation itself is not modelled, the record's fields are kept as they are. */
module Session {
  import opened Base

  datatype Stored = Text(text: string) | Record(fields: map<string, string>)

  /** The `sessionStorage` keys the wizard uses. */
  datatype Key = UserCodeKey | AdminAuthKey | ProgramKey | SizeKey | KitKey | ShippingKey
    | OrderEmailKey | OrderNumberKey

  /** The name each key is stored under. */
  function KeyName(k: Key): string {
    match k
    case UserCodeKey => "userCode"
    case AdminAuthKey => "adminAuth"
    case ProgramKey => "selectedProgram"
    case SizeKey => "tshirtSize"
    case KitKey => "selectedKitId"
    case ShippingKey => "shipping"
    case OrderEmailKey => "orderEmail"
    case OrderNumberKey => "orderNumber"
  }

  type Storage = map<Key, Stored>

  /** `sessionStorage.getItem(key)` is truthy: present and not the empty string. */
  predicate Present(storage: Storage, key: Key) {
    key in storage && storage[key] != Text("")
  }

  /** `getItem(key)` as a string, when a plain string is stored there. */
  function TextAt(storage: Storage, key: Key): (r: Option<string>)
    ensures r.Some? <==> key in storage && storage[key].Text?
    ensures r.Some? ==> storage[key] == Text(r.value)
  {
    if key in storage && storage[key].Text? then Some(storage[key].text) else None
  }

  /** The stored program is `'RA'` or `'LIFT'`. */
  predicate ProgramChosenIn(storage: Storage) {
    TextAt(storage, ProgramKey) == Some("RA") || TextAt(storage, ProgramKey) == Some("LIFT")
  }

  /** The wizard's steps, in the order the user takes them. */
  datatype Step = SignedIn | ProgramChosen | SizeChosen | KitChosen | ShippingEntered

  predicate Done(storage: Storage, step: Step) {
    match step
    case SignedIn => Present(storage, UserCodeKey)
    case ProgramChosen => ProgramChosenIn(storage)
    case SizeChosen => Present(storage, SizeKey)
    case KitChosen => Present(storage, KitKey)
    case ShippingEntered => Present(storage, ShippingKey)
  }

  /** The page a guard sends the user to when `step` is not done. */
  function StepRoute(step: Step): string {
    match step
    case SignedIn => "/"
    case ProgramChosen => "/program"
    case SizeChosen => "/tshirt-size"
    case KitChosen => "/kit-selection"
    case ShippingEntered => "/shipping"
  }

  /** `steps[k]` is the first step not done. */
  predicate FirstUndone(storage: Storage, steps: seq<Step>, k: int) {
    0 <= k < |steps| && !Done(storage, steps[k]) && forall j :: 0 <= j < k ==> Done(storage, steps[j])
  }

  /** Where a guard checking `steps` in order redirects, or `None` when all are done. */
  function FirstMissing(storage: Storage, steps: seq<Step>): (r: Option<string>)
    ensures r.None? <==> forall k :: 0 <= k < |steps| ==> Done(storage, steps[k])
    ensures r.Some? ==> exists k :: FirstUndone(storage, steps, k) && r.value == StepRoute(steps[k])
    decreases |steps|
  {
    if steps == [] then None
    else if !Done(storage, steps[0]) then Some(StepRoute(steps[0]))
    else
      var r := FirstMissing(storage, steps[1..]);
      assert forall k :: 1 <= k < |steps| ==> steps[k] == steps[1..][k - 1];
      if r.Some? then
        var k :| FirstUndone(storage, steps[1..], k) && r.value == StepRoute(steps[1..][k]);
        assert FirstUndone(storage, steps, k + 1);
        r
      else r
  }

  /** The T-shirt page checks the program only. */
  const TshirtSizeSteps := [ProgramChosen]
  /** The kit page checks program, then size; it does not check the code. */
  const KitSelectionSteps := [ProgramChosen, SizeChosen]
  /** The shipping page checks code, program, size and kit. */
  const ShippingSteps := [SignedIn, ProgramChosen, SizeChosen, KitChosen]
  /** The review page checks what the shipping page checks, then the shipping form. */
  const ReviewSteps := [SignedIn, ProgramChosen, SizeChosen, KitChosen, ShippingEntered]

  /** A guard over `a + b` redirects where the guard over `a` does, and otherwise where `b`'s does. */
  lemma {:induction false} FirstMissingAppend(storage: Storage, a: seq<Step>, b: seq<Step>)
    ensures FirstMissing(storage, a + b) ==
      (if FirstMissing(storage, a).Some? then FirstMissing(storage, a) else FirstMissing(storage, b))
    decreases |a|
  {
    if a == [] {
      assert a + b == b;
    } else {
      assert (a + b)[0] == a[0];
      assert (a + b)[1..] == a[1..] + b;
      FirstMissingAppend(storage, a[1..], b);
    }
  }

  /** The shipping guard as a chain of early returns, one per step in order. */
  lemma ShippingGuardChain(storage: Storage)
    ensures FirstMissing(storage, ShippingSteps) ==
      if !Present(storage, UserCodeKey) then Some("/")
      else if !ProgramChosenIn(storage) then Some("/program")
      else if !Present(storage, SizeKey) then Some("/tshirt-size")
      else if !Present(storage, KitKey) then Some("/kit-selection")
      else None
  {
    assert ShippingSteps[1..][1..][1..][1..] == [];
  }

  /** The review guard is the shipping guard followed by the shipping-form check. */
  lemma ReviewGuardExtendsShipping(storage: Storage)
    ensures FirstMissing(storage, ReviewSteps) ==
      (if FirstMissing(storage, ShippingSteps).Some? then FirstMissing(storage, ShippingSteps)
       else if Present(storage, ShippingKey) then None
       else Some("/shipping"))
  {
    assert ReviewSteps == ShippingSteps + [ShippingEntered];
    FirstMissingAppend(storage, ShippingSteps, [ShippingEntered]);
  }

  /** A session that passes the review guard passes the guards of the earlier pages too. */
  lemma ReviewGuardPassesEarlierPages(storage: Storage)
    requires FirstMissing(storage, ReviewSteps).None?
    ensures FirstMissing(storage, ShippingSteps).None?
    ensures FirstMissing(storage, KitSelectionSteps).None?
    ensures FirstMissing(storage, TshirtSizeSteps).None?
  {
    assert forall k :: 0 <= k < 5 ==> Done(storage, ReviewSteps[k]);
    assert ShippingSteps[1] == ReviewSteps[1] && ShippingSteps[2] == ReviewSteps[2];
    assert KitSelectionSteps[0] == ReviewSteps[1] && KitSelectionSteps[1] == ReviewSteps[2];
  }
}
