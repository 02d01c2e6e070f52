/** The landing page: the access-code input sanitiser and `handleStart`, which signs an admin
    straight in, checks a regular code's format, rejects a code that is used or already has an
    order, and otherwise stores the code and moves on to the program page. The two database
    lookups are parameters: whether the code's access-code row is marked used, and what the
    `.single()` query for an existing order returned. */
module Landing {
  import opened Base
  import opened Session

  const AdminCode := "ADMIN"
  const NotFoundCode := "PGRST116"

  /** The message under the input; `NoError` is the empty string. */
  datatype Notice = NoError | EnterCode | BadFormat | CodeUsed | LookupFailed | OrderExists

  function NoticeText(n: Notice): string {
    match n
    case NoError => ""
    case EnterCode => "Please enter your access code"
    case BadFormat => "Code must be exactly 6 capital letters"
    case CodeUsed => "This code has already been used."
    case LookupFailed => "Error validating code. Please try again."
    case OrderExists => "This code has already been used. Each code can only be used once."
  }

  // ---------------------------------------------------------------- the input sanitiser

  /** `.replace(/[^A-Z]/g, '')`: the capital ASCII letters of `s`, in order. */
  function CapitalsOnly(s: string): (r: string)
    ensures |r| <= |s|
    ensures forall i :: 0 <= i < |r| ==> IsAsciiUpper(r[i])
    decreases |s|
  {
    if s == [] then [] else (if IsAsciiUpper(s[0]) then [s[0]] else []) + CapitalsOnly(s[1..])
  }

  /** A string of capitals passes through unchanged. */
  lemma {:induction false} CapitalsOnlyKeeps(s: string)
    requires forall i :: 0 <= i < |s| ==> IsAsciiUpper(s[i])
    ensures CapitalsOnly(s) == s
    decreases |s|
  {
    if s != [] {
      CapitalsOnlyKeeps(s[1..]);
      assert s == [s[0]] + s[1..];
    }
  }

  /** The input's `onChange`: upper-case, keep `A`-`Z`, at most six characters. */
  function SanitizeCode(input: string): (r: string)
    ensures |r| <= 6
    ensures forall i :: 0 <= i < |r| ==> IsAsciiUpper(r[i])
  {
    var letters := CapitalsOnly(ToUpper(input));
    if |letters| <= 6 then letters else letters[..6]
  }

  predicate IsAsciiLetter(c: char) {
    IsAsciiUpper(c) || IsAsciiLower(c)
  }

  /** Up to six letters typed in any case come out upper-cased and otherwise untouched. */
  lemma SanitizeKeepsLetters(input: string)
    requires |input| <= 6 && forall i :: 0 <= i < |input| ==> IsAsciiLetter(input[i])
    ensures SanitizeCode(input) == ToUpper(input)
  {
    CapitalsOnlyKeeps(ToUpper(input));
  }

  /** Sanitising twice is sanitising once. */
  lemma SanitizeIdempotent(input: string)
    ensures SanitizeCode(SanitizeCode(input)) == SanitizeCode(input)
  {
    var r := SanitizeCode(input);
    assert ToUpper(r) == r;
    CapitalsOnlyKeeps(r);
  }

  // ---------------------------------------------------------------- handleStart

  /** `code.toUpperCase().trim()`. */
  function Normalize(code: string): string {
    Trim(ToUpper(code))
  }

  /** `/^[A-Z]{6}$/`. */
  predicate SixCapitals(s: string) {
    |s| == 6 && forall i :: 0 <= i < 6 ==> IsAsciiUpper(s[i])
  }

  /** What the `.single()` query for an order with this code returned: the row, or an error
      code (`PGRST116` when no single row matched). */
  datatype Lookup = Found | Failed(code: string)

  datatype Outcome = Rejected(notice: Notice) | SignIn(code: string, admin: bool)

  /** The decision `handleStart` takes, in its order of checks. */
  function StartOutcome(code: string, accessCodeUsed: Option<bool>, existing: Lookup): Outcome {
    if code == "" then Rejected(EnterCode)
    else
      var n := Normalize(code);
      if n == AdminCode then SignIn(n, true)
      else if !SixCapitals(n) then Rejected(BadFormat)
      else if accessCodeUsed == Some(true) then Rejected(CodeUsed)
      else if existing.Failed? && existing.code != NotFoundCode then Rejected(LookupFailed)
      else if existing.Found? then Rejected(OrderExists)
      else SignIn(n, false)
  }

  /** The admin code in any case, with any surrounding space, signs in as admin whatever the
      lookups would say. */
  lemma AdminBeforeFormat(code: string, accessCodeUsed: Option<bool>, existing: Lookup)
    requires Normalize(code) == AdminCode
    ensures StartOutcome(code, accessCodeUsed, existing) == SignIn(AdminCode, true)
  {
  }

  /** A signed-in code is the normalised input: the admin code for an admin, six capitals for
      anyone else. */
  lemma SignedInCode(code: string, accessCodeUsed: Option<bool>, existing: Lookup)
    requires StartOutcome(code, accessCodeUsed, existing).SignIn?
    ensures var o := StartOutcome(code, accessCodeUsed, existing);
      o.code == Normalize(code) && (o.admin <==> o.code == AdminCode) && (!o.admin ==> SixCapitals(o.code))
  {
  }

  /** A used access code, an existing order or a failed lookup never lets a regular user in. */
  lemma UsedCodeNeverSignsIn(code: string, accessCodeUsed: Option<bool>, existing: Lookup)
    requires accessCodeUsed == Some(true) || existing.Found? || (existing.Failed? && existing.code != NotFoundCode)
    ensures StartOutcome(code, accessCodeUsed, existing) == SignIn(AdminCode, true) ||
      StartOutcome(code, accessCodeUsed, existing).Rejected?
  {
  }

  /** A sanitised code needs no normalising, so six typed letters that are not `ADMIN` get in
      exactly when the lookups find the code unused and without an order. */
  lemma SanitizedCodeOutcome(input: string, accessCodeUsed: Option<bool>, existing: Lookup)
    ensures var c := SanitizeCode(input);
      Normalize(c) == c &&
      (|c| == 6 ==>
        (StartOutcome(c, accessCodeUsed, existing) == SignIn(c, false) <==>
          accessCodeUsed != Some(true) && existing == Failed(NotFoundCode)))
  {
    var c := SanitizeCode(input);
    assert ToUpper(c) == c;
    TrimKeeps(c);
  }

  /** The landing page's state: the typed code, the message shown, the busy flag, and the
      session and navigation it drives. */
  class LandingPage {
    var code: string
    var error: Notice
    var loading: bool
    var storage: Storage
    var route: Option<string>

    constructor(storage: Storage)
      ensures code == "" && error == NoError && !loading && this.storage == storage && route == None
    {
      code := "";
      error := NoError;
      loading := false;
      this.storage := storage;
      route := None;
    }

    /** The input's `onChange`. */
    method OnChange(value: string)
      modifies this
      ensures code == SanitizeCode(value) && error == NoError
      ensures loading == old(loading) && storage == old(storage) && route == old(route)
    {
      code := SanitizeCode(value);
      error := NoError;
    }

    /** `handleStart`, with the two lookups' results given. */
    method HandleStart(accessCodeUsed: Option<bool>, existing: Lookup)
      modifies this
      ensures code == old(code)
      ensures var o := StartOutcome(old(code), accessCodeUsed, existing);
        o.Rejected? ==>
          error == o.notice && storage == old(storage) && route == old(route)
          && loading == (if old(code) == "" then old(loading) else false)
      ensures var o := StartOutcome(old(code), accessCodeUsed, existing);
        o == SignIn(AdminCode, true) ==>
          error == old(error) && loading && route == Some("/admin")
          && storage == old(storage)[UserCodeKey := Text(AdminCode)][AdminAuthKey := Text("true")]
      ensures var o := StartOutcome(old(code), accessCodeUsed, existing);
        o.SignIn? && !o.admin ==>
          error == old(error) && loading && route == Some("/program")
          && storage == old(storage)[UserCodeKey := Text(o.code)] - {AdminAuthKey}
    {
      if code == "" {
        error := EnterCode;
        return;
      }
      var normalized := Normalize(code);
      loading := true;
      if normalized == AdminCode {
        storage := storage[UserCodeKey := Text(normalized)];
        storage := storage[AdminAuthKey := Text("true")];
        route := Some("/admin");
        return;
      }
      if !SixCapitals(normalized) {
        error := BadFormat;
        loading := false;
        return;
      }
      if accessCodeUsed == Some(true) {
        error := CodeUsed;
        loading := false;
        return;
      }
      if existing.Failed? && existing.code != NotFoundCode {
        error := LookupFailed;
        loading := false;
        return;
      }
      if existing.Found? {
        error := OrderExists;
        loading := false;
        return;
      }
      storage := storage[UserCodeKey := Text(normalized)];
      storage := storage - {AdminAuthKey};
      route := Some("/program");
    }
  }
}
