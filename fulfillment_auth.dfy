/** The fulfillment partner's pull endpoint: the API-key check (a key in the `Authorization`
    header, with or without the `Bearer` scheme of section 2.1 of RFC 6750, or in the `key` query
    parameter) and the `GET` handler that answers 401 before building anything. */
module FulfillmentAuth {
  import opened Base
  import FulfillmentXml

  /** `/^Bearer\s+/i`: the header starts with `Bearer` in any ASCII case and then white space. */
  predicate HasBearerPrefix(h: string) {
    |h| > 6 && ToLower(h[..6]) == "bearer" && IsJsSpace(h[6])
  }

  /** `.replace(/^Bearer\s+/i, '')`: the scheme and all the white space after it are removed. */
  function StripBearer(h: string): (r: string)
    ensures HasBearerPrefix(h) ==> |r| < |h| - 6 && r == h[|h| - |r|..] && (r == [] || !IsJsSpace(r[0]))
    ensures HasBearerPrefix(h) ==> forall i :: 6 <= i < |h| - |r| ==> IsJsSpace(h[i])
    ensures !HasBearerPrefix(h) ==> r == h
  {
    if HasBearerPrefix(h) then
      TrimStartSpec(h[6..]);
      assert forall i :: 6 <= i < |h| ==> h[i] == h[6..][i - 6];
      TrimStart(h[6..])
    else h
  }

  /** The key the header carries: `undefined` without a header. */
  function HeaderKey(authorization: Option<string>): (r: Option<string>)
    ensures r.None? <==> authorization.None?
  {
    if authorization.None? then None else Some(Trim(StripBearer(authorization.value)))
  }

  /** `isAuthorized`: open when no key is configured; otherwise a non-empty header key or a
      non-empty `?key=` must equal the configured key. */
  predicate IsAuthorized(apiKey: Option<string>, authorization: Option<string>, queryKey: Option<string>) {
    var headerKey := HeaderKey(authorization);
    !Truthy(apiKey)
    || (Truthy(headerKey) && headerKey.value == apiKey.value)
    || (Truthy(queryKey) && queryKey.value == apiKey.value)
  }

  /** Without a configured key every request gets in. */
  lemma OpenWithoutKey(authorization: Option<string>, queryKey: Option<string>)
    ensures IsAuthorized(None, authorization, queryKey) && IsAuthorized(Some(""), authorization, queryKey)
  {
  }

  /** With a key configured, a request gets in exactly when one of its two places carries it. */
  lemma AuthorizedIffKeyPresented(apiKey: string, authorization: Option<string>, queryKey: Option<string>)
    requires apiKey != ""
    ensures IsAuthorized(Some(apiKey), authorization, queryKey) <==>
      HeaderKey(authorization) == Some(apiKey) || queryKey == Some(apiKey)
  {
  }

  /** `Bearer`, in any case, and the white space after it are taken off the token. */
  lemma StripBearerOfToken(scheme: string, gap: string, key: string)
    requires |scheme| == 6 && ToLower(scheme) == "bearer"
    requires |gap| > 0 && forall i :: 0 <= i < |gap| ==> IsJsSpace(gap[i])
    requires key != "" && !IsJsSpace(key[0])
    ensures StripBearer(scheme + gap + key) == key
  {
    var rest := gap + key;
    var h := scheme + rest;
    assert scheme + gap + key == h;
    assert h[..6] == scheme;
    assert IsJsSpace(h[6]) by { assert h[6] == gap[0]; }
    assert HasBearerPrefix(h);
    assert h[6..] == rest;
    TrimStartPast(gap, key);
    assert StripBearer(h) == TrimStart(h[6..]);
  }

  /** The key sent as `Bearer <key>`, in any case and with any white space after the scheme, is
      accepted. */
  lemma BearerTokenAccepted(scheme: string, gap: string, key: string)
    requires |scheme| == 6 && ToLower(scheme) == "bearer"
    requires |gap| > 0 && forall i :: 0 <= i < |gap| ==> IsJsSpace(gap[i])
    requires key != "" && !IsJsSpace(key[0]) && !IsJsSpace(key[|key| - 1])
    ensures IsAuthorized(Some(key), Some(scheme + gap + key), None)
  {
    StripBearerOfToken(scheme, gap, key);
    TrimKeeps(key);
    assert HeaderKey(Some(scheme + gap + key)) == Some(key);
  }

  /** Leading white space is all skipped, and the trim stops at the first other character. */
  lemma {:induction false} TrimStartPast(gap: string, rest: string)
    requires forall i :: 0 <= i < |gap| ==> IsJsSpace(gap[i])
    requires rest != [] && !IsJsSpace(rest[0])
    ensures TrimStart(gap + rest) == rest
    decreases |gap|
  {
    if gap == [] {
      assert gap + rest == rest;
      TrimStartSpec(rest);
    } else {
      assert (gap + rest)[1..] == gap[1..] + rest;
      TrimStartPast(gap[1..], rest);
      TrimStartSpec(gap + rest);
      TrimStartSpec(gap[1..] + rest);
    }
  }

  /** What the endpoint answers. */
  datatype Response = Unauthorized | Xml(body: string) | ServerError(error: string)

  const BuildFailedError := "Failed to generate fulfillment XML"

  /** The `GET` handler, with the database's answers given (the rows for the `since` bound, or
      `None` for a query that fails): a request that is not authorised gets 401 and nothing is
      built; otherwise the `status` parameter goes to the document builder unchanged,
      `undefined` when absent, and an error the builder throws becomes a 500 answer. */
  function Get(apiKey: Option<string>, authorization: Option<string>, query: map<string, string>,
               ordersQ: Option<seq<FulfillmentXml.DbOrder>>, productsQ: Option<seq<FulfillmentXml.ProductInfo>>,
               items: seq<FulfillmentXml.OrderItem>, failing: set<string>): (r: Response)
    ensures r == Unauthorized <==> !IsAuthorized(apiKey, authorization, ValueAt(query, "key"))
    ensures r.ServerError? <==> (IsAuthorized(apiKey, authorization, ValueAt(query, "key"))
      && FulfillmentXml.FetchAndBuild(None, ordersQ, productsQ, items, failing, ValueAt(query, "status")).None?)
    ensures r.ServerError? ==> r.error == BuildFailedError
    ensures r.Xml? ==> ordersQ.Some? && r.body == FulfillmentXml.BuildFulfillmentXml(None, ordersQ.value,
      if productsQ.Some? then productsQ.value else [], items, ValueAt(query, "status"))
  {
    if !IsAuthorized(apiKey, authorization, ValueAt(query, "key")) then Unauthorized
    else
      match FulfillmentXml.FetchAndBuild(None, ordersQ, productsQ, items, failing, ValueAt(query, "status"))
      case None => ServerError(BuildFailedError)
      case Some(xml) => Xml(xml)
  }
}
