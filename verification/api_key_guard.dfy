/**
  `ApiKeyGuard`: finds the API key a request carries (the `x-api-key` header,
  else an `Authorization: Bearer` header, else the `api_key` query parameter)
  and lets the request through when no key is configured or when the key
  found equals the configured one.
 */
module ApiKeyGuard {
  import opened Wrappers
  import opened Strings

  /** A request header's value: one string, or the array a repeated header becomes. */
  datatype HeaderValue = Single(s: string) | Multi(items: seq<string>)

  /** A query parameter's value: a string, or anything else the query parser builds (an array or an object). */
  datatype QueryValue = QueryString(s: string) | QueryOther

  /** The parts of a request the guard reads; None is an absent header or parameter. */
  datatype Request = Request(xApiKey: Option<HeaderValue>, authorization: Option<string>, apiKeyParam: Option<QueryValue>)

  /** JavaScript truthiness of a header value: an empty string is falsy, every array is truthy. */
  predicate HeaderTruthy(h: HeaderValue) {
    h.Multi? || h.s != ""
  }

  const BearerPrefix: string := "Bearer "

  /** `k` is a key the request carries in one of the three places the guard looks. */
  predicate Carries(req: Request, k: string) {
    || req.xApiKey == Some(Single(k))
    || (req.xApiKey.Some? && req.xApiKey.value.Multi? && req.xApiKey.value.items != [] && req.xApiKey.value.items[0] == k)
    || req.authorization == Some(BearerPrefix + k)
    || req.apiKeyParam == Some(QueryString(k))
  }

  /**
    `extractApiKey`. An `x-api-key` header that is present and truthy decides
    alone: an array yields its first element, and an empty array yields
    `undefined` without looking further.
   */
  function ExtractApiKey(req: Request): (key: Option<string>)
    ensures req.xApiKey.Some? && HeaderTruthy(req.xApiKey.value) ==>
      key == match req.xApiKey.value
        case Single(s) => Some(s)
        case Multi(items) => if items == [] then None else Some(items[0])
    ensures key.Some? ==> Carries(req, key.value)
    ensures key.None? && (req.xApiKey.None? || !HeaderTruthy(req.xApiKey.value)) ==>
      !(req.apiKeyParam.Some? && req.apiKeyParam.value.QueryString? && req.apiKeyParam.value.s != "")
  {
    if req.xApiKey.Some? && HeaderTruthy(req.xApiKey.value) then
      match req.xApiKey.value
      case Single(s) => Some(s)
      case Multi(items) => if items == [] then None else Some(items[0])
    else if req.authorization.Some? && StartsWith(req.authorization.value, BearerPrefix) then
      var a := req.authorization.value;
      assert a == a[..|BearerPrefix|] + a[|BearerPrefix|..];
      Some(a[|BearerPrefix|..])
    else if req.apiKeyParam.Some? && req.apiKeyParam.value.QueryString? && req.apiKeyParam.value.s != "" then
      Some(req.apiKeyParam.value.s)
    else None
  }

  const KeyRequiredMessage: string := "API key is required"
  const InvalidKeyMessage: string := "Invalid API key"

  /** `canActivate`: true, or the message of the `UnauthorizedException` it throws. */
  function CanActivate(req: Request, configured: Option<string>): (r: Result<bool, string>)
    ensures r.Success? ==> r.value
    ensures r.Failure? ==> r.error == KeyRequiredMessage || r.error == InvalidKeyMessage
  {
    var key := ExtractApiKey(req);
    if configured.None? || configured.value == "" then Success(true)
    else if key.None? || key.value == "" then Failure(KeyRequiredMessage)
    else if key.value != configured.value then Failure(InvalidKeyMessage)
    else Success(true)
  }

  /**
    The decision: with a key configured a request passes exactly when the key
    extracted from it equals the configured key; a missing or empty key and a
    wrong key are told apart.
   */
  lemma Decision(req: Request, configured: string)
    requires configured != ""
    ensures CanActivate(req, Some(configured)) == Success(true) <==> ExtractApiKey(req) == Some(configured)
    ensures CanActivate(req, Some(configured)) == Failure(KeyRequiredMessage) <==>
      (ExtractApiKey(req).None? || ExtractApiKey(req).value == "")
    ensures CanActivate(req, Some(configured)) == Failure(InvalidKeyMessage) <==>
      (ExtractApiKey(req).Some? && ExtractApiKey(req).value != "" && ExtractApiKey(req).value != configured)
  {
  }

  /** Without a configured key (unset or empty) every request passes. */
  lemma OpenWithoutConfiguredKey(req: Request, configured: Option<string>)
    requires configured.None? || configured.value == ""
    ensures CanActivate(req, configured) == Success(true)
  {
  }

  /** The key a client puts after "Bearer " is the key the guard reads. */
  lemma BearerKeyReadBack(key: string, param: Option<QueryValue>)
    ensures ExtractApiKey(Request(None, Some(BearerPrefix + key), param)) == Some(key)
  {
    var h := BearerPrefix + key;
    assert h[..|BearerPrefix|] == BearerPrefix;
    assert h[|BearerPrefix|..] == key;
  }

  /** A string query parameter is read only when no header supplied a key. */
  lemma QueryKeyLast(key: string, auth: Option<string>)
    requires key != ""
    requires auth.None? || !StartsWith(auth.value, BearerPrefix)
    ensures ExtractApiKey(Request(None, auth, Some(QueryString(key)))) == Some(key)
    ensures ExtractApiKey(Request(None, auth, Some(QueryOther))).None?
  {
  }

  /**
    A wrong `x-api-key` header is rejected even when the request also carries
    the right key as a bearer token or a query parameter.
   */
  lemma WrongHeaderKeyWins(wrong: string, configured: string, param: Option<QueryValue>)
    requires wrong != "" && configured != "" && wrong != configured
    ensures CanActivate(Request(Some(Single(wrong)), Some(BearerPrefix + configured), param), Some(configured))
      == Failure(InvalidKeyMessage)
  {
  }
}
