/**
 * `Api.call` of api/api.ts up to the request it dispatches: the
 * Authorization header chosen from the token, the header merge, the copied
 * endpoint, the placeholder substitution, the trailing slash and the method
 * switch. The token is an input; the request is returned, not sent.
 */
module Api {
  import opened Wrappers
  import opened JsValue
  import opened Strings
  import opened EndpointTypes

  /** The apisauce call the method switch picks. */
  datatype Verb = Get | Post | Patch | Delete

  /** What would be sent: verb, url, payload and headers. */
  datatype Request = Request(verb: Verb, url: string, payload: Value, headers: map<string, string>)

  const BearerPrefix: string := "Bearer "

  /** The value `setHeader('Authorization', …)` is given for a token. */
  function AuthorizationHeader(token: Value): (h: string)
    ensures h != "" <==> Truthy(token)
    ensures Truthy(token) ==> |h| >= |BearerPrefix| && h[..|BearerPrefix|] == BearerPrefix && h[|BearerPrefix|..] == StringOf(token)
  {
    if Truthy(token) then BearerPrefix + StringOf(token) else ""
  }

  /** `'{' + id + '}'`. */
  function Placeholder(key: string): string
  {
    "{" + key + "}"
  }

  /**
   * The url after the loop over `ids` (in enumeration order): for each key,
   * the first occurrence of its placeholder is replaced by `String(value)`.
   */
  function FillIds(url: string, ids: seq<(string, Value)>): (r: string)
    ensures (forall i :: 0 <= i < |ids| ==> !Includes(url, Placeholder(ids[i].0))) ==> r == url
    decreases |ids|
  {
    if ids == [] then url
    else
      ReplaceFirstEffect(url, Placeholder(ids[0].0), StringOf(ids[0].1));
      FillIds(ReplaceFirst(url, Placeholder(ids[0].0), StringOf(ids[0].1)), ids[1..])
  }

  /** The `for (let id in ids)` loop, reassigning the url once per key. */
  method SubstituteIds(url: string, ids: seq<(string, Value)>) returns (r: string)
    ensures r == FillIds(url, ids)
  {
    r := url;
    var i := 0;
    while i < |ids|
      invariant 0 <= i <= |ids|
      invariant FillIds(r, ids[i..]) == FillIds(url, ids)
    {
      var (id, value) := ids[i];
      assert ids[i..][1..] == ids[i + 1..];
      r := ReplaceFirst(r, Placeholder(id), StringOf(value));
      i := i + 1;
    }
  }

  /** One key: its first placeholder is replaced; the text after it, later placeholders included, stays. */
  lemma FillOneId(url: string, key: string, value: Value)
    requires Includes(url, Placeholder(key))
    ensures var i := IndexOf(url, Placeholder(key)).value;
      var r := FillIds(url, [(key, value)]);
      r == url[..i] + StringOf(value) + url[i + |Placeholder(key)|..]
  {
  }

  /**
   * `endpoint.url.match('/[{*}]')` as written: the pattern is a slash
   * followed by `{`, `*` or `}`.
   */
  predicate ReportsUnfilledAsWritten(url: string)
  {
    exists i :: 0 <= i < |url| - 1 && url[i] == '/' && url[i + 1] in "{*}"
  }

  /** The evident intent, `/[{*}]/`: any `{`, `*` or `}` in the url. */
  predicate ReportsUnfilled(url: string)
  {
    exists i :: 0 <= i < |url| && url[i] in "{*}"
  }

  /** Every placeholder left in the url is reported. */
  lemma UnfilledPlaceholderReported(url: string, key: string)
    requires Includes(url, Placeholder(key))
    ensures ReportsUnfilled(url)
  {
    var k :| 0 <= k <= |url| && OccursAt(url, Placeholder(key), k);
    assert url[k..k + |Placeholder(key)|][0] == '{';
    assert url[k] in "{*}";
  }

  /** As written, a placeholder that does not follow a slash goes unreported. */
  lemma UnfilledMissedAsWritten()
    ensures Includes("/todos?id={id}", Placeholder("id"))
    ensures !ReportsUnfilledAsWritten("/todos?id={id}")
    ensures ReportsUnfilled("/todos?id={id}")
  {
    assert OccursAt("/todos?id={id}", Placeholder("id"), 10);
    assert "/todos?id={id}"[10] in "{*}";
  }

  /** The trailing-slash step: `/` is appended unless the url ends with one or has a query. */
  function NormalizeTrailingSlash(url: string): (r: string)
    ensures r == url || r == url + "/"
    ensures EndsWith(r, "/") || Includes(r, "?")
    ensures r == url <==> EndsWith(url, "/") || Includes(url, "?")
  {
    if (|url| == 0 || url[|url| - 1] != '/') && !Includes(url, "?") then url + "/" else url
  }

  /** Normalising twice is normalising once. */
  lemma NormalizeIdempotent(url: string)
    ensures NormalizeTrailingSlash(NormalizeTrailingSlash(url)) == NormalizeTrailingSlash(url)
  {
  }

  /** `switch (endpoint.method)`. */
  function Dispatch(m: string): (r: Result<Verb, Thrown>)
    ensures r.Failure? ==> r.error == ErrorInstance("Unknown request method")
  {
    if m == "GET" then Success(Get)
    else if m == "POST" then Success(Post)
    else if m == "PATCH" then Success(Patch)
    else if m == "DELETE" then Success(Delete)
    else Failure(ErrorInstance("Unknown request method"))
  }

  function VerbOf(m: RequestMethod): Verb
  {
    match m
    case GET => Get
    case POST => Post
    case PATCH => Patch
    case DELETE => Delete
  }

  /** Each `REQUEST_METHOD` member reaches its own call; every other string throws. */
  lemma DispatchSpec(s: string)
    ensures Dispatch(s).Success? <==> exists m :: MethodName(m) == s
    ensures forall m :: Dispatch(MethodName(m)) == Success(VerbOf(m))
  {
    if s == "GET" { assert MethodName(GET) == s; }
    if s == "POST" { assert MethodName(POST) == s; }
    if s == "PATCH" { assert MethodName(PATCH) == s; }
    if s == "DELETE" { assert MethodName(DELETE) == s; }
  }

  /** Caller headers win over the instance's on a clash; the instance's fill the rest. */
  lemma CallerHeadersWin(instance: map<string, string>, caller: map<string, string>)
    ensures (instance + caller).Keys == instance.Keys + caller.Keys
    ensures forall k :: k in caller ==> (instance + caller)[k] == caller[k]
    ensures forall k :: k in instance && k !in caller ==> (instance + caller)[k] == instance[k]
  {
  }

  /** The `Api` class: its apisauce client's headers. */
  class Api {
    var headers: map<string, string>

    constructor ()
      ensures headers == map["Accept" := "application/json"]
    {
      headers := map["Accept" := "application/json"];
    }

    /**
     * `call(endpoint, payload, ids, headers)`, with the auth store's token as
     * an input: the request it would dispatch, or the error it throws, and
     * whether it logs an unfilled placeholder.
     */
    method Call(endpoint: Endpoint, payload: Value, ids: seq<(string, Value)>,
                callerHeaders: map<string, string>, token: Value)
      returns (r: Result<Request, Thrown>, unfilledLogged: bool)
      modifies this
      ensures headers == old(headers)["Authorization" := AuthorizationHeader(token)]
      ensures var filled := FillIds(Copy(endpoint).url, ids);
        && unfilledLogged == ReportsUnfilledAsWritten(filled)
        && (Dispatch(Copy(endpoint).httpMethod).Failure? ==> r == Failure(Dispatch(Copy(endpoint).httpMethod).error))
        && (Dispatch(Copy(endpoint).httpMethod).Success? ==>
             r == Success(Request(Dispatch(Copy(endpoint).httpMethod).value,
                                  NormalizeTrailingSlash(filled), payload, headers + callerHeaders)))
    {
      headers := headers["Authorization" := AuthorizationHeader(token)];
      var merged := headers + callerHeaders;
      var copy := Copy(endpoint);
      var url := SubstituteIds(copy.url, ids);
      unfilledLogged := ReportsUnfilledAsWritten(url);
      url := NormalizeTrailingSlash(url);
      var verb := Dispatch(copy.httpMethod);
      if verb.Failure? {
        return Failure(verb.error), unfilledLogged;
      }
      r := Success(Request(verb.value, url, payload, merged));
    }
  }
}
