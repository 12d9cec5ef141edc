/** `REQUEST_METHOD` and the `API_ENDPOINT` record of api/endpoint.types.ts. */
module EndpointTypes {
  import opened Wrappers
  import opened JsValue

  /** `REQUEST_METHOD`. */
  datatype RequestMethod = GET | POST | PATCH | DELETE

  /** The string each member of `REQUEST_METHOD` stands for. */
  function MethodName(m: RequestMethod): string
  {
    match m
    case GET => "GET"
    case POST => "POST"
    case PATCH => "PATCH"
    case DELETE => "DELETE"
  }

  /** An `API_ENDPOINT`; `httpMethod` (`method`) holds a string, since any string can reach it at run time. */
  datatype Endpoint = Endpoint(url: string, httpMethod: string, response: Value, transformer: Value, dataFields: seq<string>)

  /** `Partial<API_ENDPOINT>`: the constructor's `init`; absent keys are `None` or `Undefined`. */
  datatype EndpointInit = EndpointInit(
    url: Option<string>,
    httpMethod: Option<string>,
    response: Value,
    transformer: Value,
    dataFields: Option<seq<string>>)

  /** `init.x || default` for a string field. */
  function OrString(v: Option<string>, default: string): string
  {
    if v.Some? && v.value != "" then v.value else default
  }

  /** `init.x || null`. */
  function OrNull(v: Value): Value
  {
    if Truthy(v) then v else Null
  }

  /** `new API_ENDPOINT(init)`. */
  function NewEndpoint(init: EndpointInit): (e: Endpoint)
    ensures e.url == (if init.url.Some? then init.url.value else "")
    ensures e.httpMethod != "" && (init.httpMethod.Some? && init.httpMethod.value != "" ==> e.httpMethod == init.httpMethod.value)
    ensures init.httpMethod.None? || init.httpMethod == Some("") ==> e.httpMethod == MethodName(GET)
    ensures Truthy(init.response) ==> e.response == init.response
    ensures !Truthy(init.response) ==> e.response == Null
    ensures Truthy(init.transformer) ==> e.transformer == init.transformer
    ensures !Truthy(init.transformer) ==> e.transformer == Null
    ensures e.dataFields == (if init.dataFields.Some? then init.dataFields.value else [])
  {
    Endpoint(
      OrString(init.url, ""),
      OrString(init.httpMethod, MethodName(GET)),
      OrNull(init.response),
      OrNull(init.transformer),
      if init.dataFields.Some? then init.dataFields.value else [])
  }

  /** An existing endpoint passed as `init`. */
  function AsInit(e: Endpoint): EndpointInit
  {
    EndpointInit(Some(e.url), Some(e.httpMethod), e.response, e.transformer, Some(e.dataFields))
  }

  /** `new API_ENDPOINT(endpoint)`: the copy `Api.call` edits. */
  function Copy(e: Endpoint): (c: Endpoint)
    ensures c.url == e.url && c.dataFields == e.dataFields
    ensures c.httpMethod == (if e.httpMethod == "" then "GET" else e.httpMethod)
    ensures c.response == OrNull(e.response) && c.transformer == OrNull(e.transformer)
  {
    NewEndpoint(AsInit(e))
  }

  /** The four members name four different methods. */
  lemma MethodNamesDistinct(m: RequestMethod, n: RequestMethod)
    ensures MethodName(m) == MethodName(n) <==> m == n
  {
  }

  /** Copying an endpoint the constructor built gives the same endpoint back. */
  lemma CopyOfConstructed(init: EndpointInit)
    ensures Copy(NewEndpoint(init)) == NewEndpoint(init)
  {
  }

  /** Copying twice is copying once. */
  lemma CopyIdempotent(e: Endpoint)
    ensures Copy(Copy(e)) == Copy(e)
  {
    CopyOfConstructed(AsInit(e));
  }
}
