/** HTTP as the client sees it: URLs, the request it builds, the reply it
    reads, and the transport that carries one request to one reply. */
module Http {
  import opened Wrappers
  import opened Enums
  import opened Wire

  /** An absolute URL, represented by its string. */
  datatype Url = Url(text: string)

  function EndsWithSlash(s: string): bool
  {
    |s| > 0 && s[|s| - 1] == '/'
  }

  /** `URL.appendingPathComponent`: adds a `/` unless the URL already ends in one. */
  function AppendPathComponent(u: Url, component: string): (r: Url)
    ensures |r.text| == |u.text| + |component| + (if EndsWithSlash(u.text) then 0 else 1)
    ensures r.text[..|u.text|] == u.text
    ensures r.text[|r.text| - |component|..] == component
    ensures EndsWithSlash(u.text) || r.text[|u.text|] == '/'
  {
    if EndsWithSlash(u.text) then Url(u.text + component) else Url(u.text + "/" + component)
  }

  /** Distinct path components address distinct resources under the same URL. */
  lemma AppendPathComponentInjective(u: Url, a: string, b: string)
    ensures AppendPathComponent(u, a) == AppendPathComponent(u, b) ==> a == b
  {
    var ra, rb := AppendPathComponent(u, a), AppendPathComponent(u, b);
    if ra == rb {
      assert |a| == |b|;
      assert a == ra.text[|ra.text| - |a|..] == rb.text[|rb.text| - |b|..] == b;
    }
  }

  /** A built request: target, method string, optional JSON body, header fields. */
  datatype Request = Request(url: Url, httpMethod: string, httpBody: Option<Json>, headers: map<string, string>)

  /** What the transport hands back for a request. */
  datatype Reply =
    | HttpReply(statusCode: nat, data: Json)  // an HTTP response and its body
    | NonHttp                                 // a response that is not an HTTP response
    | NoReply                                 // the exchange itself failed

  /** The status window every call accepts as success. */
  predicate IsSuccess(status: nat)
  {
    200 <= status <= 299
  }

  /** `URLRequest.addValue(_:forHTTPHeaderField:)`: a repeated field gets the
      new value appended after a comma. */
  function AddValue(headers: map<string, string>, field: string, value: string): (h: map<string, string>)
    ensures h.Keys == headers.Keys + {field}
    ensures field !in headers ==> h[field] == value
    ensures forall f :: f in headers && f != field ==> h[f] == headers[f]
  {
    if field in headers then headers[field := headers[field] + "," + value] else headers[field := value]
  }

  const AuthorizationField := "Authorization"
  const AuthorizationValue := "Basic base64"
  const ContentTypeField := "Content-Type"
  const ContentTypeValue := "application/json"

  /** The two header fields every request carries, added to a fresh request. */
  function StandardHeaders(): (h: map<string, string>)
    ensures h.Keys == {AuthorizationField, ContentTypeField}
    ensures h[AuthorizationField] == AuthorizationValue && h[ContentTypeField] == ContentTypeValue
  {
    AddValue(AddValue(map[], AuthorizationField, AuthorizationValue), ContentTypeField, ContentTypeValue)
  }

  /** The request `prepareRequest` builds for a URL, method and optional body. */
  function PreparedRequest(url: Url, verb: RestMethod, body: Option<CAServerBody>): (r: Request)
    ensures r.url == url && r.httpMethod == RestMethodRaw(verb)
    ensures r.httpBody.Some? <==> body.Some?
    ensures body.Some? ==> DecodeBody(r.httpBody.value) == body
    ensures r.headers == StandardHeaders()
  {
    if body.Some? then
      BodyRoundTrip(body.value);
      Request(url, RestMethodRaw(verb), Some(EncodeBody(body.value)), StandardHeaders())
    else
      Request(url, RestMethodRaw(verb), None, StandardHeaders())
  }

  /** Builds the request step by step from a fresh `URLRequest`, which starts as
      a GET with no body and no header fields. */
  method PrepareRequest(url: Url, verb: RestMethod, body: Option<CAServerBody>) returns (request: Request)
    ensures request == PreparedRequest(url, verb, body)
  {
    request := Request(url, "GET", None, map[]);
    request := request.(httpMethod := RestMethodRaw(verb));
    if body.Some? {
      request := request.(httpBody := Some(EncodeBody(body.value)));
    }
    request := request.(headers := AddValue(request.headers, AuthorizationField, AuthorizationValue));
    request := request.(headers := AddValue(request.headers, ContentTypeField, ContentTypeValue));
  }

  /** The network as the client uses it: each data task sends one request, is
      recorded in `log`, and receives the reply `oracle` gives for it. */
  class Transport {
    var log: seq<Request>
    const oracle: Request -> Reply

    constructor (oracle: Request -> Reply)
      ensures log == [] && this.oracle == oracle
    {
      log := [];
      this.oracle := oracle;
    }

    method DataTask(request: Request) returns (reply: Reply)
      modifies this
      ensures log == old(log) + [request]
      ensures reply == oracle(request)
    {
      log := log + [request];
      reply := oracle(request);
    }
  }
}
