/** The two string-backed enumerations of the client: HTTP methods and the
    kinds of certificate the CA serves. */
module Enums {
  import opened Wrappers

  /** The HTTP methods the client uses. */
  datatype RestMethod = GET | POST | PUT

  /** The raw value of a method, used verbatim as the HTTP method of a request. */
  function RestMethodRaw(m: RestMethod): string
  {
    match m
    case GET => "GET"
    case POST => "POST"
    case PUT => "PUT"
  }

  /** Swift's synthesised failable `init?(rawValue:)` for `RestMethod`: the
      inverse of `RestMethodRaw`. The client itself only writes raw values. */
  function RestMethodFromRaw(raw: string): (m: Option<RestMethod>)
    ensures m.Some? <==> raw in {"GET", "POST", "PUT"}
  {
    if raw == "GET" then Some(GET)
    else if raw == "POST" then Some(POST)
    else if raw == "PUT" then Some(PUT)
    else None
  }

  /** Each method's raw value reads back as that method. */
  lemma RestMethodRawRoundTrip(m: RestMethod)
    ensures RestMethodFromRaw(RestMethodRaw(m)) == Some(m)
  {
  }

  /** Raw values identify their methods, so distinct methods never share an HTTP method string. */
  lemma RestMethodRawInjective(m: RestMethod, n: RestMethod)
    ensures RestMethodRaw(m) == RestMethodRaw(n) ==> m == n
  {
    RestMethodRawRoundTrip(m);
    RestMethodRawRoundTrip(n);
  }

  /** The kinds of certificate: the CA's own root, or one issued for an entity. */
  datatype CertificateType = Root | User | Other

  /** The declared raw value of a certificate type. */
  function CertificateTypeRaw(t: CertificateType): string
  {
    match t
    case Root => "root"
    case User => "user"
    case Other => "other"
  }

  /** Swift's synthesised `init?(rawValue:)` for `CertificateType`. */
  function CertificateTypeFromRaw(raw: string): (t: Option<CertificateType>)
    ensures t.Some? <==> raw in {"root", "user", "other"}
  {
    if raw == "root" then Some(Root)
    else if raw == "user" then Some(User)
    else if raw == "other" then Some(Other)
    else None
  }

  lemma CertificateTypeRawRoundTrip(t: CertificateType)
    ensures CertificateTypeFromRaw(CertificateTypeRaw(t)) == Some(t)
  {
  }
}
