/** The JSON records exchanged with the CA server: the request body
    `CAServerBody` and the response envelope `CAServerResponse`, with the
    key names their synthesised `Codable` conformances use on the wire. */
module Wire {
  import opened Wrappers

  /** A JSON document as far as the client reads it: an object whose members
      are strings, a bare string, or anything else. */
  datatype Json = Object(fields: map<string, string>) | Text(s: string) | Unsupported

  /** The request body. Only `user` is required; the optional members are
      omitted from the encoding when absent. */
  datatype CAServerBody = CAServerBody(user: string, certificateId: Option<string>, csr: Option<string>)

  /** The body that creates an account on the CA: the user alone. */
  function AccountBody(userId: string): CAServerBody
  {
    CAServerBody(userId, None, None)
  }

  /** The body that creates a certificate: user, certificate id and CSR, all present. */
  function CertificateBody(userId: string, certificateId: string, csr: string): CAServerBody
  {
    CAServerBody(userId, Some(certificateId), Some(csr))
  }

  function OptionalMember(key: string, value: Option<string>): map<string, string>
  {
    if value.Some? then map[key := value.value] else map[]
  }

  function EncodeBody(b: CAServerBody): (j: Json)
    ensures j.Object? && "user" in j.fields && j.fields["user"] == b.user
    ensures j.fields.Keys == {"user"}
      + (if b.certificateId.Some? then {"certificateId"} else {})
      + (if b.csr.Some? then {"csr"} else {})
  {
    Object(map["user" := b.user] + OptionalMember("certificateId", b.certificateId) + OptionalMember("csr", b.csr))
  }

  function Lookup(fields: map<string, string>, key: string): (v: Option<string>)
    ensures v.Some? <==> key in fields
    ensures v.Some? ==> v.value == fields[key]
  {
    if key in fields then Some(fields[key]) else None
  }

  /** Decoding a body fails without `user` and reads the optional members when present. */
  function DecodeBody(j: Json): (b: Option<CAServerBody>)
    ensures b.Some? <==> j.Object? && "user" in j.fields
    ensures b.Some? ==>
      && b.value.user == j.fields["user"]
      && b.value.certificateId == Lookup(j.fields, "certificateId")
      && b.value.csr == Lookup(j.fields, "csr")
  {
    if j.Object? && "user" in j.fields then
      Some(CAServerBody(j.fields["user"], Lookup(j.fields, "certificateId"), Lookup(j.fields, "csr")))
    else None
  }

  /** Encoding a body and decoding it gives back the same record. */
  lemma BodyRoundTrip(b: CAServerBody)
    ensures DecodeBody(EncodeBody(b)) == Some(b)
  {
    var fields := EncodeBody(b).fields;
    assert Lookup(fields, "certificateId") == b.certificateId;
    assert Lookup(fields, "csr") == b.csr;
  }

  /** The account-creation body goes on the wire as the single member `user`. */
  lemma AccountBodyCarriesOnlyUser(userId: string)
    ensures EncodeBody(AccountBody(userId)) == Object(map["user" := userId])
  {
  }

  /** The certificate-creation body goes on the wire with all three members,
      and the CA reads back exactly the user, certificate id and CSR sent. */
  lemma CertificateBodyCarriesAll(userId: string, certificateId: string, csr: string)
    ensures EncodeBody(CertificateBody(userId, certificateId, csr))
      == Object(map["user" := userId, "certificateId" := certificateId, "csr" := csr])
    ensures DecodeBody(EncodeBody(CertificateBody(userId, certificateId, csr)))
      == Some(CAServerBody(userId, Some(certificateId), Some(csr)))
  {
    BodyRoundTrip(CertificateBody(userId, certificateId, csr));
  }

  /** The six members of a response envelope. */
  datatype ResponseField = UserField | CertificateIdField | CsrField | CertificateField | CreatedAtField | UpdatedAtField

  /** The `CodingKeys` mapping: property name to JSON key. */
  function WireName(f: ResponseField): string
  {
    match f
    case CsrField => "csr"
    case CertificateField => "certificate"
    case CertificateIdField => "certificate_id"
    case UserField => "user_id"
    case CreatedAtField => "created_at"
    case UpdatedAtField => "updated_at"
  }

  /** No two properties share a JSON key. */
  lemma WireNameInjective(f: ResponseField, g: ResponseField)
    ensures WireName(f) == WireName(g) ==> f == g
  {
  }

  /** The response envelope; every member is required. */
  datatype CAServerResponse = CAServerResponse(
    user: string, certificateId: string, csr: string, certificate: string, createdAt: string, updatedAt: string)

  function FieldValue(r: CAServerResponse, f: ResponseField): string
  {
    match f
    case UserField => r.user
    case CertificateIdField => r.certificateId
    case CsrField => r.csr
    case CertificateField => r.certificate
    case CreatedAtField => r.createdAt
    case UpdatedAtField => r.updatedAt
  }

  function EncodeResponse(r: CAServerResponse): (j: Json)
    ensures j.Object? && j.fields.Keys == set f: ResponseField :: WireName(f)
    ensures forall f: ResponseField :: j.fields[WireName(f)] == FieldValue(r, f)
  {
    var j := Object(map[
      WireName(UserField) := r.user,
      WireName(CertificateIdField) := r.certificateId,
      WireName(CsrField) := r.csr,
      WireName(CertificateField) := r.certificate,
      WireName(CreatedAtField) := r.createdAt,
      WireName(UpdatedAtField) := r.updatedAt]);
    assert forall k :: k in j.fields ==> exists f: ResponseField :: k == WireName(f) by {
      forall k | k in j.fields ensures exists f: ResponseField :: k == WireName(f) {
        if k == WireName(UserField) {} else if k == WireName(CertificateIdField) {}
        else if k == WireName(CsrField) {} else if k == WireName(CertificateField) {}
        else if k == WireName(CreatedAtField) {} else { assert k == WireName(UpdatedAtField); }
      }
    }
    j
  }

  /** Decoding an envelope succeeds exactly when every key is present; extra
      members are ignored. */
  function DecodeResponse(j: Json): (r: Option<CAServerResponse>)
    ensures r.Some? <==> j.Object? && forall f: ResponseField :: WireName(f) in j.fields
    ensures r.Some? ==> forall f: ResponseField :: FieldValue(r.value, f) == j.fields[WireName(f)]
  {
    if j.Object? && forall f: ResponseField :: WireName(f) in j.fields then
      var m := j.fields;
      Some(CAServerResponse(
        m[WireName(UserField)], m[WireName(CertificateIdField)], m[WireName(CsrField)],
        m[WireName(CertificateField)], m[WireName(CreatedAtField)], m[WireName(UpdatedAtField)]))
    else None
  }

  /** Encoding an envelope and decoding it gives back the same record. */
  lemma ResponseRoundTrip(r: CAServerResponse)
    ensures DecodeResponse(EncodeResponse(r)) == Some(r)
  {
    var d := DecodeResponse(EncodeResponse(r));
    assert FieldValue(d.value, UserField) == r.user;
    assert FieldValue(d.value, CertificateIdField) == r.certificateId;
    assert FieldValue(d.value, CsrField) == r.csr;
    assert FieldValue(d.value, CertificateField) == r.certificate;
    assert FieldValue(d.value, CreatedAtField) == r.createdAt;
    assert FieldValue(d.value, UpdatedAtField) == r.updatedAt;
  }

  /** A request body is never a response envelope: it lacks the `certificate` key. */
  lemma BodyIsNotResponse(b: CAServerBody)
    ensures DecodeResponse(EncodeBody(b)) == None
  {
    assert WireName(CertificateField) !in EncodeBody(b).fields;
  }
}
