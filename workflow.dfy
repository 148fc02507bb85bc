/** The certificate-acquisition workflow as values: each network step is an
    `Exchange`, the outcome it produces together with the requests it sent, so
    that a whole workflow call is a function of the configuration, of the
    replies the CA gives, and of the caller's inputs. The client methods are
    proved to perform exactly these exchanges. */
module Workflow {
  import opened Wrappers
  import opened Enums
  import opened Errors
  import opened Wire
  import opened Http
  import opened CAConfiguration

  /** An entity that can hold certificates (a `Certificatable` object). */
  datatype Certifiable = Certifiable(
    rootCertificate: Option<string>, certificate: Option<string>, csr: Option<string>, certificateId: Option<string>)

  /** A `ParseUser`, as far as the workflow looks at it. */
  datatype ParseUser = ParseUser(objectId: Option<string>)

  /** `hasRootCertificate`: false when there is no entity. */
  function HasRootCertificate(entity: Option<Certifiable>): bool
  {
    entity.Some? && entity.value.rootCertificate.Some?
  }

  /** `hasCertificate`: false when there is no entity. */
  function HasCertificate(entity: Option<Certifiable>): bool
  {
    entity.Some? && entity.value.certificate.Some?
  }

  /** `user?.objectId`: absent when there is no user or the user has no id. */
  function ObjectIdOf(user: Option<ParseUser>): (id: Option<string>)
    ensures id.Some? <==> user.Some? && user.value.objectId.Some?
    ensures id.Some? ==> id.value == user.value.objectId.value
  {
    if user.Some? then user.value.objectId else None
  }

  /** How an entry point words its errors: the name it gives the user input in
      a missing-input message and the name it gives the entity in a
      duplicate-request message. */
  datatype Wording = Wording(userLabel: string, holder: string)

  /** The wording of the entity's own methods. */
  const ObjectWording := Wording("user id", "Object")

  /** The wording of the free functions, which take a user and an installation. */
  const InstallationWording := Wording("user objectId", "Installation")

  /** What `getCertificates` does when the entity already holds both
      certificates: raise a duplicate-request error, or hand the pair back.
      Either way it sends nothing. */
  datatype ExistingPolicy = ThrowDuplicate | ReturnExisting

  /** The three inputs every workflow call needs, once checked present. */
  datatype Inputs = Inputs(userId: string, certificateId: string, csr: string)

  /** The guard at the head of both workflow calls. */
  function Validate(userId: Option<string>, entity: Option<Certifiable>, wording: Wording): (r: Result<Inputs, CAError>)
    ensures r.Success? <==>
      userId.Some? && entity.Some? && entity.value.certificateId.Some? && entity.value.csr.Some?
    ensures r.Success? ==>
      r.value == Inputs(userId.value, entity.value.certificateId.value, entity.value.csr.value)
    ensures r.Failure? ==> r.error == MissingInputs(wording.userLabel)
  {
    if userId.Some? && entity.Some? && entity.value.certificateId.Some? && entity.value.csr.Some? then
      Success(Inputs(userId.value, entity.value.certificateId.value, entity.value.csr.value))
    else
      Failure(MissingInputs(wording.userLabel))
  }

  /** What a workflow call depends on besides its inputs: the configured
      endpoints, the reply the CA gives to each request, and Foundation's
      `removingPercentEncoding`. */
  datatype Env = Env(config: Configuration, oracle: Request -> Reply, percentDecode: string -> Option<string>)

  /** The outcome of one or more network steps and the requests they sent, in order. */
  datatype Exchange<T> = Exchange(result: Result<T, CAError>, sent: seq<Request>)

  /** The pair a workflow call returns: user certificate and root certificate. */
  type Certificates = (Option<string>, Option<string>)

  /** The target of a certificates call: the root endpoint for the root
      certificate (whatever id is given), else the certificates collection,
      with the id appended when there is one. */
  function CertificatesURL(config: Configuration, kind: CertificateType, certificateId: Option<string>): Url
  {
    if kind == Root then config.rootCertificateURL
    else if certificateId.Some? then AppendPathComponent(config.certificatesURL, certificateId.value)
    else config.certificatesURL
  }

  /** The target of a users call: the user's own resource, or the collection. */
  function UsersURL(config: Configuration, userId: Option<string>): Url
  {
    if userId.Some? then AppendPathComponent(config.usersURL, userId.value) else config.usersURL
  }

  /** Reads a 2xx body as a certificate: a response envelope's `certificate`
      first, else a bare string, else a decoding error. */
  function DecodeCertificate(data: Json): (r: Result<string, CAError>)
    ensures r.Success? <==> DecodeResponse(data).Some? || data.Text?
    ensures DecodeResponse(data).Some? ==> r == Success(DecodeResponse(data).value.certificate)
    ensures data.Text? ==> r == Success(data.s)
    ensures r.Failure? ==> r.error == NotDecodable
  {
    var envelope := DecodeResponse(data);
    if envelope.Some? then Success(envelope.value.certificate)
    else if data.Text? then Success(data.s)
    else Failure(NotDecodable)
  }

  /** The error a reply outside the success window raises. */
  function ReplyError(reply: Reply): CAError
  {
    match reply
    case HttpReply(status, _) => BadResponse(Some(status))
    case NonHttp => BadResponse(None)
    case NoReply => NetworkFailure
  }

  /** A certificates call's reading of its reply. */
  function ReadCertificate(reply: Reply): (r: Result<string, CAError>)
    ensures r.Success? ==> reply.HttpReply? && 200 <= reply.statusCode <= 299
    ensures reply.HttpReply? && 200 <= reply.statusCode <= 299 ==> r == DecodeCertificate(reply.data)
    ensures reply.HttpReply? && !(200 <= reply.statusCode <= 299) ==> r == Failure(BadResponse(Some(reply.statusCode)))
    ensures reply.NonHttp? ==> r == Failure(BadResponse(None))
    ensures reply.NoReply? ==> r == Failure(NetworkFailure)
  {
    if reply.HttpReply? && IsSuccess(reply.statusCode) then DecodeCertificate(reply.data)
    else Failure(ReplyError(reply))
  }

  /** A users call's reading of its reply: only the status matters. */
  function ReadAcknowledgement(reply: Reply): (r: Result<(), CAError>)
    ensures r.Success? <==> reply.HttpReply? && 200 <= reply.statusCode <= 299
    ensures r.Failure? ==> r.error.BadResponse? || r.error == NetworkFailure
  {
    if reply.HttpReply? && IsSuccess(reply.statusCode) then Success(()) else Failure(ReplyError(reply))
  }

  /** `restfullCertificates`: the root guard, then one request. */
  function CertificatesCall(env: Env, verb: RestMethod, body: Option<CAServerBody>, kind: CertificateType,
                            certificateId: Option<string>): Exchange<string>
  {
    if kind == Root && verb != GET then
      Exchange(Failure(RootNotGettable), [])
    else
      var request := PreparedRequest(CertificatesURL(env.config, kind, certificateId), verb, body);
      Exchange(ReadCertificate(env.oracle(request)), [request])
  }

  /** `restfullAppUsers`: one request. */
  function AppUsersCall(env: Env, verb: RestMethod, body: Option<CAServerBody>, userId: Option<string>): Exchange<()>
  {
    var request := PreparedRequest(UsersURL(env.config, userId), verb, body);
    Exchange(ReadAcknowledgement(env.oracle(request)), [request])
  }

  /** `verifyAndCreateUserOnCA`: look the account up; if that fails, either
      give up with the same error or create the account. */
  function AccountSetup(env: Env, userId: string, createAccountIfNeeded: bool): Exchange<()>
  {
    var verify := AppUsersCall(env, GET, None, Some(userId));
    if verify.result.Success? || !createAccountIfNeeded then verify
    else
      var create := AppUsersCall(env, POST, Some(AccountBody(userId)), None);
      Exchange(create.result, verify.sent + create.sent)
  }

  /** Percent-decodes a received certificate. */
  function Decoded(env: Env, received: Result<string, CAError>): Result<Option<string>, CAError>
  {
    if received.Success? then Success(env.percentDecode(received.value)) else Failure(received.error)
  }

  /** The certificate part of `getCertificates`: ensure the account, then,
      unless a certificate is held, fetch it and create it when the fetch fails. */
  function ObtainCertificate(env: Env, inputs: Inputs, entity: Option<Certifiable>,
                             createAccountIfNeeded: bool): Exchange<Option<string>>
  {
    var account := AccountSetup(env, inputs.userId, createAccountIfNeeded);
    if account.result.Failure? then Exchange(Failure(account.result.error), account.sent)
    else if HasCertificate(entity) then Exchange(Success(None), account.sent)
    else
      var fetch := CertificatesCall(env, GET, None, User, Some(inputs.certificateId));
      if fetch.result.Success? then Exchange(Decoded(env, fetch.result), account.sent + fetch.sent)
      else
        var body := CertificateBody(inputs.userId, inputs.certificateId, inputs.csr);
        var create := CertificatesCall(env, POST, Some(body), User, None);
        Exchange(Decoded(env, create.result), account.sent + fetch.sent + create.sent)
  }

  /** The certificate part of `requestNewCertificates`: ensure the account,
      then create a certificate. */
  function IssueCertificate(env: Env, inputs: Inputs, createAccountIfNeeded: bool): Exchange<Option<string>>
  {
    var account := AccountSetup(env, inputs.userId, createAccountIfNeeded);
    if account.result.Failure? then Exchange(Failure(account.result.error), account.sent)
    else
      var body := CertificateBody(inputs.userId, inputs.certificateId, inputs.csr);
      var create := CertificatesCall(env, POST, Some(body), User, None);
      Exchange(Decoded(env, create.result), account.sent + create.sent)
  }

  /** The root fetch as both calls make it: a GET of the root certificate
      whose failure turns into nil. */
  function BestEffortRoot(env: Env): (x: Exchange<Option<string>>)
    ensures x.result.Success?
    ensures x.sent == [PreparedRequest(env.config.rootCertificateURL, GET, None)]
    ensures var fetched := ReadCertificate(env.oracle(PreparedRequest(env.config.rootCertificateURL, GET, None)));
      && (fetched.Success? ==> x.result.value == env.percentDecode(fetched.value))
      && (fetched.Failure? ==> x.result.value == None)
  {
    var root := CertificatesCall(env, GET, None, Root, None);
    if root.result.Success? then Exchange(Success(env.percentDecode(root.result.value)), root.sent)
    else Exchange(Success(None), root.sent)
  }

  /** The closing step of both calls: once a certificate part has succeeded,
      fetch the root certificate on a best-effort basis. */
  function WithBestEffortRoot(env: Env, certificate: Exchange<Option<string>>): Exchange<Certificates>
  {
    if certificate.result.Failure? then Exchange(Failure(certificate.result.error), certificate.sent)
    else
      var root := BestEffortRoot(env);
      Exchange(Success((certificate.result.value, root.result.value)), certificate.sent + root.sent)
  }

  /** A whole `requestNewCertificates` call. */
  function RequestNewRun(env: Env, userId: Option<string>, entity: Option<Certifiable>,
                         createAccountIfNeeded: bool, wording: Wording): Exchange<Certificates>
  {
    var inputs := Validate(userId, entity, wording);
    if inputs.Failure? then Exchange(Failure(inputs.error), [])
    else WithBestEffortRoot(env, IssueCertificate(env, inputs.value, createAccountIfNeeded))
  }

  /** A whole `getCertificates` call. */
  function GetCertificatesRun(env: Env, userId: Option<string>, entity: Option<Certifiable>,
                              createAccountIfNeeded: bool, policy: ExistingPolicy, wording: Wording): Exchange<Certificates>
  {
    var inputs := Validate(userId, entity, wording);
    if inputs.Failure? then Exchange(Failure(inputs.error), [])
    else if HasCertificate(entity) && HasRootCertificate(entity) then
      if policy == ThrowDuplicate then Exchange(Failure(DuplicateRequest(wording.holder)), [])
      else Exchange(Success((entity.value.certificate, entity.value.rootCertificate)), [])
    else WithBestEffortRoot(env, ObtainCertificate(env, inputs.value, entity, createAccountIfNeeded))
  }
}
