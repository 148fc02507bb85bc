/** What the certificate workflow promises, stated over the `Workflow`
    exchanges: which requests each call sends, in which order, and what it
    returns. */
module WorkflowProperties {
  import opened Wrappers
  import opened Enums
  import opened Errors
  import opened Wire
  import opened Http
  import opened CAConfiguration
  import opened Workflow

  /** The root-certificate request both calls end with. */
  function RootRequest(config: Configuration): Request
  {
    PreparedRequest(config.rootCertificateURL, GET, None)
  }

  /** The account lookup both calls start with. */
  function AccountLookup(config: Configuration, userId: string): Request
  {
    PreparedRequest(AppendPathComponent(config.usersURL, userId), GET, None)
  }

  // ---------------------------------------------------------------- single calls

  /** The root certificate can only be read: POST and PUT are refused before
      any request is built, GET always sends one. */
  lemma RootIsGetOnly(env: Env, verb: RestMethod, body: Option<CAServerBody>, certificateId: Option<string>)
    ensures var x := CertificatesCall(env, verb, body, Root, certificateId);
      && (x.sent == [] <==> verb in {POST, PUT})
      && (x.result == Failure(RootNotGettable) <==> verb != GET)
  {
  }

  /** A root GET goes to the root endpoint whatever certificate id is passed. */
  lemma RootIgnoresCertificateId(env: Env, body: Option<CAServerBody>, certificateId: Option<string>)
    ensures CertificatesCall(env, GET, body, Root, certificateId) == CertificatesCall(env, GET, body, Root, None)
    ensures CertificatesCall(env, GET, body, Root, certificateId).sent == [PreparedRequest(env.config.rootCertificateURL, GET, body)]
  {
  }

  /** `user` and `other` certificates route alike: one request to the
      certificates collection, with the id appended when one is given. */
  lemma CertificateRouting(env: Env, verb: RestMethod, body: Option<CAServerBody>, kind: CertificateType,
                           certificateId: Option<string>)
    requires kind != Root
    ensures var x := CertificatesCall(env, verb, body, kind, certificateId);
      && x == CertificatesCall(env, verb, body, if kind == User then Other else User, certificateId)
      && x.sent == [PreparedRequest(
           if certificateId.Some? then AppendPathComponent(env.config.certificatesURL, certificateId.value)
           else env.config.certificatesURL, verb, body)]
  {
  }

  /** Users calls go to the user's resource when an id is given, else to the collection. */
  lemma UsersRouting(env: Env, verb: RestMethod, body: Option<CAServerBody>, userId: Option<string>)
    ensures AppUsersCall(env, verb, body, userId).sent == [PreparedRequest(
      if userId.Some? then AppendPathComponent(env.config.usersURL, userId.value) else env.config.usersURL, verb, body)]
  {
  }

  /** Different certificate ids, or different user ids, never share a resource URL. */
  lemma DistinctIdsDistinctResources(config: Configuration, a: string, b: string)
    requires a != b
    ensures CertificatesURL(config, User, Some(a)) != CertificatesURL(config, User, Some(b))
    ensures UsersURL(config, Some(a)) != UsersURL(config, Some(b))
  {
    AppendPathComponentInjective(config.certificatesURL, a, b);
    AppendPathComponentInjective(config.usersURL, a, b);
  }

  /** Only statuses 200...299 succeed; any other status fails both kinds of
      call with an error carrying that status. */
  lemma SuccessWindow(reply: Reply)
    ensures ReadCertificate(reply).Success? ==> reply.HttpReply? && 200 <= reply.statusCode <= 299
    ensures reply.HttpReply? && !(200 <= reply.statusCode <= 299) ==>
      && ReadCertificate(reply) == Failure(BadResponse(Some(reply.statusCode)))
      && ReadAcknowledgement(reply) == Failure(BadResponse(Some(reply.statusCode)))
  {
  }

  /** A 2xx reply carrying an encoded envelope yields that envelope's certificate. */
  lemma EnvelopeYieldsCertificate(response: CAServerResponse)
    ensures DecodeCertificate(EncodeResponse(response)) == Success(response.certificate)
    ensures ReadCertificate(HttpReply(200, EncodeResponse(response))) == Success(response.certificate)
  {
    ResponseRoundTrip(response);
  }

  /** A 2xx reply carrying a request body is neither an envelope nor a string. */
  lemma BodyPayloadIsNotACertificate(body: CAServerBody)
    ensures DecodeCertificate(EncodeBody(body)) == Failure(NotDecodable)
  {
    BodyIsNotResponse(body);
  }

  // ---------------------------------------------------------------- the account step

  /** The account step always starts by looking the user up, and sends at most
      one more request. */
  lemma AccountLookedUpFirst(env: Env, userId: string, createAccountIfNeeded: bool)
    ensures var x := AccountSetup(env, userId, createAccountIfNeeded);
      1 <= |x.sent| <= 2 && x.sent[0] == AccountLookup(env.config, userId)
  {
  }

  /** An account that exists is not created again. */
  lemma ExistingAccountNotRecreated(env: Env, userId: string, createAccountIfNeeded: bool)
    requires ReadAcknowledgement(env.oracle(AccountLookup(env.config, userId))).Success?
    ensures AccountSetup(env, userId, createAccountIfNeeded) == Exchange(Success(()), [AccountLookup(env.config, userId)])
  {
  }

  /** Without the flag a failed lookup is reported unchanged and nothing is created. */
  lemma NoCreationWithoutFlag(env: Env, userId: string)
    ensures var lookup := AccountLookup(env.config, userId);
      AccountSetup(env, userId, false) == Exchange(ReadAcknowledgement(env.oracle(lookup)), [lookup])
  {
  }

  /** With the flag a failed lookup is followed by exactly one creation request,
      a POST of the bare user to the users collection, whose outcome is the
      outcome of the step. */
  lemma CreationWithFlag(env: Env, userId: string)
    requires ReadAcknowledgement(env.oracle(AccountLookup(env.config, userId))).Failure?
    ensures var create := PreparedRequest(env.config.usersURL, POST, Some(AccountBody(userId)));
      && AccountSetup(env, userId, true) == Exchange(ReadAcknowledgement(env.oracle(create)), [AccountLookup(env.config, userId), create])
      && create.httpBody == Some(Object(map["user" := userId]))
  {
    AccountBodyCarriesOnlyUser(userId);
  }

  // ---------------------------------------------------------------- whole calls

  /** A missing user id, entity, certificate id or CSR fails both calls with
      the missing-input error before any request. */
  lemma MissingInputsSendNothing(env: Env, userId: Option<string>, entity: Option<Certifiable>,
                                 createAccountIfNeeded: bool, policy: ExistingPolicy, wording: Wording)
    requires userId.None? || entity.None? || entity.value.certificateId.None? || entity.value.csr.None?
    ensures RequestNewRun(env, userId, entity, createAccountIfNeeded, wording)
      == Exchange(Failure(MissingInputs(wording.userLabel)), [])
    ensures GetCertificatesRun(env, userId, entity, createAccountIfNeeded, policy, wording)
      == Exchange(Failure(MissingInputs(wording.userLabel)), [])
  {
  }

  /** A user that is absent or has no `objectId` counts as a missing user id. */
  lemma UserWithoutIdIsMissing(env: Env, user: Option<ParseUser>, entity: Option<Certifiable>,
                               createAccountIfNeeded: bool, policy: ExistingPolicy, wording: Wording)
    requires user.None? || user.value.objectId.None?
    ensures RequestNewRun(env, ObjectIdOf(user), entity, createAccountIfNeeded, wording)
      == Exchange(Failure(MissingInputs(wording.userLabel)), [])
    ensures GetCertificatesRun(env, ObjectIdOf(user), entity, createAccountIfNeeded, policy, wording)
      == Exchange(Failure(MissingInputs(wording.userLabel)), [])
  {
  }

  /** When the entity holds both certificates `getCertificates` sends nothing,
      under either policy: it raises the duplicate-request error, or returns
      the held pair. */
  lemma HeldPairSendsNothing(env: Env, userId: string, entity: Certifiable, createAccountIfNeeded: bool,
                             policy: ExistingPolicy, wording: Wording)
    requires entity.certificateId.Some? && entity.csr.Some?
    requires entity.certificate.Some? && entity.rootCertificate.Some?
    ensures var x := GetCertificatesRun(env, Some(userId), Some(entity), createAccountIfNeeded, policy, wording);
      && x.sent == []
      && (policy == ThrowDuplicate ==> x.result == Failure(DuplicateRequest(wording.holder)))
      && (policy == ReturnExisting ==> x.result == Success((entity.certificate, entity.rootCertificate)))
  {
  }

  /** With all inputs present, `getCertificates` sends nothing exactly when
      the entity holds both certificates; otherwise it starts with the
      account lookup. */
  lemma HeldPairExactlyShortCircuits(env: Env, userId: string, entity: Certifiable, createAccountIfNeeded: bool,
                                     policy: ExistingPolicy, wording: Wording)
    requires entity.certificateId.Some? && entity.csr.Some?
    ensures var x := GetCertificatesRun(env, Some(userId), Some(entity), createAccountIfNeeded, policy, wording);
      && (x.sent == [] <==> HasCertificate(Some(entity)) && HasRootCertificate(Some(entity)))
      && (!(HasCertificate(Some(entity)) && HasRootCertificate(Some(entity))) ==>
            |x.sent| > 0 && x.sent[0] == AccountLookup(env.config, userId))
  {
    AccountLookedUpFirst(env, userId, createAccountIfNeeded);
  }

  /** A held certificate is not requested again, and the call answers nil for it. */
  lemma HeldCertificateNotRequested(env: Env, inputs: Inputs, entity: Certifiable, createAccountIfNeeded: bool)
    requires entity.certificate.Some?
    ensures var x := ObtainCertificate(env, inputs, Some(entity), createAccountIfNeeded);
      && x.sent == AccountSetup(env, inputs.userId, createAccountIfNeeded).sent
      && (x.result.Success? ==> x.result.value.None?)
  {
  }

  /** Without a held certificate, once the account is in place: a GET of the
      entity's certificate; if it succeeds, nothing more; if it fails, one POST
      of user, certificate id and CSR to the collection, whose failure is the
      call's failure. */
  lemma MissingCertificateFetchedElseCreated(env: Env, inputs: Inputs, entity: Certifiable, createAccountIfNeeded: bool)
    requires entity.certificate.None?
    requires AccountSetup(env, inputs.userId, createAccountIfNeeded).result.Success?
    ensures var account := AccountSetup(env, inputs.userId, createAccountIfNeeded).sent;
      var fetch := PreparedRequest(AppendPathComponent(env.config.certificatesURL, inputs.certificateId), GET, None);
      var create := PreparedRequest(env.config.certificatesURL, POST,
                                    Some(CertificateBody(inputs.userId, inputs.certificateId, inputs.csr)));
      var x := ObtainCertificate(env, inputs, Some(entity), createAccountIfNeeded);
      && (ReadCertificate(env.oracle(fetch)).Success? ==>
            x == Exchange(Success(env.percentDecode(ReadCertificate(env.oracle(fetch)).value)), account + [fetch]))
      && (ReadCertificate(env.oracle(fetch)).Failure? ==>
            && x.sent == account + [fetch, create]
            && (x.result.Failure? <==> ReadCertificate(env.oracle(create)).Failure?)
            && (x.result.Failure? ==> x.result.error == ReadCertificate(env.oracle(create)).error)
            && (ReadCertificate(env.oracle(create)).Success? ==>
                  x.result == Success(env.percentDecode(ReadCertificate(env.oracle(create)).value))))
  {
  }

  /** The root fetch never decides success: the call succeeds exactly when its
      certificate part does, with the same certificate, and a failed root fetch
      leaves nil in the second place. */
  lemma RootFailureNeverFatal(env: Env, certificate: Exchange<Option<string>>)
    ensures var x := WithBestEffortRoot(env, certificate);
      && (x.result.Success? <==> certificate.result.Success?)
      && (x.result.Success? ==> x.result.value.0 == certificate.result.value)
      && (x.result.Failure? ==> x == Exchange(Failure(certificate.result.error), certificate.sent))
      && (x.result.Success? ==> x.sent == certificate.sent + [RootRequest(env.config)])
      && (x.result.Success? && ReadCertificate(env.oracle(RootRequest(env.config))).Failure? ==> x.result.value.1 == None)
      && (x.result.Success? && ReadCertificate(env.oracle(RootRequest(env.config))).Success? ==>
            x.result.value.1 == env.percentDecode(ReadCertificate(env.oracle(RootRequest(env.config))).value))
  {
  }

  /** `requestNewCertificates` has no short-circuit: what the entity already
      holds does not change what it sends or returns. */
  lemma RequestNewIgnoresHeldCertificates(env: Env, userId: Option<string>, e1: Certifiable, e2: Certifiable,
                                          createAccountIfNeeded: bool, wording: Wording)
    requires e1.certificateId == e2.certificateId && e1.csr == e2.csr
    ensures RequestNewRun(env, userId, Some(e1), createAccountIfNeeded, wording)
         == RequestNewRun(env, userId, Some(e2), createAccountIfNeeded, wording)
  {
  }

  /** Once the account is in place `requestNewCertificates` always creates a
      certificate, with no fetch first, and answers with the created
      certificate, percent-decoded, or with the creation's error. */
  lemma RequestNewAlwaysCreates(env: Env, inputs: Inputs, createAccountIfNeeded: bool)
    requires AccountSetup(env, inputs.userId, createAccountIfNeeded).result.Success?
    ensures var create := PreparedRequest(env.config.certificatesURL, POST,
                                          Some(CertificateBody(inputs.userId, inputs.certificateId, inputs.csr)));
      var x := IssueCertificate(env, inputs, createAccountIfNeeded);
      && x.sent == AccountSetup(env, inputs.userId, createAccountIfNeeded).sent + [create]
      && (ReadCertificate(env.oracle(create)).Success? ==>
            x.result == Success(env.percentDecode(ReadCertificate(env.oracle(create)).value)))
      && (ReadCertificate(env.oracle(create)).Failure? ==>
            x.result == Failure(ReadCertificate(env.oracle(create)).error))
  {
  }

  /** With the flag off and no account on the CA, both calls fail with the
      lookup's error after the lookup alone. */
  lemma NoAccountNoCertificate(env: Env, entity: Certifiable, userId: string, policy: ExistingPolicy, wording: Wording)
    requires entity.certificateId.Some? && entity.csr.Some?
    requires !(entity.certificate.Some? && entity.rootCertificate.Some?)
    requires ReadAcknowledgement(env.oracle(AccountLookup(env.config, userId))).Failure?
    ensures var lookup := AccountLookup(env.config, userId);
      var failed := Exchange(Failure(ReadAcknowledgement(env.oracle(lookup)).error), [lookup]);
      && GetCertificatesRun(env, Some(userId), Some(entity), false, policy, wording) == failed
      && RequestNewRun(env, Some(userId), Some(entity), false, wording) == failed
  {
  }

  /** A failed account step ends both calls with its error, whether or not
      creation was attempted: nothing after the account step is sent. */
  lemma AccountFailureIsFatal(env: Env, userId: string, entity: Certifiable, createAccountIfNeeded: bool,
                              policy: ExistingPolicy, wording: Wording)
    requires entity.certificateId.Some? && entity.csr.Some?
    requires !(entity.certificate.Some? && entity.rootCertificate.Some?)
    requires AccountSetup(env, userId, createAccountIfNeeded).result.Failure?
    ensures var a := AccountSetup(env, userId, createAccountIfNeeded);
      && GetCertificatesRun(env, Some(userId), Some(entity), createAccountIfNeeded, policy, wording)
           == Exchange(Failure(a.result.error), a.sent)
      && RequestNewRun(env, Some(userId), Some(entity), createAccountIfNeeded, wording)
           == Exchange(Failure(a.result.error), a.sent)
  {
  }

  /** Round trips per call: `requestNewCertificates` sends at most four
      requests, `getCertificates` at most five (lookup, account creation,
      fetch, creation, root). */
  lemma BoundedRoundTrips(env: Env, userId: Option<string>, entity: Option<Certifiable>,
                          createAccountIfNeeded: bool, policy: ExistingPolicy, wording: Wording)
    ensures |RequestNewRun(env, userId, entity, createAccountIfNeeded, wording).sent| <= 4
    ensures |GetCertificatesRun(env, userId, entity, createAccountIfNeeded, policy, wording).sent| <= 5
  {
  }

  // ---------------------------------------------------------------- scenarios

  /** The bound of five is reached: no account and no certificate on the CA,
      both creations accepted. `getCertificates` then sends the lookup, the
      account creation, the fetch, the certificate creation and the root
      request, in that order. */
  lemma FiveRequestsReached(env: Env, userId: string, certificateId: string, csr: string, root: Option<string>,
                            policy: ExistingPolicy, wording: Wording)
    requires ReadAcknowledgement(env.oracle(AccountLookup(env.config, userId))).Failure?
    requires ReadAcknowledgement(env.oracle(PreparedRequest(env.config.usersURL, POST, Some(AccountBody(userId))))).Success?
    requires ReadCertificate(env.oracle(PreparedRequest(AppendPathComponent(env.config.certificatesURL, certificateId), GET, None))).Failure?
    requires ReadCertificate(env.oracle(PreparedRequest(env.config.certificatesURL, POST,
                                                       Some(CertificateBody(userId, certificateId, csr))))).Success?
    ensures var x := GetCertificatesRun(env, Some(userId), Some(Certifiable(root, None, Some(csr), Some(certificateId))),
                                        true, policy, wording);
      && x.result.Success?
      && x.sent == [AccountLookup(env.config, userId),
                    PreparedRequest(env.config.usersURL, POST, Some(AccountBody(userId))),
                    PreparedRequest(AppendPathComponent(env.config.certificatesURL, certificateId), GET, None),
                    PreparedRequest(env.config.certificatesURL, POST, Some(CertificateBody(userId, certificateId, csr))),
                    RootRequest(env.config)]
      && |x.sent| == 5
  {
  }

  /** A CA that answers every request with 200 and the same envelope, and a
      certificate with nothing to percent-decode: a fresh entity gets the
      envelope's certificate in both places, after three requests (lookup,
      fetch, root). */
  lemma EveryCallSucceeds(env: Env, response: CAServerResponse, userId: string, certificateId: string, csr: string)
    requires forall q :: env.oracle(q) == HttpReply(200, EncodeResponse(response))
    requires env.percentDecode(response.certificate) == Some(response.certificate)
    ensures var x := GetCertificatesRun(env, Some(userId), Some(Certifiable(None, None, Some(csr), Some(certificateId))),
                                        true, ThrowDuplicate, ObjectWording);
      && x.result == Success((Some(response.certificate), Some(response.certificate)))
      && |x.sent| == 3
  {
    EnvelopeYieldsCertificate(response);
  }

  /** A CA that answers every request with 200 and an echoed request body:
      the fetch and the creation both fail to decode, so `getCertificates`
      fails with the decoding error after three requests, and
      `requestNewCertificates` after two. */
  lemma EveryCallEchoesBody(env: Env, body: CAServerBody, userId: string, entity: Certifiable, createAccountIfNeeded: bool)
    requires forall q :: env.oracle(q) == HttpReply(200, EncodeBody(body))
    requires entity.certificateId.Some? && entity.csr.Some? && entity.certificate.None?
    ensures var x := GetCertificatesRun(env, Some(userId), Some(entity), createAccountIfNeeded, ThrowDuplicate, ObjectWording);
      x == Exchange(Failure(NotDecodable), x.sent) && |x.sent| == 3
    ensures var x := RequestNewRun(env, Some(userId), Some(entity), createAccountIfNeeded, ObjectWording);
      x == Exchange(Failure(NotDecodable), x.sent) && |x.sent| == 2
  {
    BodyPayloadIsNotACertificate(body);
  }

  /** A CA that answers 500 to everything: the account step fails, with or
      without creation, and the message carries "500". */
  lemma ServerErrorFailsAccountStep(env: Env, data: Json, userId: string, createAccountIfNeeded: bool)
    requires forall q :: env.oracle(q) == HttpReply(500, data)
    ensures AccountSetup(env, userId, createAccountIfNeeded).result == Failure(BadResponse(Some(500)))
    ensures Message(BadResponse(Some(500))) == "Response from CA: status code: 500"
  {
    InternalServerErrorMessage();
  }

  /** A CA that answers 500 to everything: both public calls fail with the
      "500" error once the account step has failed, with or without creation. */
  lemma ServerErrorFailsBothCalls(env: Env, data: Json, userId: string, entity: Certifiable,
                                  createAccountIfNeeded: bool, policy: ExistingPolicy, wording: Wording)
    requires forall q :: env.oracle(q) == HttpReply(500, data)
    requires entity.certificateId.Some? && entity.csr.Some?
    requires !(entity.certificate.Some? && entity.rootCertificate.Some?)
    ensures GetCertificatesRun(env, Some(userId), Some(entity), createAccountIfNeeded, policy, wording).result
      == Failure(BadResponse(Some(500)))
    ensures RequestNewRun(env, Some(userId), Some(entity), createAccountIfNeeded, wording).result
      == Failure(BadResponse(Some(500)))
  {
    ServerErrorFailsAccountStep(env, data, userId, createAccountIfNeeded);
    AccountFailureIsFatal(env, userId, entity, createAccountIfNeeded, policy, wording);
  }

  // ---------------------------------------------------------------- held pair, as written and as documented

  /** As written, `getCertificates` on an entity holding both certificates
      raises the duplicate-request error. */
  lemma HeldPairRejectedAsWritten(env: Env)
    ensures GetCertificatesRun(env, Some("peace"), Some(Certifiable(Some("not"), Some("maybe"), Some("whoa"), Some("hella"))),
                               true, ThrowDuplicate, ObjectWording)
      == Exchange(Failure(DuplicateRequest("Object")), [])
  {
  }

  /** As documented, the same call returns the held pair, still without a request. */
  lemma HeldPairReturnedAsDocumented(env: Env)
    ensures GetCertificatesRun(env, Some("peace"), Some(Certifiable(Some("not"), Some("maybe"), Some("whoa"), Some("hella"))),
                               true, ReturnExisting, ObjectWording)
      == Exchange(Success((Some("maybe"), Some("not"))), [])
  {
  }
}
