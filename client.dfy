/** The CA client: the process-wide configuration plus the transport, and the
    workflow operations as methods that issue their requests one at a time.
    Every method is proved to send exactly the requests of the matching
    `Workflow` exchange, in order, and to return its outcome. */
module Client {
  import opened Wrappers
  import opened Enums
  import opened Errors
  import opened Wire
  import opened Http
  import opened CAConfiguration
  import opened Workflow

  class CAClient {
    /** `ParseCA.configuration`: unset until `Initialize` is called. */
    var configuration: Option<Configuration>
    /** The network every call goes through. */
    const transport: Transport
    /** Foundation's `removingPercentEncoding`. */
    const percentDecode: string -> Option<string>

    constructor (transport: Transport, percentDecode: string -> Option<string>)
      ensures configuration == None
      ensures this.transport == transport && this.percentDecode == percentDecode
    {
      configuration := None;
      this.transport := transport;
      this.percentDecode := percentDecode;
    }

    /** `initialize(configuration:)`: replaces the whole configuration. */
    method Initialize(c: Configuration)
      modifies this
      ensures configuration == Some(c)
      ensures CurrentConfiguration() == c
    {
      configuration := Some(c);
    }

    /** The public `configuration` property; reading it before `Initialize` is a
        crash in the source, hence the precondition. */
    function CurrentConfiguration(): Configuration
      reads this
      requires configuration.Some?
    {
      configuration.value
    }

    /** Everything a call depends on besides its inputs. */
    ghost function Context(): Env
      reads this
      requires configuration.Some?
    {
      Env(configuration.value, transport.oracle, percentDecode)
    }

    /** `restfullCertificates`: the root guard, the choice of URL, one request,
        the success window, then envelope-else-string decoding. */
    method RestfullCertificates(verb: RestMethod, body: Option<CAServerBody>, kind: CertificateType,
                                certificateId: Option<string>)
      returns (r: Result<string, CAError>)
      requires configuration.Some?
      modifies transport
      ensures kind == Root && verb != GET ==> r == Failure(RootNotGettable) && transport.log == old(transport.log)
      ensures var x := CertificatesCall(Context(), verb, body, kind, certificateId);
        r == x.result && transport.log == old(transport.log) + x.sent
    {
      if kind == Root && verb != GET {
        return Failure(RootNotGettable);
      }
      var url: Url;
      if kind == Root {
        url := configuration.value.rootCertificateURL;
      } else if certificateId.Some? {
        url := AppendPathComponent(configuration.value.certificatesURL, certificateId.value);
      } else {
        url := configuration.value.certificatesURL;
      }
      var request := PrepareRequest(url, verb, body);
      var reply := transport.DataTask(request);
      if !(reply.HttpReply? && IsSuccess(reply.statusCode)) {
        return Failure(ReplyError(reply));
      }
      var envelope := DecodeResponse(reply.data);
      if envelope.None? {
        if reply.data.Text? {
          return Success(reply.data.s);
        }
        return Failure(NotDecodable);
      }
      return Success(envelope.value.certificate);
    }

    /** `restfullAppUsers`: one request to the user's resource or the users
        collection; only the status is read. */
    method RestfullAppUsers(verb: RestMethod, body: Option<CAServerBody>, userId: Option<string>)
      returns (r: Result<(), CAError>)
      requires configuration.Some?
      modifies transport
      ensures var x := AppUsersCall(Context(), verb, body, userId);
        r == x.result && transport.log == old(transport.log) + x.sent
    {
      var url: Url;
      if userId.Some? {
        url := AppendPathComponent(configuration.value.usersURL, userId.value);
      } else {
        url := configuration.value.usersURL;
      }
      var request := PrepareRequest(url, verb, body);
      var reply := transport.DataTask(request);
      if !(reply.HttpReply? && IsSuccess(reply.statusCode)) {
        return Failure(ReplyError(reply));
      }
      return Success(());
    }

    /** `verifyAndCreateUserOnCA`. */
    method VerifyAndCreateUserOnCA(userId: string, createAccountIfNeeded: bool := true)
      returns (r: Result<(), CAError>)
      requires configuration.Some?
      modifies transport
      ensures var x := AccountSetup(Context(), userId, createAccountIfNeeded);
        r == x.result && transport.log == old(transport.log) + x.sent
    {
      r := RestfullAppUsers(GET, None, Some(userId));
      if r.Failure? && createAccountIfNeeded {
        r := RestfullAppUsers(POST, Some(AccountBody(userId)), None);
      }
    }

    /** The root-certificate fetch at the end of both workflow calls: a failure
        is caught and yields nil. */
    method FetchRootCertificate() returns (root: Option<string>)
      requires configuration.Some?
      modifies transport
      ensures var x := BestEffortRoot(Context());
        x.result == Success(root) && transport.log == old(transport.log) + x.sent
    {
      var fetched := RestfullCertificates(GET, None, Root, None);
      if fetched.Success? {
        return percentDecode(fetched.value);
      }
      return None;
    }

    /** The body shared by both `requestNewCertificates` variants. */
    method RequestNew(userId: Option<string>, entity: Option<Certifiable>, createAccountIfNeeded: bool, wording: Wording)
      returns (r: Result<Certificates, CAError>)
      requires configuration.Some?
      modifies transport
      ensures var x := RequestNewRun(Context(), userId, entity, createAccountIfNeeded, wording);
        r == x.result && transport.log == old(transport.log) + x.sent
    {
      var inputs := Validate(userId, entity, wording);
      if inputs.Failure? {
        return Failure(inputs.error);
      }
      var account := VerifyAndCreateUserOnCA(inputs.value.userId, createAccountIfNeeded);
      if account.Failure? {
        return Failure(account.error);
      }
      var body := CertificateBody(inputs.value.userId, inputs.value.certificateId, inputs.value.csr);
      var created := RestfullCertificates(POST, Some(body), User, None);
      if created.Failure? {
        return Failure(created.error);
      }
      var certificate := percentDecode(created.value);
      var root := FetchRootCertificate();
      return Success((certificate, root));
    }

    /** The certificate part of `getCertificates`, after the guards: ensure the
        account, then fetch the certificate unless one is held, creating it when
        the fetch fails. */
    method Obtain(inputs: Inputs, entity: Option<Certifiable>, createAccountIfNeeded: bool)
      returns (r: Result<Option<string>, CAError>)
      requires configuration.Some?
      modifies transport
      ensures var x := ObtainCertificate(Context(), inputs, entity, createAccountIfNeeded);
        r == x.result && transport.log == old(transport.log) + x.sent
    {
      var account := VerifyAndCreateUserOnCA(inputs.userId, createAccountIfNeeded);
      if account.Failure? {
        return Failure(account.error);
      }
      var certificate: Option<string> := None;
      if !HasCertificate(entity) {
        var received := RestfullCertificates(GET, None, User, Some(inputs.certificateId));
        if received.Failure? {
          var body := CertificateBody(inputs.userId, inputs.certificateId, inputs.csr);
          received := RestfullCertificates(POST, Some(body), User, None);
          if received.Failure? {
            return Failure(received.error);
          }
        }
        certificate := percentDecode(received.value);
      }
      return Success(certificate);
    }

    /** The body shared by both `getCertificates` variants. */
    method Get(userId: Option<string>, entity: Option<Certifiable>, createAccountIfNeeded: bool,
               policy: ExistingPolicy, wording: Wording)
      returns (r: Result<Certificates, CAError>)
      requires configuration.Some?
      modifies transport
      ensures var x := GetCertificatesRun(Context(), userId, entity, createAccountIfNeeded, policy, wording);
        r == x.result && transport.log == old(transport.log) + x.sent
    {
      var inputs := Validate(userId, entity, wording);
      if inputs.Failure? {
        return Failure(inputs.error);
      }
      if HasCertificate(entity) && HasRootCertificate(entity) {
        if policy == ThrowDuplicate {
          return Failure(DuplicateRequest(wording.holder));
        }
        return Success((entity.value.certificate, entity.value.rootCertificate));
      }
      var certificate := Obtain(inputs.value, entity, createAccountIfNeeded);
      if certificate.Failure? {
        return Failure(certificate.error);
      }
      var root := FetchRootCertificate();
      return Success((certificate.value, root));
    }

    /** `Certificatable.requestNewCertificates`: always verifies the account,
        then creates a certificate. */
    method RequestNewCertificates(entity: Certifiable, userId: Option<string>, createAccountIfNeeded: bool := true)
      returns (r: Result<Certificates, CAError>)
      requires configuration.Some?
      modifies transport
      ensures var x := RequestNewRun(Context(), userId, Some(entity), createAccountIfNeeded, ObjectWording);
        r == x.result && transport.log == old(transport.log) + x.sent
    {
      r := RequestNew(userId, Some(entity), createAccountIfNeeded, ObjectWording);
    }

    /** `Certificatable.getCertificates`. */
    method GetCertificates(entity: Certifiable, userId: Option<string>, policy: ExistingPolicy,
                           createAccountIfNeeded: bool := true)
      returns (r: Result<Certificates, CAError>)
      requires configuration.Some?
      modifies transport
      ensures var x := GetCertificatesRun(Context(), userId, Some(entity), createAccountIfNeeded, policy, ObjectWording);
        r == x.result && transport.log == old(transport.log) + x.sent
    {
      r := Get(userId, Some(entity), createAccountIfNeeded, policy, ObjectWording);
    }

    /** The free function `requestNewCertificates(_:object:)`: optional user and
        installation; the account is created when missing. */
    method RequestNewCertificatesFor(user: Option<ParseUser>, installation: Option<Certifiable>)
      returns (r: Result<Certificates, CAError>)
      requires configuration.Some?
      modifies transport
      ensures var x := RequestNewRun(Context(), ObjectIdOf(user), installation, true, InstallationWording);
        r == x.result && transport.log == old(transport.log) + x.sent
    {
      r := RequestNew(ObjectIdOf(user), installation, true, InstallationWording);
    }

    /** The free function `getCertificates(_:object:)`; the account is created when missing. */
    method GetCertificatesFor(user: Option<ParseUser>, installation: Option<Certifiable>, policy: ExistingPolicy)
      returns (r: Result<Certificates, CAError>)
      requires configuration.Some?
      modifies transport
      ensures var x := GetCertificatesRun(Context(), ObjectIdOf(user), installation, true, policy, InstallationWording);
        r == x.result && transport.log == old(transport.log) + x.sent
    {
      r := Get(ObjectIdOf(user), installation, true, policy, InstallationWording);
    }

    /** `ParseCertificatable.getCertificates(_:createUserAccountIfNeeded:)`:
        the user's `objectId`, account creation on by default. */
    method GetCertificatesWithUser(entity: Certifiable, user: Option<ParseUser>, policy: ExistingPolicy,
                                   createUserAccountIfNeeded: bool := true)
      returns (r: Result<Certificates, CAError>)
      requires configuration.Some?
      modifies transport
      ensures var x := GetCertificatesRun(Context(), ObjectIdOf(user), Some(entity), createUserAccountIfNeeded, policy, ObjectWording);
        r == x.result && transport.log == old(transport.log) + x.sent
    {
      r := GetCertificates(entity, ObjectIdOf(user), policy, createUserAccountIfNeeded);
    }

    /** `ParseCertificatable.requestNewCertificates(_:createUserAccountIfNeeded:)`:
        the user's `objectId`, account creation off by default. */
    method RequestNewCertificatesWithUser(entity: Certifiable, user: Option<ParseUser>,
                                          createUserAccountIfNeeded: bool := false)
      returns (r: Result<Certificates, CAError>)
      requires configuration.Some?
      modifies transport
      ensures var x := RequestNewRun(Context(), ObjectIdOf(user), Some(entity), createUserAccountIfNeeded, ObjectWording);
        r == x.result && transport.log == old(transport.log) + x.sent
    {
      r := RequestNewCertificates(entity, ObjectIdOf(user), createUserAccountIfNeeded);
    }
  }
}
