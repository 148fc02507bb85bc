# ParseCertificateAuthority — certificate-acquisition workflow in Dafny

This project models the client side of ParseCertificateAuthority. The client gets X.509 certificates for
Parse objects (installations, users) from a remote CA server over HTTP/JSON. It models:

- the wire records `CAServerBody` and `CAServerResponse` and their JSON key names (`Wire`);
- the `RestMethod` and `CertificateType` enumerations and their raw values (`Enums`);
- the configuration, built from a base URL string and three path suffixes (`CAConfiguration`);
- the request recipe shared by every call: method string, optional JSON body and the two fixed
  header fields (`Http.PrepareRequest`);
- the per-request calls `restfullCertificates` and `restfullAppUsers`, and the account step
  `verifyAndCreateUserOnCA`;
- the two public operations, `getCertificates` and `requestNewCertificates`, in their three
  forms: the `Certificatable` methods, the free functions over an optional user and installation,
  and the `ParseCertificatable` wrappers that take a `ParseUser`.

The network is a `Transport` object. It records every request in `log` and answers each with
`oracle(request)`: an HTTP status and a body, a non-HTTP response, or no reply at all.
`Workflow` states each step as a value `Exchange(result, sent)`: the outcome together with the
requests sent, in order. The `Client.CAClient` methods issue the requests one at a time and change
local variables step by step, as the source does. Each method is proved to append exactly `sent`
to the transport log and to return `result`. `WorkflowProperties` proves what the doc comments and
tests promise about those exchanges.

The source has two copies of the workflow: the `Certificatable` extension and the free functions in
`ParseCertificateAuthority.swift`.
- The extension's methods take a user-id string and work on the entity itself (`self`).
- The free functions take an optional `ParseUser` and an optional object, and read the user's
  `objectId`.
- Their error messages name these inputs differently (`Wording`).

Apart from that, the branches are the same. The model therefore has one shared body
(`CAClient.RequestNew`, `CAClient.Get`) and thin entry points that supply the user id and the wording.

What happens when the entity already holds both certificates is the `ExistingPolicy` parameter:
`ThrowDuplicate` is what the code does and `ReturnExisting` is what the doc comments and the test
expect (see Findings). Under both policies no request is sent.

Both copies always create a missing account:
- the extension passes `true` (`Certificatable.swift:71` by default, `:111` literally);
- the free functions pass `true` at `ParseCertificateAuthority.swift:64` and `:99`.

The `ParseCertificatable` wrappers (`ParseCertificatable.swift:32`, `:46`) call overloads with a
`createUserAccountIfNeeded` argument, which `Certificatable.swift` does not declare. To let the
wrappers be modelled, the model makes account creation a parameter of the shared workflow:
- the extension's entry points pass `true` by default, as its calls amount to;
- the free functions pass `true`;
- the wrappers pass their own argument, whose defaults are `true` for `getCertificates` and `false`
  for `requestNewCertificates`.

Request counts:
- A `getCertificates` call sends at most five requests (`WorkflowProperties.BoundedRoundTrips`).
- Five are reached when neither the account nor the certificate exists yet and both creations
  succeed: lookup, account creation, fetch, certificate creation, root
  (`WorkflowProperties.FiveRequestsReached`).
- With a 200 reply carrying a response envelope to every request, the fetch succeeds, so a fresh
  entity is served after three requests: lookup, fetch, root (`WorkflowProperties.EveryCallSucceeds`).

When the entity holds a certificate but no root, `getCertificates` returns nil in the first place.
Its `var certificate` is only assigned when no certificate is held.

## Model

| member | source | states |
|---|---|---|
| `Enums.RestMethodFromRaw` | Sources/ParseCertificateAuthority/Types/Enums.swift:10-14 | a raw string names a method exactly when it is "GET", "POST" or "PUT" |
| `Enums.RestMethodRawRoundTrip` | Sources/ParseCertificateAuthority/Types/Enums.swift:10-14 | each method's raw value reads back as that method |
| `Enums.RestMethodRawInjective` | Sources/ParseCertificateAuthority/Protocals/Certificatable.swift:220 | distinct methods put distinct strings in the request's HTTP method |
| `Enums.CertificateTypeFromRaw` | Sources/ParseCertificateAuthority/Types/Enums.swift:16-20 | a raw string names a certificate type exactly when it is "root", "user" or "other" |
| `Enums.CertificateTypeRawRoundTrip` | Sources/ParseCertificateAuthority/Types/Enums.swift:16-20 | each type's raw value reads back as that type |
| `Errors.Decimal` | Sources/ParseCertificateAuthority/Protocals/Certificatable.swift:166-167 | the status printed in a CA error is a non-empty string of decimal digits |
| `Errors.DecimalRoundTrip` | Sources/ParseCertificateAuthority/Protocals/Certificatable.swift:166-167 | the printed status reads back as the status |
| `Errors.BadResponseMessageCarriesStatus` | Sources/ParseCertificateAuthority/Protocals/Certificatable.swift:164-168 | the message starts "Response from CA: ", ends with the status, and differs for different statuses |
| `Errors.InternalServerErrorMessage` | Tests/ParseCertificateAuthorityTests/ParseCertificateAuthorityTests.swift:522-535 | a 500 answer gives a message containing "500" |
| `Wire.EncodeBody` | Sources/ParseCertificateAuthority/Types/CAServerBody.swift:10-14 | the encoding always has `user`, and has `certificateId` and `csr` exactly when present |
| `Wire.DecodeBody` | Sources/ParseCertificateAuthority/Types/CAServerBody.swift:10-14 | decoding fails exactly when `user` is missing; the optional members are read when present |
| `Wire.BodyRoundTrip` | Tests/ParseCertificateAuthorityTests/ParseCertificateAuthorityTests.swift:192-201 | encoding a body and decoding it gives back the same record |
| `Wire.AccountBodyCarriesOnlyUser` | Sources/ParseCertificateAuthority/Protocals/Certificatable.swift:185 | the account-creation body goes on the wire as the single member `user` |
| `Wire.CertificateBodyCarriesAll` | Sources/ParseCertificateAuthority/Protocals/Certificatable.swift:73-75 | the certificate-creation body goes on the wire with `user`, `certificateId` and `csr`, and reads back as exactly those three values |
| `Wire.WireNameInjective` | Sources/ParseCertificateAuthority/Types/CAServerResponse.swift:18-24 | no two response properties share a JSON key |
| `Wire.EncodeResponse` | Sources/ParseCertificateAuthority/Types/CAServerResponse.swift:10-25 | the encoding has exactly the six mapped keys, each holding its property |
| `Wire.DecodeResponse` | Sources/ParseCertificateAuthority/Types/CAServerResponse.swift:10-16 | decoding succeeds exactly when all six keys are present, and each property is read from its key |
| `Wire.ResponseRoundTrip` | Tests/ParseCertificateAuthorityTests/ParseCertificateAuthorityTests.swift:389-415 | encoding an envelope and decoding it gives back the same record |
| `Wire.BodyIsNotResponse` | Tests/ParseCertificateAuthorityTests/ParseCertificateAuthorityTests.swift:182-215 | an encoded request body never decodes as a response envelope |
| `Http.AppendPathComponent` | Sources/ParseCertificateAuthority/Protocals/Certificatable.swift:155-156 | the result is the URL, a `/` unless the URL already ends in one, then the component |
| `Http.AppendPathComponentInjective` | Sources/ParseCertificateAuthority/Protocals/Certificatable.swift:198-199 | different components under one URL give different URLs |
| `Http.AddValue` | Sources/ParseCertificateAuthority/Protocals/Certificatable.swift:224-225 | adding a header field keeps the others and sets a new field to the value |
| `Http.StandardHeaders` | Sources/ParseCertificateAuthority/Protocals/Certificatable.swift:224-225 | a request carries exactly `Authorization: Basic base64` and `Content-Type: application/json` |
| `Http.PreparedRequest` | Sources/ParseCertificateAuthority/Protocals/Certificatable.swift:215-228 | the method is the raw value, a body is attached exactly when one is given and decodes back to it, and the headers are the standard two |
| `Http.PrepareRequest` | Sources/ParseCertificateAuthority/ParseCertificateAuthority.swift:205-218 | building the request step by step from a fresh one gives the prepared request |
| `Http.Transport.DataTask` | Sources/ParseCertificateAuthority/Extensions/URLSession+async.swift:15-20 | one data task logs its request and yields the reply the oracle gives for it |
| `CAConfiguration.NewConfiguration` | Sources/ParseCertificateAuthority/ParseCertificateAuthorityConfiguration.swift:29-50 | succeeds exactly when all three concatenations parse, each URL is base plus its path, and a failure names the first bad concatenation in the order root, certificates, users |
| `CAConfiguration.DefaultConfiguration` | Tests/ParseCertificateAuthorityTests/ParseCertificateAuthorityTests.swift:69-80 | for any base that parses with them, the default suffixes give `/ca_certificate`, `/certificates/` and `/appusers/` under the base, as the test expects for its base |
| `CAConfiguration.AnyBadSuffixRefuses` | Tests/ParseCertificateAuthorityTests/ParseCertificateAuthorityTests.swift:82-104 | one unparsable concatenation refuses the whole configuration, with an error naming an unparsable one |
| `Workflow.ObjectIdOf` | Sources/ParseCertificateAuthority/Protocals/ParseCertificatable.swift:32 | the id is present exactly when there is a user with an `objectId`, and is that id |
| `Workflow.Validate` | Sources/ParseCertificateAuthority/Protocals/Certificatable.swift:99-105 | passes exactly when user id, object, certificate id and CSR are all present, and fails otherwise with the "Missing" error |
| `Workflow.DecodeCertificate` | Sources/ParseCertificateAuthority/Protocals/Certificatable.swift:169-172 | an envelope gives its `certificate`, else a bare string gives itself, else the decoding error |
| `Workflow.ReadCertificate` | Sources/ParseCertificateAuthority/Protocals/Certificatable.swift:164-172 | a 2xx HTTP reply is decoded (envelope, else string); any other status fails with that status, a non-HTTP response with a response error, and no reply with a network error |
| `Workflow.ReadAcknowledgement` | Sources/ParseCertificateAuthority/Protocals/Certificatable.swift:206-211 | success exactly for an HTTP reply with status in 200...299; otherwise a response or network error |
| `Workflow.BestEffortRoot` | Sources/ParseCertificateAuthority/Protocals/Certificatable.swift:129-134 | the root fetch is exactly one GET of the root URL and always succeeds as a step: the percent-decoded root when the GET succeeds, nil otherwise |
| `Client.CAClient.Initialize` | Sources/ParseCertificateAuthority/ParseCertificateAuthority.swift:16-23 | afterwards the public `configuration` reads back the one given, whatever it was before |
| `Client.CAClient.RestfullCertificates` | Sources/ParseCertificateAuthority/Protocals/Certificatable.swift:142-174 | a non-GET root request fails and sends nothing; otherwise it sends exactly the `CertificatesCall` request and returns its outcome |
| `Client.CAClient.RestfullAppUsers` | Sources/ParseCertificateAuthority/Protocals/Certificatable.swift:193-213 | sends exactly the `AppUsersCall` request and returns its outcome |
| `Client.CAClient.VerifyAndCreateUserOnCA` | Sources/ParseCertificateAuthority/Protocals/Certificatable.swift:176-191 | sends exactly the `AccountSetup` requests and returns its outcome |
| `Client.CAClient.FetchRootCertificate` | Sources/ParseCertificateAuthority/Protocals/Certificatable.swift:129-134 | sends the root request and returns the decoded root, or nil when it fails |
| `Client.CAClient.RequestNew` | Sources/ParseCertificateAuthority/ParseCertificateAuthority.swift:56-79 | sends exactly the `RequestNewRun` requests and returns its outcome |
| `Client.CAClient.Obtain` | Sources/ParseCertificateAuthority/Protocals/Certificatable.swift:111-127 | sends exactly the `ObtainCertificate` requests and returns its outcome |
| `Client.CAClient.Get` | Sources/ParseCertificateAuthority/ParseCertificateAuthority.swift:87-122 | sends exactly the `GetCertificatesRun` requests and returns its outcome |
| `Client.CAClient.RequestNewCertificates` | Sources/ParseCertificateAuthority/Protocals/Certificatable.swift:61-87 | the object's `requestNewCertificates` is `RequestNewRun` with the object's wording |
| `Client.CAClient.GetCertificates` | Sources/ParseCertificateAuthority/Protocals/Certificatable.swift:97-135 | the object's `getCertificates` is `GetCertificatesRun` with the object's wording |
| `Client.CAClient.RequestNewCertificatesFor` | Sources/ParseCertificateAuthority/ParseCertificateAuthority.swift:52-80 | the free function is `RequestNewRun` on the user's `objectId` with account creation on |
| `Client.CAClient.GetCertificatesFor` | Sources/ParseCertificateAuthority/ParseCertificateAuthority.swift:83-124 | the free function is `GetCertificatesRun` on the user's `objectId` with account creation on |
| `Client.CAClient.GetCertificatesWithUser` | Sources/ParseCertificateAuthority/Protocals/ParseCertificatable.swift:30-34 | delegates with `user?.objectId` and the same flag, which defaults to true |
| `Client.CAClient.RequestNewCertificatesWithUser` | Sources/ParseCertificateAuthority/Protocals/ParseCertificatable.swift:44-48 | delegates with `user?.objectId` and the same flag, which defaults to false |
| `WorkflowProperties.RootIsGetOnly` | Sources/ParseCertificateAuthority/Protocals/Certificatable.swift:147-150 | for the root certificate, a call sends nothing exactly for POST and PUT, and fails with "Can only GET Root" exactly for non-GET |
| `WorkflowProperties.RootIgnoresCertificateId` | Sources/ParseCertificateAuthority/Protocals/Certificatable.swift:153-154 | a root GET sends one request to the root URL, whatever certificate id is given |
| `WorkflowProperties.CertificateRouting` | Sources/ParseCertificateAuthority/Protocals/Certificatable.swift:155-159 | `user` and `other` behave alike, with one request to the collection, plus `/id` when an id is given |
| `WorkflowProperties.UsersRouting` | Sources/ParseCertificateAuthority/Protocals/Certificatable.swift:197-202 | a users call goes to the users URL plus `/id` when an id is given, else to the collection |
| `WorkflowProperties.DistinctIdsDistinctResources` | Sources/ParseCertificateAuthority/Protocals/Certificatable.swift:155-156 | different certificate ids, or different user ids, get different URLs |
| `WorkflowProperties.SuccessWindow` | Sources/ParseCertificateAuthority/Protocals/Certificatable.swift:164-168 | only 200...299 succeeds; any other status fails both kinds of call with that status |
| `WorkflowProperties.EnvelopeYieldsCertificate` | Tests/ParseCertificateAuthorityTests/ParseCertificateAuthorityTests.swift:376-416 | a 200 reply with an encoded envelope yields that envelope's certificate |
| `WorkflowProperties.BodyPayloadIsNotACertificate` | Tests/ParseCertificateAuthorityTests/ParseCertificateAuthorityTests.swift:207-214 | a reply carrying a request body fails with the decoding error |
| `WorkflowProperties.AccountLookedUpFirst` | Sources/ParseCertificateAuthority/Protocals/Certificatable.swift:179-180 | the account step first sends GET `users/{id}`, and sends at most one more request |
| `WorkflowProperties.ExistingAccountNotRecreated` | Sources/ParseCertificateAuthority/Protocals/Certificatable.swift:179-181 | a successful lookup ends the account step |
| `WorkflowProperties.NoCreationWithoutFlag` | Sources/ParseCertificateAuthority/Protocals/Certificatable.swift:182-184 | without the flag the step is the lookup alone, and its error is rethrown unchanged |
| `WorkflowProperties.CreationWithFlag` | Sources/ParseCertificateAuthority/Protocals/Certificatable.swift:185-188 | with the flag a failed lookup is followed by one POST of `{user}` to the collection, whose outcome is the step's |
| `WorkflowProperties.MissingInputsSendNothing` | Sources/ParseCertificateAuthority/ParseCertificateAuthority.swift:56-62 | a missing user id, object, certificate id or CSR fails both operations with "Missing" and sends nothing |
| `WorkflowProperties.UserWithoutIdIsMissing` | Tests/ParseCertificateAuthorityTests/ParseCertificateAuthorityTests.swift:132-141 | for both operations, a user without `objectId` fails with "Missing" and sends nothing |
| `WorkflowProperties.HeldPairSendsNothing` | Sources/ParseCertificateAuthority/Protocals/Certificatable.swift:107-109 | holding both certificates sends nothing, and either raises the duplicate error or returns the pair, by policy |
| `WorkflowProperties.HeldPairExactlyShortCircuits` | Sources/ParseCertificateAuthority/Protocals/Certificatable.swift:107-111 | with all inputs present, nothing is sent exactly when `hasCertificate` and `hasRootCertificate` both hold; otherwise the account lookup comes first |
| `WorkflowProperties.HeldCertificateNotRequested` | Sources/ParseCertificateAuthority/Protocals/Certificatable.swift:112-113 | a held certificate is not requested, and nil is returned in its place |
| `WorkflowProperties.MissingCertificateFetchedElseCreated` | Sources/ParseCertificateAuthority/Protocals/Certificatable.swift:113-126 | GET `certificates/{id}`; on success its certificate, percent-decoded, and nothing more; on failure one POST of user, id and CSR, whose certificate, percent-decoded, or whose error is the result |
| `WorkflowProperties.RootFailureNeverFatal` | Sources/ParseCertificateAuthority/Protocals/Certificatable.swift:129-134 | the call succeeds exactly when its certificate part does, with that certificate; the root is the percent-decoded reply when fetched, nil when the fetch fails |
| `WorkflowProperties.RequestNewIgnoresHeldCertificates` | Sources/ParseCertificateAuthority/Protocals/Certificatable.swift:54-61 | what the object already holds does not change what `requestNewCertificates` sends or returns |
| `WorkflowProperties.RequestNewAlwaysCreates` | Sources/ParseCertificateAuthority/Protocals/Certificatable.swift:71-78 | after the account step comes exactly one POST of user, id and CSR, with no fetch; the result is its certificate, percent-decoded, or its error |
| `WorkflowProperties.NoAccountNoCertificate` | Sources/ParseCertificateAuthority/Protocals/ParseCertificatable.swift:39 | with the flag off and no account, both operations fail with the lookup's error after the lookup alone |
| `WorkflowProperties.AccountFailureIsFatal` | Sources/ParseCertificateAuthority/Protocals/Certificatable.swift:111 | when the account step fails, with or without creation, both operations fail with its error and send nothing after it |
| `WorkflowProperties.BoundedRoundTrips` | Sources/ParseCertificateAuthority/Protocals/Certificatable.swift:97-135 | `requestNewCertificates` sends at most four requests, `getCertificates` at most five |
| `WorkflowProperties.FiveRequestsReached` | Sources/ParseCertificateAuthority/Protocals/Certificatable.swift:111-130 | with no account and no certificate on the CA and both creations accepted, the five requests go out in order: lookup, account creation, fetch, certificate creation, root |
| `WorkflowProperties.EveryCallSucceeds` | Tests/ParseCertificateAuthorityTests/ParseCertificateAuthorityTests.swift:404-415 | with every reply a 200 envelope, a fresh entity gets that certificate twice after three requests |
| `WorkflowProperties.EveryCallEchoesBody` | Tests/ParseCertificateAuthorityTests/ParseCertificateAuthorityTests.swift:203-214 | with every reply a 200 request body, both operations fail with the decoding error |
| `WorkflowProperties.ServerErrorFailsAccountStep` | Tests/ParseCertificateAuthorityTests/ParseCertificateAuthorityTests.swift:538-571 | with every reply a 500, the account step fails with a "500" error, with or without creation |
| `WorkflowProperties.ServerErrorFailsBothCalls` | Tests/ParseCertificateAuthorityTests/ParseCertificateAuthorityTests.swift:502-571 | with every reply a 500, both public operations fail with the "500" error, with or without creation |
| `WorkflowProperties.HeldPairRejectedAsWritten` | Sources/ParseCertificateAuthority/Protocals/Certificatable.swift:107-109 | as written, holding both certificates raises the duplicate-request error |
| `WorkflowProperties.HeldPairReturnedAsDocumented` | Tests/ParseCertificateAuthorityTests/ParseCertificateAuthorityTests.swift:169-180 | as documented and tested, the held pair is returned without a request |

## Left out

- Concurrency and `async`: each call is modelled as a sequence of blocking steps. The source has
  no concurrent sub-requests.
- Foundation's URL parser is the parameter `isURL` of `NewConfiguration`. The model does not say
  which strings parse.
- `appendingPathComponent` is modelled as concatenation with a separating `/`. It does not
  percent-encode the component. Foundation appends to the URL's path, before any query or fragment,
  whereas the model appends to the end of the whole string. The two differ only when a configured
  path carries `?` or `#`.
- `removingPercentEncoding` is the client's `percentDecode` function. Its decoding rules are not
  modelled.
- JSON is modelled as objects whose members are strings, bare strings, and one value for every
  other document. Number, array and nested members are not modelled, and neither is the byte-level
  encoding.
- The missing-input messages of both copies also describe the user and the object
  (`Certificatable.swift:68`, `:104`; `ParseCertificateAuthority.swift:61`, `:92`). `Errors.Message`
  keeps only the fixed text before that description.
- The text of `\(response)` in error messages is modelled only as the status code.
- `ParseObject`, `ParseUser` and their persistence are modelled only as the fields the workflow
  reads.
- The mock network (`MockURLProtocol`, `MockURLResponse`) is replaced by the transport's `oracle`.
  Its delays and locking are not modelled.
- The `oracle` is one fixed function for the client's whole life. The CA's own state does not change
  between requests, so a later reply cannot depend on an account or certificate that an earlier
  request created.
- Every failure of the transport itself is the single error `NetworkFailure`. The source rethrows the
  `URLSession` error unchanged (`Certificatable.swift:163`, `:183`; `URLSession+async.swift:27-32`),
  and the model neither keeps that error nor its message.
- `Client.CAClient`'s workflow methods all require an initialised configuration: `RestfullCertificates`,
  `RestfullAppUsers`, `VerifyAndCreateUserOnCA`, `FetchRootCertificate`, `RequestNew`, `Obtain`,
  `Get` and the six entry points. In the source, the calls made before `initialize` still reach the
  missing-input guard (`Certificatable.swift:63-69`, `:99-105`; `ParseCertificateAuthority.swift:56-62`,
  `:87-93`) and the root-only guard (`Certificatable.swift:147-150`) without reading the
  configuration, so those calls throw rather than crash. The model does not cover calls made before
  initialisation.
- `Client.CAClient.CurrentConfiguration`: reading the configuration before `initialize` crashes
  in the source; the model forbids it with a precondition instead of modelling the crash.

## Findings

| source | as written | input that shows it | evidently intended | confidence | as-written member | corrected member |
|---|---|---|---|---|---|---|
| Sources/ParseCertificateAuthority/Protocals/Certificatable.swift:107-109 | `getCertificates` throws `duplicateRequest` when the object holds both certificates | object `{certificate: "maybe", rootCertificate: "not", csr: "whoa", certificateId: "hella"}`, user id "peace" | the doc comment (lines 94-95) and the test at Tests/ParseCertificateAuthorityTests/ParseCertificateAuthorityTests.swift:169-180 expect the held pair back | high; not executed | `WorkflowProperties.HeldPairRejectedAsWritten` | `WorkflowProperties.HeldPairReturnedAsDocumented` |
