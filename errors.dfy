/** The errors the certificate workflow raises, with the human-readable
    messages the client attaches to them. */
module Errors {
  import opened Wrappers

  /** Each kind of failure the client reports. */
  datatype CAError =
      /** A user id, `certificateId` or `csr` was absent; `userLabel` names the
          user input in the message ("user id" or "user objectId"). */
    | MissingInputs(userLabel: string)
      /** A method other than GET was asked of the root certificate. */
    | RootNotGettable
      /** The CA answered outside 200...299, or not with an HTTP response at all. */
    | BadResponse(status: Option<nat>)
      /** A 2xx body was neither a response envelope nor a bare string. */
    | NotDecodable
      /** The transport could not complete the exchange. */
    | NetworkFailure
      /** The entity already held both certificates; `holder` names it in the message. */
    | DuplicateRequest(holder: string)
      /** A configuration URL string could not be parsed. */
    | InvalidURL(text: string)

  const ResponsePrefix := "Response from CA: "

  function Message(e: CAError): string
  {
    match e
    case MissingInputs(userLabel) => "Missing " + userLabel + ", certificateId, or csr."
    case RootNotGettable => "Can only GET Root certificate from CA."
    case BadResponse(Some(status)) => ResponsePrefix + "status code: " + Decimal(status)
    case BadResponse(None) => ResponsePrefix + "not an HTTP response"
    case NotDecodable => "Expected to decode String"
    case NetworkFailure => "The request to the CA did not complete"
    case DuplicateRequest(holder) => holder + " already has certificates"
    case InvalidURL(text) => "Could not create a url for " + text
  }

  function DigitChar(d: nat): (c: char)
    requires d < 10
    ensures '0' <= c <= '9' && c as int - '0' as int == d
  {
    ('0' as int + d) as char
  }

  /** The decimal rendering of a status code, as string interpolation prints it. */
  function Decimal(n: nat): (s: string)
    ensures |s| >= 1
    ensures forall i :: 0 <= i < |s| ==> '0' <= s[i] <= '9'
    decreases n
  {
    if n < 10 then [DigitChar(n)] else Decimal(n / 10) + [DigitChar(n % 10)]
  }

  /** The number a string of decimal digits denotes (the reference reading of `Decimal`). */
  function DigitsValue(s: string): nat
    requires forall i :: 0 <= i < |s| ==> '0' <= s[i] <= '9'
  {
    if s == [] then 0 else DigitsValue(s[..|s| - 1]) * 10 + (s[|s| - 1] as int - '0' as int)
  }

  /** Reading back a rendered status gives the status. */
  lemma {:induction false} DecimalRoundTrip(n: nat)
    ensures DigitsValue(Decimal(n)) == n
    decreases n
  {
    if n >= 10 {
      var s := Decimal(n);
      assert s[..|s| - 1] == Decimal(n / 10);
      DecimalRoundTrip(n / 10);
    }
  }

  /** A "Response from CA" message names the status code it was raised for, so
      two different statuses never produce the same message. */
  lemma BadResponseMessageCarriesStatus(status: nat, other: nat)
    ensures var m := Message(BadResponse(Some(status)));
      && |ResponsePrefix| <= |m| && m[..|ResponsePrefix|] == ResponsePrefix
      && |Decimal(status)| <= |m| && m[|m| - |Decimal(status)|..] == Decimal(status)
    ensures status != other ==> Message(BadResponse(Some(status))) != Message(BadResponse(Some(other)))
  {
    var m := Message(BadResponse(Some(status)));
    var d := Decimal(status);
    assert m == ResponsePrefix + ("status code: " + d);
    assert m[..|ResponsePrefix|] == ResponsePrefix;
    assert m[|m| - |d|..] == d;
    if status != other && m == Message(BadResponse(Some(other))) {
      var d' := Decimal(other);
      var m' := Message(BadResponse(Some(other)));
      assert m' == (ResponsePrefix + "status code: ") + d';
      assert m == (ResponsePrefix + "status code: ") + d;
      assert d == m[|ResponsePrefix + "status code: "|..] == d';
      DecimalRoundTrip(status);
      DecimalRoundTrip(other);
      assert false;
    }
  }

  /** A 500 answer yields a message containing "500". */
  lemma InternalServerErrorMessage()
    ensures Decimal(500) == "500"
    ensures Message(BadResponse(Some(500))) == "Response from CA: status code: 500"
  {
    assert Decimal(5) == "5";
    assert Decimal(50) == "50";
  }
}
