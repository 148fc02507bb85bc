/** `ParseCertificateAuthorityConfiguration`: the three endpoint URLs of the
    CA server, derived from one base URL string and three path suffixes. */
module CAConfiguration {
  import opened Wrappers
  import opened Errors
  import opened Http

  const DefaultRootCertificatePath := "/ca_certificate"
  const DefaultCertificatesPath := "/certificates/"
  const DefaultUsersPath := "/appusers/"

  /** The endpoints: root certificate, certificates collection, users collection. */
  datatype Configuration = Configuration(rootCertificateURL: Url, certificatesURL: Url, usersURL: Url)

  /** Builds the configuration. `isURL` stands for Foundation's `URL(string:)`
      parser: it says which strings parse as URLs. The three concatenations are
      checked in the order root, certificates, users, and the first that does
      not parse is named in the error; the configuration exists only when all
      three parse. */
  function NewConfiguration(
    isURL: string -> bool,
    caURLString: string,
    rootCertificatePath: string := DefaultRootCertificatePath,
    certificatesPath: string := DefaultCertificatesPath,
    usersPath: string := DefaultUsersPath): (r: Result<Configuration, CAError>)
    ensures r.Success? <==>
      isURL(caURLString + rootCertificatePath) && isURL(caURLString + certificatesPath) && isURL(caURLString + usersPath)
    ensures r.Success? ==>
      && r.value.rootCertificateURL.text == caURLString + rootCertificatePath
      && r.value.certificatesURL.text == caURLString + certificatesPath
      && r.value.usersURL.text == caURLString + usersPath
    ensures !isURL(caURLString + rootCertificatePath) ==>
      r == Failure(InvalidURL(caURLString + rootCertificatePath))
    ensures isURL(caURLString + rootCertificatePath) && !isURL(caURLString + certificatesPath) ==>
      r == Failure(InvalidURL(caURLString + certificatesPath))
    ensures isURL(caURLString + rootCertificatePath) && isURL(caURLString + certificatesPath) && !isURL(caURLString + usersPath) ==>
      r == Failure(InvalidURL(caURLString + usersPath))
  {
    var root := caURLString + rootCertificatePath;
    var certificates := caURLString + certificatesPath;
    var users := caURLString + usersPath;
    if !isURL(root) then Failure(InvalidURL(root))
    else if !isURL(certificates) then Failure(InvalidURL(certificates))
    else if !isURL(users) then Failure(InvalidURL(users))
    else Success(Configuration(Url(root), Url(certificates), Url(users)))
  }

  /** With the default suffixes, any base URL that parses with each suffix
      gives the root, certificates and users endpoints under that base: for the
      base "http://certificate-authority:3000", the three URLs ending in
      "/ca_certificate", "/certificates/" and "/appusers/". */
  lemma DefaultConfiguration(isURL: string -> bool, base: string)
    requires isURL(base + "/ca_certificate")
    requires isURL(base + "/certificates/")
    requires isURL(base + "/appusers/")
    ensures NewConfiguration(isURL, base) == Success(Configuration(
      Url(base + "/ca_certificate"), Url(base + "/certificates/"), Url(base + "/appusers/")))
  {
  }

  /** One bad suffix is enough to refuse the whole configuration, whichever it is. */
  lemma AnyBadSuffixRefuses(isURL: string -> bool, base: string, root: string, certificates: string, users: string)
    requires !isURL(base + root) || !isURL(base + certificates) || !isURL(base + users)
    ensures var r := NewConfiguration(isURL, base, root, certificates, users);
      r.Failure? && r.error.InvalidURL? && !isURL(r.error.text)
      && r.error.text in {base + root, base + certificates, base + users}
  {
  }
}
