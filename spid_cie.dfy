/** The Italian SPID/CIE identity service (server/spid-cie.ts): the list of
    identity providers fixed at construction, the provider-index check of
    the authentication request, and the normalisation of a SAML response's
    attributes. The service never changes its list, so it is a value. */
module SpidCie {
  import opened Common

  datatype IdpType = SpidIdp | CieIdp

  datatype IdentityProviderConfig = IdentityProviderConfig(name: string, kind: IdpType, entryPoint: string, cert: string)

  datatype SpidCieService = SpidCieService(providers: seq<IdentityProviderConfig>)

  /** `getAvailableProviders`. */
  function AvailableProviders(s: SpidCieService): (r: seq<IdentityProviderConfig>)
    ensures r == s.providers
  {
    s.providers
  }

  /** A constructed service hands back the list it was given. */
  lemma AvailableProvidersUnchanged(providers: seq<IdentityProviderConfig>)
    ensures AvailableProviders(SpidCieService(providers)) == providers
  {
  }

  /** The AuthnRequest document before its base64 encoding. */
  function AuthnRequestXml(requestId: string, timestamp: string, destination: string): string {
    "<?xml version=\"1.0\" encoding=\"UTF-8\"?>\n"
    + "<samlp:AuthnRequest xmlns:samlp=\"urn:oasis:names:tc:SAML:2.0:protocol\" \n"
    + "  xmlns:saml=\"urn:oasis:names:tc:SAML:2.0:assertion\"\n"
    + "  ID=\"" + requestId + "\"\n"
    + "  Version=\"2.0\"\n"
    + "  IssueInstant=\"" + timestamp + "\"\n"
    + "  Destination=\"" + destination + "\">\n"
    + "  <saml:Issuer Format=\"urn:oasis:names:tc:SAML:2.0:nameid-format:entity\">trustnest</saml:Issuer>\n"
    + "</samlp:AuthnRequest>"
  }

  /** `generateAuthnRequest(idpIndex)`: an index with no provider, negative
      or past the end, throws; otherwise the request names that provider's
      entry point. `requestId` and `timestamp` are the random id and the
      clock, passed in. */
  function GenerateAuthnRequest(s: SpidCieService, idpIndex: int, requestId: string, timestamp: string)
    : (r: Result<string>)
    ensures r.Failure? <==> !(0 <= idpIndex < |s.providers|)
    ensures r.Failure? ==> r.error == "Invalid IdP index"
    ensures r.Success? ==> r.value == AuthnRequestXml(requestId, timestamp, s.providers[idpIndex].entryPoint)
  {
    if 0 <= idpIndex < |s.providers| then Success(AuthnRequestXml(requestId, timestamp, s.providers[idpIndex].entryPoint))
    else Failure("Invalid IdP index")
  }

  /** With the default index 0 a service with no provider always throws,
      and one with providers addresses the first. */
  lemma DefaultIndexUsesFirstProvider(s: SpidCieService, requestId: string, timestamp: string)
    ensures s.providers == [] ==> GenerateAuthnRequest(s, 0, requestId, timestamp).Failure?
    ensures s.providers != [] ==>
      GenerateAuthnRequest(s, 0, requestId, timestamp) == Success(AuthnRequestXml(requestId, timestamp, s.providers[0].entryPoint))
  {
  }

  /** The attributes of a SAML response as received; `None` is an absent
      attribute. */
  datatype SamlResponse = SamlResponse(
    fiscalCode: Option<string>,
    givenName: Option<string>,
    familyName: Option<string>,
    email: Option<string>,
    dateOfBirth: Option<string>,
    placeOfBirth: Option<string>,
    gender: Option<string>,
    documentType: Option<string>,
    documentNumber: Option<string>,
    documentExpiration: Option<string>)

  datatype VerificationMethod = SpidMethod | CieMethod

  datatype SpidCieUserData = SpidCieUserData(
    fiscalCode: string,
    givenName: string,
    familyName: string,
    email: string,
    dateOfBirth: string,
    placeOfBirth: string,
    gender: string,
    documentType: string,
    documentNumber: Option<string>,
    documentExpiration: Option<string>,
    verified: bool,
    verificationMethod: VerificationMethod,
    verificationTimestamp: int)

  /** `attr || fallback` on a string attribute: absent and empty are both
      falsy. */
  function OrDefault(attr: Option<string>, fallback: string): (r: string)
    ensures attr.Some? && attr.value != "" ==> r == attr.value
    ensures attr.None? || attr.value == "" ==> r == fallback
  {
    if attr.Some? && attr.value != "" then attr.value else fallback
  }

  /** `processSamlResponse`; `now` is the clock. */
  function ProcessSamlResponse(saml: SamlResponse, now: int): (u: SpidCieUserData)
    ensures u.verified
    ensures u.verificationMethod == CieMethod <==> saml.documentType == Some("CIE")
    ensures u.documentNumber == saml.documentNumber && u.documentExpiration == saml.documentExpiration
    ensures u.verificationTimestamp == now
  {
    SpidCieUserData(
      OrDefault(saml.fiscalCode, ""),
      OrDefault(saml.givenName, ""),
      OrDefault(saml.familyName, ""),
      OrDefault(saml.email, ""),
      OrDefault(saml.dateOfBirth, ""),
      OrDefault(saml.placeOfBirth, ""),
      OrDefault(saml.gender, ""),
      OrDefault(saml.documentType, "SPID"),
      saml.documentNumber,
      saml.documentExpiration,
      true,
      if saml.documentType == Some("CIE") then CieMethod else SpidMethod,
      now)
  }

  /** The reported document type and method agree: the method is CIE
      exactly when the document type reads "CIE", and a response without a
      document type is an SPID one. */
  lemma MethodAgreesWithDocumentType(saml: SamlResponse, now: int)
    ensures ProcessSamlResponse(saml, now).documentType == "CIE" <==>
      ProcessSamlResponse(saml, now).verificationMethod == CieMethod
    ensures saml.documentType.None? ==>
      ProcessSamlResponse(saml, now).documentType == "SPID"
      && ProcessSamlResponse(saml, now).verificationMethod == SpidMethod
  {
  }

  /** An empty response yields empty strings, an SPID document type and
      no document details. */
  lemma EmptyResponse(now: int)
    ensures var u := ProcessSamlResponse(SamlResponse(None, None, None, None, None, None, None, None, None, None), now);
      u.fiscalCode == "" && u.givenName == "" && u.familyName == "" && u.email == ""
      && u.dateOfBirth == "" && u.placeOfBirth == "" && u.gender == ""
      && u.documentType == "SPID" && u.documentNumber.None? && u.documentExpiration.None?
  {
  }

  datatype Environment = Development | Production

  const ProductionProviders: seq<IdentityProviderConfig> := [
    IdentityProviderConfig("Aruba", SpidIdp, "https://loginspid.aruba.it/", "PROD_CERT"),
    IdentityProviderConfig("Poste", SpidIdp, "https://posteid.poste.it/", "PROD_CERT"),
    IdentityProviderConfig("CIE", CieIdp, "https://idserver.servizicie.interno.gov.it/idp/profile/SAML2/Redirect/SSO",
                           "PROD_CERT")
  ]

  const TestProviders: seq<IdentityProviderConfig> := [
    IdentityProviderConfig("SPID Test", SpidIdp, "http://localhost:8000/idp/profile/SAML2/Redirect/SSO", "TEST_CERT")
  ]

  /** `createSpidCieService`. */
  function CreateSpidCieService(env: Environment): (s: SpidCieService)
    ensures env == Production ==> |s.providers| == 3
    ensures env != Production ==> |s.providers| == 1
  {
    if env == Production then SpidCieService(ProductionProviders) else SpidCieService(TestProviders)
  }

  /** Production offers two SPID providers and one CIE provider, the test
      environment a single SPID one; only indices in range are accepted. */
  lemma ServicePerEnvironment(env: Environment, i: int, requestId: string, timestamp: string)
    ensures var s := CreateSpidCieService(env);
      (env == Production ==>
        s.providers[0].kind == SpidIdp && s.providers[1].kind == SpidIdp && s.providers[2].kind == CieIdp)
      && (env == Development ==> s.providers[0].kind == SpidIdp && s.providers[0].name == "SPID Test")
      && (GenerateAuthnRequest(s, i, requestId, timestamp).Success? <==>
          0 <= i < (if env == Production then 3 else 1))
  {
  }
}
