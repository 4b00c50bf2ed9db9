/** The electronic-ID provider catalogue (server/eID.ts): which providers
    serve which country, their display metadata and login URLs, and the
    mock verification of a provider's response. Provider and country codes
    arrive as strings, so an unknown code is a reachable case. */
module EId {
  import opened Common

  datatype Provider = Spid | Cie | Eidas | BankId | Freja | GermanEid | FranceConnect | Clave | LuxTrust | DigiD

  datatype Country = IT | SE | DE | FR | ES | LU | NL | EU

  /** The `eIDProvider` literal. */
  function ProviderCode(p: Provider): string {
    match p
    case Spid => "spid"
    case Cie => "cie"
    case Eidas => "eidas"
    case BankId => "bankid"
    case Freja => "freja"
    case GermanEid => "eid"
    case FranceConnect => "franceconnect"
    case Clave => "clave"
    case LuxTrust => "luxtrust"
    case DigiD => "digid"
  }

  function ParseProvider(s: string): (r: Option<Provider>)
    ensures r.Some? ==> ProviderCode(r.value) == s
  {
    if s == "spid" then Some(Spid)
    else if s == "cie" then Some(Cie)
    else if s == "eidas" then Some(Eidas)
    else if s == "bankid" then Some(BankId)
    else if s == "freja" then Some(Freja)
    else if s == "eid" then Some(GermanEid)
    else if s == "franceconnect" then Some(FranceConnect)
    else if s == "clave" then Some(Clave)
    else if s == "luxtrust" then Some(LuxTrust)
    else if s == "digid" then Some(DigiD)
    else None
  }

  /** Every provider's code parses back to it, and codes are distinct. */
  lemma ProviderCodeRoundTrip(p: Provider)
    ensures ParseProvider(ProviderCode(p)) == Some(p)
  {
  }

  /** The `eIDCountry` literal. */
  function CountryCode(c: Country): string {
    match c
    case IT => "IT"
    case SE => "SE"
    case DE => "DE"
    case FR => "FR"
    case ES => "ES"
    case LU => "LU"
    case NL => "NL"
    case EU => "EU"
  }

  /** The `providers` table of `getProvidersForCountry`. */
  function CountryProviders(c: Country): seq<Provider> {
    match c
    case IT => [Spid, Cie]
    case SE => [BankId, Freja]
    case DE => [GermanEid]
    case FR => [FranceConnect]
    case ES => [Clave]
    case LU => [LuxTrust]
    case NL => [DigiD]
    case EU => [Eidas]
  }

  function ParseCountry(s: string): (r: Option<Country>)
    ensures r.Some? ==> CountryCode(r.value) == s
  {
    if s == "IT" then Some(IT)
    else if s == "SE" then Some(SE)
    else if s == "DE" then Some(DE)
    else if s == "FR" then Some(FR)
    else if s == "ES" then Some(ES)
    else if s == "LU" then Some(LU)
    else if s == "NL" then Some(NL)
    else if s == "EU" then Some(EU)
    else None
  }

  /** `getProvidersForCountry`: `providers[country] || []`. */
  function ProvidersForCountry(country: string): (r: seq<Provider>)
    ensures ParseCountry(country).Some? ==> r == CountryProviders(ParseCountry(country).value)
    ensures ParseCountry(country).None? ==> r == []
  {
    match ParseCountry(country)
    case Some(c) => CountryProviders(c)
    case None => []
  }

  /** The one country whose list names the provider, as a reference
      definition for the lemmas below. */
  function HomeCountry(p: Provider): Country {
    match p
    case Spid => IT
    case Cie => IT
    case BankId => SE
    case Freja => SE
    case GermanEid => DE
    case FranceConnect => FR
    case Clave => ES
    case LuxTrust => LU
    case DigiD => NL
    case Eidas => EU
  }

  /** Each of the ten providers is listed under exactly one country. */
  lemma ProviderInExactlyOneCountry(p: Provider, c: Country)
    ensures p in CountryProviders(HomeCountry(p))
    ensures p in CountryProviders(c) <==> c == HomeCountry(p)
  {
  }

  /** The same through the string interface: listed under its home code
      and under no other string. */
  lemma ProvidersForCountryPartition(p: Provider, country: string)
    ensures p in ProvidersForCountry(CountryCode(HomeCountry(p)))
    ensures p in ProvidersForCountry(country) ==> country == CountryCode(HomeCountry(p))
  {
    assert ParseCountry(CountryCode(HomeCountry(p))) == Some(HomeCountry(p));
    if p in ProvidersForCountry(country) {
      ProviderInExactlyOneCountry(p, ParseCountry(country).value);
    }
  }

  /** The metadata's `country` text for each country. */
  function CountryName(c: Country): string {
    match c
    case IT => "Italy"
    case SE => "Sweden"
    case DE => "Germany"
    case FR => "France"
    case ES => "Spain"
    case LU => "Luxembourg"
    case NL => "Netherlands"
    case EU => "EU"
  }

  datatype Metadata = Metadata(name: string, country: string, icon: string)

  /** The flag emoji of a country, as regional-indicator pairs. */
  function Flag(c: Country): string {
    match c
    case IT => "\U{1F1EE}\U{1F1F9}"
    case SE => "\U{1F1F8}\U{1F1EA}"
    case DE => "\U{1F1E9}\U{1F1EA}"
    case FR => "\U{1F1EB}\U{1F1F7}"
    case ES => "\U{1F1EA}\U{1F1F8}"
    case LU => "\U{1F1F1}\U{1F1FA}"
    case NL => "\U{1F1F3}\U{1F1F1}"
    case EU => "\U{1F1EA}\U{1F1FA}"
  }

  /** `getProviderMetadata`. */
  function ProviderMetadata(p: Provider): Metadata {
    match p
    case Spid => Metadata("SPID", "Italy", Flag(IT))
    case Cie => Metadata("CIE", "Italy", Flag(IT))
    case Eidas => Metadata("eIDAS", "EU", Flag(EU))
    case BankId => Metadata("BankID", "Sweden", Flag(SE))
    case Freja => Metadata("Freja eID", "Sweden", Flag(SE))
    case GermanEid => Metadata("eID", "Germany", Flag(DE))
    case FranceConnect => Metadata("FranceConnect", "France", Flag(FR))
    case Clave => Metadata("cl@ve", "Spain", Flag(ES))
    case LuxTrust => Metadata("LuxTrust", "Luxembourg", Flag(LU))
    case DigiD => Metadata("DigiD", "Netherlands", Flag(NL))
  }

  /** The metadata names, and flags, the country whose list holds the
      provider. */
  lemma MetadataMatchesCountryTable(p: Provider, c: Country)
    requires p in CountryProviders(c)
    ensures ProviderMetadata(p).country == CountryName(c)
    ensures ProviderMetadata(p).icon == Flag(c)
  {
    ProviderInExactlyOneCountry(p, c);
  }

  /** The `baseUrls` table of `geteIDAuthUrl`. */
  function BaseUrl(p: Provider): string {
    match p
    case Spid => "https://www.spid.gov.it/login"
    case Cie => "https://www.cie.gov.it/login"
    case Eidas => "https://eidas.ec.europa.eu/login"
    case BankId => "https://www.bankid.com/login"
    case Freja => "https://www.freja.com/login"
    case GermanEid => "https://www.bva.bund.de/eid"
    case FranceConnect => "https://www.franceconnect.gouv.fr/login"
    case Clave => "https://www.clave.gob.es/login"
    case LuxTrust => "https://www.luxtrust.lu/login"
    case DigiD => "https://www.digid.nl/login"
  }

  const RequestIdParameter := "?request_id="

  /** `geteIDAuthUrl`: the request id is appended unescaped. */
  function AuthUrl(p: Provider, requestId: string): (url: string)
    ensures StartsWith(url, BaseUrl(p) + RequestIdParameter)
    ensures url[|BaseUrl(p) + RequestIdParameter|..] == requestId
  {
    var prefix := BaseUrl(p) + RequestIdParameter;
    assert (prefix + requestId)[..|prefix|] == prefix;
    prefix + requestId
  }

  /** The request id can be read back from the URL, so distinct ids give
      distinct URLs for a provider. */
  lemma AuthUrlDeterminesRequestId(p: Provider, id1: string, id2: string)
    requires AuthUrl(p, id1) == AuthUrl(p, id2)
    ensures id1 == id2
  {
  }

  /** The mock identity `verifyeIDResponse` returns for a provider. */
  datatype MockIdentity = MockIdentity(
    id: string,
    firstName: string,
    lastName: string,
    email: string,
    dateOfBirth: string,
    nationality: string,
    documentNumber: string,
    documentType: string,
    issuingCountry: string,
    expirationDate: string)

  function MockUser(p: Provider): MockIdentity {
    match p
    case Spid => MockIdentity("RSSMRA80A01H501U", "Mario", "Rossi", "mario.rossi@example.it", "1980-01-01", "IT",
                              "RSSMRA80A01H501U", "Codice Fiscale", "IT", "2030-01-01")
    case Cie => MockIdentity("CA00000AA0A0A0AAA", "Anna", "Bianchi", "anna.bianchi@example.it", "1990-05-15", "IT",
                             "CA00000AA0A0A0AAA", "CIE", "IT", "2032-05-15")
    case BankId => MockIdentity("198001011234", "Erik", "Svensson", "erik.svensson@example.se", "1980-01-01", "SE",
                                "198001011234", "BankID", "SE", "2030-01-01")
    case Freja => MockIdentity("SE198001011234", "Sofia", "Andersson", "sofia.andersson@example.se", "1985-03-20", "SE",
                               "SE198001011234", "Freja eID", "SE", "2030-03-20")
    case GermanEid => MockIdentity("12345678901234", "Hans", "Mueller", "hans.mueller@example.de", "1975-07-10", "DE",
                                   "12345678901234", "Personalausweis", "DE", "2033-07-10")
    case FranceConnect => MockIdentity("FC123456789", "Jean", "Dupont", "jean.dupont@example.fr", "1988-11-25", "FR",
                                       "FC123456789", "FranceConnect", "FR", "2031-11-25")
    case Clave => MockIdentity("ES12345678X", "Carlos", "Garcia", "carlos.garcia@example.es", "1992-02-14", "ES",
                               "ES12345678X", "DNI", "ES", "2032-02-14")
    case LuxTrust => MockIdentity("LU123456789", "Pierre", "Lefevre", "pierre.lefevre@example.lu", "1980-06-08", "LU",
                                  "LU123456789", "eID Card", "LU", "2030-06-08")
    case DigiD => MockIdentity("NL123456789", "Jan", "Jansen", "jan.jansen@example.nl", "1987-09-30", "NL",
                               "NL123456789", "DigiD", "NL", "2030-09-30")
    case Eidas => MockIdentity("EIDAS123456789", "European", "Citizen", "citizen@example.eu", "1990-01-01", "EU",
                               "EIDAS123456789", "eIDAS", "EU", "2030-01-01")
  }

  /** Every mock identity's nationality and issuing country are the code
      of the provider's home country, and its id is its document number. */
  lemma MockUsersMatchCountry(p: Provider)
    ensures MockUser(p).nationality == CountryCode(HomeCountry(p))
    ensures MockUser(p).issuingCountry == MockUser(p).nationality
    ensures MockUser(p).id == MockUser(p).documentNumber
  {
  }

  /** An `eIDUser`; `verifiedAt` and the `timestamp` attribute are the
      clock, passed in. */
  datatype EIdUser = EIdUser(identity: MockIdentity, provider: Provider, verifiedAt: int,
                             attributes: map<string, string>)

  datatype AuthResponse = AuthResponse(success: bool, user: Option<EIdUser>, error: Option<string>, requestId: string)

  /** `verifyeIDResponse`: the SAML response is never read. */
  function VerifyResponse(provider: string, samlResponse: string, requestId: string, now: int, nowIso: string)
    : (r: AuthResponse)
    ensures r.requestId == requestId
    ensures ParseProvider(provider).None? ==>
      !r.success && r.user.None? && r.error == Some("Unknown provider: " + provider)
    ensures ParseProvider(provider).Some? ==>
      r.success && r.error.None? && r.user.Some?
      && r.user.value.provider == ParseProvider(provider).value
      && r.user.value.identity == MockUser(ParseProvider(provider).value)
      && r.user.value.verifiedAt == now
  {
    match ParseProvider(provider)
    case None => AuthResponse(false, None, Some("Unknown provider: " + provider), requestId)
    case Some(p) =>
      var attributes := map["authenticationMethod" := "eID", "assuranceLevel" := "high", "timestamp" := nowIso];
      AuthResponse(true, Some(EIdUser(MockUser(p), p, now, attributes)), None, requestId)
  }

  /** Every known provider verifies, whatever the SAML response says. */
  lemma VerificationIgnoresSaml(p: Provider, saml1: string, saml2: string, requestId: string, now: int, nowIso: string)
    ensures VerifyResponse(ProviderCode(p), saml1, requestId, now, nowIso).success
    ensures VerifyResponse(ProviderCode(p), saml1, requestId, now, nowIso)
         == VerifyResponse(ProviderCode(p), saml2, requestId, now, nowIso)
  {
    ProviderCodeRoundTrip(p);
  }
}
