/** Request validation of the story bot. Both validators read the bearer token
    from the Authorization header and hand it to a signature check that is
    outside this model (an oracle that returns the token's claims or raises);
    then they compare the issuer claim. Every exception on the way becomes
    `false`, so neither validator raises. */
module Auth {

  import opened Wrappers
  import opened Strings
  import TaskConfig

  /** Bearer tokens from Google Chat always name this issuer. */
  const CHAT_ISSUER := "chat@system.gserviceaccount.com"
  const PUBLIC_CERT_URL_PREFIX := "https://www.googleapis.com/service_accounts/v1/metadata/x509/"
  /** The project number the chat tokens are issued for (a placeholder in this deployment). */
  const AUDIENCE := "XXXXXXXXXXXX"
  const CERTS_PATH := "https://www.googleapis.com/oauth2/v1/certs"
  /** Cloud Tasks OIDC tokens name this issuer. */
  const TASK_ISSUER := "https://accounts.google.com"

  /** The decoded claims of a token. */
  type Claims = map<string, string>
  /** Public certificates as fetched from a certificate endpoint. */
  type Certs = map<string, string>

  /** `client.verify_id_token(token, audience, cert_uri)`: claims, or an exception. */
  type ChatVerifier = (string, string, string) -> Outcome<Claims>
  /** `requests.get(url).json()`: certificates, or an exception. */
  type CertFetcher = string -> Outcome<Certs>
  /** `google.auth.jwt.decode(token, certs=certs, audience=audience)`: claims, or an exception. */
  type JwtDecoder = (string, Certs, string) -> Outcome<Claims>

  /** `auth_header.split(' ')[1]` after the missing-header check: the second
      space-separated word; `None` where the code raises (no header, empty
      header, no space). The scheme word is not looked at. */
  function BearerToken(header: Option<string>): (token: Option<string>)
    ensures header.None? || header == Some("") ==> token.None?
    ensures header.Some? && ' ' !in header.value ==> token.None?
    ensures header.Some? && ' ' in header.value ==> token.Some?
    ensures token.Some? ==> ' ' !in token.value
  {
    if header.None? || header.value == "" then None
    else
      var words := Split(header.value, ' ');
      if |words| < 2 then None else Some(words[1])
  }

  /** `token['iss'] == issuer`, where a missing claim raises `KeyError`. */
  predicate IssuedBy(claims: Claims, issuer: string)
  {
    "iss" in claims && claims["iss"] == issuer
  }

  /** `is_request_valid` with the audience as a parameter. */
  function IsChatRequestValid(header: Option<string>, verify: ChatVerifier, audience: string): (valid: bool)
    ensures valid <==>
      && BearerToken(header).Some?
      && verify(BearerToken(header).value, audience, PUBLIC_CERT_URL_PREFIX + CHAT_ISSUER).Ok?
      && IssuedBy(verify(BearerToken(header).value, audience, PUBLIC_CERT_URL_PREFIX + CHAT_ISSUER).value, CHAT_ISSUER)
  {
    match BearerToken(header)
    case None => false
    case Some(token) =>
      match verify(token, audience, PUBLIC_CERT_URL_PREFIX + CHAT_ISSUER)
      case Raised(_) => false
      case Ok(claims) => "iss" in claims && claims["iss"] == CHAT_ISSUER
  }

  /** `is_request_valid(request)`: a Google Chat request for this app. */
  function IsRequestValid(header: Option<string>, verify: ChatVerifier): (valid: bool)
    ensures header.None? ==> !valid
    ensures header.Some? && ' ' !in header.value ==> !valid
    ensures valid ==>
      var claims := verify(BearerToken(header).value, AUDIENCE, PUBLIC_CERT_URL_PREFIX + CHAT_ISSUER);
      claims.Ok? && IssuedBy(claims.value, CHAT_ISSUER)
  {
    IsChatRequestValid(header, verify, AUDIENCE)
  }

  /** `is_backround_request_valid(request)`: a Cloud Tasks request for this
      function's trigger URL. An empty claims object is falsy in Python. */
  function IsBackgroundRequestValid(header: Option<string>, fetch: CertFetcher, decode: JwtDecoder): (valid: bool)
    ensures header.None? ==> !valid
    ensures header.Some? && ' ' !in header.value ==> !valid
    ensures valid <==>
      && BearerToken(header).Some?
      && fetch(CERTS_PATH).Ok?
      && decode(BearerToken(header).value, fetch(CERTS_PATH).value, TaskConfig.TRIGGER_URL).Ok?
      && IssuedBy(decode(BearerToken(header).value, fetch(CERTS_PATH).value, TaskConfig.TRIGGER_URL).value, TASK_ISSUER)
  {
    match BearerToken(header)
    case None => false
    case Some(token) =>
      match fetch(CERTS_PATH)
      case Raised(_) => false
      case Ok(certs) =>
        match decode(token, certs, TaskConfig.TRIGGER_URL)
        case Raised(_) => false
        case Ok(idToken) => |idToken| > 0 && "iss" in idToken && idToken["iss"] == TASK_ISSUER
  }

  /** A header `scheme + " " + token` (no spaces in either word) yields exactly
      `token`. */
  lemma {:induction false} BearerTokenOf(scheme: string, token: string)
    requires ' ' !in scheme && ' ' !in token
    ensures BearerToken(Some(scheme + " " + token)) == Some(token)
  {
    var header := scheme + " " + token;
    assert Join([scheme, token], ' ') == header by {
      assert Join([scheme, token][1..], ' ') == token;
    }
    SplitJoin([scheme, token], ' ');
  }

  /** The scheme word is never checked: two headers that differ only in it are
      judged alike, by both validators. */
  lemma SchemeIsIgnored(scheme1: string, scheme2: string, token: string,
                        verify: ChatVerifier, fetch: CertFetcher, decode: JwtDecoder)
    requires ' ' !in scheme1 && ' ' !in scheme2 && ' ' !in token
    ensures IsRequestValid(Some(scheme1 + " " + token), verify)
         == IsRequestValid(Some(scheme2 + " " + token), verify)
    ensures IsBackgroundRequestValid(Some(scheme1 + " " + token), fetch, decode)
         == IsBackgroundRequestValid(Some(scheme2 + " " + token), fetch, decode)
  {
    BearerTokenOf(scheme1, token);
    BearerTokenOf(scheme2, token);
  }

  /** A well-formed header whose token the signature check accepts for this
      app's audience with the chat issuer is valid; the same token with any
      other issuer claim, or rejected by the check, is not. */
  lemma ChatTokenAcceptedExactly(scheme: string, token: string, verify: ChatVerifier)
    requires ' ' !in scheme && ' ' !in token
    ensures IsRequestValid(Some(scheme + " " + token), verify) <==>
      var claims := verify(token, AUDIENCE, PUBLIC_CERT_URL_PREFIX + CHAT_ISSUER);
      claims.Ok? && IssuedBy(claims.value, CHAT_ISSUER)
  {
    BearerTokenOf(scheme, token);
  }

  /** Same for a background request: certificates fetched, token decoded for
      the trigger URL, and issuer `https://accounts.google.com`. */
  lemma TaskTokenAcceptedExactly(scheme: string, token: string, fetch: CertFetcher, decode: JwtDecoder)
    requires ' ' !in scheme && ' ' !in token
    ensures IsBackgroundRequestValid(Some(scheme + " " + token), fetch, decode) <==>
      && fetch(CERTS_PATH).Ok?
      && decode(token, fetch(CERTS_PATH).value, TaskConfig.TRIGGER_URL).Ok?
      && IssuedBy(decode(token, fetch(CERTS_PATH).value, TaskConfig.TRIGGER_URL).value, TASK_ISSUER)
  {
    BearerTokenOf(scheme, token);
  }
}
