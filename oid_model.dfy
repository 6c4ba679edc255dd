/**
 * The credential-handling logic of the OpenID plugin for the Pluggable
 * Authentication Service, as functions: the signed session cookie, the two
 * credential-extraction steps, the extraction entry point with its three
 * fixed-precedence paths, and the authentication dispatch. The imperative
 * plugin (module OpenIdPlugin) is proved against these functions.
 *
 * HMAC-SHA1 and Python's lenient base64 decoding are parameters of the
 * configuration; the OpenID consumer library's `begin` and `complete` are
 * represented by the outcomes they return.
 */
module OpenIdModel {
  import opened Wrappers
  import opened PyStr
  import Base64

  /** A credential value: a `str`, or `None` (the nonce may be absent). */
  type Value = Option<Bytes>

  /** The credential dictionary that extraction fills and authentication reads. */
  type Credentials = map<string, Value>

  /** An HMAC-SHA1 digest: 20 bytes. */
  type Digest = d: Bytes | |d| == 20 witness "00000000000000000000"

  /**
   * The primitives the plugin calls but does not define: `cryptutil.hmacSha1`
   * (key, message), and `a2b_base64` on input that is not a canonical
   * single-line encoding (`None` stands for `binascii.Error`).
   */
  datatype Crypto = Crypto(hmacSha1: (Bytes, Bytes) -> Digest, lenientDecode: Bytes -> Option<Bytes>)

  /**
   * The plugin's configuration: the cookie name, the trust root, and the
   * association store's authorisation key, which signs cookies.
   */
  datatype Config = Config(cookieName: string, trustRoot: Bytes, authKey: Bytes, crypto: Crypto)

  /**
   * An incoming request: its form fields, the merged namespace that
   * `name in request` and `request.get(name)` search (cookies included), and
   * its URL (`getURL()`).
   */
  datatype Request = Request(form: map<string, Bytes>, lookup: map<string, Bytes>, url: Bytes)

  const LOGIN_KEY: string := "__ac_identity_url"
  const CAME_FROM_KEY: string := "came_from"
  const MODE_KEY: string := "openid.mode"
  const NONCE_KEY: string := "nonce"
  const SOURCE_KEY: string := "openid.source"
  const IDENTITY_KEY: string := "openid.identity"

  /** The protocol fields copied from a positive assertion, each prefixed `openid.`. */
  const ASSERTION_KEYS: seq<string> := [
    "openid.identity", "openid.assoc_handle", "openid.return_to",
    "openid.signed", "openid.sig", "openid.invalidate_handle", "openid.mode"
  ]

  const ID_RES: Bytes := "id_res"
  const CANCEL: Bytes := "cancel"
  const SERVER: Bytes := "server"
  const COOKIE: Bytes := "cookie"

  /** `m.get(k, None)`. */
  function Get<K, V>(m: map<K, V>, k: K): (r: Option<V>)
    ensures r.Some? <==> k in m
    ensures r.Some? ==> r.value == m[k]
  {
    if k in m then Some(m[k]) else None
  }

  // ---------------------------------------------------------------------
  // The signed session cookie
  // ---------------------------------------------------------------------

  /** `signIdentity`: HMAC-SHA1 of the identity under the store's auth key. */
  function SignIdentity(cfg: Config, identity: Bytes): (r: Digest)
    ensures r == cfg.crypto.hmacSha1(cfg.authKey, identity)
  {
    cfg.crypto.hmacSha1(cfg.authKey, identity)
  }

  /**
   * The value `setSessionCookie` stores: the base64 of the identity and the
   * base64 of its signature, each stripped, joined by one space.
   */
  function SessionCookieValue(cfg: Config, identity: Bytes): (r: Bytes)
    ensures r == JoinLines(Base64.Lines(identity)) + " " + Base64.EncodeLine(SignIdentity(cfg, identity))
    ensures 1 <= |identity| <= Base64.MAX_BIN_SIZE ==>
      r == Base64.EncodeLine(identity) + " " + Base64.EncodeLine(SignIdentity(cfg, identity))
  {
    Base64.StrippedEncoding(identity);
    Base64.StrippedEncoding(SignIdentity(cfg, identity));
    Strip(Base64.EncodeString(identity)) + " " + Strip(Base64.EncodeString(SignIdentity(cfg, identity)))
  }

  /**
   * The parsing half of `extractOpenIdCookie`: split on whitespace into
   * exactly two tokens and base64-decode both; `None` when unpacking raises
   * `ValueError` or decoding raises `binascii.Error`.
   */
  function ParseCookie(crypto: Crypto, cookie: Bytes): (r: Option<(Bytes, Bytes)>)
    ensures r.Some? <==>
      && |Split(cookie)| == 2
      && Base64.Decode(crypto.lenientDecode, Split(cookie)[0]).Some?
      && Base64.Decode(crypto.lenientDecode, Split(cookie)[1]).Some?
    ensures r.Some? ==>
      r.value == (Base64.Decode(crypto.lenientDecode, Split(cookie)[0]).value,
                  Base64.Decode(crypto.lenientDecode, Split(cookie)[1]).value)
  {
    var tokens := Split(cookie);
    if |tokens| != 2 then None
    else
      match (Base64.Decode(crypto.lenientDecode, tokens[0]), Base64.Decode(crypto.lenientDecode, tokens[1]))
      case (Some(identity), Some(signature)) => Some((identity, signature))
      case _ => None
  }

  /** What an accepted cookie turns the credentials into. */
  function CookieCredentials(identity: Bytes): (c: Credentials) {
    map[IDENTITY_KEY := Some(identity), SOURCE_KEY := Some(COOKIE)]
  }

  /** Whether the request carries a cookie that parses and whose signature checks. */
  predicate HasValidCookie(cfg: Config, request: Request) {
    && cfg.cookieName in request.lookup
    && var parsed := ParseCookie(cfg.crypto, request.lookup[cfg.cookieName]);
    && parsed.Some?
    && parsed.value.1 == SignIdentity(cfg, parsed.value.0)
  }

  /**
   * `extractOpenIdCookie`: the credentials after the cookie step. They are
   * replaced by the cookie's identity when the cookie is valid and left as
   * they were otherwise.
   */
  function CookieStep(cfg: Config, request: Request, creds: Credentials): (r: Credentials)
    ensures HasValidCookie(cfg, request) ==> r == CookieCredentials(ParseCookie(cfg.crypto, request.lookup[cfg.cookieName]).value.0)
    ensures !HasValidCookie(cfg, request) ==> r == creds
  {
    if cfg.cookieName !in request.lookup then creds
    else
      match ParseCookie(cfg.crypto, request.lookup[cfg.cookieName])
      case None => creds
      case Some((identity, signature)) =>
        if signature != SignIdentity(cfg, identity) then creds
        else CookieCredentials(identity)
  }

  // ---------------------------------------------------------------------
  // The provider's redirect
  // ---------------------------------------------------------------------

  /**
   * What the credentials hold after a positive assertion: exactly the
   * source, the nonce and the present protocol fields, with these values.
   */
  ghost predicate PositiveAssertion(form: map<string, Bytes>, c: Credentials) {
    AssertionOver(form, ASSERTION_KEYS, c)
  }

  /** `PositiveAssertion` for an arbitrary list of copied fields. */
  ghost predicate AssertionOver(form: map<string, Bytes>, keys: seq<string>, c: Credentials) {
    && c.Keys == {SOURCE_KEY, NONCE_KEY} + (set k | k in keys && k in form)
    && c[SOURCE_KEY] == Some(SERVER)
    && c[NONCE_KEY] == Get(form, NONCE_KEY)
    && forall k | k in keys && k in form :: c[k] == Some(form[k])
  }

  /** Copies each of `keys` present in the form into `acc`, front to back. */
  function CopyPresentFields(form: map<string, Bytes>, keys: seq<string>, acc: Credentials): (c: Credentials)
    ensures c.Keys == acc.Keys + (set k | k in keys && k in form)
    ensures forall k | k in keys && k in form :: c[k] == Some(form[k])
    ensures forall k | k in acc && !(k in keys && k in form) :: c[k] == acc[k]
    decreases |keys|
  {
    if |keys| == 0 then acc
    else
      var k := keys[0];
      CopyPresentFields(form, keys[1..], if k in form then acc[k := Some(form[k])] else acc)
  }

  /** The credentials before the field loop: the source and the nonce. */
  function AssertionBase(form: map<string, Bytes>): (c: Credentials) {
    map[SOURCE_KEY := Some(SERVER), NONCE_KEY := Get(form, NONCE_KEY)]
  }

  /** The source and nonce keys are not among the copied fields. */
  lemma BaseKeysAreNotFields()
    ensures SOURCE_KEY != NONCE_KEY
    ensures SOURCE_KEY !in ASSERTION_KEYS && NONCE_KEY !in ASSERTION_KEYS
  {
  }

  /** The credentials a positive assertion produces. */
  function AssertionCredentials(form: map<string, Bytes>): (c: Credentials)
    ensures PositiveAssertion(form, c)
  {
    BaseKeysAreNotFields();
    CopyOverBase(form, ASSERTION_KEYS);
    CopyPresentFields(form, ASSERTION_KEYS, AssertionBase(form))
  }

  /** Copying fields other than the source and the nonce over the base gives an assertion. */
  lemma CopyOverBase(form: map<string, Bytes>, keys: seq<string>)
    requires SOURCE_KEY !in keys && NONCE_KEY !in keys
    ensures AssertionOver(form, keys, CopyPresentFields(form, keys, AssertionBase(form)))
  {
  }

  /**
   * `extractOpenIdServerResponse`: a positive assertion (`openid.mode` is
   * `id_res`) replaces the credentials; `cancel`, any other mode or no mode
   * leaves them as they were.
   */
  function ServerResponseStep(form: map<string, Bytes>, creds: Credentials): (r: Credentials)
    ensures Get(form, MODE_KEY) == Some(ID_RES) ==> PositiveAssertion(form, r)
    ensures Get(form, MODE_KEY) != Some(ID_RES) ==> r == creds
  {
    if Get(form, MODE_KEY) == Some(ID_RES) then AssertionCredentials(form) else creds
  }

  // ---------------------------------------------------------------------
  // Extraction
  // ---------------------------------------------------------------------

  /** What `Consumer.begin` does: start a handshake, or fail with `HTTPFetchingError`. */
  datatype BeginOutcome = Began | FetchFailed

  /**
   * The `Redirect` that `initiateChallenge` raises: the redirect URL the
   * consumer library builds for this identity, trust root and return target.
   */
  datatype Redirect = Redirect(identityUrl: Bytes, trustRoot: Bytes, returnTo: Bytes)

  /** The return target: the one given, else the `came_from` field, else the request URL. */
  function ReturnTarget(request: Request, returnTo: Option<Bytes>): (t: Bytes)
    ensures returnTo.Some? ==> t == returnTo.value
    ensures returnTo.None? && CAME_FROM_KEY in request.form ==> t == request.form[CAME_FROM_KEY]
    ensures returnTo.None? && CAME_FROM_KEY !in request.form ==> t == request.url
  {
    match returnTo
    case Some(target) => target
    case None => if CAME_FROM_KEY in request.form then request.form[CAME_FROM_KEY] else request.url
  }

  /**
   * `initiateChallenge`: `None` when the consumer could not begin (the
   * method returns normally), otherwise the redirect it raises.
   */
  function Challenge(cfg: Config, request: Request, identityUrl: Bytes, returnTo: Option<Bytes>, begin: BeginOutcome): (r: Option<Redirect>)
    ensures r.Some? <==> begin == Began
  {
    match begin
    case FetchFailed => None
    case Began => Some(Redirect(identityUrl, cfg.trustRoot, ReturnTarget(request, returnTo)))
  }

  /** `extractCredentials` either returns credentials or is cut short by a redirect. */
  datatype Extraction = Extracted(creds: Credentials) | Redirected(redirect: Redirect)

  /**
   * `extractCredentials`: a login request starts a challenge; otherwise the
   * provider's redirect is examined, and only if that produced nothing, the
   * session cookie.
   */
  function Extract(cfg: Config, request: Request, begin: BeginOutcome): (r: Extraction)
    ensures r.Redirected? <==> LOGIN_KEY in request.form && begin == Began
    ensures LOGIN_KEY in request.form && r.Extracted? ==> r.creds == map[]
    ensures LOGIN_KEY !in request.form && Get(request.form, MODE_KEY) == Some(ID_RES) ==>
      r == Extracted(AssertionCredentials(request.form))
  {
    match Get(request.form, LOGIN_KEY)
    case Some(identity) =>
      (match Challenge(cfg, request, identity, None, begin)
       case Some(redirect) => Redirected(redirect)
       case None => Extracted(map[]))
    case None =>
      var creds := ServerResponseStep(request.form, map[]);
      Extracted(if creds == map[] then CookieStep(cfg, request, creds) else creds)
  }

  // ---------------------------------------------------------------------
  // Authentication
  // ---------------------------------------------------------------------

  /** The status values of the consumer library's `complete` result. */
  datatype Status = Success | Failure | Cancel | SetupNeeded

  /** What `Consumer.complete` returns for the credentials. */
  datatype CompleteResult = CompleteResult(status: Status, identityUrl: Bytes, message: Bytes)

  /**
   * What `authenticateCredentials` yields: `None`, an `(id, login)` pair, or
   * the `KeyError` raised when the identity key is missing.
   */
  datatype AuthOutcome = NoIdentity | Identified(userId: Value, login: Value) | KeyErrorRaised(key: string)

  /** The outcome together with the session cookie value set on the response, if any. */
  datatype Authentication = Authentication(outcome: AuthOutcome, cookie: Option<Bytes>)

  /**
   * `authenticateCredentials`, dispatching on `openid.source`; `completion`
   * is what the consumer's `complete` returns and is consulted only for
   * server credentials.
   */
  function Authenticate(cfg: Config, credentials: Credentials, completion: CompleteResult): (a: Authentication)
    ensures a.cookie.Some? ==> a.outcome.Identified? && a.cookie == Some(SessionCookieValue(cfg, completion.identityUrl))
  {
    if SOURCE_KEY !in credentials then Authentication(NoIdentity, None)
    else if credentials[SOURCE_KEY] == Some(COOKIE) then
      if IDENTITY_KEY in credentials then
        var identity := credentials[IDENTITY_KEY];
        Authentication(Identified(identity, identity), None)
      else Authentication(KeyErrorRaised(IDENTITY_KEY), None)
    else if credentials[SOURCE_KEY] == Some(SERVER) then
      if IDENTITY_KEY !in credentials then Authentication(KeyErrorRaised(IDENTITY_KEY), None)
      else
        var identity := credentials[IDENTITY_KEY];
        if completion.status == Success then
          Authentication(Identified(identity, identity), Some(SessionCookieValue(cfg, completion.identityUrl)))
        else Authentication(NoIdentity, None)
    else Authentication(NoIdentity, None)
  }
}
