/**
 * What the credential-handling logic promises: the session cookie's round
 * trip (and where it breaks), the precedence of the three extraction paths,
 * the exact contents of the credential dictionary, and the end-to-end
 * outcomes of extraction followed by authentication.
 */
module OpenIdProperties {
  import opened Wrappers
  import opened PyStr
  import Base64
  import opened OpenIdModel

  // ---------------------------------------------------------------------
  // The session cookie
  // ---------------------------------------------------------------------

  /**
   * Parsing the cookie `setSessionCookie` writes gives back the identity and
   * its signature exactly when the identity is 1 to 57 bytes long. A longer
   * identity's base64 keeps the newlines MIME base64 puts every 76
   * characters, and an empty one encodes to nothing, so either way the
   * cookie does not split into two tokens.
   */
  lemma ParseSessionCookie(cfg: Config, identity: Bytes)
    ensures ParseCookie(cfg.crypto, SessionCookieValue(cfg, identity)) ==
      if 1 <= |identity| <= Base64.MAX_BIN_SIZE then Some((identity, SignIdentity(cfg, identity))) else None
  {
    var signature := SignIdentity(cfg, identity);
    Base64.StrippedEncoding(identity);
    Base64.StrippedEncoding(signature);
    var a, b := JoinLines(Base64.Lines(identity)), JoinLines(Base64.Lines(signature));
    assert SessionCookieValue(cfg, identity) == a + [' '] + b;
    SplitAtSpace(a, ' ', b);
    SplitJoinLines(Base64.Lines(identity));
    SplitJoinLines(Base64.Lines(signature));
    var tokens := Split(SessionCookieValue(cfg, identity));
    assert tokens == Base64.Lines(identity) + [Base64.EncodeLine(signature)];
    if 1 <= |identity| <= Base64.MAX_BIN_SIZE {
      assert tokens == [Base64.EncodeLine(identity), Base64.EncodeLine(signature)];
      Base64.DecodeOfEncodeLine(cfg.crypto.lenientDecode, identity);
      Base64.DecodeOfEncodeLine(cfg.crypto.lenientDecode, signature);
    } else {
      assert |identity| == 0 ==> Base64.Lines(identity) == [];
      assert |tokens| != 2;
    }
  }

  /**
   * Round trip: the cookie issued for an identity of 1 to 57 bytes is
   * accepted and yields exactly that identity, sourced from the cookie; the
   * cookie issued for any other identity is ignored.
   */
  lemma SessionCookieRoundTrip(cfg: Config, request: Request, creds: Credentials, identity: Bytes)
    requires cfg.cookieName in request.lookup
    requires request.lookup[cfg.cookieName] == SessionCookieValue(cfg, identity)
    ensures CookieStep(cfg, request, creds) ==
      if 1 <= |identity| <= Base64.MAX_BIN_SIZE then CookieCredentials(identity) else creds
  {
    ParseSessionCookie(cfg, identity);
  }

  /**
   * A cookie signed under another key (a rotated store key) is accepted
   * exactly when the two keys give the identity the same HMAC; otherwise it
   * is ignored, without error.
   */
  lemma CookieUnderOtherKey(cfg: Config, issuer: Config, request: Request, creds: Credentials, identity: Bytes)
    requires issuer.crypto == cfg.crypto
    requires 1 <= |identity| <= Base64.MAX_BIN_SIZE
    requires cfg.cookieName in request.lookup
    requires request.lookup[cfg.cookieName] == SessionCookieValue(issuer, identity)
    ensures CookieStep(cfg, request, creds) ==
      if SignIdentity(issuer, identity) == SignIdentity(cfg, identity) then CookieCredentials(identity) else creds
  {
    ParseSessionCookie(issuer, identity);
  }

  /**
   * Cookie rejection: a cookie that splits into two tokens, one of which
   * does not decode as base64, is ignored and the credentials stay as they
   * were; no error escapes.
   */
  lemma UndecodableCookieIgnored(cfg: Config, request: Request, creds: Credentials)
    requires cfg.cookieName in request.lookup
    requires |Split(request.lookup[cfg.cookieName])| == 2
    requires || Base64.Decode(cfg.crypto.lenientDecode, Split(request.lookup[cfg.cookieName])[0]).None?
             || Base64.Decode(cfg.crypto.lenientDecode, Split(request.lookup[cfg.cookieName])[1]).None?
    ensures CookieStep(cfg, request, creds) == creds
  {
  }

  /**
   * Cookie rejection: a cookie that does not split into exactly two tokens
   * is ignored, whatever its tokens decode to.
   */
  lemma MalformedCookieIgnored(cfg: Config, request: Request, creds: Credentials)
    requires cfg.cookieName in request.lookup
    requires |Split(request.lookup[cfg.cookieName])| != 2
    ensures CookieStep(cfg, request, creds) == creds
  {
  }

  // ---------------------------------------------------------------------
  // The provider's redirect
  // ---------------------------------------------------------------------

  /** A positive assertion fixes the dictionary completely: no other keys, no other values. */
  lemma PositiveAssertionUnique(form: map<string, Bytes>, c1: Credentials, c2: Credentials)
    requires PositiveAssertion(form, c1) && PositiveAssertion(form, c2)
    ensures c1 == c2
  {
  }

  /** After a positive assertion the mode is always recorded, and it is `id_res`. */
  lemma AssertionRecordsMode(form: map<string, Bytes>, c: Credentials)
    requires Get(form, MODE_KEY) == Some(ID_RES)
    requires PositiveAssertion(form, c)
    ensures MODE_KEY in c && c[MODE_KEY] == Some(ID_RES)
    ensures c[SOURCE_KEY] == Some(SERVER)
  {
  }

  // ---------------------------------------------------------------------
  // Extraction: which path wins
  // ---------------------------------------------------------------------

  /**
   * A login request only starts a challenge: the outcome is the redirect, or
   * the empty dictionary when the consumer cannot begin, and it depends on
   * nothing but the claimed identity, `came_from`, the URL and the
   * consumer's answer, never on the provider's fields or the cookie.
   */
  lemma LoginTriggerOnlyChallenges(cfg: Config, request: Request, begin: BeginOutcome)
    requires LOGIN_KEY in request.form
    ensures Extract(cfg, request, begin) ==
      match begin
      case Began => Redirected(Redirect(request.form[LOGIN_KEY], cfg.trustRoot, ReturnTarget(request, None)))
      case FetchFailed => Extracted(map[])
  {
  }

  /**
   * A positive assertion takes precedence over the cookie: whatever the
   * request's cookie, extraction yields exactly the server's credentials,
   * with the mode recorded as `id_res`.
   */
  lemma AssertionTakesPrecedence(cfg: Config, request: Request, begin: BeginOutcome)
    requires LOGIN_KEY !in request.form
    requires Get(request.form, MODE_KEY) == Some(ID_RES)
    ensures Extract(cfg, request, begin) == Extracted(AssertionCredentials(request.form))
    ensures PositiveAssertion(request.form, Extract(cfg, request, begin).creds)
    ensures Extract(cfg, request, begin).creds[MODE_KEY] == Some(ID_RES)
  {
  }

  /**
   * Without a login request or a positive assertion (a `cancel`, another
   * mode, or no mode), extraction is the cookie step on an empty dictionary.
   */
  lemma CookieWithoutAssertion(cfg: Config, request: Request, begin: BeginOutcome)
    requires LOGIN_KEY !in request.form
    requires Get(request.form, MODE_KEY) != Some(ID_RES)
    ensures Extract(cfg, request, begin) == Extracted(CookieStep(cfg, request, map[]))
  {
  }

  /**
   * A cancelled assertion does not clear the session: with `openid.mode`
   * `cancel` and a valid session cookie, extraction still yields the
   * cookie's identity.
   */
  lemma CancelKeepsCookieIdentity(cfg: Config, request: Request, begin: BeginOutcome, identity: Bytes)
    requires LOGIN_KEY !in request.form
    requires Get(request.form, MODE_KEY) == Some(CANCEL)
    requires 1 <= |identity| <= Base64.MAX_BIN_SIZE
    requires cfg.cookieName in request.lookup
    requires request.lookup[cfg.cookieName] == SessionCookieValue(cfg, identity)
    ensures Extract(cfg, request, begin) == Extracted(CookieCredentials(identity))
  {
    assert CANCEL != ID_RES;
    SessionCookieRoundTrip(cfg, request, map[], identity);
  }

  /**
   * Every dictionary extraction returns is empty or names its source, and
   * the source is `server` or `cookie`.
   */
  lemma ExtractedSource(cfg: Config, request: Request, begin: BeginOutcome)
    requires Extract(cfg, request, begin).Extracted?
    ensures var c := Extract(cfg, request, begin).creds;
      (c == map[] <==> SOURCE_KEY !in c) &&
      (SOURCE_KEY in c ==> c[SOURCE_KEY] == Some(SERVER) || c[SOURCE_KEY] == Some(COOKIE))
  {
  }

  // ---------------------------------------------------------------------
  // Extraction followed by authentication
  // ---------------------------------------------------------------------

  /** No login, no provider fields, no cookie: nothing is extracted and nobody is authenticated. */
  lemma AnonymousRequest(cfg: Config, request: Request, begin: BeginOutcome, completion: CompleteResult)
    requires LOGIN_KEY !in request.form && MODE_KEY !in request.form
    requires cfg.cookieName !in request.lookup
    ensures Extract(cfg, request, begin) == Extracted(map[])
    ensures Authenticate(cfg, map[], completion) == Authentication(NoIdentity, None)
  {
  }

  /**
   * A request carrying the session cookie for an identity of 1 to 57 bytes
   * (and no login or positive assertion) authenticates as that identity,
   * with no cookie set.
   */
  lemma CookieRequestAuthenticates(cfg: Config, request: Request, begin: BeginOutcome, completion: CompleteResult, identity: Bytes)
    requires LOGIN_KEY !in request.form
    requires Get(request.form, MODE_KEY) != Some(ID_RES)
    requires 1 <= |identity| <= Base64.MAX_BIN_SIZE
    requires cfg.cookieName in request.lookup
    requires request.lookup[cfg.cookieName] == SessionCookieValue(cfg, identity)
    ensures Extract(cfg, request, begin) == Extracted(CookieCredentials(identity))
    ensures Authenticate(cfg, CookieCredentials(identity), completion) ==
      Authentication(Identified(Some(identity), Some(identity)), None)
  {
    SessionCookieRoundTrip(cfg, request, map[], identity);
  }

  /**
   * A positive assertion naming `openid.identity` that the provider
   * completes successfully authenticates as that form identity and sets one
   * session cookie, for the identity the provider reported; with any other
   * status nobody is authenticated and no cookie is set.
   */
  lemma AssertionAuthenticates(cfg: Config, form: map<string, Bytes>, c: Credentials, completion: CompleteResult)
    requires PositiveAssertion(form, c)
    requires IDENTITY_KEY in form
    ensures Authenticate(cfg, c, completion) ==
      if completion.status == Success then
        Authentication(Identified(Some(form[IDENTITY_KEY]), Some(form[IDENTITY_KEY])),
                       Some(SessionCookieValue(cfg, completion.identityUrl)))
      else Authentication(NoIdentity, None)
  {
  }

  /** A positive assertion copies the form's `openid.identity`. */
  lemma AssertionRecordsIdentity(form: map<string, Bytes>, c: Credentials)
    requires PositiveAssertion(form, c)
    requires IDENTITY_KEY in form
    ensures IDENTITY_KEY in c && c[IDENTITY_KEY] == Some(form[IDENTITY_KEY])
    ensures c[SOURCE_KEY] == Some(SERVER)
  {
  }

  /**
   * Session continuity: a positive assertion that the provider completes
   * successfully authenticates the first request as the form's
   * `openid.identity` and sets the session cookie for the identity the
   * provider reported; a later request that carries only that cookie is
   * then authenticated as the reported identity (when it is 1 to 57 bytes),
   * which need not be the identity the first request was authenticated as.
   */
  lemma SessionContinues(cfg: Config, first: Request, later: Request, begin: BeginOutcome, completion: CompleteResult, next: CompleteResult)
    requires LOGIN_KEY !in first.form
    requires Get(first.form, MODE_KEY) == Some(ID_RES) && IDENTITY_KEY in first.form
    requires completion.status == Success
    requires 1 <= |completion.identityUrl| <= Base64.MAX_BIN_SIZE
    requires LOGIN_KEY !in later.form && MODE_KEY !in later.form
    requires cfg.cookieName in later.lookup
    requires later.lookup[cfg.cookieName] == SessionCookieValue(cfg, completion.identityUrl)
    ensures Extract(cfg, first, begin).Extracted?
    ensures Authenticate(cfg, Extract(cfg, first, begin).creds, completion) ==
      Authentication(Identified(Some(first.form[IDENTITY_KEY]), Some(first.form[IDENTITY_KEY])), Some(later.lookup[cfg.cookieName]))
    ensures Extract(cfg, later, begin) == Extracted(CookieCredentials(completion.identityUrl))
    ensures Authenticate(cfg, Extract(cfg, later, begin).creds, next) ==
      Authentication(Identified(Some(completion.identityUrl), Some(completion.identityUrl)), None)
  {
    AssertionTakesPrecedence(cfg, first, begin);
    AssertionAuthenticates(cfg, first.form, AssertionCredentials(first.form), completion);
    CookieRequestAuthenticates(cfg, later, begin, next, completion.identityUrl);
  }

  /**
   * The dispatch on `openid.source`: no source gives no identity; `cookie`
   * is trusted as it stands; `server` is decided by the provider's status
   * alone; any other value gives no identity. A missing identity raises
   * `KeyError`. No branch but a successful completion sets a cookie.
   */
  lemma AuthenticationDispatch(cfg: Config, credentials: Credentials, completion: CompleteResult)
    ensures SOURCE_KEY !in credentials ==> Authenticate(cfg, credentials, completion) == Authentication(NoIdentity, None)
    ensures SOURCE_KEY in credentials && credentials[SOURCE_KEY] == Some(COOKIE) && IDENTITY_KEY in credentials ==>
      Authenticate(cfg, credentials, completion) ==
        Authentication(Identified(credentials[IDENTITY_KEY], credentials[IDENTITY_KEY]), None)
    ensures SOURCE_KEY in credentials && credentials[SOURCE_KEY] == Some(SERVER) && IDENTITY_KEY in credentials ==>
      Authenticate(cfg, credentials, completion) ==
        if completion.status == Success then
          Authentication(Identified(credentials[IDENTITY_KEY], credentials[IDENTITY_KEY]),
                         Some(SessionCookieValue(cfg, completion.identityUrl)))
        else Authentication(NoIdentity, None)
    ensures SOURCE_KEY in credentials && credentials[SOURCE_KEY] != Some(COOKIE) && credentials[SOURCE_KEY] != Some(SERVER) ==>
      Authenticate(cfg, credentials, completion) == Authentication(NoIdentity, None)
    ensures (SOURCE_KEY in credentials && IDENTITY_KEY !in credentials &&
             (credentials[SOURCE_KEY] == Some(COOKIE) || credentials[SOURCE_KEY] == Some(SERVER))) ==>
      Authenticate(cfg, credentials, completion) == Authentication(KeyErrorRaised(IDENTITY_KEY), None)
    ensures Authenticate(cfg, credentials, completion).cookie.Some? <==>
      && SOURCE_KEY in credentials && credentials[SOURCE_KEY] == Some(SERVER)
      && IDENTITY_KEY in credentials && completion.status == Success
  {
  }
}
