/**
 * The OpenID plugin object. Its extraction steps clear and refill the
 * caller's credential dictionary in place, and issuing a session cookie
 * changes the HTTP response; each method is proved against the function of
 * module OpenIdModel that describes it.
 */
module OpenIdPlugin {
  import opened Wrappers
  import opened PyStr
  import opened OpenIdModel
  import Base64

  /** A credential dictionary, shared between the extraction steps and changed in place. */
  class CredentialDict {
    var items: Credentials

    constructor ()
      ensures items == map[]
    {
      items := map[];
    }
  }

  /** The HTTP response, reduced to the cookies set on it, in the order they were set. */
  class Response {
    var cookies: seq<(string, Bytes)>

    constructor ()
      ensures cookies == []
    {
      cookies := [];
    }

    /** `setCookie(name, value)`. */
    method SetCookie(name: string, value: Bytes)
      modifies this
      ensures cookies == old(cookies) + [(name, value)]
    {
      cookies := cookies + [(name, value)];
    }
  }

  class Plugin {
    /** Cookie name, trust root, signing key and primitives; none of them change here. */
    const cfg: Config

    constructor (cfg: Config)
      ensures this.cfg == cfg
    {
      this.cfg := cfg;
    }

    /**
     * `setSessionCookie`: sign the identity the provider confirmed and set
     * exactly one cookie, under the configured name, holding it.
     */
    method SetSessionCookie(result: CompleteResult, response: Response)
      modifies response
      ensures response.cookies == old(response.cookies) + [(cfg.cookieName, SessionCookieValue(cfg, result.identityUrl))]
    {
      var identity := result.identityUrl;
      var signature := SignIdentity(cfg, identity);
      var cookie := Strip(Base64.EncodeString(identity)) + " " + Strip(Base64.EncodeString(signature));
      response.SetCookie(cfg.cookieName, cookie);
    }

    /**
     * `extractOpenIdCookie`: a present, well-formed, correctly signed cookie
     * replaces the credentials with its identity; anything else returns
     * early and leaves them untouched.
     */
    method ExtractOpenIdCookie(request: Request, creds: CredentialDict)
      modifies creds
      ensures creds.items == CookieStep(cfg, request, old(creds.items))
    {
      if cfg.cookieName !in request.lookup {
        return;
      }
      var cookie := request.lookup[cfg.cookieName];
      var tokens := Split(cookie);
      if |tokens| != 2 {
        return;
      }
      var identity := Base64.Decode(cfg.crypto.lenientDecode, tokens[0]);
      if identity.None? {
        return;
      }
      var signature := Base64.Decode(cfg.crypto.lenientDecode, tokens[1]);
      if signature.None? {
        return;
      }
      if signature.value != SignIdentity(cfg, identity.value) {
        return;
      }
      creds.items := map[];
      creds.items := creds.items[IDENTITY_KEY := Some(identity.value)];
      creds.items := creds.items[SOURCE_KEY := Some(COOKIE)];
    }

    /**
     * `extractOpenIdServerResponse`: on a positive assertion, clear the
     * credentials, record the source and the nonce, then copy each protocol
     * field the form carries; on any other mode, do nothing.
     */
    method ExtractOpenIdServerResponse(request: Request, creds: CredentialDict)
      modifies creds
      ensures creds.items == ServerResponseStep(request.form, old(creds.items))
    {
      var form := request.form;
      var mode := Get(form, MODE_KEY);
      if mode == Some(ID_RES) {
        creds.items := map[];
        creds.items := creds.items[SOURCE_KEY := Some(SERVER)];
        creds.items := creds.items[NONCE_KEY := Get(form, NONCE_KEY)];
        CopyFields(form, ASSERTION_KEYS, creds);
      } else if mode == Some(CANCEL) {
        // A negative assertion: the user did not authorise; nothing to extract.
      }
    }

    /** The loop of `extractOpenIdServerResponse`: copy each of `keys` the form carries. */
    method CopyFields(form: map<string, Bytes>, keys: seq<string>, creds: CredentialDict)
      modifies creds
      ensures creds.items == CopyPresentFields(form, keys, old(creds.items))
    {
      var i := 0;
      while i < |keys|
        invariant 0 <= i <= |keys|
        invariant CopyPresentFields(form, keys[i..], creds.items) == CopyPresentFields(form, keys, old(creds.items))
      {
        var field := keys[i];
        assert keys[i..][1..] == keys[i + 1..];
        if field in form {
          creds.items := creds.items[field := Some(form[field])];
        }
        i := i + 1;
      }
    }

    /**
     * `initiateChallenge`: when the consumer cannot begin, return normally;
     * otherwise resolve the return target and raise the redirect (after
     * committing the transaction, which this model does not represent).
     */
    method InitiateChallenge(request: Request, identityUrl: Bytes, returnTo: Option<Bytes>, begin: BeginOutcome)
      returns (redirect: Option<Redirect>)
      ensures redirect == Challenge(cfg, request, identityUrl, returnTo, begin)
    {
      if begin == FetchFailed {
        return None;
      }
      var target := returnTo;
      if target.None? {
        target := Some(if CAME_FROM_KEY in request.form then request.form[CAME_FROM_KEY] else request.url);
      }
      redirect := Some(Redirect(identityUrl, cfg.trustRoot, target.value));
    }

    /**
     * `extractCredentials`: a fresh dictionary, filled by the login trigger,
     * the provider's redirect, or the cookie, in that order of precedence.
     */
    method ExtractCredentials(request: Request, begin: BeginOutcome) returns (result: Extraction)
      ensures result == Extract(cfg, request, begin)
    {
      var creds := new CredentialDict();
      var identity := Get(request.form, LOGIN_KEY);
      if identity.Some? {
        var redirect := InitiateChallenge(request, identity.value, None, begin);
        if redirect.Some? {
          return Redirected(redirect.value);
        }
        return Extracted(creds.items);
      }
      ExtractOpenIdServerResponse(request, creds);
      if creds.items == map[] {
        ExtractOpenIdCookie(request, creds);
      }
      result := Extracted(creds.items);
    }

    /**
     * `authenticateCredentials`: dispatch on `openid.source`. Only server
     * credentials that the provider completes successfully change the
     * response, by setting one session cookie.
     */
    method AuthenticateCredentials(credentials: Credentials, completion: CompleteResult, response: Response)
      returns (outcome: AuthOutcome)
      modifies response
      ensures outcome == Authenticate(cfg, credentials, completion).outcome
      ensures Authenticate(cfg, credentials, completion).cookie.None? ==> response.cookies == old(response.cookies)
      ensures Authenticate(cfg, credentials, completion).cookie.Some? ==>
        response.cookies == old(response.cookies) + [(cfg.cookieName, Authenticate(cfg, credentials, completion).cookie.value)]
    {
      if SOURCE_KEY !in credentials {
        return NoIdentity;
      }
      if credentials[SOURCE_KEY] == Some(COOKIE) {
        if IDENTITY_KEY !in credentials {
          return KeyErrorRaised(IDENTITY_KEY);
        }
        var identity := credentials[IDENTITY_KEY];
        return Identified(identity, identity);
      } else if credentials[SOURCE_KEY] == Some(SERVER) {
        var result := completion;
        if IDENTITY_KEY !in credentials {
          return KeyErrorRaised(IDENTITY_KEY);
        }
        var identity := credentials[IDENTITY_KEY];
        if result.status == Success {
          SetSessionCookie(result, response);
          return Identified(identity, identity);
        }
      }
      return NoIdentity;
    }
  }
}
