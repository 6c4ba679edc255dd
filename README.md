# OpenID relying-party credential handling, in Dafny

This project models the credential-handling core of the OpenID plugin for
Zope's Pluggable Authentication Service (`plone/openid/plugins/oid.py`) and
proves what it promises. The plugin works in three steps:

- **Extraction** (`extractCredentials`) sorts a request into one of three paths, in fixed order:
  - an explicit login request (`__ac_identity_url`), which starts an OpenID challenge;
  - a provider redirect with `openid.mode` = `id_res`, whose protocol fields are copied into a credential dictionary;
  - a signed session cookie.
- **Authentication** (`authenticateCredentials`) maps the dictionary to nothing or to an `(id, login)` pair, keyed on `openid.source`.
- **Cookie issuance** (`setSessionCookie`, `signIdentity`): after the provider completes an assertion successfully, a session cookie is set. It holds the base64 of the identity and the base64 of its HMAC-SHA1, joined by a space.

Layout:

- `pystr.dfy` (`PyStr`): Python 2 byte strings, `str.split()` and `str.strip()`, with lemmas on splitting at whitespace.
- `base64.dfy` (`Base64`): MIME base64 (section 6.8 of RFC 2045) as Python 2's `encode("base64")` writes it, with one line per 57-byte chunk. It also holds a strict decoder for canonical lines, proved to be the exact inverse of the line encoder.
- `oid_model.dfy` (`OpenIdModel`): the plugin's behaviour as functions. This covers the cookie value and its parsing, the two extraction steps, extraction, challenge initiation and authentication.
- `oid_plugin.dfy` (`OpenIdPlugin`): the plugin as classes. The extraction steps clear and refill a shared `CredentialDict` in place, and `setSessionCookie` appends to a `Response`. Each method is proved against its function in `OpenIdModel`.
- `oid_properties.dfy` (`OpenIdProperties`): cookie round trip, precedence, dictionary contents and end-to-end outcomes.

External collaborators are parameters:

- HMAC-SHA1 (`cryptutil.hmacSha1`) is an uninterpreted function from (key, message) to a 20-byte digest. The key is the association store's auth key, as in the code, not the plugin's `secret`.
- `a2b_base64` on input that is not a canonical single-line encoding is an uninterpreted partial function.
- The consumer library's `begin` and `complete` are represented by the outcomes they return (`BeginOutcome`, `CompleteResult`).

A request with `openid.mode=cancel` does not clear an existing session. The server-response step does nothing for `cancel` and leaves the dictionary empty, so the cookie step still runs and a valid session cookie is accepted (`CancelKeepsCookieIdentity`).

## Model

| member | source | states |
|---|---|---|
| PyStr.Split | plone/openid/plugins/oid.py:109 | `split()` returns only non-empty whitespace-free words, and returns none exactly when the string is all whitespace |
| PyStr.SplitAtSpace | plone/openid/plugins/oid.py:109 | `split()` of `x + [c] + y`, with `c` whitespace, is the words of `x` followed by the words of `y` |
| PyStr.SplitJoinLines | plone/openid/plugins/oid.py:109 | `split()` of whitespace-free words joined by newlines gives back exactly those words |
| PyStr.StripJoinLinesNewline | plone/openid/plugins/oid.py:94 | `strip()` removes only the final newline from newline-joined words |
| Base64.EncodeLine | plone/openid/plugins/oid.py:94 | one base64 line has 4·⌈n/3⌉ characters and no whitespace |
| Base64.DecodeLine | plone/openid/plugins/oid.py:110-111 | a line the strict decoder accepts has 4·⌈n/3⌉ characters for n decoded bytes; `DecodeEncodeLine` and `EncodeDecodeLine` make it the exact inverse of the line encoder |
| Base64.DecodeEncodeLine | plone/openid/plugins/oid.py:110-111 | decoding a line the encoder wrote gives back exactly the encoded bytes |
| Base64.EncodeDecodeLine | plone/openid/plugins/oid.py:110-111 | the strict decoder accepts only canonical text: whatever it decodes re-encodes to the same line |
| Base64.EncodeString | plone/openid/plugins/oid.py:94 | `encode("base64")` is empty exactly for the empty string, otherwise ends in a newline, and for 1 to 57 bytes is the one encoded line plus a newline |
| Base64.EncodeStringLines | plone/openid/plugins/oid.py:94 | `encode("base64")` of a non-empty string is its lines, one per 57-byte chunk, joined by newlines, plus a trailing newline |
| Base64.StrippedEncoding | plone/openid/plugins/oid.py:94 | the stripped encoding is the newline-joined lines, and it is a single line iff the input has 1 to 57 bytes |
| Base64.Decode | plone/openid/plugins/oid.py:110-111 | `decode("base64")` agrees with the canonical decoding wherever the input is a canonical line |
| Base64.DecodeOfEncodeLine | plone/openid/plugins/oid.py:110-111 | a line the encoder wrote decodes to its bytes, whatever the lenient decoder does elsewhere |
| OpenIdModel.SignIdentity | plone/openid/plugins/oid.py:77-83 | the signature is HMAC-SHA1 over the identity under the association store's auth key |
| OpenIdModel.SessionCookieValue | plone/openid/plugins/oid.py:91-94 | the cookie is the identity's newline-joined base64 lines, one space, and the signature's single base64 line; for an identity of 1 to 57 bytes it is exactly two base64 lines joined by a space |
| OpenIdModel.ParseCookie | plone/openid/plugins/oid.py:106-113 | a cookie parses iff it splits into exactly two whitespace-separated tokens and both decode (a `ValueError` or `binascii.Error` otherwise); a parse is the pair of the two decodings |
| OpenIdModel.CookieStep | plone/openid/plugins/oid.py:100-121 | a present cookie that splits into two tokens, decodes, and whose signature equals the identity's HMAC replaces the credentials with exactly `{openid.identity, openid.source: "cookie"}` (cleared, not merged); any other request leaves them unchanged |
| OpenIdProperties.UndecodableCookieIgnored | plone/openid/plugins/oid.py:109-113 | a two-token cookie with a token that fails to decode leaves the credentials unchanged |
| OpenIdProperties.MalformedCookieIgnored | plone/openid/plugins/oid.py:109-113 | a cookie that does not split into exactly two tokens leaves the credentials unchanged |
| OpenIdModel.CopyPresentFields | plone/openid/plugins/oid.py:139-143 | the field loop adds exactly the listed keys present in the form, with the form's values, and keeps every other entry |
| OpenIdModel.AssertionCredentials | plone/openid/plugins/oid.py:136-143 | a positive assertion's dictionary has exactly the keys `openid.source` = "server", `nonce` (the form's value, or None), and each listed protocol field the form carries, with its value |
| OpenIdModel.ServerResponseStep | plone/openid/plugins/oid.py:132-147 | mode `id_res` yields exactly the positive-assertion dictionary; `cancel`, any other mode, or no mode leaves the credentials unchanged |
| OpenIdModel.ReturnTarget | plone/openid/plugins/oid.py:164-165 | the return target is the given one, else the `came_from` field, else the request URL |
| OpenIdModel.Challenge | plone/openid/plugins/oid.py:151-176 | a challenge redirects iff the consumer began the handshake; a fetch error returns normally |
| OpenIdModel.Extract | plone/openid/plugins/oid.py:180-196 | extraction redirects iff a login field is present and the consumer began; a login that cannot begin gives `{}`; without a login, mode `id_res` gives exactly the positive-assertion dictionary |
| OpenIdModel.Authenticate | plone/openid/plugins/oid.py:200-218 | a cookie is set only alongside an identification, and it is the session cookie for the identity the provider reported |
| OpenIdPlugin.Response.SetCookie | plone/openid/plugins/oid.py:97 | setting a cookie appends exactly one (name, value) pair to the response |
| OpenIdPlugin.Plugin.SetSessionCookie | plone/openid/plugins/oid.py:86-97 | sets exactly one cookie, under the configured name, holding the signed cookie value for `result.identity_url` |
| OpenIdPlugin.Plugin.ExtractOpenIdCookie | plone/openid/plugins/oid.py:100-121 | the in-place dictionary ends up as the cookie step of its old contents |
| OpenIdPlugin.Plugin.CopyFields | plone/openid/plugins/oid.py:139-143 | the `for` loop over the field list leaves the dictionary as the field copy of its old contents |
| OpenIdPlugin.Plugin.ExtractOpenIdServerResponse | plone/openid/plugins/oid.py:124-147 | the in-place dictionary ends up as the server-response step of its old contents |
| OpenIdPlugin.Plugin.InitiateChallenge | plone/openid/plugins/oid.py:151-176 | returns the redirect the challenge raises, or nothing when the consumer cannot begin |
| OpenIdPlugin.Plugin.ExtractCredentials | plone/openid/plugins/oid.py:180-196 | the outcome threaded through a fresh dictionary equals the extraction function, precedence included |
| OpenIdPlugin.Plugin.AuthenticateCredentials | plone/openid/plugins/oid.py:200-218 | returns the dispatch outcome and appends to the response exactly the one cookie the dispatch issues, or nothing |
| OpenIdProperties.ParseSessionCookie | plone/openid/plugins/oid.py:91-94 | the cookie written for identity I parses to (I, sign(I)) iff 1 ≤ \|I\| ≤ 57; otherwise it does not split into two tokens |
| OpenIdProperties.SessionCookieRoundTrip | plone/openid/plugins/oid.py:103-121 | the issued cookie is accepted and yields exactly `{openid.identity: I, openid.source: "cookie"}` iff 1 ≤ \|I\| ≤ 57; otherwise the credentials are unchanged |
| OpenIdProperties.CookieUnderOtherKey | plone/openid/plugins/oid.py:115-117 | a cookie signed under another store key is accepted iff both keys give the identity the same HMAC; otherwise it is ignored |
| OpenIdProperties.PositiveAssertionUnique | plone/openid/plugins/oid.py:136-143 | the positive-assertion characterisation fixes every key and value: nothing else can be in the dictionary |
| OpenIdProperties.AssertionRecordsMode | plone/openid/plugins/oid.py:137-143 | after a positive assertion, `openid.mode` is always present and equals "id_res", and the source is "server" |
| OpenIdProperties.AssertionRecordsIdentity | plone/openid/plugins/oid.py:139-143 | a positive assertion copies the form's `openid.identity` |
| OpenIdProperties.LoginTriggerOnlyChallenges | plone/openid/plugins/oid.py:186-190 | with `__ac_identity_url` present, the outcome is the challenge's redirect or the empty dictionary. It depends only on the claimed identity, `came_from`, the URL and the consumer's answer |
| OpenIdProperties.AssertionTakesPrecedence | plone/openid/plugins/oid.py:192-194 | mode `id_res` yields the server dictionary whatever the cookie, with `openid.mode` = "id_res" |
| OpenIdProperties.CookieWithoutAssertion | plone/openid/plugins/oid.py:192-194 | without a login or a positive assertion, extraction is exactly the cookie step on an empty dictionary |
| OpenIdProperties.CancelKeepsCookieIdentity | plone/openid/plugins/oid.py:144-147 | with mode `cancel` and a valid session cookie, extraction yields the cookie identity |
| OpenIdProperties.ExtractedSource | plone/openid/plugins/oid.py:180-196 | an extracted dictionary is empty iff it has no `openid.source`, and the source is "server" or "cookie" |
| OpenIdProperties.AnonymousRequest | plone/openid/plugins/oid.py:186-202 | no login, no mode and no cookie: an empty dictionary, then no identity and no cookie |
| OpenIdProperties.CookieRequestAuthenticates | plone/openid/plugins/oid.py:204-206 | a valid session cookie for I authenticates as (I, I) and sets no cookie |
| OpenIdProperties.AssertionAuthenticates | plone/openid/plugins/oid.py:207-218 | server credentials: on SUCCESS, (form identity, form identity) plus one cookie for the provider's `identity_url`; on any other status, no identity and no cookie |
| OpenIdProperties.SessionContinues | plone/openid/plugins/oid.py:91-97 | a successful completion authenticates the first request as the form's `openid.identity` and sets the cookie for the provider's `identity_url`; a later request carrying only that cookie authenticates as `identity_url` (if it has 1 to 57 bytes), which may differ |
| OpenIdProperties.AuthenticationDispatch | plone/openid/plugins/oid.py:200-218 | no source gives no identity. "cookie" gives (identity, identity) and no cookie. "server" gives (identity, identity) plus one cookie on SUCCESS, and otherwise no identity. Any other source gives no identity. A missing identity raises `KeyError`. A cookie is set iff source "server", identity present and SUCCESS |

## Left out

- `initiateChallenge` is reduced to its outcome. `Consumer.begin`, `redirectURL`, `transaction.commit()` and the `Redirect` exception become a `Redirect(identity, trust root, return target)` value. Committing before the redirect is not represented.
- The `KeyError` branch of `initiateChallenge` is not modelled. That handler reads `e.why`, which a `KeyError` does not have, and the code after it would use an unbound `result`.
- `getConsumer`, `Consumer.complete` and `ZopeStore` are not modelled. `complete`'s answer is a parameter, and its effects on the association and nonce store are not represented.
- `cryptutil.hmacSha1` is uninterpreted, so HMAC's collision resistance is not available. The model therefore cannot prove that an identity's cookie fails to verify for a different identity or key. It can only prove the condition under which it does (`CookieUnderOtherKey`).
- `store.getAuthKey()` is the configuration's `authKey`. Key rotation is a change of configuration.
- Base64.Decode: does not model `a2b_base64` on input that is not a canonical single-line encoding. Python's decoder is lenient there (it skips non-alphabet bytes), so that behaviour is an uninterpreted parameter, and no rejection of "non-base64" text is claimed.
- Plugin registration, the management pages, `_properties`, `__init__` and `GenerateSecret`, and `addOpenIdPlugin` are framework plumbing and are not modelled.
- Logging of consumer errors and failed completions is not modelled.
- The HTTP response is reduced to the list of cookies set on it.
- The request is reduced to three parts: its form, the one namespace that `name in request` and `request.get` search, and its URL. How Zope merges cookies, form fields and other variables into that namespace is not modelled.
- Form values that are not strings (Zope's `:list` marshalling) and unicode values are not modelled. Every value is a Python 2 byte string.
- OpenIdModel.Authenticate: its contract states only the cookie-issuance rule. The full dispatch is stated by `AuthenticationDispatch`. A missing `openid.identity` in cookie or server credentials is modelled as a `KeyError` outcome.
- The signature comparison is plain equality, as in the code. Timing behaviour is outside the model.
