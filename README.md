# JWT authentication for the Box API client

A model of `JWTAuth` from the Box Python SDK. This authenticator obtains OAuth2
access tokens through the JWT bearer grant, acting either as one user or as a
whole enterprise (an "instance"). Each authentication does four things:

1. It resolves the subject. This is the user id or enterprise id it signs for.
   The authenticator remembers the last user id and the enterprise id.
2. It builds the claim set. The claims are `iss`, `sub`, `box_sub_type`, `aud`,
   `jti` and `exp`:
   - `jti` is a random alphanumeric id. Its length comes from one
     `randint(16, 128)` call, then one `random()` call picks each character;
   - `exp` is the time of issue plus 30 seconds, in whole seconds since the
     epoch.
3. It signs the claim set with the private key. The JOSE header is
   `{"kid": key_id}`.
4. It posts the signed assertion as a form-encoded token request. It then keeps
   the `access_token` of the answer.

The production module `boxsdk/auth/jwt_auth.py` is not part of this model. The
behaviour modelled here is the behaviour that
`test/unit/auth/test_jwt_auth.py` pins down.

Files:

- `wrappers.dfy`: `Option` and `Result`.
- `errors.dfy`: the error values and the Python exception family of each.
  `MissingSubject` and `EnterpriseMismatch` are ValueErrors.
  `UnsupportedUserType` is a TypeError. A failed token request is an OAuth
  error.
- `jti.dfy`: the alphabet, `MakeJti`, and decoding a jti back into its draws.
- `identity.dfy`: the user-argument normalisation and subject resolution for
  each entry point. It also has the binding update and traces of calls.
- `claims.dfy`: the expiry arithmetic and the claim set.
- `token_request.dfy`: the token request and how the endpoint's answer is read.
- `jwt_auth.dfy`: the `JWTAuth` class and the pure functions that specify it:
  - the class has `userId`, `enterpriseId` and `accessToken` fields that its
    methods update;
  - `JwtGrant` and `Authenticate` are the pure functions that specify the
    methods.

  Four client methods replay the test scenarios against the method
  contracts: `UserIdSavedForFutureCalls`, `EnterpriseIdSavedForFutureCalls`,
  `EnterpriseIdNeverReplaced` and `RefreshWithUserAndEnterprise`.

The world outside is given to every call as parameters:

- the clock is `nowMicros`, microseconds since the epoch;
- the secure random source is an `Entropy` value. It holds the source's `randint`
  function and the stream of `random()` results, each taken as an index `int(r * 62)`;
- `jwt.encode` is a function-valued parameter `sign`;
- the network layer's answer is a `Response` value.

A successful call returns a `Grant`. The grant records the claims, the header,
the assertion and the single request that was sent.

## Model

| member | source | states |
|---|---|---|
| `Jti.MakeJti` | test/unit/auth/test_jwt_auth.py:196-200 | the jti has exactly `len` characters, and position i is the alphabet symbol at index draw i (`ascii_alphabet[int(r * 62)]`) |
| `Jti.Alphabet` | test/unit/auth/test_jwt_auth.py:198-199 | the alphabet has `ascii_len` = 62 symbols |
| `Jti.AlphabetIsAsciiLettersDigits` | test/unit/auth/test_jwt_auth.py:198 | the alphabet is, symbol for symbol, `ascii_letters + digits`: a-z, then A-Z, then 0-9 |
| `Jti.AlphabetIndex` | test/unit/auth/test_jwt_auth.py:198-199 | every ASCII letter or digit occurs in ascii_letters + digits; this gives its position |
| `Jti.AlphabetIsAlnum` | test/unit/auth/test_jwt_auth.py:198-199 | every alphabet symbol is a letter or digit, and no symbol occurs twice |
| `Jti.JtiIsAlphanumeric` | test/unit/auth/test_jwt_auth.py:198-200 | every character of a jti is an ASCII letter or digit |
| `Jti.JtiDraws` | test/unit/auth/test_jwt_auth.py:196-200 | decoding an alphanumeric string gives draws in range that re-encode each character |
| `Jti.JtiDrawsRoundTrip` | test/unit/auth/test_jwt_auth.py:196-200 | decoding a jti gives back exactly the first `len` draws, so later draws are not consumed |
| `Jti.JtiInjective` | test/unit/auth/test_jwt_auth.py:196-200 | two jtis of one length are equal if and only if their draws are equal |
| `Jti.Entropy.Valid` | test/unit/auth/test_jwt_auth.py:188-205 | the only assumption about the `SystemRandom` source: `randint(lo, hi)` lies in [lo, hi] whenever lo <= hi, and every `random()` result taken as `int(r * 62)` lies in [0, 62) |
| `Jti.Indices` | test/unit/auth/test_jwt_auth.py:196-200 | the first n `random()` results as alphabet indices: exactly n of them, the k-th being the source's k-th, each in [0, 62) |
| `Jti.DrawJti` | test/unit/auth/test_jwt_auth.py:194-206 | the jti's length is `randint(16, 128)`'s answer, which therefore lies in [16,128]; exactly that many `random()` results are used, one per character; the jti is alphanumeric and decodes to exactly those indices |
| `Claims.TruncDiv` | test/unit/auth/test_jwt_auth.py:193 | Python `int()` of a quotient: the integer part, rounded toward zero, for either sign |
| `Claims.Expiry` | test/unit/auth/test_jwt_auth.py:190-193 | `exp` is the whole seconds from the epoch to now + 30 s; it is exactly now + 30 when now is a whole second |
| `Claims.ExpiryOfWholeSecond` | test/unit/auth/test_jwt_auth.py:190-193 | a clock on a whole second gives `exp` exactly 30 seconds later |
| `Claims.Claims` | test/unit/auth/test_jwt_auth.py:207-213 | the claims: `iss` is the client id; `sub` and `box_sub_type` come from the subject; `aud` is `https://api.box.com/oauth2/token`; the jti's length is the `randint(16, 128)` answer and its characters are the first that many indices; `jti` is drawn; `exp` is the expiry |
| `Identity.NormalizeUser` | test/unit/auth/test_jwt_auth.py:129-139 | any object that is neither a string nor a User is the TypeError-kind `UnsupportedUserType`, at construction and in `authenticate_user`; a string user is used as it is and a User gives its object id, the two forms used at lines 232-243 |
| `Identity.ResolveUser` | test/unit/auth/test_jwt_auth.py:135-155 | a supported explicit user id is signed for; no id reuses the saved user; no saved user is the ValueError-kind `MissingSubject`; an unsupported object is the TypeError-kind `UnsupportedUserType` |
| `Identity.ResolveEnterprise` | test/unit/auth/test_jwt_auth.py:158-172 | succeeds if and only if some enterprise id is known and the given id matches any bound one; a mismatch or a missing id is an error |
| `Identity.Resolve` | test/unit/auth/test_jwt_auth.py:114-117 | a user call signs as `"user"`, an instance call as `"enterprise"`; refresh succeeds if and only if a user or an enterprise is bound, and then signs for the user if there is one, else for the enterprise; no resolution error is an OAuth error |
| `Identity.Bind` | test/unit/auth/test_jwt_auth.py:150-155 | a successful user authentication saves its id and keeps the enterprise; a successful instance authentication saves the enterprise id and keeps the user |
| `Identity.ResolveErrorKinds` | test/unit/auth/test_jwt_auth.py:120-139 | subject resolution raises only ValueError-kind or TypeError-kind errors; it raises a TypeError if and only if the user is of an unsupported type |
| `Identity.MissingSubjectFails` | test/unit/auth/test_jwt_auth.py:120-126 | with nothing bound, `authenticate_user()`, `authenticate_instance()` and refresh fail with the ValueError-kind `MissingSubject` |
| `Identity.RefreshPrefersUser` | test/unit/auth/test_jwt_auth.py:114-117 | refresh signs for the bound user if there is one, otherwise for the bound enterprise, otherwise it fails |
| `Identity.UserIdSaved` | test/unit/auth/test_jwt_auth.py:150-155 | after `authenticate_user(x)` succeeds, `authenticate_user()` signs for x |
| `Identity.EnterpriseIdFixed` | test/unit/auth/test_jwt_auth.py:165-172 | once an enterprise id is bound, a call succeeds if and only if it gives no id or that id; it always signs for the bound id; any failure is ValueError-kind |
| `Identity.After` | test/unit/auth/test_jwt_auth.py:150-172 | one call changes the saved ids only when its subject resolves and its exchange succeeds, and then saves the resolved subject; a bound enterprise id is kept and a bound user stays bound |
| `Identity.Run` | test/unit/auth/test_jwt_auth.py:150-172 | a sequence of calls in which no exchange succeeds leaves the saved ids as they were |
| `Identity.EnterpriseNeverChanges` | test/unit/auth/test_jwt_auth.py:165-172 | a bound enterprise id stays the same for any sequence of later calls |
| `Identity.UserStaysBound` | test/unit/auth/test_jwt_auth.py:142-155 | a bound user may change its id but stays bound for any sequence of later calls |
| `Identity.RefreshResolvesOnceBound` | test/unit/auth/test_jwt_auth.py:268-279 | once a user or an enterprise has been bound, refresh resolves a subject after any sequence of calls |
| `TokenRequest.TokenRequestFor` | test/unit/auth/test_jwt_auth.py:65-72 | the request is a POST to the token URL with exactly the six form fields and their values, a form content-type header, and no access token |
| `TokenRequest.TokenFromResponse` | test/unit/auth/test_jwt_auth.py:44-52 | an ok answer that has an access token yields that token; any other answer is an OAuth error that carries its status and body |
| `JwtAuth.KidHeader` | test/unit/auth/test_jwt_auth.py:214 | the JOSE header has exactly the key `kid`, mapped to the key id |
| `JwtAuth.JwtGrant` | test/unit/auth/test_jwt_auth.py:187-214 | the exchange succeeds if and only if the answer has a token; the grant is for the subject and holds that token; a failure carries the answer's status and body |
| `JwtAuth.Authenticate` | test/unit/auth/test_jwt_auth.py:120-172 | resolution errors are returned before anything is sent; any success is for the resolved subject |
| `JwtAuth.AssertionSignedExactly` | test/unit/auth/test_jwt_auth.py:207-214 | signing happens once, with exactly the six claims, the configured key and algorithm, and the header `{'kid': key_id}` |
| `JwtAuth.TokenRequestSentExactly` | test/unit/auth/test_jwt_auth.py:101-109 | one token request is sent, with exactly the expected method, URL, data, headers and no access token; the grant keeps the answer's `access_token` |
| `JwtAuth.UserSubjectResolved` | test/unit/auth/test_jwt_auth.py:232-251 | a user is signed for with its string id or its User object id, and `box_sub_type` is `'user'` |
| `JwtAuth.NoSubjectSendsNothing` | test/unit/auth/test_jwt_auth.py:120-126 | with nothing bound, a call without a subject returns `MissingSubject` whatever the network layer answers, so no answer can affect it |
| `JwtAuth.UnsupportedUserSendsNothing` | test/unit/auth/test_jwt_auth.py:135-139 | a user of an unsupported type gives the TypeError-kind `UnsupportedUserType` whatever the binding and whatever the network layer answers |
| `JwtAuth.EnterpriseSignedAsBound` | test/unit/auth/test_jwt_auth.py:254-265 | for a bound enterprise, every success signs `sub` as that id with `box_sub_type` `'enterprise'`, and a different id fails with `EnterpriseMismatch` |
| `JwtAuth.JWTAuth.constructor` | test/unit/auth/test_jwt_auth.py:78-89 | the new object holds the credentials, the given user and enterprise ids, and no access token |
| `JwtAuth.JWTAuth.Create` | test/unit/auth/test_jwt_auth.py:129-132 | construction fails with `UnsupportedUserType` if and only if the user is of an unsupported type; otherwise the fresh object binds the normalised user and the given enterprise |
| `JwtAuth.JWTAuth.AuthWithJwt` | test/unit/auth/test_jwt_auth.py:187-214 | the result is `JwtGrant` of the inputs; the access token is replaced only on success |
| `JwtAuth.JWTAuth.AuthenticateUser` | test/unit/auth/test_jwt_auth.py:142-155 | the result is `Authenticate` for a user call; on success the user id is bound and the token stored, so an explicit user id replaces the saved one; on failure nothing changes; the new ids are `After` of the old ones, so the `Run` lemmas hold of the object |
| `JwtAuth.JWTAuth.AuthenticateInstance` | test/unit/auth/test_jwt_auth.py:158-172 | the result is `Authenticate` for an instance call; on success the enterprise id is bound and the token stored; on failure nothing changes; the new ids are `After` of the old ones |
| `JwtAuth.JWTAuth.Refresh` | test/unit/auth/test_jwt_auth.py:268-279 | ignores its argument; the result is `Authenticate` for a refresh, so the user is preferred, and the state is updated as for the chosen entry point; the new ids are `After` of the old ones |
| `JwtAuth.UserIdSavedForFutureCalls` | test/unit/auth/test_jwt_auth.py:142-155 | starting with no user or with `fake_user_id_1`, the four calls sign for `fake_user_id_2` twice, then `fake_user_id_3` twice, each as `"user"` |
| `JwtAuth.EnterpriseIdSavedForFutureCalls` | test/unit/auth/test_jwt_auth.py:165-172 | the three instance calls all sign for `fake_enterprise_id` as `"enterprise"`; the later call with `fake_enterprise_id_2` fails with the ValueError-kind `EnterpriseMismatch` |
| `JwtAuth.EnterpriseIdNeverReplaced` | test/unit/auth/test_jwt_auth.py:158-162 | a different enterprise id fails with a ValueError-kind error, and a later refresh still signs for `fake_enterprise_id_1` as `"enterprise"`; the refresh step goes beyond the test, which stops after the refused call |
| `JwtAuth.RefreshWithUserAndEnterprise` | test/unit/auth/test_jwt_auth.py:114-117 | with both ids given at construction, refresh signs for `fake_user_id` as `"user"` and sends the client id |

## Left out

- Private-key loading is left out: the file `open`/`read` and `load_pem_private_key` with the passphrase. The key is an opaque `SigningKey` handle.
- Only the interface of JWT signing (`jwt.encode`) is modelled. It is the `sign` parameter, and the model says only which arguments it receives.
- The HTTP transport is left out. The network layer's answer is a `Response` value: ok flag, status, body, and the JSON `access_token` when there is one.
- Floating-point `random()` results are left out. Each one is given as the index `int(r * 62)`. `Entropy.Valid` states only what the source itself promises: `randint(lo, hi)` lies in [lo, hi], and each index lies in [0, 62). The bounds 16 and 128 are the program's own choice, made in `DrawJti`.
- Floating-point `total_seconds()` is left out. Time is integer microseconds, and the truncation done by `int()` is written out.
- Thread safety of the mutable identity and token fields is left out. The model is sequential.
- Python truthiness is not modelled. An absent id is `None`; the empty string is not treated as absent.
- `box_device_id` is always `"0"`, and `box_device_name` is always sent. The test shows no other form. Any way of choosing another device id is not visible and is not modelled.
- Several constants come from files that are not part of this model: `boxsdk/config.py` (`API.OAUTH2_API_URL`) and `boxsdk/auth/jwt_auth.py` (`_GRANT_TYPE`). The model uses `https://api.box.com/oauth2`, which agrees with the `aud` constant of the claims. For the grant type it uses the JWT bearer URN of section 2.1 of RFC 7523.
- A failed token exchange is not exercised by the test file. The model makes it an OAuth error that carries the status and body, and commits no identity or token.
- An instance call leaves a bound user in place (`UserStaysBound`), so a later refresh signs for that user, not for the enterprise just authenticated. No visible source settles this case; the model keeps the user.
- Refresh ignores its argument, as the test calls it with `None`. Any further handling of the token passed in is not visible and is not modelled.
