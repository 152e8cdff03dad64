/**
 * The JWT authenticator: an object that remembers the user id, the
 * enterprise id and the last access token, and for each authentication
 * signs one claim set and sends one token request.
 *
 * The clock, the secure random source, the JWT signer and the network layer
 * are given to each call as parameters: `nowMicros` is utcnow() in
 * microseconds since the epoch, `entropy` holds the random draws, `sign` is
 * jwt.encode and `response` is what the network layer answers.
 */
module JwtAuth {
  import opened Wrappers
  import opened AuthErrors
  import opened Jti
  import opened Identity
  import opened Claims
  import opened TokenRequest

  /** The loaded private key; loading and decoding it are not modelled. */
  datatype SigningKey = SigningKey(handle: nat)

  /** What the authenticator is configured with; fixed after construction. */
  datatype Credentials = Credentials(
    clientId: string,
    clientSecret: string,
    key: SigningKey,
    keyId: string,
    algorithm: string,
    deviceName: string)

  /** jwt.encode(claims, key, algorithm, headers): the compact signed token. */
  type Signer = (ClaimSet, SigningKey, string, map<string, string>) -> string

  /** The JOSE header of every assertion. */
  function KidHeader(keyId: string): (h: map<string, string>)
    ensures h.Keys == {"kid"} && h["kid"] == keyId
  {
    map["kid" := keyId]
  }

  /** Everything one successful authentication signed, sent and received. */
  datatype Grant = Grant(
    subject: Subject,
    claims: ClaimSet,
    header: map<string, string>,
    assertion: string,
    request: Request,
    accessToken: string)

  /** Signs the claims for `subject`, sends the token request, and reads the answer. */
  function JwtGrant(creds: Credentials, subject: Subject, nowMicros: int, entropy: Entropy, sign: Signer, response: Response)
    : (r: Result<Grant, AuthError>)
    requires entropy.Valid()
    ensures r.Success? <==> response.ok && response.accessToken.Some?
    ensures r.Failure? ==> r.error == TokenRequestFailed(response.statusCode, response.content)
    ensures r.Success? ==> r.value.subject == subject && r.value.accessToken == response.accessToken.value
  {
    var claims := Claims.Claims(creds.clientId, subject, entropy, nowMicros);
    var header := KidHeader(creds.keyId);
    var assertion := sign(claims, creds.key, creds.algorithm, header);
    var request := TokenRequestFor(creds.clientId, creds.clientSecret, creds.deviceName, assertion);
    match TokenFromResponse(response)
    case Failure(e) => Failure(e)
    case Success(token) => Success(Grant(subject, claims, header, assertion, request, token))
  }

  /** A token endpoint answer carrying an access token. */
  predicate Granted(response: Response) {
    response.ok && response.accessToken.Some?
  }

  /** One entry point call from a given binding: resolve the subject, then exchange. */
  function Authenticate(creds: Credentials, b: Binding, call: Call, nowMicros: int, entropy: Entropy, sign: Signer, response: Response)
    : (r: Result<Grant, AuthError>)
    requires entropy.Valid()
    ensures r.Success? ==> Resolve(b, call) == Success(r.value.subject)
    ensures Resolve(b, call).Failure? ==> r == Failure(Resolve(b, call).error)
    ensures Resolve(b, call).Success? ==> (r.Success? <==> response.ok && response.accessToken.Some?)
  {
    match Resolve(b, call)
    case Failure(e) => Failure(e)
    case Success(s) => JwtGrant(creds, s, nowMicros, entropy, sign, response)
  }

  /**
   * A successful authentication signs exactly the six claims, once, with the
   * key id header and the configured algorithm.
   */
  lemma AssertionSignedExactly(creds: Credentials, b: Binding, call: Call, nowMicros: int, entropy: Entropy, sign: Signer, response: Response)
    requires entropy.Valid()
    ensures var r := Authenticate(creds, b, call, nowMicros, entropy, sign, response);
      r.Success? ==>
        var g := r.value;
        && g.claims == ClaimSet(creds.clientId, g.subject.id, g.subject.kind.Name(), Audience,
                                MakeJti(|g.claims.jti|, Indices(entropy, |g.claims.jti|)), Expiry(nowMicros))
        && |g.claims.jti| == entropy.randint(JtiMinLength, JtiMaxLength)
        && g.header == map["kid" := creds.keyId]
        && g.assertion == sign(g.claims, creds.key, creds.algorithm, g.header)
  {
  }

  /**
   * A successful authentication sends exactly one form-encoded POST to the
   * token endpoint, carrying the assertion and no access token, and yields
   * the access token of the answer.
   */
  lemma TokenRequestSentExactly(creds: Credentials, b: Binding, call: Call, nowMicros: int, entropy: Entropy, sign: Signer, response: Response)
    requires entropy.Valid()
    ensures var r := Authenticate(creds, b, call, nowMicros, entropy, sign, response);
      r.Success? ==>
        var g := r.value;
        && g.request.httpMethod == "POST" && g.request.url == OAuth2ApiUrl + "/token"
        && g.request.data == map[
             "grant_type" := GrantType,
             "client_id" := creds.clientId,
             "client_secret" := creds.clientSecret,
             "assertion" := g.assertion,
             "box_device_id" := "0",
             "box_device_name" := creds.deviceName]
        && g.request.headers == map["content-type" := "application/x-www-form-urlencoded"]
        && g.request.accessToken.None?
        && g.accessToken == response.accessToken.value
  {
  }

  /** A user subject is signed with its string id, or a User's object id, and box_sub_type "user". */
  lemma UserSubjectResolved(creds: Credentials, b: Binding, u: UserArg, nowMicros: int, entropy: Entropy, sign: Signer, response: Response)
    requires entropy.Valid()
    requires u != OtherObject
    ensures var r := Authenticate(creds, b, UserCall(Some(u)), nowMicros, entropy, sign, response);
      r.Success? ==>
        && r.value.claims.sub == (if u.UserIdString? then u.id else u.objectId)
        && r.value.claims.boxSubType == "user"
  {
  }

  /**
   * A call with no subject and nothing remembered fails with a ValueError-kind
   * error. "Sends nothing" means here that the result does not depend on the
   * network layer's answer. A request that was sent and then failed would also
   * leave no `Grant`, so the model does not record sent requests on failure.
   */
  lemma NoSubjectSendsNothing(creds: Credentials, call: Call, nowMicros: int, entropy: Entropy, sign: Signer, response: Response)
    requires entropy.Valid()
    requires call in {UserCall(None), InstanceCall(None), RefreshCall}
    ensures Authenticate(creds, Binding(None, None), call, nowMicros, entropy, sign, response) == Failure(MissingSubject)
  {
    MissingSubjectFails(call);
  }

  /**
   * A user argument of an unsupported type fails with a TypeError-kind error.
   * As for `NoSubjectSendsNothing`, "sends nothing" means that the result does
   * not depend on the network layer's answer.
   */
  lemma UnsupportedUserSendsNothing(creds: Credentials, b: Binding, nowMicros: int, entropy: Entropy, sign: Signer, response: Response)
    requires entropy.Valid()
    ensures Authenticate(creds, b, UserCall(Some(OtherObject)), nowMicros, entropy, sign, response) == Failure(UnsupportedUserType)
    ensures UnsupportedUserType.Kind() == TypeError
  {
  }

  /** Once an enterprise id is remembered, every successful instance call signs for it as "enterprise". */
  lemma EnterpriseSignedAsBound(creds: Credentials, b: Binding, e: Option<string>, nowMicros: int, entropy: Entropy, sign: Signer, response: Response)
    requires entropy.Valid()
    requires b.enterprise.Some?
    ensures var r := Authenticate(creds, b, InstanceCall(e), nowMicros, entropy, sign, response);
      && (r.Success? ==> r.value.claims.sub == b.enterprise.value && r.value.claims.boxSubType == "enterprise")
      && (e.Some? && e != b.enterprise ==> r == Failure(EnterpriseMismatch(e.value, b.enterprise.value)))
  {
    EnterpriseIdFixed(b, e);
  }

  class JWTAuth {
    const creds: Credentials
    var userId: Option<string>
    var enterpriseId: Option<string>
    var accessToken: Option<string>

    /** The ids this authenticator remembers. */
    function Bound(): Binding
      reads this
    {
      Binding(userId, enterpriseId)
    }

    constructor (creds: Credentials, userId: Option<string>, enterpriseId: Option<string>)
      ensures this.creds == creds && Bound() == Binding(userId, enterpriseId) && accessToken.None?
    {
      this.creds := creds;
      this.userId := userId;
      this.enterpriseId := enterpriseId;
      this.accessToken := None;
    }

    /** JWTAuth(...): a user argument of an unsupported type is rejected before anything is created. */
    static method Create(creds: Credentials, enterpriseId: Option<string>, user: Option<UserArg>)
      returns (r: Result<JWTAuth, AuthError>)
      ensures r.Failure? <==> user == Some(OtherObject)
      ensures r.Failure? ==> r.error == UnsupportedUserType
      ensures r.Success? ==>
        && fresh(r.value)
        && r.value.creds == creds
        && r.value.Bound() == Binding(NormalizeUser(user).value, enterpriseId)
        && r.value.accessToken.None?
    {
      var normalized := NormalizeUser(user);
      if normalized.Failure? {
        return Failure(normalized.error);
      }
      var auth := new JWTAuth(creds, normalized.value, enterpriseId);
      r := Success(auth);
    }

    /** Builds and signs the claims, sends the token request, and stores the token it returns. */
    method AuthWithJwt(subject: Subject, nowMicros: int, entropy: Entropy, sign: Signer, response: Response)
      returns (r: Result<Grant, AuthError>)
      requires entropy.Valid()
      modifies this`accessToken
      ensures r == JwtGrant(creds, subject, nowMicros, entropy, sign, response)
      ensures accessToken == if r.Success? then Some(r.value.accessToken) else old(accessToken)
    {
      var jti := DrawJti(entropy).jti;
      var claims := ClaimSet(creds.clientId, subject.id, subject.kind.Name(), Audience, jti, Expiry(nowMicros));
      var header := KidHeader(creds.keyId);
      var assertion := sign(claims, creds.key, creds.algorithm, header);
      var request := TokenRequestFor(creds.clientId, creds.clientSecret, creds.deviceName, assertion);
      var token := TokenFromResponse(response);
      if token.Failure? {
        return Failure(token.error);
      }
      accessToken := Some(token.value);
      r := Success(Grant(subject, claims, header, assertion, request, token.value));
    }

    /** authenticate_user(user?): signs for the given user, or the remembered one, and remembers it. */
    method AuthenticateUser(user: Option<UserArg>, nowMicros: int, entropy: Entropy, sign: Signer, response: Response)
      returns (r: Result<Grant, AuthError>)
      requires entropy.Valid()
      modifies this
      ensures r == Authenticate(creds, old(Bound()), UserCall(user), nowMicros, entropy, sign, response)
      ensures Bound() == if r.Success? then Bind(old(Bound()), r.value.subject) else old(Bound())
      ensures Bound() == After(old(Bound()), Attempt(UserCall(user), Granted(response)))
      ensures accessToken == if r.Success? then Some(r.value.accessToken) else old(accessToken)
    {
      var normalized := NormalizeUser(user);
      if normalized.Failure? {
        return Failure(normalized.error);
      }
      var sub := if normalized.value.Some? then normalized.value else userId;
      if sub.None? {
        return Failure(MissingSubject);
      }
      assert Resolve(Bound(), UserCall(user)) == Success(Subject(sub.value, User));
      r := AuthWithJwt(Subject(sub.value, User), nowMicros, entropy, sign, response);
      if r.Success? {
        userId := sub;
      }
    }

    /** authenticate_instance(enterprise?): signs for the remembered enterprise, binding it on first use. */
    method AuthenticateInstance(enterprise: Option<string>, nowMicros: int, entropy: Entropy, sign: Signer, response: Response)
      returns (r: Result<Grant, AuthError>)
      requires entropy.Valid()
      modifies this
      ensures r == Authenticate(creds, old(Bound()), InstanceCall(enterprise), nowMicros, entropy, sign, response)
      ensures Bound() == if r.Success? then Bind(old(Bound()), r.value.subject) else old(Bound())
      ensures Bound() == After(old(Bound()), Attempt(InstanceCall(enterprise), Granted(response)))
      ensures accessToken == if r.Success? then Some(r.value.accessToken) else old(accessToken)
    {
      if enterprise.None? && enterpriseId.None? {
        return Failure(MissingSubject);
      }
      if enterprise.Some? && enterpriseId.Some? && enterprise != enterpriseId {
        return Failure(EnterpriseMismatch(enterprise.value, enterpriseId.value));
      }
      var sub := if enterpriseId.Some? then enterpriseId else enterprise;
      assert Resolve(Bound(), InstanceCall(enterprise)) == Success(Subject(sub.value, Enterprise));
      r := AuthWithJwt(Subject(sub.value, Enterprise), nowMicros, entropy, sign, response);
      if r.Success? {
        enterpriseId := sub;
      }
    }

    /** refresh(token): ignores the token and authenticates again as the user if one is remembered, else as the enterprise. */
    method Refresh(accessTokenToRefresh: Option<string>, nowMicros: int, entropy: Entropy, sign: Signer, response: Response)
      returns (r: Result<Grant, AuthError>)
      requires entropy.Valid()
      modifies this
      ensures r == Authenticate(creds, old(Bound()), RefreshCall, nowMicros, entropy, sign, response)
      ensures Bound() == if r.Success? then Bind(old(Bound()), r.value.subject) else old(Bound())
      ensures Bound() == After(old(Bound()), Attempt(RefreshCall, Granted(response)))
      ensures accessToken == if r.Success? then Some(r.value.accessToken) else old(accessToken)
    {
      if userId.Some? {
        r := AuthenticateUser(None, nowMicros, entropy, sign, response);
      } else {
        r := AuthenticateInstance(None, nowMicros, entropy, sign, response);
      }
    }
  }

  /**
   * authenticate_user(x) then authenticate_user() both sign for x, and a new
   * id replaces x, whether or not a user was given at construction.
   */
  method UserIdSavedForFutureCalls(initUser: Option<UserArg>, creds: Credentials, entropy: Entropy, sign: Signer, response: Response, nowMicros: int)
    returns (signed: seq<ClaimSet>)
    requires initUser in {None, Some(UserIdString("fake_user_id_1"))}
    requires entropy.Valid() && Granted(response)
    ensures |signed| == 4
    ensures signed[0].sub == signed[1].sub == "fake_user_id_2"
    ensures signed[2].sub == signed[3].sub == "fake_user_id_3"
    ensures forall i :: 0 <= i < |signed| ==> signed[i].boxSubType == "user"
  {
    var created := JWTAuth.Create(creds, None, initUser);
    var auth := created.value;
    var r := auth.AuthenticateUser(Some(UserIdString("fake_user_id_2")), nowMicros, entropy, sign, response);
    var first := r.value.claims;
    r := auth.AuthenticateUser(None, nowMicros, entropy, sign, response);
    var second := r.value.claims;
    r := auth.AuthenticateUser(Some(UserIdString("fake_user_id_3")), nowMicros, entropy, sign, response);
    var third := r.value.claims;
    r := auth.AuthenticateUser(None, nowMicros, entropy, sign, response);
    signed := [first, second, third, r.value.claims];
  }

  /**
   * The enterprise id bound by the first instance call is reused and can be
   * repeated; a different one is then refused with a ValueError-kind error.
   */
  method EnterpriseIdSavedForFutureCalls(creds: Credentials, entropy: Entropy, sign: Signer, response: Response, nowMicros: int)
    returns (signed: seq<ClaimSet>, refused: Result<Grant, AuthError>)
    requires entropy.Valid() && Granted(response)
    ensures |signed| == 3
    ensures forall i :: 0 <= i < |signed| ==> signed[i].sub == "fake_enterprise_id" && signed[i].boxSubType == "enterprise"
    ensures refused == Failure(EnterpriseMismatch("fake_enterprise_id_2", "fake_enterprise_id"))
    ensures refused.error.Kind() == ValueError
  {
    var created := JWTAuth.Create(creds, None, None);
    var auth := created.value;
    var r := auth.AuthenticateInstance(Some("fake_enterprise_id"), nowMicros, entropy, sign, response);
    var first := r.value.claims;
    assert auth.Bound() == Binding(None, Some("fake_enterprise_id"));
    r := auth.AuthenticateInstance(None, nowMicros, entropy, sign, response);
    var second := r.value.claims;
    assert auth.Bound() == Binding(None, Some("fake_enterprise_id"));
    r := auth.AuthenticateInstance(Some("fake_enterprise_id"), nowMicros, entropy, sign, response);
    signed := [first, second, r.value.claims];
    assert auth.Bound() == Binding(None, Some("fake_enterprise_id"));
    refused := auth.AuthenticateInstance(Some("fake_enterprise_id_2"), nowMicros, entropy, sign, response);
  }

  /** A different enterprise id is refused, and refresh still signs for the bound one. */
  method EnterpriseIdNeverReplaced(creds: Credentials, entropy: Entropy, sign: Signer, response: Response, nowMicros: int)
    returns (refused: Result<Grant, AuthError>, refreshed: ClaimSet)
    requires entropy.Valid() && Granted(response)
    ensures refused.Failure? && refused.error.Kind() == ValueError
    ensures refreshed.sub == "fake_enterprise_id_1" && refreshed.boxSubType == "enterprise"
  {
    var created := JWTAuth.Create(creds, Some("fake_enterprise_id_1"), None);
    var auth := created.value;
    refused := auth.AuthenticateInstance(Some("fake_enterprise_id_2"), nowMicros, entropy, sign, response);
    assert auth.Bound() == Binding(None, Some("fake_enterprise_id_1"));
    var r := auth.Refresh(None, nowMicros, entropy, sign, response);
    refreshed := r.value.claims;
  }

  /** With both a user and an enterprise id given at construction, refresh signs for the user. */
  method RefreshWithUserAndEnterprise(creds: Credentials, entropy: Entropy, sign: Signer, response: Response, nowMicros: int)
    returns (refreshed: Grant)
    requires entropy.Valid() && Granted(response)
    ensures refreshed.claims.sub == "fake_user_id" && refreshed.claims.boxSubType == "user"
    ensures "client_id" in refreshed.request.data && refreshed.request.data["client_id"] == creds.clientId
  {
    var created := JWTAuth.Create(creds, Some("fake_enterprise_id"), Some(UserIdString("fake_user_id")));
    var auth := created.value;
    var r := auth.Refresh(None, nowMicros, entropy, sign, response);
    refreshed := r.value;
  }
}
