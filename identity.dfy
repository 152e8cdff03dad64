/**
 * Which subject an authenticator signs for. It remembers at most one user id
 * and at most one enterprise id; a call without an id reuses the remembered
 * one, a user call with a new id replaces the remembered user, and an
 * enterprise id, once remembered, can never be changed.
 */
module Identity {
  import opened Wrappers
  import opened AuthErrors

  /** The user argument: a plain string id, a User object, or any other object. */
  datatype UserArg = UserIdString(id: string) | UserObject(objectId: string) | OtherObject

  /** The box_sub_type claim. */
  datatype SubjectType = User | Enterprise {
    function Name(): string {
      match this
      case User => "user"
      case Enterprise => "enterprise"
    }
  }

  /** The resolved `sub` claim and its `box_sub_type`. */
  datatype Subject = Subject(id: string, kind: SubjectType)

  /** The ids an authenticator has remembered. */
  datatype Binding = Binding(user: Option<string>, enterprise: Option<string>)

  /** One entry point call; refresh takes no subject. */
  datatype Call =
    | UserCall(user: Option<UserArg>)
    | InstanceCall(enterprise: Option<string>)
    | RefreshCall

  /** A user argument as a string id: a string as it is, a User by its object id. */
  function NormalizeUser(user: Option<UserArg>): (r: Result<Option<string>, AuthError>)
    ensures r.Failure? <==> user == Some(OtherObject)
    ensures r.Failure? ==> r.error == UnsupportedUserType && r.error.Kind() == TypeError
    ensures user.None? ==> r == Success(None)
    ensures user.Some? && user.value.UserIdString? ==> r == Success(Some(user.value.id))
    ensures user.Some? && user.value.UserObject? ==> r == Success(Some(user.value.objectId))
  {
    match user
    case None => Success(None)
    case Some(UserIdString(id)) => Success(Some(id))
    case Some(UserObject(objectId)) => Success(Some(objectId))
    case Some(OtherObject) => Failure(UnsupportedUserType)
  }

  /** The subject of authenticate_user: the given user if any, else the remembered one. */
  function ResolveUser(b: Binding, user: Option<UserArg>): (r: Result<Subject, AuthError>)
    ensures r.Success? ==> r.value.kind == User
    ensures user == Some(OtherObject) ==> r == Failure(UnsupportedUserType)
    ensures user.Some? && user.value != OtherObject ==> r.Success? && Some(r.value.id) == NormalizeUser(user).value
    ensures user.None? ==> (r.Success? <==> b.user.Some?)
    ensures user.None? && b.user.Some? ==> r.value.id == b.user.value
    ensures r.Failure? ==> r.error == (if user.None? then MissingSubject else UnsupportedUserType)
  {
    match NormalizeUser(user)
    case Failure(e) => Failure(e)
    case Success(Some(id)) => Success(Subject(id, User))
    case Success(None) =>
      if b.user.Some? then Success(Subject(b.user.value, User)) else Failure(MissingSubject)
  }

  /**
   * The subject of authenticate_instance: the given or the remembered
   * enterprise id; when both are present they must agree.
   */
  function ResolveEnterprise(b: Binding, enterprise: Option<string>): (r: Result<Subject, AuthError>)
    ensures r.Success? ==> r.value.kind == Enterprise
    ensures r.Success? <==> (b.enterprise.Some? || enterprise.Some?) && (b.enterprise.Some? && enterprise.Some? ==> b.enterprise == enterprise)
    ensures r.Success? && b.enterprise.Some? ==> r.value.id == b.enterprise.value
    ensures r.Success? && enterprise.Some? ==> r.value.id == enterprise.value
    ensures r.Failure? && enterprise.None? ==> r.error == MissingSubject
    ensures r.Failure? && enterprise.Some? ==> r.error == EnterpriseMismatch(enterprise.value, b.enterprise.value)
  {
    match (enterprise, b.enterprise)
    case (None, None) => Failure(MissingSubject)
    case (Some(e), Some(bound)) =>
      if e != bound then Failure(EnterpriseMismatch(e, bound)) else Success(Subject(bound, Enterprise))
    case (Some(e), None) => Success(Subject(e, Enterprise))
    case (None, Some(bound)) => Success(Subject(bound, Enterprise))
  }

  /** The subject of a call; refresh authenticates as the user when one is remembered. */
  function Resolve(b: Binding, call: Call): (r: Result<Subject, AuthError>)
    ensures r.Success? ==> r.value.kind == (if call.UserCall? || (call.RefreshCall? && b.user.Some?) then User else Enterprise)
    ensures call.RefreshCall? ==> (r.Success? <==> b.user.Some? || b.enterprise.Some?)
    ensures call.RefreshCall? && r.Success? ==> Some(r.value.id) == (if b.user.Some? then b.user else b.enterprise)
    ensures r.Failure? ==> r.error.Kind() != OAuthError
  {
    match call
    case UserCall(user) => ResolveUser(b, user)
    case InstanceCall(enterprise) => ResolveEnterprise(b, enterprise)
    case RefreshCall => if b.user.Some? then ResolveUser(b, None) else ResolveEnterprise(b, None)
  }

  /** The binding after a successful authentication as `s`. */
  function Bind(b: Binding, s: Subject): (r: Binding)
    ensures s.kind == User ==> r.user == Some(s.id) && r.enterprise == b.enterprise
    ensures s.kind == Enterprise ==> r.enterprise == Some(s.id) && r.user == b.user
  {
    match s.kind
    case User => b.(user := Some(s.id))
    case Enterprise => b.(enterprise := Some(s.id))
  }

  /** Every error a call can raise is of a ValueError or TypeError kind, never an OAuth error. */
  lemma ResolveErrorKinds(b: Binding, call: Call)
    ensures Resolve(b, call).Failure? ==> Resolve(b, call).error.Kind() in {ValueError, TypeError}
    ensures Resolve(b, call).Failure? && Resolve(b, call).error.Kind() == TypeError
            <==> call == UserCall(Some(OtherObject))
  {
  }

  /** With nothing remembered, a call without a subject fails with a ValueError-kind error. */
  lemma MissingSubjectFails(call: Call)
    requires call in {UserCall(None), InstanceCall(None), RefreshCall}
    ensures Resolve(Binding(None, None), call) == Failure(MissingSubject)
    ensures MissingSubject.Kind() == ValueError
  {
  }

  /** Refresh signs for the remembered user when there is one, even if an enterprise is remembered too. */
  lemma RefreshPrefersUser(b: Binding)
    ensures b.user.Some? ==> Resolve(b, RefreshCall) == Success(Subject(b.user.value, User))
    ensures b.user.None? && b.enterprise.Some? ==> Resolve(b, RefreshCall) == Success(Subject(b.enterprise.value, Enterprise))
    ensures b.user.None? && b.enterprise.None? ==> Resolve(b, RefreshCall) == Failure(MissingSubject)
  {
  }

  /** After a successful authenticate_user(u), authenticate_user() signs for the same id. */
  lemma UserIdSaved(b: Binding, u: UserArg)
    requires u != OtherObject
    ensures var s := Resolve(b, UserCall(Some(u)));
      s.Success? && Resolve(Bind(b, s.value), UserCall(None)) == s
  {
  }

  /** Once an enterprise id is remembered, only that id or no id is accepted, and it is always signed for. */
  lemma EnterpriseIdFixed(b: Binding, e: Option<string>)
    requires b.enterprise.Some?
    ensures Resolve(b, InstanceCall(e)).Success? <==> e.None? || e == b.enterprise
    ensures Resolve(b, InstanceCall(e)).Success? ==> Resolve(b, InstanceCall(e)).value == Subject(b.enterprise.value, Enterprise)
    ensures Resolve(b, InstanceCall(e)).Failure? ==> Resolve(b, InstanceCall(e)).error.Kind() == ValueError
  {
  }

  /** One call attempt and whether its token exchange succeeded. */
  datatype Attempt = Attempt(call: Call, exchangeOk: bool)

  /** The binding after one attempt: committed only when resolution and exchange both succeed. */
  function After(b: Binding, a: Attempt): (r: Binding)
    ensures !a.exchangeOk || Resolve(b, a.call).Failure? ==> r == b
    ensures a.exchangeOk && Resolve(b, a.call).Success? ==> r == Bind(b, Resolve(b, a.call).value)
    ensures b.enterprise.Some? ==> r.enterprise == b.enterprise
    ensures b.user.Some? ==> r.user.Some?
  {
    match Resolve(b, a.call)
    case Success(s) => if a.exchangeOk then Bind(b, s) else b
    case Failure(_) => b
  }

  /** The binding after a sequence of attempts. */
  function Run(b: Binding, trace: seq<Attempt>): (r: Binding)
    ensures (forall i :: 0 <= i < |trace| ==> !trace[i].exchangeOk) ==> r == b
    decreases |trace|
  {
    if trace == [] then b else Run(After(b, trace[0]), trace[1..])
  }

  /** A remembered enterprise id is never replaced, whatever calls follow. */
  lemma {:induction false} EnterpriseNeverChanges(b: Binding, trace: seq<Attempt>)
    requires b.enterprise.Some?
    ensures Run(b, trace).enterprise == b.enterprise
    decreases |trace|
  {
    if trace != [] {
      EnterpriseNeverChanges(After(b, trace[0]), trace[1..]);
    }
  }

  /** A remembered user may change its id but is never forgotten. */
  lemma {:induction false} UserStaysBound(b: Binding, trace: seq<Attempt>)
    requires b.user.Some?
    ensures Run(b, trace).user.Some?
    decreases |trace|
  {
    if trace != [] {
      UserStaysBound(After(b, trace[0]), trace[1..]);
    }
  }

  /** Once anything has been remembered, refresh never lacks a subject. */
  lemma RefreshResolvesOnceBound(b: Binding, trace: seq<Attempt>)
    requires b.user.Some? || b.enterprise.Some?
    ensures Resolve(Run(b, trace), RefreshCall).Success?
  {
    if b.user.Some? {
      UserStaysBound(b, trace);
    } else {
      EnterpriseNeverChanges(b, trace);
    }
  }
}
