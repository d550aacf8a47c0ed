/** verify_token (backend/main.py): the bearer token is checked with the auth
    service; the service call is described by its outcome. */
module BackendAuth {
  import opened Wrappers
  import opened BackendErrors

  /** The authenticated caller the endpoints receive. */
  datatype User = User(id: string, email: string, role: string)

  /** An attribute of the returned user object, as `getattr` sees it: missing
      altogether, present but None, or present with a value. */
  datatype Attr = Missing | NoneValue | Present(value: string)

  /** The user object the auth service returns; `email` may be None and `role`
      missing or None. */
  datatype AuthUser = AuthUser(id: string, email: Option<string>, role: Attr)

  /** `getattr(user_data, 'role', 'user')`: the default only for a missing
      attribute; a role that is None stays None. */
  function RoleOf(u: AuthUser): (r: Option<string>)
    ensures r.None? <==> u.role.NoneValue?
    ensures u.role.Missing? ==> r == Some("user")
    ensures u.role.Present? ==> r == Some(u.role.value)
  {
    match u.role
    case Missing => Some("user")
    case NoneValue => None
    case Present(v) => Some(v)
  }

  /** What `supabase.auth.get_user(token)` did: returned a response whose
      `user` may be None, or raised. */
  datatype Lookup = Returned(user: Option<AuthUser>) | LookupRaised(message: string)

  const CredentialsError: HttpError :=
    HttpError(401, "Could not validate credentials", [("WWW-Authenticate", "Bearer")])
  const InvalidUser: HttpError := HttpError(401, "Invalid user credentials", [])
  const ServiceUnavailable: HttpError := HttpError(500, "Authentication service not available", [])

  /** The inner try block: no user, a raising lookup, or a user that does not
      validate as User (email None) all end in its except, a 401 "Invalid user
      credentials"; so does a role that is None, which fails the validation of
      User's `role: str` as an email that is None fails `email: str`. */
  function CheckWithService(lookup: Lookup): (r: Result<User, HttpError>)
    ensures r.Err? ==> r.error == InvalidUser
    ensures r.Ok? <==> (lookup.Returned? && lookup.user.Some? && lookup.user.value.email.Some?
      && !lookup.user.value.role.NoneValue?)
    ensures r.Ok? ==> var u := lookup.user.value;
      r.value == User(u.id, u.email.value, RoleOf(u).value)
  {
    match lookup
    case LookupRaised(_) => Err(InvalidUser)
    case Returned(None) => Err(InvalidUser)
    case Returned(Some(u)) =>
      if u.email.None? || RoleOf(u).None? then Err(InvalidUser)
      else Ok(User(u.id, u.email.value, RoleOf(u).value))
  }

  /** The outer try block: a missing auth client raises a 500, otherwise the
      service is asked. */
  function VerifyTokenBody(clientReady: bool, lookup: Lookup): (r: Result<User, HttpError>)
    ensures r.Err? ==> r.error == (if clientReady then InvalidUser else ServiceUnavailable)
    ensures r.Ok? <==> clientReady && CheckWithService(lookup).Ok?
  {
    if !clientReady then Err(ServiceUnavailable) else CheckWithService(lookup)
  }

  /** verify_token as written: the outer `except Exception` also catches the
      HTTPExceptions raised inside it, so every failure is re-raised as the 401
      "Could not validate credentials". */
  function VerifyToken(clientReady: bool, lookup: Lookup): (r: Result<User, HttpError>)
    ensures r.Err? ==> r.error == CredentialsError
    ensures r.Ok? ==> r == VerifyTokenBody(clientReady, lookup)
    ensures r.Ok? <==> VerifyTokenBody(clientReady, lookup).Ok?
  {
    match VerifyTokenBody(clientReady, lookup)
    case Ok(u) => Ok(u)
    case Err(_) => Err(CredentialsError)
  }

  /** Every failure of verify_token is the same 401 with the Bearer challenge,
      and it succeeds exactly when the client exists and the service returns a
      user with an email and a role that is not None; it passes on that user's
      id, email and role ("user" when the attribute is missing). */
  lemma VerifyTokenErrorsCollapse(clientReady: bool, lookup: Lookup)
    ensures VerifyToken(clientReady, lookup).Err? ==> VerifyToken(clientReady, lookup).error == CredentialsError
    ensures VerifyToken(clientReady, lookup).Ok? <==>
      (clientReady && lookup.Returned? && lookup.user.Some? && lookup.user.value.email.Some?
       && !lookup.user.value.role.NoneValue?)
    ensures VerifyToken(clientReady, lookup).Ok? ==>
      var u := VerifyToken(clientReady, lookup).value;
      u.id == lookup.user.value.id && u.email == lookup.user.value.email.value
      && u.role == (if lookup.user.value.role.Present? then lookup.user.value.role.value else "user")
  {
  }

  /** The missing auth client is reported as a 401, not as the 500 the code
      raises for it. */
  lemma VerifyTokenMasksMissingClient(lookup: Lookup)
    ensures VerifyToken(false, lookup) == Err(CredentialsError)
    ensures VerifyToken(false, lookup).error.status == 401
  {
  }

  /** verify_token as evidently intended: the HTTPExceptions it raises reach
      the client, and only other exceptions become the 401 "Could not validate
      credentials". In this model every failure inside is one of those
      HTTPExceptions. */
  function VerifyTokenIntended(clientReady: bool, lookup: Lookup): (r: Result<User, HttpError>)
    ensures r.Err? ==> r.error.status == (if clientReady then 401 else 500)
  {
    VerifyTokenBody(clientReady, lookup)
  }

  /** The intended verification tells a missing auth service (500) from bad
      credentials (401), and agrees with the code whenever the token is
      accepted. */
  lemma VerifyTokenIntendedDistinguishes(clientReady: bool, lookup: Lookup)
    ensures !clientReady ==> VerifyTokenIntended(clientReady, lookup) == Err(ServiceUnavailable)
    ensures clientReady && VerifyTokenIntended(clientReady, lookup).Err? ==>
      VerifyTokenIntended(clientReady, lookup).error == InvalidUser
    ensures VerifyTokenIntended(clientReady, lookup).Ok? <==> VerifyToken(clientReady, lookup).Ok?
    ensures VerifyTokenIntended(clientReady, lookup).Ok? ==>
      VerifyTokenIntended(clientReady, lookup) == VerifyToken(clientReady, lookup)
  {
  }
}
