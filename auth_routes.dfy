/** The account routes: sign-up (account creation plus a profile upsert
    retried once), login (one forced e-mail confirmation and one second
    sign-in at most, then role and name resolution and a signed token) and
    the profile endpoint (the token's claims overlaid with the stored
    profile). Every call to the identity provider or the profiles table is an
    input; the methods also return the sequence of remote calls they made. */
module AuthRoutes {
  import opened Js
  import opened JsString
  import opened AuthGate

  /** A user record of the identity provider, with its `user_metadata`. */
  datatype AuthUser = AuthUser(id: string, email: Option<string>, metaName: Option<string>, metaRole: Option<string>)

  /** `{ data, error }` of `createUser` or `signInWithPassword`. */
  datatype AuthOutcome = AuthError(message: Option<string>) | AuthOk(user: AuthUser)

  /** The `role, name` columns of a profiles row. */
  datatype ProfileRow = ProfileRow(role: Option<string>, name: Option<string>)

  /** The row sign-up upserts into the profiles table, keyed on `id`. */
  datatype Profile = Profile(id: string, email: string, name: Option<string>, role: string)

  /** The arguments of `auth.admin.createUser`. */
  datatype CreateUserRequest = CreateUserRequest(
    email: string,
    password: string,
    emailConfirm: bool,
    metaName: Option<string>,
    metaRole: string)

  /** A remote call made by a handler. */
  datatype Call =
    | CreateUser(request: CreateUserRequest)
    | UpsertProfile(row: Profile)
    | SignIn
    | ListUsers
    | ConfirmEmail(userId: string)
    | FetchProfile(userId: string)

  // ---------------------------------------------------------------------
  // POST /auth/signup

  /** `{ email, password, name, role }` of the request body. */
  datatype SignupBody = SignupBody(email: Option<string>, password: Option<string>, name: Option<string>, role: Option<string>)

  /** `{ user: { ...data.user, role } }`. */
  datatype SignedUp = SignedUp(user: AuthUser, role: string)

  /** The destructuring default `role = 'student'`: it applies only when the
      body has no role at all. */
  function RequestedRole(body: SignupBody): (role: string)
    ensures body.role.None? ==> role == DefaultRole
    ensures body.role.Some? ==> role == body.role.value
  {
    if body.role.Some? then body.role.value else DefaultRole
  }

  /** Sign-up validation: e-mail and password must both be present and non-empty. */
  predicate ValidSignup(body: SignupBody)
  {
    Truthy(body.email) && Truthy(body.password)
  }

  /** The account sign-up asks for: already confirmed, with the name and
      requested role as metadata. */
  function CreateRequest(body: SignupBody): (req: CreateUserRequest)
    requires ValidSignup(body)
    ensures req.emailConfirm
    ensures req.email == body.email.value && req.password == body.password.value
    ensures req.metaRole == RequestedRole(body) && req.metaName == body.name
  {
    CreateUserRequest(body.email.value, body.password.value, true, body.name, RequestedRole(body))
  }

  /** `POST /auth/signup`; `create` answers `createUser`, `firstUpsertOk`
      says whether the first profile upsert succeeded (the second one's
      outcome is only logged). The delays before the
      upserts are not modelled. */
  method Signup(body: SignupBody, create: CreateUserRequest -> AuthOutcome, firstUpsertOk: bool)
    returns (reply: Reply<SignedUp>, calls: seq<Call>)
    ensures !ValidSignup(body) ==> reply == Fail(400, Some("Email and password required")) && calls == []
    ensures ValidSignup(body) && create(CreateRequest(body)).AuthError? ==>
              reply == Fail(400, create(CreateRequest(body)).message) &&
              calls == [CreateUser(CreateRequest(body))]
    ensures ValidSignup(body) && create(CreateRequest(body)).AuthOk? ==>
              var user := create(CreateRequest(body)).user;
              var row := Profile(user.id, body.email.value, body.name, RequestedRole(body));
              && reply == Ok(200, SignedUp(user, RequestedRole(body)))
              && calls == [CreateUser(CreateRequest(body))] +
                          (if firstUpsertOk then [UpsertProfile(row)] else [UpsertProfile(row), UpsertProfile(row)])
    ensures forall c :: c in calls && c.UpsertProfile? ==> c.row.role == RequestedRole(body)
    ensures |calls| <= 3
  {
    if !Truthy(body.email) || !Truthy(body.password) {
      return Fail(400, Some("Email and password required")), [];
    }
    var role := RequestedRole(body);
    var request := CreateUserRequest(body.email.value, body.password.value, true, body.name, role);
    calls := [CreateUser(request)];
    var created := create(request);
    if created.AuthError? {
      return Fail(400, created.message), calls;
    }
    var userId := created.user.id;
    var row := Profile(userId, body.email.value, body.name, role);
    calls := calls + [UpsertProfile(row)];
    if !firstUpsertOk {
      // One more attempt after a longer delay; its outcome is only logged.
      calls := calls + [UpsertProfile(row)];
    }
    reply := Ok(200, SignedUp(created.user, role));
  }

  // ---------------------------------------------------------------------
  // POST /auth/login

  /** `{ email, password }` of the request body. */
  datatype LoginBody = LoginBody(email: Option<string>, password: Option<string>)

  /** `{ token, user }`. */
  datatype LoggedIn = LoggedIn(token: string, user: Claims)

  /** The pattern of `/email not confirmed/i`. */
  const NotConfirmed: string := "email not confirmed"

  /** `expiresIn: '7d'`, in seconds. */
  const TokenLifetime: nat := 7 * 24 * 60 * 60

  /** A sign-in error whose message (`''` when absent) matches the pattern. */
  predicate NeedsConfirmation(o: AuthOutcome)
  {
    o.AuthError? && ContainsFold(if o.message.Some? then o.message.value else "", NotConfirmed)
  }

  function ProfileRole(profile: Option<ProfileRow>): Option<string>
  {
    if profile.Some? then profile.value.role else None
  }

  function ProfileName(profile: Option<ProfileRow>): Option<string>
  {
    if profile.Some? then profile.value.name else None
  }

  /** The token payload of a login: the role is the profile's role, else the
      metadata role, else the default; the name is the metadata name, else the
      profile's name. */
  function LoginClaims(user: AuthUser, profile: Option<ProfileRow>): (c: Claims)
    ensures c.id == user.id && c.email == user.email && c.extra == map[]
    ensures c.role == Some(FirstTruthy([ProfileRole(profile), user.metaRole], DefaultRole))
    ensures Truthy(user.metaName) ==> c.name == user.metaName
    ensures !Truthy(user.metaName) ==> c.name == ProfileName(profile)
  {
    Claims(user.id, user.email, Or(user.metaName, ProfileName(profile)),
           Some(OrDefault(Or(ProfileRole(profile), user.metaRole), DefaultRole)), map[])
  }

  /** The remote calls before the profile lookup: a sign-in, and after an
      "email not confirmed" error a user listing, then (when a user was
      listed) a forced confirmation of that user and a second sign-in. */
  function SignInCalls(first: AuthOutcome, listed: Option<AuthUser>): seq<Call>
  {
    [SignIn] +
    if !NeedsConfirmation(first) then []
    else if listed.None? then [ListUsers]
    else [ListUsers, ConfirmEmail(listed.value.id), SignIn]
  }

  /** Sign-in is attempted at most twice, the second time only after a
      forced confirmation, which happens at most once. */
  lemma SignInAtMostTwice(first: AuthOutcome, listed: Option<AuthUser>)
    ensures multiset(SignInCalls(first, listed))[SignIn] <= 2
    ensures multiset(SignInCalls(first, listed))[SignIn] == 2 <==> NeedsConfirmation(first) && listed.Some?
    ensures forall c :: c in SignInCalls(first, listed) && c.ConfirmEmail? ==>
              NeedsConfirmation(first) && listed.Some? && c.userId == listed.value.id
    ensures multiset(SignInCalls(first, listed))[ListUsers] <= 1
  {
    var calls := SignInCalls(first, listed);
    if NeedsConfirmation(first) && listed.Some? {
      var id := listed.value.id;
      assert calls == [SignIn, ListUsers, ConfirmEmail(id), SignIn];
      assert multiset(calls) == multiset{SignIn, ListUsers, ConfirmEmail(id), SignIn};
    } else if NeedsConfirmation(first) {
      assert calls == [SignIn, ListUsers];
      assert multiset(calls) == multiset{SignIn, ListUsers};
    } else {
      assert calls == [SignIn];
    }
  }

  /** The outcome the handler goes on with: the second sign-in's when there
      was one, else the first's. */
  function FinalOutcome(body: LoginBody, signIn: (LoginBody, nat) -> AuthOutcome, listed: Option<AuthUser>): AuthOutcome
  {
    if NeedsConfirmation(signIn(body, 0)) && listed.Some? then signIn(body, 1) else signIn(body, 0)
  }

  /** `POST /auth/login`. `signIn(body, k)` is the outcome of the `k`-th
      sign-in with the body's e-mail and password,
      `listed` the first user `listUsers` returns, `profileOf` the profiles
      lookup and `sign` the token signer (payload and lifetime). The listed
      user is confirmed without comparing its e-mail with the one logging in. */
  method Login(
    body: LoginBody,
    signIn: (LoginBody, nat) -> AuthOutcome,
    listed: Option<AuthUser>,
    profileOf: string -> Option<ProfileRow>,
    sign: (Claims, nat) -> string)
    returns (reply: Reply<LoggedIn>, calls: seq<Call>)
    ensures FinalOutcome(body, signIn, listed).AuthError? ==>
              reply == Fail(401, FinalOutcome(body, signIn, listed).message) &&
              calls == SignInCalls(signIn(body, 0), listed)
    ensures FinalOutcome(body, signIn, listed).AuthOk? ==>
              var user := FinalOutcome(body, signIn, listed).user;
              var claims := LoginClaims(user, profileOf(user.id));
              && reply == Ok(200, LoggedIn(sign(claims, TokenLifetime), claims))
              && calls == SignInCalls(signIn(body, 0), listed) + [FetchProfile(user.id)]
  {
    calls := [SignIn];
    var outcome := signIn(body, 0);
    if NeedsConfirmation(outcome) {
      calls := calls + [ListUsers];
      if listed.Some? {
        calls := calls + [ConfirmEmail(listed.value.id), SignIn];
        outcome := signIn(body, 1);
      }
    }
    if outcome.AuthError? {
      return Fail(401, outcome.message), calls;
    }
    var user := outcome.user;
    var role := OrDefault(user.metaRole, DefaultRole);
    calls := calls + [FetchProfile(user.id)];
    var profile := profileOf(user.id);
    if Truthy(ProfileRole(profile)) {
      role := ProfileRole(profile).value;
    }
    var claims := Claims(user.id, user.email, Or(user.metaName, ProfileName(profile)), Some(role), map[]);
    reply := Ok(200, LoggedIn(sign(claims, TokenLifetime), claims));
  }

  // ---------------------------------------------------------------------
  // GET /auth/profile

  /** The token's claims with the role and name refreshed from the profile:
      role = profile role, else token role, else the default; name = token
      name, else profile name; every other claim unchanged. */
  function ProfileView(user: Claims, profile: Option<ProfileRow>): (r: Claims)
    ensures r.role == Some(FirstTruthy([ProfileRole(profile), user.role], DefaultRole))
    ensures Truthy(user.name) ==> r.name == user.name
    ensures !Truthy(user.name) ==> r.name == ProfileName(profile)
    ensures r.id == user.id && r.email == user.email && r.extra == user.extra
  {
    user.(role := Some(OrDefault(Or(ProfileRole(profile), user.role), DefaultRole)),
          name := Or(user.name, ProfileName(profile)))
  }

  /** `GET /auth/profile` behind `requireAuth`. */
  function ProfileRoute(auth: Gate, profileOf: string -> Option<ProfileRow>): (r: Reply<Claims>)
    ensures auth.Deny? ==> r == Fail(auth.status, Some(auth.message))
    ensures auth.Pass? ==> r == Ok(200, ProfileView(auth.user, profileOf(auth.user.id)))
  {
    match auth
    case Deny(status, message) => Fail(status, Some(message))
    case Pass(user) => Ok(200, ProfileView(user, profileOf(user.id)))
  }

  /** With the profile unchanged since login, the profile endpoint returns the
      login's role and name again: both routes apply one precedence. */
  lemma ProfileAgreesWithLogin(user: AuthUser, profile: Option<ProfileRow>, extra: map<string, Scalar>)
    ensures var issued := LoginClaims(user, profile).(extra := extra);
            ProfileView(issued, profile) == issued
  {
    var issued := LoginClaims(user, profile).(extra := extra);
    var r := ProfileView(issued, profile);
    assert r.role == issued.role;
    assert r.name == issued.name;
  }
}
