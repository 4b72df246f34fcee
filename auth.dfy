/** The authentication helpers: sign-up, sign-in with first-login profile
    creation, and sign-out. The remote service is not modelled: each reply it
    could give is an input, every request is appended to a log, and every action
    sent to the store is appended to a second log. */
module Auth {
  import opened Optional

  // ---------------------------------------------------------------------------
  // what goes out and what comes back

  /** An error object of the remote service, known by its code. */
  datatype RemoteError = RemoteError(code: string)

  /** The code the profile lookup reports when no row matches. */
  const NotFoundCode := "PGRST116"

  /** A user of the auth service; `fullName` is `user_metadata.full_name`. */
  datatype AuthUser = AuthUser(id: string, email: Option<string>, fullName: Option<string>)

  /** The `data` of an auth reply; `user` may be null. */
  datatype AuthData = AuthData(user: Option<AuthUser>)

  /** A row of the `users` table. */
  datatype ProfileRow = ProfileRow(id: string, email: Option<string>, fullName: Option<string>)

  datatype SignUpCredentials = SignUpCredentials(email: string, password: string, fullName: Option<string>)
  datatype SignInCredentials = SignInCredentials(email: string, password: string)

  /** The reply of `auth.signUp` or `auth.signInWithPassword`: an error, or the data. */
  datatype AuthReply = AuthFailed(error: RemoteError) | AuthOk(data: AuthData)

  /** The reply of the single-row profile lookup. */
  datatype ProfileReply = ProfileFound(row: ProfileRow) | ProfileError(error: RemoteError)

  /** The reply of the profile insert: the returned `data` (null unless rows are
      asked back), an `error` object, or an exception. */
  datatype InsertReply = Inserted(data: Option<seq<ProfileRow>>) | InsertFailed(error: RemoteError) | InsertThrew(error: RemoteError)

  datatype Request =
    | SignUpRequest(email: string, password: string, fullName: Option<string>)
    | SignInRequest(email: string, password: string)
    | SelectProfile(id: string)
    | InsertProfile(id: string, email: string, fullName: Option<string>)
    | SignOutRequest

  datatype UserData = UserData(id: string, email: string, fullName: string)
  datatype LoginPayload = LoginPayload(authStatus: bool, userData: UserData)

  /** The actions sent to the store. */
  datatype Action = Login(payload: LoginPayload) | Logout

  /** How an async helper ends: it resolves with a value or rejects with an error. */
  datatype Completion<T> = Returned(value: T) | Threw(error: RemoteError)

  /** The value `createUserProfile` resolves with: `{success: true, data}` or `{success: false, error}`. */
  datatype ProfileResult = ProfileCreated(data: Option<seq<ProfileRow>>) | ProfileFailed(error: RemoteError)
  {
    predicate Success() { ProfileCreated? }
  }

  /** What one call does: how it ends, the requests it makes and the actions it dispatches, in order. */
  datatype Outcome<T> = Outcome(result: Completion<T>, requests: seq<Request>, actions: seq<Action>)

  // ---------------------------------------------------------------------------
  // the helpers as functions of the replies

  /** `createUserProfile`: an insert, whose failure and exception both become `{success: false}`. */
  function ProfileOutcome(reply: InsertReply): ProfileResult {
    match reply
    case Inserted(data) => ProfileCreated(data)
    case InsertFailed(e) => ProfileFailed(e)
    case InsertThrew(e) => ProfileFailed(e)
  }

  /** The profile creation never rejects: it reports success exactly for an insert without error,
      and otherwise hands back the error or the exception. */
  lemma ProfileOutcomeCases(reply: InsertReply)
    ensures ProfileOutcome(reply).Success() <==> reply.Inserted?
    ensures reply.Inserted? ==> ProfileOutcome(reply).data == reply.data
    ensures !reply.Inserted? ==> ProfileOutcome(reply).error == reply.error
  {
  }

  /** `signUp`: one request; an error is rethrown; no profile is written. */
  function SignUpSpec(c: SignUpCredentials, reply: AuthReply): Outcome<AuthData> {
    var sent := [SignUpRequest(c.email, c.password, c.fullName)];
    match reply
    case AuthFailed(e) => Outcome(Threw(e), sent, [])
    case AuthOk(data) => Outcome(Returned(data), sent, [])
  }

  function LoginFor(id: string, email: Option<string>, fullName: Option<string>): Action {
    Login(LoginPayload(true, UserData(id, email.GetOr(""), fullName.GetOr(""))))
  }

  /** `signIn`: the auth request, then for a returned user the profile lookup and, when the
      row is missing, the insert; `login` is dispatched for an existing row, or for a new
      row whose insert succeeded and returned data. Any other lookup error is only logged. */
  function SignInSpec(c: SignInCredentials, auth: AuthReply, profile: ProfileReply, insert: InsertReply): Outcome<AuthData> {
    var sent := [SignInRequest(c.email, c.password)];
    match auth
    case AuthFailed(e) => Outcome(Threw(e), sent, [])
    case AuthOk(data) =>
      match data.user
      case None => Outcome(Returned(data), sent, [])
      case Some(u) =>
        var looked := sent + [SelectProfile(u.id)];
        match profile
        case ProfileFound(row) => Outcome(Returned(data), looked, [LoginFor(row.id, row.email, row.fullName)])
        case ProfileError(e) =>
          if e.code != NotFoundCode then Outcome(Returned(data), looked, [])
          else
            var created := ProfileOutcome(insert);
            var inserted := looked + [InsertProfile(u.id, u.email.GetOr(""), u.fullName)];
            if created.Success() && created.data.Some? then
              Outcome(Returned(data), inserted, [LoginFor(u.id, u.email, u.fullName)])
            else Outcome(Returned(data), inserted, [])
  }

  /** `signOut`: the remote sign-out, then `logout` only if it reported no error. */
  function SignOutSpec(reply: Option<RemoteError>): Outcome<bool> {
    match reply
    case Some(e) => Outcome(Threw(e), [SignOutRequest], [])
    case None => Outcome(Returned(true), [SignOutRequest], [Logout])
  }

  // ---------------------------------------------------------------------------
  // properties

  /** Sign-up rethrows an auth error, returns the data otherwise, and never touches the profile table or the store. */
  lemma SignUpNeverWritesProfile(c: SignUpCredentials, reply: AuthReply)
    ensures SignUpSpec(c, reply).result == (if reply.AuthFailed? then Threw(reply.error) else Returned(reply.data))
    ensures forall r :: r in SignUpSpec(c, reply).requests ==> !r.InsertProfile? && !r.SelectProfile?
    ensures SignUpSpec(c, reply).actions == []
  {
  }

  /** An auth error ends sign-in before any lookup or dispatch. */
  lemma SignInAuthErrorStopsEarly(c: SignInCredentials, e: RemoteError, profile: ProfileReply, insert: InsertReply)
    ensures SignInSpec(c, AuthFailed(e), profile, insert) == Outcome(Threw(e), [SignInRequest(c.email, c.password)], [])
  {
  }

  /** Without a user in the reply there is no lookup and no dispatch, and the data is returned. */
  lemma SignInWithoutUser(c: SignInCredentials, profile: ProfileReply, insert: InsertReply)
    ensures SignInSpec(c, AuthOk(AuthData(None)), profile, insert) ==
      Outcome(Returned(AuthData(None)), [SignInRequest(c.email, c.password)], [])
  {
  }

  /** An existing profile logs in with the row's id, its e-mail or '', its full name or ''. */
  lemma SignInExistingProfile(c: SignInCredentials, u: AuthUser, row: ProfileRow, insert: InsertReply)
    ensures SignInSpec(c, AuthOk(AuthData(Some(u))), ProfileFound(row), insert).actions ==
      [Login(LoginPayload(true, UserData(row.id, row.email.GetOr(""), row.fullName.GetOr(""))))]
    ensures forall r :: r in SignInSpec(c, AuthOk(AuthData(Some(u))), ProfileFound(row), insert).requests ==> !r.InsertProfile?
  {
  }

  /** A missing profile is inserted with the user's id, e-mail or '' and metadata name, and
      `login` follows exactly when the insert succeeded and returned data. */
  lemma SignInCreatesMissingProfile(c: SignInCredentials, u: AuthUser, e: RemoteError, insert: InsertReply)
    requires e.code == NotFoundCode
    ensures InsertProfile(u.id, u.email.GetOr(""), u.fullName) in SignInSpec(c, AuthOk(AuthData(Some(u))), ProfileError(e), insert).requests
    ensures SignInSpec(c, AuthOk(AuthData(Some(u))), ProfileError(e), insert).actions != [] <==> insert.Inserted? && insert.data.Some?
    ensures insert.Inserted? && insert.data.Some? ==>
      SignInSpec(c, AuthOk(AuthData(Some(u))), ProfileError(e), insert).actions ==
        [Login(LoginPayload(true, UserData(u.id, u.email.GetOr(""), u.fullName.GetOr(""))))]
    ensures SignInSpec(c, AuthOk(AuthData(Some(u))), ProfileError(e), insert).result == Returned(AuthData(Some(u)))
  {
    assert InsertProfile(u.id, u.email.GetOr(""), u.fullName) == SignInSpec(c, AuthOk(AuthData(Some(u))), ProfileError(e), insert).requests[2];
  }

  /** Any other lookup error dispatches nothing, inserts nothing, and sign-in still resolves with the data. */
  lemma SignInOtherProfileError(c: SignInCredentials, u: AuthUser, e: RemoteError, insert: InsertReply)
    requires e.code != NotFoundCode
    ensures SignInSpec(c, AuthOk(AuthData(Some(u))), ProfileError(e), insert) ==
      Outcome(Returned(AuthData(Some(u))), [SignInRequest(c.email, c.password), SelectProfile(u.id)], [])
  {
  }

  /** Over all replies: sign-in dispatches at most one action, always a `login` with `authStatus` true,
      never when it rejects, and it dispatches one exactly in the two cases above. */
  lemma {:induction false} SignInDispatchRule(c: SignInCredentials, auth: AuthReply, profile: ProfileReply, insert: InsertReply)
    ensures |SignInSpec(c, auth, profile, insert).actions| <= 1
    ensures forall a :: a in SignInSpec(c, auth, profile, insert).actions ==> a.Login? && a.payload.authStatus
    ensures SignInSpec(c, auth, profile, insert).result.Threw? ==> SignInSpec(c, auth, profile, insert).actions == []
    ensures SignInSpec(c, auth, profile, insert).result.Threw? <==> auth.AuthFailed?
    ensures SignInSpec(c, auth, profile, insert).actions != [] <==>
      auth.AuthOk? && auth.data.user.Some? &&
      (profile.ProfileFound? || (profile.error.code == NotFoundCode && insert.Inserted? && insert.data.Some?))
  {
    match auth
    case AuthFailed(_) =>
    case AuthOk(data) =>
      match data.user
      case None =>
      case Some(u) =>
        if profile.ProfileError? && profile.error.code == NotFoundCode {
          ProfileOutcomeCases(insert);
        }
  }

  /** Sign-out dispatches `logout` exactly when the remote sign-out reported no error, and rethrows otherwise. */
  lemma SignOutRule(reply: Option<RemoteError>)
    ensures SignOutSpec(reply).actions == (if reply.None? then [Logout] else [])
    ensures SignOutSpec(reply).result.Threw? <==> reply.Some?
    ensures reply.Some? ==> SignOutSpec(reply).result.error == reply.value
  {
  }

  // ---------------------------------------------------------------------------
  // the helpers as they run, against one service and one store

  class AuthClient {
    /** The requests sent to the remote service so far. */
    var requests: seq<Request>
    /** The actions dispatched to the store so far. */
    var dispatched: seq<Action>

    constructor ()
      ensures requests == [] && dispatched == []
    {
      requests, dispatched := [], [];
    }

    method CreateUserProfile(userId: string, email: string, fullName: Option<string>, reply: InsertReply)
      returns (r: ProfileResult)
      modifies this
      ensures r == ProfileOutcome(reply)
      ensures requests == old(requests) + [InsertProfile(userId, email, fullName)]
      ensures dispatched == old(dispatched)
    {
      requests := requests + [InsertProfile(userId, email, fullName)];
      match reply {
        case InsertThrew(e) =>
          return ProfileFailed(e);
        case InsertFailed(e) =>
          return ProfileFailed(e);
        case Inserted(data) =>
          return ProfileCreated(data);
      }
    }

    method SignUp(c: SignUpCredentials, reply: AuthReply) returns (r: Completion<AuthData>)
      modifies this
      ensures r == SignUpSpec(c, reply).result
      ensures requests == old(requests) + SignUpSpec(c, reply).requests
      ensures dispatched == old(dispatched) + SignUpSpec(c, reply).actions
    {
      requests := requests + [SignUpRequest(c.email, c.password, c.fullName)];
      if reply.AuthFailed? {
        return Threw(reply.error);
      }
      return Returned(reply.data);
    }

    method SignIn(c: SignInCredentials, auth: AuthReply, profile: ProfileReply, insert: InsertReply)
      returns (r: Completion<AuthData>)
      modifies this
      ensures r == SignInSpec(c, auth, profile, insert).result
      ensures requests == old(requests) + SignInSpec(c, auth, profile, insert).requests
      ensures dispatched == old(dispatched) + SignInSpec(c, auth, profile, insert).actions
    {
      requests := requests + [SignInRequest(c.email, c.password)];
      if auth.AuthFailed? {
        return Threw(auth.error);
      }
      var data := auth.data;
      if data.user.Some? {
        var u := data.user.value;
        requests := requests + [SelectProfile(u.id)];
        if profile.ProfileError? {
          if profile.error.code == NotFoundCode {
            var created := CreateUserProfile(u.id, u.email.GetOr(""), u.fullName, insert);
            if created.Success() && created.data.Some? {
              dispatched := dispatched + [LoginFor(u.id, u.email, u.fullName)];
            }
          }
        } else {
          var row := profile.row;
          dispatched := dispatched + [LoginFor(row.id, row.email, row.fullName)];
        }
      }
      return Returned(data);
    }

    method SignOut(reply: Option<RemoteError>) returns (r: Completion<bool>)
      modifies this
      ensures r == SignOutSpec(reply).result
      ensures requests == old(requests) + SignOutSpec(reply).requests
      ensures dispatched == old(dispatched) + SignOutSpec(reply).actions
    {
      requests := requests + [SignOutRequest];
      if reply.Some? {
        return Threw(reply.value);
      }
      dispatched := dispatched + [Logout];
      return Returned(true);
    }
  }
}
