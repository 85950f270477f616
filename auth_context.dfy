/**
 * The session guard of the mobile client: an `isAuthenticated` flag kept beside the
 * stored token, sign-in / sign-up / sign-out, and the redirect rule that runs whenever
 * the route or the flag changes. Navigation is observed as the list of
 * `router.replace` targets issued so far.
 */
module Auth {
  import opened Wrappers
  import opened Text
  import opened Api
  import Ui

  const LoginRoute := "/auth/login"
  const HomeRoute := "/(tabs)"
  const LandingRoute := "/"

  /** The redirect the guard issues for the current route segments and flag, if any. */
  function RedirectTarget(segments: seq<string>, isAuthenticated: bool): (target: Option<string>)
    ensures target == Some(LoginRoute) <==> !isAuthenticated && |segments| > 0 && segments[0] == "(tabs)"
    ensures target == Some(HomeRoute) <==> isAuthenticated && |segments| > 0 && segments[0] == "auth"
    ensures target.None? <==>
              !(!isAuthenticated && |segments| > 0 && segments[0] == "(tabs)") &&
              !(isAuthenticated && |segments| > 0 && segments[0] == "auth")
  {
    var inAuthGroup := |segments| > 0 && segments[0] == "auth";
    var isProtectedRoute := |segments| > 0 && segments[0] == "(tabs)";
    if !isAuthenticated && isProtectedRoute then Some(LoginRoute)
    else if isAuthenticated && inAuthGroup then Some(HomeRoute)
    else None
  }

  /** The route segments of an absolute path. */
  function Segments(path: string): seq<string>
  {
    if path == "/" || path == "" then [] else Split(path[1..], '/')
  }

  /** The guard never redirects from the root route, whatever the flag. */
  lemma RootRouteNeverRedirects(isAuthenticated: bool)
    ensures RedirectTarget(Segments(LandingRoute), isAuthenticated) == None
  {
  }

  /** The guard settles in one step: a redirect lands on a route where, with the same flag, the
      rule issues no further redirect. */
  lemma RedirectSettles(segments: seq<string>, isAuthenticated: bool)
    requires RedirectTarget(segments, isAuthenticated).Some?
    ensures RedirectTarget(Segments(RedirectTarget(segments, isAuthenticated).value), isAuthenticated) == None
  {
    if isAuthenticated {
      assert RedirectTarget(segments, isAuthenticated) == Some(HomeRoute);
      HomeRouteSegments();
    } else {
      assert RedirectTarget(segments, isAuthenticated) == Some(LoginRoute);
      LoginRouteSegments();
    }
  }

  /** The home route is the single segment `(tabs)`. */
  lemma HomeRouteSegments()
    ensures Segments(HomeRoute) == ["(tabs)"]
  {
    assert Segments(HomeRoute) == Split("(tabs)", '/');
    SplitWithoutSeparator("(tabs)", '/');
  }

  /** The login route starts with the segment `auth`. */
  lemma LoginRouteSegments()
    ensures |Segments(LoginRoute)| > 0 && Segments(LoginRoute)[0] == "auth"
  {
    var path := "auth/login";
    assert Segments(LoginRoute) == Split(path, '/');
    assert path[..4] == "auth" && path[4] == '/';
    SplitFirstPieceAt(path, '/', 4);
  }

  /** The client's session: the storage entries, the flag, and the navigations issued. */
  datatype Session = Session(entries: map<string, string>, isAuthenticated: bool, navigations: seq<string>)

  /** A session after a handler ran, and what it threw, if anything. */
  datatype Transition = Transition(session: Session, thrown: Option<Thrown>)

  /** The flag and the stored token agree. */
  predicate Consistent(s: Session)
  {
    s.isAuthenticated <==> Truthy(StoredToken(s.entries))
  }

  /** The reactive redirect effect, run with the current segments. */
  function NavigateSpec(s: Session, segments: seq<string>): Session
  {
    match RedirectTarget(segments, s.isAuthenticated)
    case Some(target) => s.(navigations := s.navigations + [target])
    case None => s
  }

  /** `checkAuthState`: restore the flag from storage at start-up. */
  function RestoreSpec(s: Session, faults: Faults): Session
  {
    if faults.readFails then s.(isAuthenticated := false)
    else s.(isAuthenticated := Truthy(StoredToken(s.entries)))
  }

  /** The message `signIn` throws for a caught error. */
  function SignInMessage(e: Thrown): string
  {
    var m := ServerMessage(e);
    if m.Some? then m.value else "Login failed"
  }

  /** The storage faults one `signIn` can meet: those during `authApi.login`, and those of `signIn`'s
      own `setItem` of the token, which can fail independently of the first. */
  datatype SignInFaults = SignInFaults(login: Faults, store: Faults)

  function SignInSpec(s: Session, creds: Credentials, server: SigninEndpoint, faults: SignInFaults): Transition
  {
    var login := LoginEffect(s.entries, creds, server, faults.login);
    var s1 := s.(entries := login.entries);
    match login.outcome
    case Failure(e) => Transition(s1, Some(PlainError(SignInMessage(e))))
    case Success(data) =>
      if data.Some? && Truthy(data.value.token) then
        if faults.store.writeFails then Transition(s1, Some(PlainError(SignInMessage(StorageError))))
        else Transition(s1.(entries := s1.entries[TokenKey := data.value.token.value], isAuthenticated := true), None)
      else Transition(s1, Some(PlainError(SignInMessage(PlainError("No token received from server")))))
  }

  function SignUpSpec(s: Session, email: string, password: string, username: string,
                      signup: SignupEndpoint, signin: SigninEndpoint, faults: Faults,
                      signInFaults: SignInFaults): Transition
  {
    var reg := RegisterEffect(s.entries, RegisterBody(username, email, password), signup, faults);
    var s1 := s.(entries := reg.entries);
    var thrown: Option<Thrown> :=
      if reg.outcome.Failure? then Some(reg.outcome.error)
      else
        var t := SignInSpec(s1, Credentials(username, password), signin, signInFaults);
        match t.thrown
        case None => None
        case Some(inner) =>
          Some(PlainError(var m := ServerMessage(inner); if m.Some? then m.value else "Login failed after registration"));
    var after := if reg.outcome.Failure? then s1 else SignInSpec(s1, Credentials(username, password), signin, signInFaults).session;
    match thrown
    case None => Transition(after, None)
    case Some(e) =>
      Transition(after, Some(PlainError(var m := ServerMessage(e); if m.Some? then m.value else "Registration failed")))
  }

  function SignOutSpec(s: Session, faults: Faults): Transition
  {
    if faults.writeFails then Transition(s, Some(StorageError))
    else Transition(Session(s.entries - {TokenKey}, false, s.navigations + [LandingRoute]), None)
  }

  /** Restoring sets the flag exactly when storage could be read and holds a non-empty token;
      nothing else changes. */
  lemma RestoreReflectsStoredToken(s: Session, faults: Faults)
    ensures RestoreSpec(s, faults).isAuthenticated <==> !faults.readFails && Truthy(StoredToken(s.entries))
    ensures RestoreSpec(s, faults).entries == s.entries && RestoreSpec(s, faults).navigations == s.navigations
  {
  }

  /** `signIn` sets the flag only after storing the token the server sent; on any failure the flag and
      the navigations are unchanged. The thrown message is the server's message when the rejection
      reaches `signIn` carrying one (storage was readable, and a 401's token removal did not fail
      first), and 'Login failed' otherwise. */
  lemma SignInOutcome(s: Session, creds: Credentials, server: SigninEndpoint, faults: SignInFaults)
    ensures var t := SignInSpec(s, creds, server, faults);
      && (t.thrown.None? ==>
            && server(creds).Success? && server(creds).value.Some?
            && Truthy(server(creds).value.value.token)
            && StoredToken(t.session.entries) == server(creds).value.value.token
            && t.session.isAuthenticated)
      && (t.thrown.Some? ==>
            && t.session.isAuthenticated == s.isAuthenticated
            && t.thrown.value.PlainError?
            && (t.thrown.value.message == "Login failed" ||
                (server(creds).Failure? && server(creds).error.ErrorResponse? &&
                 Some(t.thrown.value.message) == server(creds).error.message)))
      && (ServerReplied(creds, server, faults.login) ==>
            t.thrown == Some(PlainError(server(creds).error.message.value)))
      && (t.thrown.Some? && !ServerReplied(creds, server, faults.login) ==>
            t.thrown == Some(PlainError("Login failed")))
      && t.session.navigations == s.navigations
  {
  }

  /** The sign-in request reached the server, which rejected it with a non-empty message, and the
      response interceptor passed that rejection on. */
  predicate ServerReplied(creds: Credentials, server: SigninEndpoint, faults: Faults)
  {
    && !faults.readFails
    && server(creds).Failure? && server(creds).error.ErrorResponse?
    && Truthy(server(creds).error.message)
    && !(server(creds).error.status == 401 && faults.writeFails)
  }

  /** A successful sign-in response without a token is reported as 'Login failed', not as the
      'No token received from server' error raised for it. */
  lemma MissingTokenReadsLoginFailed(s: Session, creds: Credentials, server: SigninEndpoint, faults: SignInFaults)
    requires !faults.login.readFails
    requires server(creds).Success? && server(creds).value.Some? && !Truthy(server(creds).value.value.token)
    ensures SignInSpec(s, creds, server, faults) == Transition(s, Some(PlainError("Login failed")))
  {
  }

  /** `signUp` reports a failed registration with the server's message or 'Registration failed', and a
      failed sign-in after a successful registration always as 'Registration failed'. */
  lemma SignUpMessages(s: Session, email: string, password: string, username: string,
                       signup: SignupEndpoint, signin: SigninEndpoint, faults: Faults,
                       signInFaults: SignInFaults)
    ensures var reg := RegisterEffect(s.entries, RegisterBody(username, email, password), signup, faults);
      var t := SignUpSpec(s, email, password, username, signup, signin, faults, signInFaults);
      && (reg.outcome.Failure? ==>
            && t.session == s.(entries := reg.entries)
            && t.thrown == Some(PlainError(SignInMessageOr(reg.outcome.error, "Registration failed"))))
      && (reg.outcome.Success? ==>
            var signIn := SignInSpec(s.(entries := reg.entries), Credentials(username, password), signin, signInFaults);
            && t.session == signIn.session
            && (signIn.thrown.Some? <==> t.thrown.Some?)
            && (t.thrown.Some? ==> t.thrown == Some(PlainError("Registration failed"))))
  {
  }

  /** The server's message for `e`, or `fallback`. */
  function SignInMessageOr(e: Thrown, fallback: string): string
  {
    var m := ServerMessage(e);
    if m.Some? then m.value else fallback
  }

  /** A successful sign-out clears the token and the flag and navigates to the landing page; a failed
      one changes nothing. */
  lemma SignOutOutcome(s: Session, faults: Faults)
    ensures var t := SignOutSpec(s, faults);
      && (t.thrown.None? ==>
            && !t.session.isAuthenticated && StoredToken(t.session.entries) == None
            && t.session.navigations == s.navigations + [LandingRoute])
      && (t.thrown.Some? ==> t.session == s)
  {
  }

  /** One thing that can happen to the session. */
  datatype Event =
    | Restore(faults: Faults)
    | Navigate(segments: seq<string>)
    | SignInEvent(creds: Credentials, signin: SigninEndpoint, signInFaults: SignInFaults)
    | SignUpEvent(email: string, password: string, username: string,
                  signup: SignupEndpoint, signin: SigninEndpoint, faults: Faults, signInFaults: SignInFaults)
    | SignOutEvent(faults: Faults)
    | ApiCall(reply: Result<(), HttpError>, faults: Faults)   // any other request, such as `fetchUsers`

  function Step(s: Session, e: Event): Session
  {
    match e
    case Restore(faults) => RestoreSpec(s, faults)
    case Navigate(segments) => NavigateSpec(s, segments)
    case SignInEvent(creds, signin, faults) => SignInSpec(s, creds, signin, faults).session
    case SignUpEvent(email, password, username, signup, signin, faults, signInFaults) =>
      SignUpSpec(s, email, password, username, signup, signin, faults, signInFaults).session
    case SignOutEvent(faults) => SignOutSpec(s, faults).session
    case ApiCall(reply, faults) => s.(entries := CallEffect(s.entries, reply, faults).entries)
  }

  function Run(s: Session, events: seq<Event>): Session
    decreases |events|
  {
    if events == [] then s else Run(Step(s, events[0]), events[1..])
  }

  ghost predicate SigninNeverUnauthorized(server: SigninEndpoint)
  {
    forall c :: !(server(c).Failure? && server(c).error.ErrorResponse? && server(c).error.status == 401)
  }

  ghost predicate SignupNeverUnauthorized(server: SignupEndpoint)
  {
    forall b :: !(server(b).Failure? && server(b).error.ErrorResponse? && server(b).error.status == 401)
  }

  /** An event after which the flag and the stored token can be expected to agree: no server answers
      401, start-up can read storage, and `signIn`'s own write of the token does not fail. */
  ghost predicate Benign(e: Event)
  {
    match e
    case Restore(faults) => !faults.readFails
    case Navigate(_) => true
    case SignInEvent(_, signin, faults) => SigninNeverUnauthorized(signin) && !faults.store.writeFails
    case SignUpEvent(_, _, _, signup, signin, _, signInFaults) =>
      SignupNeverUnauthorized(signup) && SigninNeverUnauthorized(signin) && !signInFaults.store.writeFails
    case SignOutEvent(_) => true
    case ApiCall(reply, _) => !(reply.Failure? && reply.error.ErrorResponse? && reply.error.status == 401)
  }

  lemma SignInKeepsConsistent(s: Session, creds: Credentials, signin: SigninEndpoint, faults: SignInFaults)
    requires Consistent(s) && SigninNeverUnauthorized(signin) && !faults.store.writeFails
    ensures Consistent(SignInSpec(s, creds, signin, faults).session)
  {
    var login := LoginEffect(s.entries, creds, signin, faults.login);
    assert login.entries == s.entries || (login.outcome.Success? && StoredToken(login.entries) == login.outcome.value.value.token);
  }

  lemma {:induction false} StepKeepsConsistent(s: Session, e: Event)
    requires Consistent(s) && Benign(e)
    ensures Consistent(Step(s, e))
  {
    match e
    case SignInEvent(creds, signin, faults) =>
      SignInKeepsConsistent(s, creds, signin, faults);
    case SignUpEvent(email, password, username, signup, signin, faults, signInFaults) =>
      var reg := RegisterEffect(s.entries, RegisterBody(username, email, password), signup, faults);
      assert reg.entries == s.entries;
      if reg.outcome.Success? {
        SignInKeepsConsistent(s, Credentials(username, password), signin, signInFaults);
      }
    case _ =>
  }

  /** Over any run of benign events, the flag says exactly whether a token is stored. */
  lemma {:induction false} RunKeepsConsistent(s: Session, events: seq<Event>)
    requires Consistent(s)
    requires forall i :: 0 <= i < |events| ==> Benign(events[i])
    ensures Consistent(Run(s, events))
    decreases |events|
  {
    if events != [] {
      StepKeepsConsistent(s, events[0]);
      RunKeepsConsistent(Step(s, events[0]), events[1..]);
    }
  }

  /** A 401 answer to any request of a signed-in client removes the stored token but leaves the
      flag set: the response interceptor does not clear `isAuthenticated`, so the session is no
      longer consistent. */
  lemma UnauthorizedLeavesFlagSet(s: Session, message: Option<string>)
    requires s.isAuthenticated
    ensures var after := Step(s, ApiCall(Failure(ErrorResponse(401, message)), Faults(false, false)));
      after.isAuthenticated && StoredToken(after.entries) == None && !Consistent(after)
      && after.navigations == s.navigations
  {
  }

  /** `authApi.login` stores the token itself before `signIn` stores it again. When that second
      `setItem` fails, a signed-out session keeps the token the server issued but not the flag, and
      the user is told 'Login failed'. */
  lemma FailedSecondWriteLeavesTokenStored(s: Session, creds: Credentials, server: SigninEndpoint, token: string)
    requires !s.isAuthenticated
    requires server(creds) == Success(Some(JwtData(Some(token)))) && token != ""
    ensures var t := SignInSpec(s, creds, server, SignInFaults(Faults(false, false), Faults(false, true)));
      && StoredToken(t.session.entries) == Some(token) && !t.session.isAuthenticated
      && !Consistent(t.session)
      && t.thrown == Some(PlainError("Login failed"))
  {
  }

  /** The `AuthProvider` component's state and handlers. */
  class AuthProvider {
    const storage: TokenStore
    var isAuthenticated: bool
    var navigations: seq<string>

    function State(): Session
      reads this, storage
    {
      Session(storage.entries, isAuthenticated, navigations)
    }

    constructor (storage: TokenStore)
      ensures this.storage == storage
      ensures !isAuthenticated && navigations == []
    {
      this.storage := storage;
      isAuthenticated := false;
      navigations := [];
    }

    /** The redirect effect (it re-runs whenever the segments or the flag change). */
    method OnRouteChange(segments: seq<string>)
      modifies this
      ensures State() == NavigateSpec(old(State()), segments)
    {
      var inAuthGroup := |segments| > 0 && segments[0] == "auth";
      var isProtectedRoute := |segments| > 0 && segments[0] == "(tabs)";
      if !isAuthenticated && isProtectedRoute {
        navigations := navigations + [LoginRoute];
      } else if isAuthenticated && inAuthGroup {
        navigations := navigations + [HomeRoute];
      }
    }

    method CheckAuthState(faults: Faults)
      modifies this
      ensures State() == RestoreSpec(old(State()), faults)
    {
      var token := storage.GetItem(TokenKey, faults);
      if token.Failure? {
        isAuthenticated := false;
      } else {
        isAuthenticated := Truthy(token.value);
      }
    }

    method SignIn(username: string, password: string, server: SigninEndpoint, faults: SignInFaults)
      returns (thrown: Option<Thrown>)
      modifies this, storage
      ensures Transition(State(), thrown) == SignInSpec(old(State()), Credentials(username, password), server, faults)
    {
      var response := Login(storage, username, password, server, faults.login);
      if response.Failure? {
        thrown := Some(PlainError(SignInMessage(response.error)));
        return;
      }
      var data := response.value;
      if data.Some? && Truthy(data.value.token) {
        var failed := storage.SetItem(TokenKey, data.value.token.value, faults.store);
        if failed.Some? {
          thrown := Some(PlainError(SignInMessage(failed.value)));
          return;
        }
        isAuthenticated := true;
        thrown := None;
      } else {
        thrown := Some(PlainError(SignInMessage(PlainError("No token received from server"))));
      }
    }

    method SignUp(email: string, password: string, username: string,
                  signup: SignupEndpoint, signin: SigninEndpoint, faults: Faults, signInFaults: SignInFaults)
      returns (thrown: Option<Thrown>)
      modifies this, storage
      ensures Transition(State(), thrown) == SignUpSpec(old(State()), email, password, username, signup, signin, faults, signInFaults)
    {
      var caught: Option<Thrown> := None;
      var registered := Register(storage, username, email, password, signup, faults);
      if registered.Failure? {
        caught := Some(registered.error);
      } else {
        var signInError := SignIn(username, password, signin, signInFaults);
        if signInError.Some? {
          var m := ServerMessage(signInError.value);
          caught := Some(PlainError(if m.Some? then m.value else "Login failed after registration"));
        }
      }
      if caught.Some? {
        var m := ServerMessage(caught.value);
        thrown := Some(PlainError(if m.Some? then m.value else "Registration failed"));
      } else {
        thrown := None;
      }
    }

    method SignOut(faults: Faults) returns (thrown: Option<Thrown>)
      modifies this, storage
      ensures Transition(State(), thrown) == SignOutSpec(old(State()), faults)
    {
      var failed := storage.RemoveItem(TokenKey, faults);
      if failed.Some? {
        thrown := failed;
        return;
      }
      isAuthenticated := false;
      navigations := navigations + [LandingRoute];
      thrown := None;
    }
  }

  /** `useAuth`: the context value, or the error thrown outside an `AuthProvider`. */
  function UseAuth<C>(context: Option<C>): (r: Result<C, string>)
    ensures context.Some? ==> r == Success(context.value)
    ensures context.None? ==> r == Failure("useAuth must be used within an AuthProvider")
  {
    assert "useAuth" + " must be used within " + "an AuthProvider" == "useAuth must be used within an AuthProvider";
    Ui.UseContext(context, "useAuth", "an AuthProvider")
  }
}
