/**
 * The backend's `/api/auth` controller: sign-in through the authentication manager and JWT
 * utilities, and sign-up through the user service. The authentication manager and the token
 * generator are inputs; each of them either answers or throws.
 */
module AuthController {
  import opened Wrappers
  import opened Web
  import opened Users
  import Api

  /** The response bodies of this controller. */
  datatype AuthBody =
    | MessageResponse(message: string)
    | JwtResponse(token: string, username: string, roles: set<string>)

  /** What `authenticationManager.authenticate` does with a username/password token. */
  datatype AuthOutcome =
    | Authenticated(authentication: Authentication)
    | BadCredentials   // an `AuthenticationException`
    | ManagerFailure   // any other exception

  type AuthenticationManager = Api.Credentials -> AuthOutcome

  /** `jwtUtils.generateJwtToken`; `None` when it throws. */
  type JwtGenerator = Authentication -> Option<string>

  const InvalidCredentials := "Error: Invalid username or password"
  const UnexpectedError := "Error: An unexpected error occurred"
  const UsernameTaken := "Error: Username is already taken!"
  const EmailInUse := "Error: Email is already in use!"
  const RegistrationError := "Error: An unexpected error occurred during registration"
  const Registered := "User registered successfully!"

  /** The reply to `POST /api/auth/signin` for a given manager outcome and generated token. */
  function SigninResponse(outcome: AuthOutcome, jwt: Option<string>): (r: Response<AuthBody>)
    ensures r.status == 200 <==>
      outcome.Authenticated? && jwt.Some? && outcome.authentication.principal.UserDetailsImpl?
    ensures r.status == 200 ==>
      var p := outcome.authentication.principal;
      r.body == JwtResponse(jwt.value, p.username, p.authorities)
    ensures r.status == 400 <==> outcome.BadCredentials?
    ensures r.status == 400 ==> r.body == MessageResponse(InvalidCredentials)
    ensures r.status != 200 && r.status != 400 ==> r == Response(500, MessageResponse(UnexpectedError))
  {
    match outcome
    case BadCredentials => Response(400, MessageResponse(InvalidCredentials))
    case ManagerFailure => Response(500, MessageResponse(UnexpectedError))
    case Authenticated(authentication) =>
      if jwt.None? then Response(500, MessageResponse(UnexpectedError))
      else match authentication.principal
        case OtherPrincipal(_) => Response(500, MessageResponse(UnexpectedError))  // the cast to UserDetails fails
        case UserDetailsImpl(_, username, authorities) => Response(200, JwtResponse(jwt.value, username, authorities))
  }

  /** `authenticateUser`: authenticate, record the authentication in the security context, issue
      a token and answer with it; the context keeps the authentication even when a later step
      throws. */
  method AuthenticateUser(context: SecurityContext, req: Api.Credentials,
                          manager: AuthenticationManager, jwtUtils: JwtGenerator)
    returns (r: Response<AuthBody>)
    modifies context
    ensures r == SigninResponse(manager(req), if manager(req).Authenticated? then jwtUtils(manager(req).authentication) else None)
    ensures context.authentication ==
      (if manager(req).Authenticated? then Some(manager(req).authentication) else old(context.authentication))
  {
    var outcome := manager(req);
    if outcome.BadCredentials? {
      return Response(400, MessageResponse(InvalidCredentials));
    }
    if outcome.ManagerFailure? {
      return Response(500, MessageResponse(UnexpectedError));
    }
    context.authentication := Some(outcome.authentication);
    var jwt := jwtUtils(outcome.authentication);
    if jwt.None? {
      return Response(500, MessageResponse(UnexpectedError));
    }
    if outcome.authentication.principal.OtherPrincipal? {
      return Response(500, MessageResponse(UnexpectedError));
    }
    var details := outcome.authentication.principal;
    r := Response(200, JwtResponse(jwt.value, details.username, details.authorities));
  }

  /** The duplicate checks of sign-up, username first. */
  function SignupCheck(usernameTaken: bool, emailTaken: bool): (r: Option<string>)
    ensures r.None? <==> !usernameTaken && !emailTaken
    ensures usernameTaken ==> r == Some(UsernameTaken)
    ensures !usernameTaken && emailTaken ==> r == Some(EmailInUse)
  {
    if usernameTaken then Some(UsernameTaken)
    else if emailTaken then Some(EmailInUse)
    else None
  }

  /** `registerUser`: refuse a taken username or e-mail with 400, otherwise register the account;
      `newId` is the id the database assigns and `repositoryFails` says whether saving throws,
      in which case the transaction leaves the table as it was. */
  method RegisterUser(service: UserService, req: SignupRequest, newId: string, repositoryFails: bool)
    returns (r: Response<AuthBody>)
    requires service.Valid() && newId !in service.users
    modifies service
    ensures service.Valid()
    ensures var refused := SignupCheck(old(service.ExistsByUsername(req.username)), old(service.ExistsByEmail(req.email)));
      && (refused.Some? ==> r == Response(400, MessageResponse(refused.value)) && service.users == old(service.users))
      && (refused.None? && repositoryFails ==>
            r == Response(500, MessageResponse(RegistrationError)) && service.users == old(service.users))
      && (refused.None? && !repositoryFails ==>
            r == Response(200, MessageResponse(Registered))
            && service.users == old(service.users)[newId := NewAccount(req, service.encode).(id := Some(newId))])
    // after a success the same request is refused as a duplicate
    ensures r.status == 200 ==> SignupCheck(service.ExistsByUsername(req.username), service.ExistsByEmail(req.email)) == Some(UsernameTaken)
  {
    if service.ExistsByUsername(req.username) {
      return Response(400, MessageResponse(UsernameTaken));
    }
    if service.ExistsByEmail(req.email) {
      return Response(400, MessageResponse(EmailInUse));
    }
    if repositoryFails {
      return Response(500, MessageResponse(RegistrationError));
    }
    service.RegisterNewUserAccount(req, newId);
    r := Response(200, MessageResponse(Registered));
  }

  /** How the client's HTTP layer sees a sign-in reply: a 2xx body, or an error response with the
      body's `message` (the token is assumed to be serialised under the key `token`). */
  function AsClientReply(r: Response<AuthBody>): Result<Option<Api.JwtData>, Api.HttpError>
  {
    if r.status == 200 && r.body.JwtResponse? then Success(Some(Api.JwtData(Some(r.body.token))))
    else Failure(Api.ErrorResponse(r.status, if r.body.MessageResponse? then Some(r.body.message) else None))
  }

  /** The client's sign-in endpoint as this controller implements it. */
  function Endpoint(manager: AuthenticationManager, jwtUtils: JwtGenerator): Api.SigninEndpoint
  {
    c => AsClientReply(SigninResponse(manager(c), if manager(c).Authenticated? then jwtUtils(manager(c).authentication) else None))
  }

  /** End to end: when the server issues a non-empty token, the client stores exactly that token;
      bad credentials reach the client as the server's message and leave its storage alone, since
      a 400 is not the 401 the response interceptor acts on. */
  lemma SigninEndToEnd(entries: map<string, string>, creds: Api.Credentials,
                       manager: AuthenticationManager, jwtUtils: JwtGenerator)
    ensures var r := SigninResponse(manager(creds), if manager(creds).Authenticated? then jwtUtils(manager(creds).authentication) else None);
      var eff := Api.LoginEffect(entries, creds, Endpoint(manager, jwtUtils), Api.Faults(false, false));
      && (r.status == 200 && r.body.token != "" ==>
            eff.outcome.Success? && Api.StoredToken(eff.entries) == Some(r.body.token))
      && (manager(creds).BadCredentials? ==>
            eff.entries == entries && eff.outcome.Failure?
            && Api.ServerMessage(eff.outcome.error) == Some(InvalidCredentials))
  {
    var r := SigninResponse(manager(creds), if manager(creds).Authenticated? then jwtUtils(manager(creds).authentication) else None);
    assert Endpoint(manager, jwtUtils)(creds) == AsClientReply(r);
  }
}
