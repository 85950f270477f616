/**
 * The login screen: both fields are required, then the session's `signIn` runs with the e-mail
 * field as the user name it sends; any failure shows one fixed alert.
 */
module LoginScreen {
  import opened Wrappers
  import opened Ui
  import opened Api
  import opened Auth

  const FillAllFields := "Please fill in all fields"
  const LoginFailed := "Failed to sign in. Please try again."

  function Validate(email: string, password: string): (problem: Option<string>)
    ensures problem.None? <==> email != "" && password != ""
    ensures problem.Some? ==> problem.value == FillAllFields
  {
    if email == "" || password == "" then Some(FillAllFields) else None
  }

  class Login {
    var email: string
    var password: string
    var isLoading: bool
    var alerts: seq<Alert>

    constructor ()
      ensures email == "" && password == "" && !isLoading && alerts == []
    {
      email, password := "", "";
      isLoading := false;
      alerts := [];
    }

    /** `handleLogin`: the credentials sent are the e-mail field and the password. */
    method HandleLogin(auth: AuthProvider, server: SigninEndpoint, faults: SignInFaults)
      modifies this, auth, auth.storage
      ensures email == old(email) && password == old(password)
      ensures Validate(email, password).Some? ==>
        && alerts == old(alerts) + [Alert("Error", FillAllFields)]
        && auth.State() == old(auth.State()) && isLoading == old(isLoading)
      ensures Validate(email, password).None? ==>
        !isLoading &&
        var t := SignInSpec(old(auth.State()), Credentials(email, password), server, faults);
        && auth.State() == t.session
        && alerts == old(alerts) + (if t.thrown.Some? then [Alert("Error", LoginFailed)] else [])
    {
      if Validate(email, password).Some? {
        alerts := alerts + [Alert("Error", FillAllFields)];
        return;
      }
      isLoading := true;
      var thrown := auth.SignIn(email, password, server, faults);
      if thrown.Some? {
        alerts := alerts + [Alert("Error", LoginFailed)];
      }
      isLoading := false;
    }
  }

  /** A login attempt that raises no alert leaves the user signed in with the token the server
      issued for the e-mail field taken as the user name. */
  lemma QuietLoginSignsIn(s: Session, email: string, password: string, server: SigninEndpoint, faults: SignInFaults)
    requires Validate(email, password).None?
    requires SignInSpec(s, Credentials(email, password), server, faults).thrown.None?
    ensures var t := SignInSpec(s, Credentials(email, password), server, faults);
      && t.session.isAuthenticated
      && server(Credentials(email, password)).Success?
      && server(Credentials(email, password)).value.Some?
      && StoredToken(t.session.entries) == server(Credentials(email, password)).value.value.token
  {
    SignInOutcome(s, Credentials(email, password), server, faults);
  }
}
