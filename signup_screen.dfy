/**
 * The sign-up screen: the four fields are checked on the device, then the session's `signUp`
 * registers and signs in; any failure shows one fixed alert, whatever the server said.
 */
module SignupScreen {
  import opened Wrappers
  import opened Ui
  import opened Api
  import opened Auth

  const FillAllFields := "Please fill in all fields"
  const PasswordsDiffer := "Passwords do not match"
  const SignupFailed := "Failed to sign up. Please try again."

  /** The on-device check: the first problem found, if any. */
  function Validate(username: string, email: string, password: string, confirmPassword: string): (problem: Option<string>)
    ensures problem.None? <==> username != "" && email != "" && password != "" && password == confirmPassword
    ensures problem == Some(FillAllFields) <==> username == "" || email == "" || password == "" || confirmPassword == ""
    ensures problem.Some? ==> problem == Some(FillAllFields) || problem == Some(PasswordsDiffer)
  {
    if username == "" || email == "" || password == "" || confirmPassword == "" then Some(FillAllFields)
    else if password != confirmPassword then Some(PasswordsDiffer)
    else None
  }

  class Signup {
    var username: string
    var email: string
    var password: string
    var confirmPassword: string
    var isLoading: bool
    var alerts: seq<Alert>

    constructor ()
      ensures username == "" && email == "" && password == "" && confirmPassword == ""
      ensures !isLoading && alerts == []
    {
      username, email, password, confirmPassword := "", "", "", "";
      isLoading := false;
      alerts := [];
    }

    /** `handleSignup`: the form is left as typed; only the loading flag, the alerts and the
        session change. */
    method HandleSignup(auth: AuthProvider, signup: SignupEndpoint, signin: SigninEndpoint, faults: Faults,
                         signInFaults: SignInFaults)
      modifies this, auth, auth.storage
      ensures username == old(username) && email == old(email) && password == old(password)
      ensures confirmPassword == old(confirmPassword)
      ensures var problem := Validate(username, email, password, confirmPassword);
        && (problem.Some? ==>
              && alerts == old(alerts) + [Alert("Error", problem.value)]
              && auth.State() == old(auth.State()) && isLoading == old(isLoading))
        && (problem.None? ==>
              !isLoading &&
              var t := SignUpSpec(old(auth.State()), email, password, username, signup, signin, faults, signInFaults);
              && auth.State() == t.session
              && alerts == old(alerts) + (if t.thrown.Some? then [Alert("Error", SignupFailed)] else []))
    {
      var problem := Validate(username, email, password, confirmPassword);
      if problem.Some? {
        alerts := alerts + [Alert("Error", problem.value)];
        return;
      }
      isLoading := true;
      var thrown := auth.SignUp(email, password, username, signup, signin, faults, signInFaults);
      if thrown.Some? {
        alerts := alerts + [Alert("Error", SignupFailed)];
      }
      isLoading := false;
    }
  }
}
