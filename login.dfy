/**
 * Signing in and requesting a password reset (src/screens/setup/LoginScreen.js).
 * Connectivity, whether the credentials sign in and the set of registered
 * emails are parameters.
 */
module LoginScreen {
  import opened Wrappers

  const EmptyEmailWarning := "Please enter an email"
  const EmptyPasswordWarning := "Please enter a password"
  const OfflineWarning := "No internet connection"
  const InvalidCredentialsWarning := "Invalid email or password"
  const UnknownEmailWarning := "No users are using this email"

  /** `warning` is the general warning; the other two sit under their inputs. */
  datatype Form = Form(email: string, password: string, warning: Option<string>,
                       emailWarning: Option<string>, passwordWarning: Option<string>)

  /** The form after `loginUser()`, and whether the user got signed in. */
  datatype Login = Login(form: Form, signedIn: bool)

  /** The `[email]` effect: a changed email clears the general and the email warning. */
  function OnChangeEmail(f: Form, text: string): (r: Form)
    ensures r.email == text && r.password == f.password && r.passwordWarning == f.passwordWarning
    ensures text != f.email ==> r.warning == None && r.emailWarning == None
    ensures text == f.email ==> r == f
  {
    if text != f.email then f.(email := text, warning := None, emailWarning := None) else f
  }

  /** The `[password]` effect: a changed password clears the general and the password warning. */
  function OnChangePassword(f: Form, text: string): (r: Form)
    ensures r.password == text && r.email == f.email && r.emailWarning == f.emailWarning
    ensures text != f.password ==> r.warning == None && r.passwordWarning == None
    ensures text == f.password ==> r == f
  {
    if text != f.password then f.(password := text, warning := None, passwordWarning := None) else f
  }

  /** `loginUser()`: two independent emptiness checks, then the connection, then the sign-in. */
  function LoginUser(f: Form, isConnected: bool, credentialsValid: bool): Login {
    var f1 := if |f.email| == 0 then f.(emailWarning := Some(EmptyEmailWarning)) else f;
    var f2 := if |f.password| == 0 then f1.(passwordWarning := Some(EmptyPasswordWarning)) else f1;
    if |f.email| > 0 && |f.password| > 0 then
      if !isConnected then Login(f2.(warning := Some(OfflineWarning)), false)
      else if credentialsValid then Login(OnChangePassword(OnChangeEmail(f2, ""), ""), true)
      else Login(f2.(warning := Some(InvalidCredentialsWarning)), false)
    else Login(f2, false)
  }

  /**
   * Each empty field gets its own warning, both in one press when both are
   * empty; a sign-in happens only with both fields filled in while online;
   * filled in but offline, the only change is the offline warning.
   */
  lemma LoginUserSpec(f: Form, isConnected: bool, credentialsValid: bool)
    ensures var r := LoginUser(f, isConnected, credentialsValid);
      && (|f.email| == 0 ==> r.form.emailWarning == Some(EmptyEmailWarning))
      && (|f.password| == 0 ==> r.form.passwordWarning == Some(EmptyPasswordWarning))
      && (|f.email| == 0 || |f.password| == 0 ==>
            !r.signedIn && r.form.warning == f.warning && r.form.email == f.email && r.form.password == f.password)
      && (r.signedIn <==> |f.email| > 0 && |f.password| > 0 && isConnected && credentialsValid)
      && (|f.email| > 0 && |f.password| > 0 && !isConnected ==> r.form == f.(warning := Some(OfflineWarning)))
      && (r.signedIn ==> r.form.email == "" && r.form.password == "" && r.form.warning == None)
  {
  }

  /** `ResetPasswordButton`: pressable iff a recovery email was typed. */
  predicate ResetEnabled(forgottenEmail: string) {
    |forgottenEmail| > 0
  }

  /** The `[forgottenEmail]` effect: a changed recovery email clears the modal warning. */
  function OnChangeForgottenEmail(forgottenEmail: string, modalWarning: Option<string>, text: string): (r: Option<string>)
    ensures text != forgottenEmail ==> r == None
    ensures text == forgottenEmail ==> r == modalWarning
  {
    if text != forgottenEmail then None else modalWarning
  }

  /** The modal warning after `resetPassword()`, and whether a reset email was sent. */
  datatype Reset = Reset(modalWarning: Option<string>, sent: bool)

  /** `resetPassword()`: the connection first, then the email lookup. */
  function ResetPassword(forgottenEmail: string, modalWarning: Option<string>, isConnected: bool, registered: set<string>): Reset {
    if !isConnected then Reset(Some(OfflineWarning), false)
    else if forgottenEmail !in registered then Reset(Some(UnknownEmailWarning), false)
    else Reset(modalWarning, true)
  }

  /** A reset email goes out exactly for a registered email while online; offline, the lookup is skipped. */
  lemma ResetPasswordSpec(forgottenEmail: string, modalWarning: Option<string>, isConnected: bool, registered: set<string>)
    ensures ResetEnabled(forgottenEmail) <==> forgottenEmail != ""
    ensures var r := ResetPassword(forgottenEmail, modalWarning, isConnected, registered);
      && (r.sent <==> isConnected && forgottenEmail in registered)
      && (!isConnected ==> r == Reset(Some(OfflineWarning), false))
      && (isConnected && forgottenEmail !in registered ==> r.modalWarning == Some(UnknownEmailWarning))
  {
  }
}
