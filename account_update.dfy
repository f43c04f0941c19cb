/**
 * Changing the username, email or password from the account settings
 * (src/screens/settings/account/AccountUpdateScreen.js). The screen edits one
 * element; `value` is its current value. The backend lookups (a taken username,
 * an email in use, whether the current password re-authenticates) and the email
 * regular expression are parameters.
 */
module AccountUpdateScreen {
  import opened Wrappers
  import opened Text
  import opened Credentials

  const EmailInUseWarning := "Email is already in use"
  const InvalidEmailWarning := "Please enter a valid email"
  const IncorrectPasswordWarning := "Incorrect password"

  /** The username input's `length={20}`; the other inputs have no cap. */
  const UsernameMaxLength := 20

  datatype Element = UsernameElement | EmailElement | PasswordElement

  /** `warning` shows under the edited value, `passwordWarning` under the current password. */
  datatype Form = Form(accountDetail: string, currentPassword: string, warning: Option<string>, passwordWarning: Option<string>)

  /** The new form, and the value written to the account, if any. */
  datatype Outcome = Outcome(form: Form, update: Option<string>)

  /** The effect on `[accountDetail, currentPassword]`: a change of either clears both warnings. */
  function Cleared(before: Form, after: Form): Form {
    if after.accountDetail != before.accountDetail || after.currentPassword != before.currentPassword
    then after.(warning := None, passwordWarning := None)
    else after
  }

  /** Typing into the element's input. */
  function OnChangeDetail(element: Element, f: Form, text: string): (r: Form)
    ensures element == UsernameElement ==> |r.accountDetail| <= UsernameMaxLength && |r.accountDetail| <= |text| && r.accountDetail == text[..|r.accountDetail|]
    ensures element != UsernameElement ==> r.accountDetail == text
    ensures r.currentPassword == f.currentPassword
  {
    var typed := if element == UsernameElement then CapLength(text, UsernameMaxLength) else text;
    Cleared(f, f.(accountDetail := typed))
  }

  /** Typing into the current-password input. */
  function OnChangeCurrentPassword(f: Form, text: string): (r: Form)
    ensures r.currentPassword == text && r.accountDetail == f.accountDetail
  {
    Cleared(f, f.(currentPassword := text))
  }

  /** Editing either input to a different value clears both warnings; the same value keeps them. */
  lemma EditClearsBothWarnings(element: Element, f: Form, text: string)
    ensures var r := OnChangeDetail(element, f, text);
      (r.accountDetail != f.accountDetail ==> r.warning == None && r.passwordWarning == None)
      && (r.accountDetail == f.accountDetail ==> r == f)
    ensures var r := OnChangeCurrentPassword(f, text);
      (text != f.currentPassword ==> r.warning == None && r.passwordWarning == None)
      && (text == f.currentPassword ==> r == f)
  {
  }

  /** `UpdateButton`: whether the Update button calls the element's check. */
  function UpdateEnabled(element: Element, f: Form, value: string): (enabled: bool)
    ensures element == UsernameElement ==> (enabled <==> |f.accountDetail| > 0 && f.accountDetail != value)
    ensures element == EmailElement ==> (enabled <==> |f.accountDetail| > 0 && f.accountDetail != value && |f.currentPassword| > 0)
    ensures element == PasswordElement ==> (enabled <==> |f.accountDetail| >= 8 && |f.currentPassword| > 0)
  {
    if element == UsernameElement && |f.accountDetail| > 0 && f.accountDetail != value then true
    else if element == EmailElement && |f.accountDetail| > 0 && f.accountDetail != value && |f.currentPassword| > 0 then true
    else if element == PasswordElement && |f.accountDetail| > 7 && |f.currentPassword| > 0 then true
    else false
  }

  /** `checkUsername()` then `checkUsernameList`: the same rule as at sign-up, then the lookup. */
  function SubmitUsername(f: Form, isConnected: bool, taken: set<string>): Outcome {
    match CheckUsername(f.accountDetail)
    case Rejected(w) => Outcome(f.(warning := Some(w)), None)
    case Accepted(lower) =>
      var f' := Cleared(f, f.(accountDetail := lower));
      if !isConnected then Outcome(f'.(warning := Some(OfflineWarning)), None)
      else if lower in taken then Outcome(f'.(warning := Some(TakenWarning)), None)
      else Outcome(f', Some(lower))
  }

  /** `checkEmail()` then `checkEmailList`; `validEmail` stands for the regular expression, applied to the lower-cased text. */
  function SubmitEmail(f: Form, validEmail: string -> bool, isConnected: bool, inUse: set<string>, passwordAccepted: bool): Outcome {
    if !validEmail(ToLower(f.accountDetail)) then Outcome(f.(warning := Some(InvalidEmailWarning)), None)
    else if !isConnected then Outcome(f.(warning := Some(OfflineWarning)), None)
    else if f.accountDetail in inUse then Outcome(f.(warning := Some(EmailInUseWarning)), None)
    else if !passwordAccepted then Outcome(f.(passwordWarning := Some(IncorrectPasswordWarning)), None)
    else Outcome(f, Some(f.accountDetail))
  }

  /** `checkPassword()`: the sign-up rule, then the connection, then re-authentication. */
  function SubmitPassword(f: Form, isConnected: bool, passwordAccepted: bool): Outcome {
    match CheckPassword(f.accountDetail)
    case Rejected(w) => Outcome(f.(warning := Some(w)), None)
    case Accepted(p) =>
      if !isConnected then Outcome(f.(warning := Some(OfflineWarning)), None)
      else if !passwordAccepted then Outcome(f.(passwordWarning := Some(IncorrectPasswordWarning)), None)
      else Outcome(f, Some(p))
  }

  /**
   * A username is written exactly when it passes the sign-up rule, the device
   * is online and it is free, and what is written is the lower-cased name the
   * rule accepts unchanged.
   */
  lemma SubmitUsernameSpec(f: Form, isConnected: bool, taken: set<string>)
    ensures var r := SubmitUsername(f, isConnected, taken);
      && (r.update.Some? <==> CheckUsername(f.accountDetail).Accepted? && isConnected && ToLower(f.accountDetail) !in taken)
      && (r.update.Some? ==> r.update.value == ToLower(f.accountDetail) && CheckUsername(r.update.value) == Accepted(r.update.value))
      && (CheckUsername(f.accountDetail).Rejected? ==> r.form.warning == Some(CheckUsername(f.accountDetail).warning))
      && (CheckUsername(f.accountDetail).Accepted? && !isConnected ==> r.form.warning == Some(OfflineWarning))
  {
    if CheckUsername(f.accountDetail).Accepted? {
      AcceptedStaysAccepted(f.accountDetail);
    }
  }

  /**
   * An email is written exactly when it is valid, the device is online, it is
   * not in use and the current password re-authenticates; the checks report in
   * that order, the last one under the password input.
   */
  lemma SubmitEmailSpec(f: Form, validEmail: string -> bool, isConnected: bool, inUse: set<string>, passwordAccepted: bool)
    ensures var r := SubmitEmail(f, validEmail, isConnected, inUse, passwordAccepted);
      && (r.update.Some? <==> validEmail(ToLower(f.accountDetail)) && isConnected && f.accountDetail !in inUse && passwordAccepted)
      && (r.update.Some? ==> r.update.value == f.accountDetail)
      && (!validEmail(ToLower(f.accountDetail)) ==> r.form.warning == Some(InvalidEmailWarning))
      && (validEmail(ToLower(f.accountDetail)) && isConnected && f.accountDetail in inUse ==> r.form.warning == Some(EmailInUseWarning))
      && (validEmail(ToLower(f.accountDetail)) && isConnected && f.accountDetail !in inUse && !passwordAccepted ==>
            r.form.passwordWarning == Some(IncorrectPasswordWarning) && r.form.warning == f.warning)
  {
  }

  /**
   * A new password is written exactly when it has a letter and a digit, the
   * device is online and the current password re-authenticates. A missing
   * letter is reported before a missing digit, and a well-formed password
   * while offline gets only the offline warning.
   */
  lemma SubmitPasswordSpec(f: Form, isConnected: bool, passwordAccepted: bool)
    ensures var r := SubmitPassword(f, isConnected, passwordAccepted);
      && (r.update.Some? <==> HasLetter(f.accountDetail) && HasDigit(f.accountDetail) && isConnected && passwordAccepted)
      && (r.update.Some? ==> r.update.value == f.accountDetail)
      && (!HasLetter(f.accountDetail) ==> r.form.warning == Some(LetterWarning))
      && (HasLetter(f.accountDetail) && !HasDigit(f.accountDetail) ==> r.form.warning == Some(NumberWarning))
      && (HasLetter(f.accountDetail) && HasDigit(f.accountDetail) && !isConnected ==>
            r == Outcome(f.(warning := Some(OfflineWarning)), None))
  {
  }
}
