/**
 * The sign-up step that picks a username
 * (src/screens/setup/signup/UsernameScreen.js). The uniqueness lookup is a
 * set of taken usernames; connectivity is a parameter.
 */
module UsernameScreen {
  import opened Wrappers
  import opened Text
  import opened Credentials

  /** The input's `length={20}`. */
  const MaxLength := 20

  datatype Form = Form(username: string, warning: Option<string>)

  /** The result of pressing Next: the new form, and the username handed to the next step, if any. */
  datatype Submit = Submit(form: Form, next: Option<string>)

  /** Typing: the input keeps at most 20 characters, and a changed value clears the warning. */
  function OnChangeText(f: Form, text: string): (r: Form)
    ensures |r.username| <= MaxLength && |r.username| <= |text| && r.username == text[..|r.username|]
    ensures |text| <= MaxLength ==> r.username == text
    ensures r.username != f.username ==> r.warning == None
    ensures r.username == f.username ==> r.warning == f.warning
  {
    var typed := CapLength(text, MaxLength);
    Form(typed, if typed != f.username then None else f.warning)
  }

  /** `NextButton` calls `checkUsername` only for a non-empty username. */
  predicate NextEnabled(f: Form) {
    |f.username| > 0
  }

  /** `checkUsername()` followed by `checkUsernameList(lowerCaseUsername)`. */
  function PressNext(f: Form, isConnected: bool, taken: set<string>): Submit {
    match CheckUsername(f.username)
    case Rejected(w) => Submit(f.(warning := Some(w)), None)
    case Accepted(lower) =>
      if !isConnected then Submit(Form(lower, Some(OfflineWarning)), None)
      else if lower in taken then Submit(Form(lower, Some(TakenWarning)), None)
      else Submit(Form(lower, f.warning), Some(lower))
  }

  /**
   * Next goes on exactly when the name passes the rule, the device is online
   * and the lower-cased name is free; what it hands on is that lower-cased
   * name, which the rule itself accepts. Otherwise a warning is up, the one
   * for the first check that fails.
   */
  lemma PressNextSpec(f: Form, isConnected: bool, taken: set<string>)
    ensures NextEnabled(f) <==> f.username != ""
    ensures var r := PressNext(f, isConnected, taken);
      && (r.next.Some? <==> CheckUsername(f.username).Accepted? && isConnected && ToLower(f.username) !in taken)
      && (r.next.Some? ==> r.next.value == ToLower(f.username) && CheckUsername(r.next.value) == Accepted(r.next.value))
      && (r.next.Some? ==> r.form.warning == f.warning)
      && (r.next.None? ==> r.form.warning.Some?)
      && (HasSpecialCharacters(f.username) ==> r.form.warning == Some(CharsetWarning))
      && (!HasSpecialCharacters(f.username) && |f.username| < 2 ==> r.form.warning == Some(UsernameLengthWarning))
      && (CheckUsername(f.username).Accepted? && !isConnected ==> r.form.warning == Some(OfflineWarning))
      && (CheckUsername(f.username).Accepted? && isConnected && ToLower(f.username) in taken ==> r.form.warning == Some(TakenWarning))
  {
    if CheckUsername(f.username).Accepted? {
      AcceptedStaysAccepted(f.username);
    }
  }

  /** A name that was typed into the input and handed on has between 2 and 20 characters. */
  lemma HandedOnLength(f: Form, isConnected: bool, taken: set<string>)
    requires |f.username| <= MaxLength
    ensures var r := PressNext(f, isConnected, taken);
      && |r.form.username| <= MaxLength
      && (r.next.Some? ==> 2 <= |r.next.value| <= MaxLength)
  {
  }
}
