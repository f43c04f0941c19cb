/** The sign-up step that picks a password (src/screens/setup/signup/PasswordScreen.js). */
module PasswordScreen {
  import opened Wrappers
  import opened Text
  import opened Credentials

  datatype Form = Form(password: string, warning: Option<string>)

  /** Typing sets the password; a changed value clears the warning. */
  function OnChangeText(f: Form, text: string): (r: Form)
    ensures r.password == text
    ensures text != f.password ==> r.warning == None
    ensures text == f.password ==> r.warning == f.warning
  {
    Form(text, if text != f.password then None else f.warning)
  }

  /** `NextButton` is greyed out while the password has fewer than 8 characters. */
  predicate NextEnabled(f: Form) {
    !(|f.password| < 8)
  }

  /** `checkPassword()`: a warning, or the password handed to the next step. */
  function PressNext(f: Form): (Form, Option<string>) {
    match CheckPassword(f.password)
    case Rejected(w) => (f.(warning := Some(w)), None)
    case Accepted(p) => (f, Some(p))
  }

  /**
   * Next is offered iff the password has at least 8 characters; pressing it
   * goes on, with the password as typed, iff it has a letter and a digit, and
   * otherwise reports the missing letter first, then the missing digit.
   */
  lemma PressNextSpec(f: Form)
    ensures NextEnabled(f) <==> |f.password| >= 8
    ensures var (f', next) := PressNext(f);
      && (next.Some? <==> HasLetter(f.password) && HasDigit(f.password))
      && (next.Some? ==> next.value == f.password && f' == f)
      && (!HasLetter(f.password) ==> f'.warning == Some(LetterWarning))
      && (HasLetter(f.password) && !HasDigit(f.password) ==> f'.warning == Some(NumberWarning))
      && f'.password == f.password
  {
  }

  /** Editing after a rejection clears the warning, and re-entering the same text keeps it. */
  lemma EditClearsWarning(f: Form, text: string)
    requires PressNext(f).1.None?
    ensures var f' := PressNext(f).0;
      && f'.warning.Some?
      && (text != f.password ==> OnChangeText(f', text).warning == None)
      && (text == f.password ==> OnChangeText(f', text).warning == f'.warning)
  {
  }
}
