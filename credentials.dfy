/**
 * The username and password rules shared by sign-up
 * (src/screens/setup/signup/UsernameScreen.js, PasswordScreen.js) and the
 * account settings (src/screens/settings/account/AccountUpdateScreen.js), and
 * the warnings they put up.
 */
module Credentials {
  import opened Text

  const CharsetWarning := "Only letters, numbers, underscores, and periods are allowed"
  const UsernameLengthWarning := "Include at least 2 characters in your username"
  const LetterWarning := "Include at least 1 letter in your password"
  const NumberWarning := "Include at least 1 number in your password"
  const OfflineWarning := "No internet connection"
  const TakenWarning := "Username is already taken"

  /** The class `[a-zA-Z0-9_.]`. */
  predicate IsUsernameChar(c: char) {
    IsAsciiLetter(c) || IsAsciiDigit(c) || c == '_' || c == '.'
  }

  /** `/[^a-zA-Z0-9_.]/.test(username)` */
  predicate HasSpecialCharacters(username: string) {
    exists i | 0 <= i < |username| :: !IsUsernameChar(username[i])
  }

  /** The outcome of a rule: a warning, or the value to carry on with. */
  datatype Check = Rejected(warning: string) | Accepted(value: string)

  /** `checkUsername`: the character set first, then the length; an accepted name goes on lower-cased. */
  function CheckUsername(username: string): (r: Check)
    ensures HasSpecialCharacters(username) ==> r == Rejected(CharsetWarning)
    ensures !HasSpecialCharacters(username) && |username| < 2 ==> r == Rejected(UsernameLengthWarning)
    ensures r.Accepted? <==> !HasSpecialCharacters(username) && |username| >= 2
    ensures r.Accepted? ==> r.value == ToLower(username)
  {
    if HasSpecialCharacters(username) then Rejected(CharsetWarning)
    else if |username| < 2 then Rejected(UsernameLengthWarning)
    else Accepted(ToLower(username))
  }

  /** Lower-casing keeps each allowed character allowed and turns letters into lower-case letters. */
  lemma LowerCharAllowed(c: char)
    ensures IsUsernameChar(LowerChar(c)) <==> IsUsernameChar(c)
    ensures LowerChar(LowerChar(c)) == LowerChar(c)
  {
  }

  /** The lower-cased name handed on is itself accepted, unchanged, by the same rule. */
  lemma AcceptedStaysAccepted(username: string)
    requires CheckUsername(username).Accepted?
    ensures CheckUsername(ToLower(username)) == Accepted(ToLower(username))
    ensures |ToLower(username)| == |username|
  {
    var lower := ToLower(username);
    forall i | 0 <= i < |lower| ensures IsUsernameChar(lower[i]) && LowerChar(lower[i]) == lower[i] {
      LowerCharAllowed(username[i]);
    }
    assert ToLower(lower) == lower;
  }

  /** `checkPassword`: a missing letter is reported before a missing digit. */
  function CheckPassword(password: string): (r: Check)
    ensures !HasLetter(password) ==> r == Rejected(LetterWarning)
    ensures HasLetter(password) && !HasDigit(password) ==> r == Rejected(NumberWarning)
    ensures r.Accepted? <==> HasLetter(password) && HasDigit(password)
    ensures r.Accepted? ==> r.value == password
  {
    if !HasLetter(password) then Rejected(LetterWarning)
    else if !HasDigit(password) then Rejected(NumberWarning)
    else Accepted(password)
  }
}
