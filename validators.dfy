/** Username validation: the length bounds and the pattern
    `^[a-zA-Z_][a-zA-Z0-9_]*$` as Python's `re.match` applies it. */
module Validators {
  import opened Wrappers

  const MinUsernameLength := 5
  const MaxUsernameLength := 32

  predicate AsciiLetter(c: char) { 'a' <= c <= 'z' || 'A' <= c <= 'Z' }
  predicate AsciiDigit(c: char) { '0' <= c <= '9' }
  predicate WordChar(c: char) { AsciiLetter(c) || AsciiDigit(c) || c == '_' }

  /** `[a-zA-Z_][a-zA-Z0-9_]*` matched against the whole of `s`. */
  predicate PatternBody(s: string) {
    |s| >= 1 && (AsciiLetter(s[0]) || s[0] == '_')
    && forall i :: 1 <= i < |s| ==> WordChar(s[i])
  }

  /** `re.match(pattern, s)`: Python's `$` also matches just before a single
      newline that ends the string. */
  predicate PatternMatches(s: string) {
    PatternBody(s) || (|s| >= 1 && s[|s| - 1] == '\n' && PatternBody(s[..|s| - 1]))
  }

  /** `validate_username`; `None` stands for a missing username. */
  function ValidateUsername(username: Option<string>): (ok: bool)
    ensures ok ==> username.Some? && MinUsernameLength <= |username.value| <= MaxUsernameLength
    ensures ok ==> !AsciiDigit(username.value[0]) && WordChar(username.value[0])
    ensures ok ==> forall i :: 0 <= i < |username.value| - 1 ==> WordChar(username.value[i])
    ensures ok ==> var u := username.value; WordChar(u[|u| - 1]) || u[|u| - 1] == '\n'
  {
    match username
    case None => false
    case Some(u) =>
      if u == "" then false
      else if |u| < MinUsernameLength || |u| > MaxUsernameLength then false
      else PatternMatches(u)
  }

  /** The rule as Telegram states it: 5 to 32 characters, only Latin letters,
      digits and underscores, not starting with a digit. */
  predicate TelegramUsername(s: string) {
    MinUsernameLength <= |s| <= MaxUsernameLength
    && !AsciiDigit(s[0])
    && forall i :: 0 <= i < |s| ==> WordChar(s[i])
  }

  /** The validator accepts exactly the Telegram usernames, plus those of 4 to
      31 characters followed by one trailing newline. */
  lemma ValidateUsernameCharacterized(u: string)
    ensures ValidateUsername(Some(u)) <==>
      TelegramUsername(u)
      || (|u| >= 1 && u[|u| - 1] == '\n'
          && MinUsernameLength - 1 <= |u| - 1 <= MaxUsernameLength - 1
          && PatternBody(u[..|u| - 1]))
  {
    if TelegramUsername(u) {
      assert PatternBody(u);
    }
    if ValidateUsername(Some(u)) && PatternBody(u) {
      assert TelegramUsername(u);
    }
  }

  /** The trailing-newline case: "abcde\n" is accepted, and since the newline
      counts towards the length, so is the four-letter "abcd\n" although "abcd"
      is refused. */
  lemma TrailingNewlineAccepted()
    ensures ValidateUsername(Some("abcde\n"))
    ensures ValidateUsername(Some("abcd\n")) && !ValidateUsername(Some("abcd"))
  {
    assert PatternBody("abcde\n"[..5]);
    assert PatternBody("abcd\n"[..4]);
  }
}
