/** Username normalisation and validation: the shared helpers and the onboarding form's
    own check. */
module Username {
  import opened Common
  import opened JsString

  /** normalizeUsername: `trim`, then drop one leading "@". */
  function NormalizeUsername(value: string): (r: string)
    ensures |r| <= |value|
    ensures Trim(value) != [] && Trim(value)[0] == '@' ==> r == Trim(value)[1..]
    ensures Trim(value) == [] || Trim(value)[0] != '@' ==> r == Trim(value)
  {
    var t := Trim(value);
    if t != [] && t[0] == '@' then t[1..] else t
  }

  /** `[a-z0-9_]` under the `i` flag: ASCII letters of either case, digits and "_". */
  predicate IsUsernameChar(c: char) {
    ('a' <= c <= 'z') || ('A' <= c <= 'Z') || ('0' <= c <= '9') || c == '_'
  }

  predicate AllUsernameChars(s: string) {
    forall i :: 0 <= i < |s| ==> IsUsernameChar(s[i])
  }

  const MinLength: nat := 3
  const MaxLength: nat := 20

  /** isValidUsername: `/^[a-z0-9_]{3,20}$/i`. */
  predicate IsValidUsername(value: string) {
    MinLength <= |value| <= MaxLength && AllUsernameChars(value)
  }

  /** A valid username has no whitespace and no "@", so normalising it changes nothing. */
  lemma ValidIsNormal(value: string)
    requires IsValidUsername(value)
    ensures NormalizeUsername(value) == value
  {
    assert !IsWhitespace(value[0]) && !IsWhitespace(value[|value| - 1]);
    TrimFixedPoint(value);
  }

  /** The onboarding form's check; None means the name is submitted. */
  function OnboardingError(username: string): (e: Option<string>)
    ensures e == Some("Username must be 3-20 characters.") <==>
      !(MinLength <= |NormalizeUsername(username)| <= MaxLength)
    ensures e == Some("Usernames can only use letters, numbers, and underscores.") <==>
      MinLength <= |NormalizeUsername(username)| <= MaxLength && !AllUsernameChars(NormalizeUsername(username))
  {
    var trimmed := NormalizeUsername(username);
    if |trimmed| < MinLength || |trimmed| > MaxLength then Some("Username must be 3-20 characters.")
    else if !AllUsernameChars(trimmed) then Some("Usernames can only use letters, numbers, and underscores.")
    else None
  }

  /** The form accepts exactly the names the shared helpers accept after normalising. */
  lemma OnboardingAgreesWithHelpers(username: string)
    ensures OnboardingError(username).None? <==> IsValidUsername(NormalizeUsername(username))
  {
  }

  /** What the form submits is a valid, already normalised username. */
  lemma SubmittedIsNormal(username: string)
    requires OnboardingError(username).None?
    ensures IsValidUsername(NormalizeUsername(username))
    ensures NormalizeUsername(NormalizeUsername(username)) == NormalizeUsername(username)
  {
    ValidIsNormal(NormalizeUsername(username));
  }
}
