/** The password-reset page: the strength meter, the match indicators and the submit guards. */
module PasswordReset {
  import opened Text

  /** The meter's reading: a level from 0 to 4 with its caption and colour class. */
  datatype Strength = Strength(level: int, title: string, color: string)

  /** `/[A-Z]/`, `/[0-9]/` and `/[^A-Za-z0-9]/` tested against the password. */
  predicate HasUpper(pwd: string) { exists k | 0 <= k < |pwd| :: IsUpper(pwd[k]) }
  predicate HasDigit(pwd: string) { exists k | 0 <= k < |pwd| :: IsDigit(pwd[k]) }
  predicate HasSymbol(pwd: string) { exists k | 0 <= k < |pwd| :: !IsAlphaNumeric(pwd[k]) }

  /** How many of the three character classes occur. */
  function ClassCount(pwd: string): (n: nat)
    ensures n <= 3
    ensures n == 0 <==> !HasUpper(pwd) && !HasDigit(pwd) && !HasSymbol(pwd)
  {
    (if HasUpper(pwd) then 1 else 0) + (if HasDigit(pwd) then 1 else 0) + (if HasSymbol(pwd) then 1 else 0)
  }

  /** The caption and colour that go with each level. */
  function Reading(level: int): Strength {
    if level == 0 then Strength(0, "", "")
    else if level == 1 then Strength(1, "Too short", "text-red-500")
    else if level == 2 then Strength(2, "Weak", "text-orange-500")
    else if level == 3 then Strength(3, "Good", "text-yellow-500")
    else Strength(4, "Strong", "text-green-500")
  }

  /**
   * `getPasswordStrength`: length alone decides below eight characters;
   * from eight on the level starts at 2, gains one per character class
   * present, and is reported as 4 "Strong" from 4 up and 3 "Good" otherwise.
   */
  function PasswordStrength(pwd: string): (r: Strength)
    ensures 0 <= r.level <= 4
    ensures r == Reading(r.level)
    ensures r.level == 0 <==> |pwd| == 0
    ensures r.level == 1 <==> 0 < |pwd| < 6
    ensures r.level == 2 <==> 6 <= |pwd| < 8
    ensures |pwd| >= 8 ==> (r.level == 4 <==> ClassCount(pwd) >= 2) && (r.level == 3 <==> ClassCount(pwd) <= 1)
  {
    if |pwd| == 0 then Reading(0)
    else if |pwd| < 6 then Reading(1)
    else if |pwd| < 8 then Reading(2)
    else
      var strength := 2 + ClassCount(pwd);
      if strength >= 4 then Reading(4) else Reading(3)
  }

  /** A long password of lower-case letters only rates "Good", never "Strong". */
  lemma LowerCaseOnlyIsGood(pwd: string)
    requires |pwd| >= 8 && forall k :: 0 <= k < |pwd| ==> 'a' <= pwd[k] <= 'z'
    ensures PasswordStrength(pwd) == Strength(3, "Good", "text-yellow-500")
  {
    assert !HasUpper(pwd) && !HasDigit(pwd);
    assert !HasSymbol(pwd) by {
      forall k | 0 <= k < |pwd| ensures IsAlphaNumeric(pwd[k]) {
      }
    }
  }

  /** Up to seven characters the content makes no difference. */
  lemma ShortPasswordsRateByLength(a: string, b: string)
    requires |a| == |b| < 8
    ensures PasswordStrength(a) == PasswordStrength(b)
  {
  }

  /** `passwordsMatch`. */
  predicate PasswordsMatch(password: string, confirm: string) {
    password == confirm && |confirm| > 0
  }

  /** `passwordsDontMatch`. */
  predicate PasswordsDontMatch(password: string, confirm: string) {
    |confirm| > 0 && password != confirm
  }

  /** The two indicators never show together, and both are off exactly while the confirmation is empty. */
  lemma MatchIndicators(password: string, confirm: string)
    ensures !(PasswordsMatch(password, confirm) && PasswordsDontMatch(password, confirm))
    ensures !PasswordsMatch(password, confirm) && !PasswordsDontMatch(password, confirm) <==> confirm == ""
  {
  }

  /** Where `handleSubmit` stops: one of its two guards, or the call to the backend. */
  datatype SubmitOutcome = TooShort | Mismatch | Proceed

  /** `handleSubmit`'s guards, in source order: the length is checked before the match. */
  function SubmitGuard(password: string, confirm: string): (o: SubmitOutcome)
    ensures o == TooShort <==> |password| < 6
    ensures o == Mismatch <==> |password| >= 6 && password != confirm
    ensures o == Proceed <==> |password| >= 6 && password == confirm
  {
    if |password| < 6 then TooShort
    else if password != confirm then Mismatch
    else Proceed
  }

  /** The toast shown when a guard stops the submission. */
  function GuardMessage(o: SubmitOutcome): (m: string)
    requires o != Proceed
  {
    if o == TooShort then "Password must be at least 6 characters" else "Passwords do not match"
  }

  /** A too-short password is reported as such even when the confirmation differs too. */
  lemma LengthCheckedFirst(password: string, confirm: string)
    requires |password| < 6 && password != confirm
    ensures SubmitGuard(password, confirm) == TooShort
    ensures GuardMessage(SubmitGuard(password, confirm)) == "Password must be at least 6 characters"
  {
  }

  /** The submit button: `disabled={loading || !passwordsMatch || password.length < 6}`. */
  predicate SubmitEnabled(loading: bool, password: string, confirm: string) {
    !loading && PasswordsMatch(password, confirm) && |password| >= 6
  }

  /** While not loading, the button is enabled exactly when a submission would reach the backend. */
  lemma ButtonAgreesWithGuards(loading: bool, password: string, confirm: string)
    ensures SubmitEnabled(loading, password, confirm) ==> SubmitGuard(password, confirm) == Proceed
    ensures !loading && SubmitGuard(password, confirm) == Proceed ==> SubmitEnabled(loading, password, confirm)
  {
  }
}
