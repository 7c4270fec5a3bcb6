/** The password-strength rule applied by `create_patient` and
    `create_caregiver`: the regular expression
    `^(?=.*?[A-Z])(?=.*?[a-z])(?=.*?[0-9])(?=.*?[!@#?]).{8,}$`. */
module Passwords {

  predicate IsUpper(c: char) { 'A' <= c <= 'Z' }
  predicate IsLower(c: char) { 'a' <= c <= 'z' }
  predicate IsDigit(c: char) { '0' <= c <= '9' }
  predicate IsSpecial(c: char) { c == '!' || c == '@' || c == '#' || c == '?' }

  /** Some character of `p` satisfies `kind`. */
  predicate HasSome(p: string, kind: char -> bool)
  {
    exists i :: 0 <= i < |p| && kind(p[i])
  }

  /** At least eight characters, with an ASCII upper-case letter, an ASCII
      lower-case letter, an ASCII digit and one of `! @ # ?` among them. */
  predicate IsStrong(p: string)
    ensures IsStrong(p) ==> exists i, j :: 0 <= i < |p| && 0 <= j < |p| && p[i] != p[j]
  {
    && |p| >= 8
    && HasSome(p, IsUpper)
    && HasSome(p, IsLower)
    && HasSome(p, IsDigit)
    && HasSome(p, IsSpecial)
  }

  /** A password the rule accepts. */
  lemma StrongExample()
    ensures IsStrong("Abcdefg1!")
  {
    var p := "Abcdefg1!";
    assert IsUpper(p[0]) && IsLower(p[1]) && IsDigit(p[7]) && IsSpecial(p[8]);
  }

  /** Passwords that miss exactly one requirement are refused: seven
      characters, or eight or more without one of the character classes. */
  lemma WeakExamples()
    ensures !IsStrong("Abcde1!")       // seven characters
    ensures !IsStrong("abcdefg1!")     // no upper-case letter
    ensures !IsStrong("ABCDEFG1!")     // no lower-case letter
    ensures !IsStrong("Abcdefgh!")     // no digit
    ensures !IsStrong("Abcdefg1$")     // `$` is not one of the special characters
  {
    assert !HasSome("abcdefg1!", IsUpper);
    assert !HasSome("ABCDEFG1!", IsLower);
    assert !HasSome("Abcdefgh!", IsDigit);
    assert !HasSome("Abcdefg1$", IsSpecial);
  }
}
