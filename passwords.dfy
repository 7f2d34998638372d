/** The registration and recovery password rule, and the strength meter shown while typing. */
module Passwords {

  predicate IsLowerLetter(c: char) { 'a' <= c <= 'z' }
  predicate IsUpperLetter(c: char) { 'A' <= c <= 'Z' }
  predicate IsDigit(c: char) { '0' <= c <= '9' }

  /** The character classes the two checks test for (`/[a-zA-Z]/`, `/[a-z]/`, `/[A-Z]/`,
      `/[0-9]/`, `/[^a-zA-Z0-9]/`). */
  predicate HasLetter(p: string) { exists i :: 0 <= i < |p| && (IsLowerLetter(p[i]) || IsUpperLetter(p[i])) }
  predicate HasLower(p: string) { exists i :: 0 <= i < |p| && IsLowerLetter(p[i]) }
  predicate HasUpper(p: string) { exists i :: 0 <= i < |p| && IsUpperLetter(p[i]) }
  predicate HasDigit(p: string) { exists i :: 0 <= i < |p| && IsDigit(p[i]) }
  predicate HasSymbol(p: string)
  {
    exists i :: 0 <= i < |p| && !IsLowerLetter(p[i]) && !IsUpperLetter(p[i]) && !IsDigit(p[i])
  }

  /** validatePassword: at least eight characters, with an ASCII letter and a digit. */
  predicate ValidatePassword(p: string)
    ensures ValidatePassword(p) <==> |p| >= 8 && (HasLower(p) || HasUpper(p)) && HasDigit(p)
  {
    HasLetter(p) && HasDigit(p) && |p| >= 8
  }

  /** How many of the five strength criteria the password meets. */
  function Score(p: string): (n: nat)
    ensures n <= 5
  {
    (if |p| >= 8 then 1 else 0) + (if HasLower(p) then 1 else 0) + (if HasUpper(p) then 1 else 0)
    + (if HasDigit(p) then 1 else 0) + (if HasSymbol(p) then 1 else 0)
  }

  datatype Strength = Weak | Medium | Strong

  /** getPasswordStrength: add one point per criterion met, then read the total off the scale
      (at most 2 weak, 3 medium, otherwise strong). */
  method GetPasswordStrength(password: string) returns (strength: Strength)
    ensures strength == Weak <==> Score(password) <= 2
    ensures strength == Medium <==> Score(password) == 3
    ensures strength == Strong <==> Score(password) >= 4
  {
    var points := 0;
    if |password| >= 8 { points := points + 1; }
    if HasLower(password) { points := points + 1; }
    if HasUpper(password) { points := points + 1; }
    if HasDigit(password) { points := points + 1; }
    if HasSymbol(password) { points := points + 1; }
    if points <= 2 { return Weak; }
    if points <= 3 { return Medium; }
    return Strong;
  }

  /** A password the validator accepts scores at least 3, so the meter never calls it weak:
      its length, its digit and its letter (lower or upper case) each earn a point. */
  lemma ValidPasswordNotWeak(p: string)
    requires ValidatePassword(p)
    ensures Score(p) >= 3
  {
    var i :| 0 <= i < |p| && (IsLowerLetter(p[i]) || IsUpperLetter(p[i]));
    if IsLowerLetter(p[i]) {
      assert HasLower(p);
    } else {
      assert HasUpper(p);
    }
  }

  /** Every character falls in one of the four classes, so any non-empty password earns a point. */
  lemma NonEmptyScores(p: string)
    requires |p| > 0
    ensures Score(p) >= 1
  {
    var c := p[0];
    if IsLowerLetter(c) {
      assert HasLower(p);
    } else if IsUpperLetter(c) {
      assert HasUpper(p);
    } else if IsDigit(c) {
      assert HasDigit(p);
    } else {
      assert HasSymbol(p);
    }
  }

  /** The converse fails: "Ab!" scores 3 (medium) yet the validator rejects it. */
  lemma MediumDoesNotImplyValid()
    ensures Score("Ab!") == 3 && !ValidatePassword("Ab!")
  {
    assert IsLowerLetter("Ab!"[1]) && IsUpperLetter("Ab!"[0]);
    assert !IsLowerLetter("Ab!"[2]) && !IsUpperLetter("Ab!"[2]) && !IsDigit("Ab!"[2]);
    assert forall i :: 0 <= i < 3 ==> !IsDigit("Ab!"[i]);
  }
}
