/** The password rules that the registration form and the change-password
    dialog both enforce, in the order they are checked: at least ten UTF-16
    code units, an ASCII capital letter, and one of the listed special
    characters. */
module PasswordPolicy {
  import opened Common
  import opened JsText

  const MinLength: nat := 10

  /** The characters of the class `[!@#$%^&*()_+\-=\[\]{};':"\\|,.<>\/?]`. */
  const SpecialChars: string := "!@#$%^&*()_+-=[]{};':\"\\|,.<>/?"

  /** `[A-Z]`: only the 26 ASCII capitals. */
  predicate IsUpper(c: char)
  {
    'A' <= c <= 'Z'
  }

  predicate IsSpecial(c: char)
  {
    c in SpecialChars
  }

  /** `/[A-Z]/.test(s)` */
  predicate HasUpper(s: string)
  {
    exists i :: 0 <= i < |s| && IsUpper(s[i])
  }

  /** The special-character test. */
  predicate HasSpecial(s: string)
  {
    exists i :: 0 <= i < |s| && IsSpecial(s[i])
  }

  /** Why a password is refused, in the order the rules are checked. */
  datatype Weakness = TooShort | NoUppercase | NoSpecial

  /** A password meeting every rule. */
  predicate Strong(pw: string)
  {
    Utf16Length(pw) >= MinLength && HasUpper(pw) && HasSpecial(pw)
  }

  /** The first rule a password breaks, if any. */
  function FirstWeakness(pw: string): (w: Option<Weakness>)
    ensures w.None? <==> Strong(pw)
    ensures w == Some(TooShort) <==> Utf16Length(pw) < MinLength
    ensures w == Some(NoUppercase) <==> Utf16Length(pw) >= MinLength && !HasUpper(pw)
    ensures w == Some(NoSpecial) <==> Utf16Length(pw) >= MinLength && HasUpper(pw) && !HasSpecial(pw)
  {
    if Utf16Length(pw) < MinLength then Some(TooShort)
    else if !HasUpper(pw) then Some(NoUppercase)
    else if !HasSpecial(pw) then Some(NoSpecial)
    else None
  }

  /** Lower-case letters and digits alone never make a strong password,
      whatever its length. */
  lemma LowerAndDigitsAreWeak(pw: string)
    requires forall i :: 0 <= i < |pw| ==> ('a' <= pw[i] <= 'z' || '0' <= pw[i] <= '9')
    ensures !Strong(pw)
  {
  }

  /** A sample password that meets every rule. */
  lemma SampleIsStrong()
    ensures Strong("Abcdefghi!")
  {
    assert IsUpper("Abcdefghi!"[0]);
    assert IsSpecial("Abcdefghi!"[9]);
  }
}
