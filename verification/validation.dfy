/** lib/utils/validation.ts: the field rules of the login, registration,
    OTP verification and OTP resend forms.

    Form fields are strings; `required` rejects the empty string. Lengths
    are counted in characters. The e-mail format check is the validation
    library's own and is the parameter `isEmail`. Regular expressions are
    read with ECMAScript semantics (ECMA-262, section 22.2): `\d` is an ASCII
    digit, `$` without the multiline flag matches only at the end, and `.`
    matches any character except a line terminator. */
module Validation {
  import opened Js

  predicate IsAsciiDigit(c: char) {
    '0' <= c <= '9'
  }

  /** `^\d{n}$`: exactly `n` characters, all ASCII digits. */
  predicate DigitsOfLength(s: string, n: nat) {
    |s| == n && forall k | 0 <= k < |s| :: IsAsciiDigit(s[k])
  }

  predicate Required(s: string) {
    s != ""
  }

  // ----- the password pattern -----

  /** The line terminators `.` does not match (ECMA-262, section 12.3). */
  predicate IsLineTerminator(c: char) {
    c == '\n' || c == '\r' || c == '\U{2028}' || c == '\U{2029}'
  }

  /** The character classes the pattern's lookaheads look for. */
  datatype CharClass = Lower | Upper | Digit | Special

  predicate InClass(c: char, k: CharClass) {
    match k
    case Lower => 'a' <= c <= 'z'
    case Upper => 'A' <= c <= 'Z'
    case Digit => IsAsciiDigit(c)
    case Special => c in "@$!%*?&"
  }

  /** The class `[A-Za-z\d@$!%*?&]` the first character must be in. */
  predicate InAllowedClass(c: char) {
    InClass(c, Lower) || InClass(c, Upper) || InClass(c, Digit) || InClass(c, Special)
  }

  /** How a lookahead `(?=.*[k])` at position 0 runs: `.*` advances over
      characters that are not line terminators, looking for one in `k`. */
  predicate LookaheadMatches(s: string, k: CharClass)
    decreases |s|
  {
    s != [] && !IsLineTerminator(s[0]) && (InClass(s[0], k) || LookaheadMatches(s[1..], k))
  }

  /** The text before the first line terminator. */
  function FirstLine(s: string): (r: string)
    ensures r <= s
    ensures forall k | 0 <= k < |r| :: !IsLineTerminator(r[k])
    ensures |r| < |s| ==> IsLineTerminator(s[|r|])
  {
    if s == [] || IsLineTerminator(s[0]) then [] else [s[0]] + FirstLine(s[1..])
  }

  /** A lookahead matches exactly when the first line contains a character
      of the class. */
  lemma {:induction false} LookaheadIffInFirstLine(s: string, k: CharClass)
    ensures LookaheadMatches(s, k) <==> exists i | 0 <= i < |FirstLine(s)| :: InClass(FirstLine(s)[i], k)
    decreases |s|
  {
    if s != [] && !IsLineTerminator(s[0]) {
      var line, rest := FirstLine(s), FirstLine(s[1..]);
      assert line == [s[0]] + rest;
      assert line[0] == s[0];
      LookaheadIffInFirstLine(s[1..], k);
      if !InClass(s[0], k) {
        assert LookaheadMatches(s, k) == LookaheadMatches(s[1..], k);
        if LookaheadMatches(s[1..], k) {
          var i :| 0 <= i < |rest| && InClass(rest[i], k);
          assert line[i + 1] == rest[i];
        }
        if exists i | 0 <= i < |line| :: InClass(line[i], k) {
          var i :| 0 <= i < |line| && InClass(line[i], k);
          assert i > 0 && rest[i - 1] == line[i];
        }
      } else {
        assert LookaheadMatches(s, k);
        assert InClass(FirstLine(s)[0], k);
      }
    } else {
      assert FirstLine(s) == [] && !LookaheadMatches(s, k);
    }
  }

  /** A password on one line meets the lookaheads exactly when it contains a
      character of each class. */
  lemma SingleLineLookahead(s: string, k: CharClass)
    requires forall i | 0 <= i < |s| :: !IsLineTerminator(s[i])
    ensures LookaheadMatches(s, k) <==> exists i | 0 <= i < |s| :: InClass(s[i], k)
  {
    LookaheadIffInFirstLine(s, k);
    assert FirstLine(s) == s by {
      assert FirstLine(s) <= s;
    }
  }

  /** `^(?=.*[a-z])(?=.*[A-Z])(?=.*\d)(?=.*[@$!%*?&])[A-Za-z\d@$!%*?&]`.
      There is no end anchor: only the first character is restricted. */
  predicate PasswordPatternMatches(s: string) {
    && LookaheadMatches(s, Lower)
    && LookaheadMatches(s, Upper)
    && LookaheadMatches(s, Digit)
    && LookaheadMatches(s, Special)
    && s != [] && InAllowedClass(s[0])
  }

  // ----- the field rules -----

  predicate EmailValid(email: string, isEmail: string -> bool) {
    Required(email) && isEmail(email)
  }

  predicate LoginPasswordValid(password: string) {
    Required(password) && |password| >= 8
  }

  predicate NameValid(name: string) {
    Required(name) && |name| >= 2
  }

  predicate AadhaarValid(aadhaar: string) {
    Required(aadhaar) && DigitsOfLength(aadhaar, 12)
  }

  predicate MobileValid(mobile: string) {
    Required(mobile) && DigitsOfLength(mobile, 10)
  }

  predicate OtpValid(otp: string) {
    Required(otp) && DigitsOfLength(otp, 6)
  }

  predicate RegisterPasswordValid(password: string) {
    Required(password) && |password| >= 8 && PasswordPatternMatches(password)
  }

  /** `oneOf([ref('password')])` plus `required`. */
  predicate ConfirmPasswordValid(confirm: string, password: string) {
    Required(confirm) && confirm == password
  }

  datatype LoginForm = LoginForm(email: string, password: string)

  datatype RegisterForm = RegisterForm(
    name: string,
    aadhaarNumber: string,
    mobile: string,
    email: string,
    password: string,
    confirmPassword: string)

  datatype VerifyOtpForm = VerifyOtpForm(email: string, otp: string)

  /** `loginSchema`: an email and a password of at least 8 characters;
      the email alone would pass the resend-OTP form. */
  function LoginSchemaAccepts(f: LoginForm, isEmail: string -> bool): (r: bool)
    ensures r <==> ResendOtpSchemaAccepts(f.email, isEmail) && |f.password| >= 8
  {
    EmailValid(f.email, isEmail) && LoginPasswordValid(f.password)
  }

  /** `registerSchema`. What it accepts logs in under the login schema, its
      email passes the resend-OTP form, and its digit fields are exactly 12
      and 10 ASCII digits. */
  function RegisterSchemaAccepts(f: RegisterForm, isEmail: string -> bool): (r: bool)
    ensures r ==> LoginSchemaAccepts(LoginForm(f.email, f.password), isEmail)
    ensures r ==> f.confirmPassword == f.password
    ensures r ==> DigitsOfLength(f.aadhaarNumber, 12) && DigitsOfLength(f.mobile, 10)
  {
    && NameValid(f.name)
    && AadhaarValid(f.aadhaarNumber)
    && MobileValid(f.mobile)
    && EmailValid(f.email, isEmail)
    && RegisterPasswordValid(f.password)
    && ConfirmPasswordValid(f.confirmPassword, f.password)
  }

  /** `verifyOtpSchema`: the resend-OTP email rule plus an OTP of exactly
      six ASCII digits. */
  function VerifyOtpSchemaAccepts(f: VerifyOtpForm, isEmail: string -> bool): (r: bool)
    ensures r <==> ResendOtpSchemaAccepts(f.email, isEmail) && DigitsOfLength(f.otp, 6)
  {
    EmailValid(f.email, isEmail) && OtpValid(f.otp)
  }

  /** `resendOtpSchema`: a non-empty email the email rule accepts. */
  function ResendOtpSchemaAccepts(email: string, isEmail: string -> bool): (r: bool)
    ensures r <==> email != "" && isEmail(email)
  {
    EmailValid(email, isEmail)
  }

  // ----- what the rules amount to -----

  /** Aadhaar, mobile and OTP fields take exactly 12, 10 and 6 ASCII digits;
      `required` adds nothing to the pattern. */
  lemma DigitFieldsAreExact(s: string)
    ensures AadhaarValid(s) <==> DigitsOfLength(s, 12)
    ensures MobileValid(s) <==> DigitsOfLength(s, 10)
    ensures OtpValid(s) <==> DigitsOfLength(s, 6)
  {
  }

  /** A one-line registration password is accepted exactly when it has at
      least 8 characters, a lowercase letter, an uppercase letter, a digit
      and one of `@$!%*?&`, and starts with a character of the class; the
      characters after the first are not restricted. */
  lemma RegisterPasswordRule(s: string)
    requires forall i | 0 <= i < |s| :: !IsLineTerminator(s[i])
    ensures RegisterPasswordValid(s) <==>
      && |s| >= 8
      && (exists i | 0 <= i < |s| :: 'a' <= s[i] <= 'z')
      && (exists i | 0 <= i < |s| :: 'A' <= s[i] <= 'Z')
      && (exists i | 0 <= i < |s| :: IsAsciiDigit(s[i]))
      && (exists i | 0 <= i < |s| :: s[i] in "@$!%*?&")
      && InAllowedClass(s[0])
  {
    SingleLineLookahead(s, Lower);
    SingleLineLookahead(s, Upper);
    SingleLineLookahead(s, Digit);
    SingleLineLookahead(s, Special);
  }

  /** A registration password is a valid login password. */
  lemma RegisterPasswordIsLoginPassword(s: string)
    requires RegisterPasswordValid(s)
    ensures LoginPasswordValid(s)
  {
  }

  /** Class characters after a line break do not count: `abcdefg`, a line
      break, then `A1!` is refused, although it has every class. */
  lemma SecondLineIsNotSearched()
    ensures !PasswordPatternMatches("abcdefg\nA1!")
  {
    var s := "abcdefg\nA1!";
    LookaheadIffInFirstLine(s, Upper);
    assert FirstLine(s) == "abcdefg" by {
      assert s[7] == '\n';
      assert FirstLine(s[7..]) == [];
      assert s == "abcdefg" + s[7..];
      FirstLineOfPrefix("abcdefg", s[7..]);
    }
  }

  /** The first line of a text that starts with a terminator-free prefix
      extends that prefix. */
  lemma {:induction false} FirstLineOfPrefix(a: string, b: string)
    requires forall i | 0 <= i < |a| :: !IsLineTerminator(a[i])
    ensures FirstLine(a + b) == a + FirstLine(b)
    decreases |a|
  {
    if a != [] {
      assert (a + b)[1..] == a[1..] + b;
      FirstLineOfPrefix(a[1..], b);
      assert a == [a[0]] + a[1..];
    } else {
      assert a + b == b;
    }
  }

  /** A password that starts with a space is refused even when everything
      else is there. */
  lemma LeadingSpaceIsRefused(s: string)
    requires s != [] && s[0] == ' '
    ensures !RegisterPasswordValid(s)
  {
  }

  /** Confirmation fails on any difference, and on two empty fields. */
  lemma ConfirmNeedsSamePassword(confirm: string, password: string)
    ensures ConfirmPasswordValid(confirm, password) ==> password != "" && confirm == password
    ensures confirm != password ==> !ConfirmPasswordValid(confirm, password)
  {
  }
}
