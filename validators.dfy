/**
 * The client-side checks of the signup and sign-in forms: field rules
 * (lengths and the email shape `\S+@\S+\.\S+`), the per-field error state
 * that `validateInputs` sets, and the submit gate that sends a payload
 * only when every check passes.
 */
module Validators {
  import opened Common

  // ---------------------------------------------------------------------
  // Field rules

  /** `s.length`: JavaScript counts UTF-16 code units, two for a character outside the Basic Multilingual Plane. */
  function Utf16Length(s: string): (n: nat)
    ensures |s| <= n <= 2 * |s|
  {
    if s == [] then 0 else (if s[0] as int > 0xFFFF then 2 else 1) + Utf16Length(s[1..])
  }

  predicate UsernameValid(s: string) {
    s != "" && Utf16Length(s) >= 3
  }

  predicate PasswordValid(s: string) {
    s != "" && Utf16Length(s) >= 6
  }

  /** Positions `a` up to `b` (exclusive) form a non-empty run without white space: a match of `\S+`. */
  predicate NonBlankRun(s: string, a: nat, b: nat)
    requires a <= b <= |s|
  {
    a < b && forall k :: a <= k < b ==> !IsJsWhitespace(s[k])
  }

  /** A match of `\S+@\S+\.\S+` occupying positions `i` up to `e` (exclusive), with its "@" at `at` and its "." at `dot`. */
  ghost predicate MatchAt(s: string, i: nat, at: nat, dot: nat, e: nat) {
    && i < at < dot < e <= |s|
    && NonBlankRun(s, i, at) && s[at] == '@' && NonBlankRun(s, at + 1, dot) && s[dot] == '.' && NonBlankRun(s, dot + 1, e)
  }

  /** `/\S+@\S+\.\S+/.test(s)` as the regular expression reads: somewhere in `s`, a run, "@", a run, ".", a run. */
  ghost predicate RegexMatches(s: string) {
    exists i: nat, at: nat, dot: nat, e: nat :: MatchAt(s, i, at, dot, e)
  }

  /** The markers of the shape: a non-blank character before "@" at `at`, a non-blank run up to "." at `dot`, a non-blank character after it. */
  predicate ShapeAt(s: string, at: nat, dot: nat) {
    && 0 < at < dot < |s| - 1
    && !IsJsWhitespace(s[at - 1]) && s[at] == '@'
    && NonBlankRun(s, at + 1, dot) && s[dot] == '.'
    && !IsJsWhitespace(s[dot + 1])
  }

  predicate HasEmailShape(s: string) {
    exists at: nat, dot: nat | at < dot < |s| :: ShapeAt(s, at, dot)
  }

  /** The two-marker form decides exactly the regular expression. */
  lemma EmailShapeIsRegex(s: string)
    ensures HasEmailShape(s) <==> RegexMatches(s)
  {
    if HasEmailShape(s) {
      var at: nat, dot: nat :| at < dot < |s| && ShapeAt(s, at, dot);
      assert MatchAt(s, at - 1, at, dot, dot + 2);
    }
    if RegexMatches(s) {
      var i: nat, at: nat, dot: nat, e: nat :| MatchAt(s, i, at, dot, e);
      assert !IsJsWhitespace(s[at - 1]) && !IsJsWhitespace(s[dot + 1]);
      assert ShapeAt(s, at, dot);
    }
  }

  predicate EmailValid(s: string) {
    s != "" && HasEmailShape(s)
  }

  /** The match need not span the whole input: text with a space before it still passes, while a missing name or dot fails. */
  lemma EmailExamples()
    ensures EmailValid("a@b.c")
    ensures EmailValid("my mail x@y.org")
    ensures !EmailValid("@b.c")
    ensures !EmailValid("a@bc")
    ensures !EmailValid("a@.c")
  {
    assert ShapeAt("a@b.c", 1, 3);
    assert ShapeAt("my mail x@y.org", 9, 11);
  }

  // ---------------------------------------------------------------------
  // validateInputs

  /** The error flag and helper text of one form field. */
  datatype FieldStatus = FieldStatus(error: bool, message: string)

  const Cleared := FieldStatus(false, "")
  const UsernameMessage := "Username must be at least 3 characters."
  const EmailMessage := "Enter a valid email address."
  const SignupPasswordMessage := "Password must be at least 6 characters long."
  const SigninPasswordMessage := "Password must be at least 6 characters."

  /** Every check runs and sets its own field's state; the form is valid iff all three pass. */
  method ValidateSignup(username: string, email: string, password: string)
    returns (isValid: bool, usernameStatus: FieldStatus, emailStatus: FieldStatus, passwordStatus: FieldStatus)
    ensures isValid <==> UsernameValid(username) && EmailValid(email) && PasswordValid(password)
    ensures usernameStatus == if UsernameValid(username) then Cleared else FieldStatus(true, UsernameMessage)
    ensures emailStatus == if EmailValid(email) then Cleared else FieldStatus(true, EmailMessage)
    ensures passwordStatus == if PasswordValid(password) then Cleared else FieldStatus(true, SignupPasswordMessage)
  {
    isValid := true;
    if username == "" || Utf16Length(username) < 3 {
      usernameStatus := FieldStatus(true, UsernameMessage);
      isValid := false;
    } else {
      usernameStatus := Cleared;
    }
    if email == "" || !HasEmailShape(email) {
      emailStatus := FieldStatus(true, EmailMessage);
      isValid := false;
    } else {
      emailStatus := Cleared;
    }
    if password == "" || Utf16Length(password) < 6 {
      passwordStatus := FieldStatus(true, SignupPasswordMessage);
      isValid := false;
    } else {
      passwordStatus := Cleared;
    }
  }

  /** Both checks run; the form is valid iff both pass, and a passing field's message is cleared. */
  method ValidateSignin(email: string, password: string)
    returns (isValid: bool, emailStatus: FieldStatus, passwordStatus: FieldStatus)
    ensures isValid <==> EmailValid(email) && PasswordValid(password)
    ensures emailStatus == if EmailValid(email) then Cleared else FieldStatus(true, EmailMessage)
    ensures passwordStatus == if PasswordValid(password) then Cleared else FieldStatus(true, SigninPasswordMessage)
  {
    isValid := true;
    if email == "" || !HasEmailShape(email) {
      emailStatus := FieldStatus(true, EmailMessage);
      isValid := false;
    } else {
      emailStatus := Cleared;
    }
    if password == "" || Utf16Length(password) < 6 {
      passwordStatus := FieldStatus(true, SigninPasswordMessage);
      isValid := false;
    } else {
      passwordStatus := Cleared;
    }
  }

  // ---------------------------------------------------------------------
  // The submit gates

  datatype SignupPayload = SignupPayload(username: string, email: string, password: string)

  datatype SigninPayload = SigninPayload(email: string, password: string)

  /** Signup `handleSubmit`: no OTP request unless the form is valid; the request carries exactly the three fields. */
  method SignupSubmit(username: string, email: string, password: string) returns (sent: Option<SignupPayload>)
    ensures sent.Some? <==> UsernameValid(username) && EmailValid(email) && PasswordValid(password)
    ensures sent.Some? ==> sent.value == SignupPayload(username, email, password)
  {
    var isValid, _, _, _ := ValidateSignup(username, email, password);
    if !isValid {
      return None;
    }
    return Some(SignupPayload(username, email, password));
  }

  /** Sign-in `handleSubmit`: no sign-in call unless the form is valid; the call carries exactly email and password. */
  method SigninSubmit(email: string, password: string) returns (sent: Option<SigninPayload>)
    ensures sent.Some? <==> EmailValid(email) && PasswordValid(password)
    ensures sent.Some? ==> sent.value == SigninPayload(email, password)
  {
    var isValid, _, _ := ValidateSignin(email, password);
    if !isValid {
      return None;
    }
    return Some(SigninPayload(email, password));
  }
}
