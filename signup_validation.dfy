/** `validation.ts`: the signup checks. The two regular expressions are
    written as predicates over characters: `IsEmail` is
    `/^[^\s@]+@[^\s@]+\.[^\s@]+$/` and `IsStrongPassword` is
    `PASSWORD_REGEX`. `ValidateSignup` collects the messages in the order
    the checks run. */
module SignupValidation {
  import opened Wrappers
  import opened Strings

  const EmailMessage: string := "Please provide a valid email address."
  const LengthMessage: string := "Password must be at least 8 characters long."
  const ComplexityMessage: string :=
    "Password must contain an uppercase letter, a lowercase letter, a number, and a special character."
  const MismatchMessage: string := "Passwords do not match."

  /** `[^\s@]`. */
  predicate EmailChar(c: char) {
    !IsJsWhitespace(c) && c != '@'
  }

  /** `[^\s@]+`. */
  predicate EmailPart(s: string) {
    |s| > 0 && forall k :: 0 <= k < |s| ==> EmailChar(s[k])
  }

  /** The email pattern as the string shape it accepts: a non-empty local
      part, "@", a non-empty run, ".", and a non-empty run, none of the
      three containing white space or "@". */
  ghost predicate EmailShape(e: string) {
    exists a, b, c :: e == a + "@" + b + "." + c && EmailPart(a) && EmailPart(b) && EmailPart(c)
  }

  /** No character of `e` is white space. */
  predicate NoWhitespace(e: string) {
    forall k :: 0 <= k < |e| ==> !IsJsWhitespace(e[k])
  }

  /** `at` is the only "@" of `e`. */
  predicate OnlyAtSign(e: string, at: int) {
    0 <= at < |e| && e[at] == '@' && forall k :: 0 <= k < |e| && k != at ==> e[k] != '@'
  }

  /** `dot` is a "." after `at` with a character on each side. */
  predicate DotAfter(e: string, at: int, dot: int) {
    0 <= at && at + 1 < dot < |e| - 1 && e[dot] == '.'
  }

  /** The same pattern by positions: no white space, exactly one "@", not
      first, and after it a "." with a character on each side. */
  predicate IsEmail(e: string) {
    NoWhitespace(e) && exists at, dot :: 0 < at < |e| && 0 <= dot < |e| && OnlyAtSign(e, at) && DotAfter(e, at, dot)
  }

  /** The decomposition at the "@" and a later "." is a shape match. */
  lemma PositionsGiveShape(e: string, at: int, dot: int)
    requires NoWhitespace(e) && 0 < at && OnlyAtSign(e, at) && DotAfter(e, at, dot)
    ensures EmailShape(e)
  {
    var a, b, c := e[..at], e[at + 1..dot], e[dot + 1..];
    assert e == a + "@" + b + "." + c;
    assert EmailPart(a) by {
      forall k | 0 <= k < |a| ensures EmailChar(a[k]) {
        assert a[k] == e[k];
      }
    }
    assert EmailPart(b) by {
      forall k | 0 <= k < |b| ensures EmailChar(b[k]) {
        assert b[k] == e[at + 1 + k];
      }
    }
    assert EmailPart(c) by {
      forall k | 0 <= k < |c| ensures EmailChar(c[k]) {
        assert c[k] == e[dot + 1 + k];
      }
    }
  }

  /** A shape match has its "@" and "." where the positional reading looks. */
  lemma ShapeGivesPositions(e: string, a: string, b: string, c: string)
    requires e == a + "@" + b + "." + c && EmailPart(a) && EmailPart(b) && EmailPart(c)
    ensures NoWhitespace(e) && OnlyAtSign(e, |a|) && DotAfter(e, |a|, |a| + 1 + |b|)
  {
    var at, dot := |a|, |a| + 1 + |b|;
    forall k | 0 <= k < |e| ensures !IsJsWhitespace(e[k]) && (k != at ==> e[k] != '@') {
      if k < at {
        assert e[k] == a[k];
      } else if at < k < dot {
        assert e[k] == b[k - at - 1];
      } else if k > dot {
        assert e[k] == c[k - dot - 1];
      }
    }
  }

  /** The positional reading and the shape agree. */
  lemma IsEmailIffShape(e: string)
    ensures IsEmail(e) <==> EmailShape(e)
  {
    if IsEmail(e) {
      var at, dot :| 0 < at < |e| && 0 <= dot < |e| && OnlyAtSign(e, at) && DotAfter(e, at, dot);
      PositionsGiveShape(e, at, dot);
    }
    if EmailShape(e) {
      var a, b, c :| e == a + "@" + b + "." + c && EmailPart(a) && EmailPart(b) && EmailPart(c);
      ShapeGivesPositions(e, a, b, c);
    }
  }

  /** The characters `PASSWORD_REGEX` lists as special. */
  const Specials: string := "!@#$%^&*()_+={}[]:;\"'<>,.?/~\\`|-"

  predicate IsLower(c: char) { 'a' <= c <= 'z' }
  predicate IsUpper(c: char) { 'A' <= c <= 'Z' }
  predicate IsSpecial(c: char) { c in Specials }

  /** `[A-Za-z\d !@#...]`: the characters a password may contain. */
  predicate PasswordChar(c: char) {
    IsLower(c) || IsUpper(c) || IsDigit(c) || c == ' ' || IsSpecial(c)
  }

  /** `PASSWORD_REGEX`: at least eight allowed characters, with a lower-case
      letter, an upper-case letter, a digit and a special character among
      them. */
  predicate IsStrongPassword(p: string) {
    && |p| >= 8
    && (forall k :: 0 <= k < |p| ==> PasswordChar(p[k]))
    && (exists k :: 0 <= k < |p| && IsLower(p[k]))
    && (exists k :: 0 <= k < |p| && IsUpper(p[k]))
    && (exists k :: 0 <= k < |p| && IsDigit(p[k]))
    && (exists k :: 0 <= k < |p| && IsSpecial(p[k]))
  }

  /** Where a message sits in the order of the checks. */
  function MessageRank(m: string): nat {
    if m == EmailMessage then 0
    else if m == LengthMessage then 1
    else if m == ComplexityMessage then 2
    else 3
  }

  /** Each check's message has its own rank, so the four differ. */
  lemma MessageRanks()
    ensures MessageRank(EmailMessage) == 0 && MessageRank(LengthMessage) == 1
    ensures MessageRank(ComplexityMessage) == 2 && MessageRank(MismatchMessage) == 3
  {
  }

  /** `validateSignup`: each check that fails pushes its message, in the
      order email, length, complexity, confirmation. The confirmation is
      checked only when one was given. */
  method ValidateSignup(email: string, password: string, confirmPassword: Option<string>)
    returns (errors: seq<string>)
    ensures EmailMessage in errors <==> email == "" || !IsEmail(email)
    ensures LengthMessage in errors <==> |password| < 8
    ensures ComplexityMessage in errors <==> !IsStrongPassword(password)
    ensures MismatchMessage in errors <==> confirmPassword.Some? && confirmPassword.value != password
    ensures forall m :: m in errors ==> m in [EmailMessage, LengthMessage, ComplexityMessage, MismatchMessage]
    ensures forall i, j :: 0 <= i < j < |errors| ==> MessageRank(errors[i]) < MessageRank(errors[j])
    ensures |errors| <= 4
    ensures errors == [] <==>
      IsEmail(email) && IsStrongPassword(password) &&
      (confirmPassword.Some? ==> confirmPassword.value == password)
  {
    MessageRanks();
    errors := [];
    if email == "" || !IsEmail(email) {
      errors := errors + [EmailMessage];
    }
    if |password| < 8 {
      errors := errors + [LengthMessage];
    }
    if !IsStrongPassword(password) {
      errors := errors + [ComplexityMessage];
    }
    if confirmPassword.Some? && password != confirmPassword.value {
      errors := errors + [MismatchMessage];
    }
  }

  /** A password shorter than eight characters fails the pattern too, so it
      draws both password messages. */
  lemma ShortPasswordIsWeak(p: string)
    requires |p| < 8
    ensures !IsStrongPassword(p)
  {
  }

  /** An empty email never matches, so the `!email` test adds nothing. */
  lemma EmptyEmailIsInvalid()
    ensures !IsEmail("")
  {
  }

  lemma SampleEmails()
    ensures IsEmail("jo@example.com")
    ensures !IsEmail("jo@example")
    ensures !IsEmail("jo @example.com")
    ensures !IsEmail("jo@@example.com")
  {
    var e := "jo@example.com";
    assert OnlyAtSign(e, 2) && DotAfter(e, 2, 10);
    var bad := "jo@@example.com";
    assert bad[2] == '@' && bad[3] == '@';
    var spaced := "jo @example.com";
    assert IsJsWhitespace(spaced[2]);
    var noDot := "jo@example";
    assert forall at :: 0 < at < |noDot| && OnlyAtSign(noDot, at) ==> at == 2;
  }

  lemma StrongSample()
    ensures IsStrongPassword("Str0ng!Pass")
  {
    var p := "Str0ng!Pass";
    assert IsUpper(p[0]) && IsLower(p[1]) && IsDigit(p[3]) && IsSpecial(p[6]);
  }

  /** No letter or digit is special. */
  lemma AlphanumericIsNotSpecial(c: char)
    requires IsLower(c) || IsUpper(c) || IsDigit(c)
    ensures !IsSpecial(c)
  {
    forall k | 0 <= k < |Specials| ensures Specials[k] != c {
    }
  }

  lemma WeakSamples()
    ensures !IsStrongPassword("password")
    ensures !IsStrongPassword("Password1")
  {
    var q := "password";
    assert forall k :: 0 <= k < |q| ==> !IsUpper(q[k]);
    var r := "Password1";
    forall k | 0 <= k < |r| ensures !IsSpecial(r[k]) {
      AlphanumericIsNotSpecial(r[k]);
    }
  }
}
