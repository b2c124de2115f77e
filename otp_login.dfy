/**
  The OTP sign-in screen: the validators behind its two input schemas
  (e-mail and Indian mobile number), the digit-only phone sanitiser, and
  the input → otp → success step machine driven by its buttons.
*/
module OtpLogin {
  import opened Wrappers

  // ---------------------------------------------------------------------
  // Trimming, as String.prototype.trim does it
  // ---------------------------------------------------------------------

  /** ECMAScript WhiteSpace and LineTerminator code points. */
  predicate IsJsWhitespace(c: char)
  {
    c == '\t' || c == '\n' || c == '\U{000B}' || c == '\U{000C}' || c == '\r' || c == ' '
    || c == '\U{00A0}' || c == '\U{1680}' || ('\U{2000}' <= c <= '\U{200A}')
    || c == '\U{2028}' || c == '\U{2029}' || c == '\U{202F}' || c == '\U{205F}'
    || c == '\U{3000}' || c == '\U{FEFF}'
  }

  /** Drops leading whitespace: the result is the suffix of `s` after the
      whitespace run that starts it. */
  function TrimStart(s: string): (r: string)
    ensures |r| <= |s| && r == s[|s| - |r|..]
    ensures r == [] || !IsJsWhitespace(r[0])
    ensures forall i :: 0 <= i < |s| - |r| ==> IsJsWhitespace(s[i])
  {
    if s != [] && IsJsWhitespace(s[0]) then TrimStart(s[1..]) else s
  }

  /** Drops trailing whitespace: the result is the prefix of `s` before the
      whitespace run that ends it. */
  function TrimEnd(s: string): (r: string)
    ensures |r| <= |s| && r == s[..|r|]
    ensures r == [] || !IsJsWhitespace(r[|r| - 1])
    ensures forall i :: |r| <= i < |s| ==> IsJsWhitespace(s[i])
  {
    if s != [] && IsJsWhitespace(s[|s| - 1]) then TrimEnd(s[..|s| - 1]) else s
  }

  function Trim(s: string): string
  {
    TrimEnd(TrimStart(s))
  }

  /** Trimming removes whitespace at both ends and only there: the result
      is the slice of the input that starts after the leading whitespace,
      everything cut away is whitespace, and the result neither starts nor
      ends with whitespace. */
  lemma TrimIsCleanSlice(s: string)
    ensures var i := |s| - |TrimStart(s)|; var r := Trim(s);
      i + |r| <= |s| && r == s[i..i + |r|]
      && (forall k :: 0 <= k < i ==> IsJsWhitespace(s[k]))
      && (forall k :: i + |r| <= k < |s| ==> IsJsWhitespace(s[k]))
    ensures var r := Trim(s); r == [] || (!IsJsWhitespace(r[0]) && !IsJsWhitespace(r[|r| - 1]))
  {
    var t := TrimStart(s);
    var r := TrimEnd(t);
    var i := |s| - |t|;
    assert r == s[i..i + |r|];
    forall k | i + |r| <= k < |s|
      ensures IsJsWhitespace(s[k])
    {
      assert s[k] == t[k - i];
    }
  }

  /** A string with no whitespace at either end is left as it is. */
  lemma TrimKeepsClean(s: string)
    requires s == [] || (!IsJsWhitespace(s[0]) && !IsJsWhitespace(s[|s| - 1]))
    ensures Trim(s) == s
  {
  }

  /** Trimming twice is trimming once. */
  lemma TrimIdempotent(s: string)
    ensures Trim(Trim(s)) == Trim(s)
  {
    TrimIsCleanSlice(s);
    TrimKeepsClean(Trim(s));
  }

  // ---------------------------------------------------------------------
  // Digits and the phone sanitiser
  // ---------------------------------------------------------------------

  /** `\d` in a regular expression without the `u` flag: ASCII digits. */
  predicate IsDigit(c: char)
  {
    '0' <= c <= '9'
  }

  predicate AllDigits(s: string)
  {
    forall i :: 0 <= i < |s| ==> IsDigit(s[i])
  }

  /** `s` with every non-digit character removed. */
  function Digits(s: string): (d: string)
    ensures AllDigits(d) && |d| <= |s|
  {
    if s == [] then [] else (if IsDigit(s[0]) then [s[0]] else []) + Digits(s[1..])
  }

  /** Removing non-digits works piece by piece, so the digits kept appear in
      their original order. */
  lemma {:induction false} DigitsAppend(a: string, b: string)
    ensures Digits(a + b) == Digits(a) + Digits(b)
  {
    if a == [] {
      assert a + b == b;
    } else {
      assert (a + b)[0] == a[0];
      assert (a + b)[1..] == a[1..] + b;
      DigitsAppend(a[1..], b);
    }
  }

  /** A string of digits only is kept whole. */
  lemma {:induction false} DigitsOfDigits(s: string)
    requires AllDigits(s)
    ensures Digits(s) == s
  {
    if s != [] {
      DigitsOfDigits(s[1..]);
    }
  }

  /** A string without digits is removed entirely. */
  lemma {:induction false} DigitsOfNonDigits(s: string)
    requires forall i :: 0 <= i < |s| ==> !IsDigit(s[i])
    ensures Digits(s) == []
  {
    if s != [] {
      DigitsOfNonDigits(s[1..]);
    }
  }

  /** The phone field's change handler: keep the digits, at most ten. */
  function SanitisePhone(v: string): (p: string)
    ensures |p| <= 10 && AllDigits(p)
    ensures p <= Digits(v)
    ensures |p| < 10 ==> p == Digits(v)
  {
    var d := Digits(v);
    if |d| <= 10 then d else d[..10]
  }

  /** Sanitising a sanitised value changes nothing. */
  lemma SanitiseIdempotent(v: string)
    ensures SanitisePhone(SanitisePhone(v)) == SanitisePhone(v)
  {
    DigitsOfDigits(SanitisePhone(v));
  }

  /** The phone schema: after trimming, the number is ten ASCII digits and
      starts with 6, 7, 8 or 9. */
  predicate PhoneValid(s: string)
  {
    var t := Trim(s);
    |t| == 10 && '6' <= t[0] <= '9' && AllDigits(t[1..])
  }

  /** What the user types is accepted exactly when it holds at least ten
      digits and the first of them is 6 to 9. */
  lemma SanitisedPhoneValid(v: string)
    ensures PhoneValid(SanitisePhone(v)) <==>
      |Digits(v)| >= 10 && '6' <= Digits(v)[0] <= '9'
  {
    var d, p := Digits(v), SanitisePhone(v);
    assert p != [] ==> IsDigit(p[0]) && IsDigit(p[|p| - 1]);
    TrimKeepsClean(p);
    if |d| >= 10 {
      assert p == d[..10];
      assert p[0] == d[0];
      assert AllDigits(p[1..]) by {
        forall i | 0 <= i < |p[1..]| ensures IsDigit(p[1..][i]) {
          assert p[1..][i] == p[i + 1];
        }
      }
    } else {
      assert p == d;
    }
  }

  /** An accepted phone number passes through the sanitiser unchanged. */
  lemma ValidPhoneSurvivesSanitiser(s: string)
    requires PhoneValid(s)
    ensures AllDigits(Trim(s)) && SanitisePhone(Trim(s)) == Trim(s)
  {
    var t := Trim(s);
    assert forall i :: 1 <= i < |t| ==> t[i] == t[1..][i - 1];
    DigitsOfDigits(t);
  }

  // ---------------------------------------------------------------------
  // Splitting at '@' and the disposable-domain blocklist
  // ---------------------------------------------------------------------

  /** `s.split("@")`: the pieces between the `@` signs. The first piece is
      the longest prefix without `@`. */
  function SplitAt(s: string): (parts: seq<string>)
    ensures |parts| >= 1
  {
    if s == [] then [[]]
    else
      var rest := SplitAt(s[1..]);
      if s[0] == '@' then [[]] + rest
      else [[s[0]] + rest[0]] + rest[1..]
  }

  /** No piece holds an `@`; there is more than one piece exactly when the
      string holds an `@`; the first piece is the prefix up to the first `@`. */
  lemma {:induction false} SplitAtPieces(s: string)
    ensures var parts := SplitAt(s);
      (forall k :: 0 <= k < |parts| ==> '@' !in parts[k])
      && (|parts| == 1 <==> '@' !in s)
      && parts[0] <= s && (|parts[0]| < |s| ==> s[|parts[0]|] == '@')
  {
    if s != [] {
      SplitAtPieces(s[1..]);
      var rest := SplitAt(s[1..]);
      var parts := SplitAt(s);
      if s[0] != '@' {
        assert forall k :: 1 <= k < |parts| ==> parts[k] == rest[k];
        assert '@' !in rest[0];
      } else {
        assert forall k :: 1 <= k < |parts| ==> parts[k] == rest[k - 1];
      }
    }
  }

  /** `parts.join("@")`. */
  function JoinAt(parts: seq<string>): string
    requires |parts| >= 1
  {
    if |parts| == 1 then parts[0] else parts[0] + ['@'] + JoinAt(parts[1..])
  }

  /** Joining the pieces of a split gives back the string. */
  lemma {:induction false} JoinSplit(s: string)
    ensures JoinAt(SplitAt(s)) == s
  {
    if s != [] {
      var rest := SplitAt(s[1..]);
      JoinSplit(s[1..]);
      if s[0] == '@' {
        assert SplitAt(s)[1..] == rest;
      } else {
        var parts := SplitAt(s);
        assert parts[0] == [s[0]] + rest[0] && parts[1..] == rest[1..];
        if |rest| > 1 {
          assert JoinAt(rest) == rest[0] + ['@'] + JoinAt(rest[1..]);
          assert JoinAt(parts) == [s[0]] + (rest[0] + ['@'] + JoinAt(rest[1..]));
        }
        assert s == [s[0]] + s[1..];
      }
    }
  }

  /** Splitting a string that starts with an `@`-free piece. */
  lemma {:induction false} SplitAfterPiece(a: string, b: string)
    requires '@' !in a
    ensures SplitAt(a + b) == [a + SplitAt(b)[0]] + SplitAt(b)[1..]
  {
    if a != [] {
      assert (a + b)[0] == a[0];
      assert (a + b)[1..] == a[1..] + b;
      SplitAfterPiece(a[1..], b);
      assert [a[0]] + (a[1..] + SplitAt(b)[0]) == a + SplitAt(b)[0];
    } else {
      var parts := SplitAt(b);
      assert a + b == b && a + parts[0] == parts[0];
      assert parts == [parts[0]] + parts[1..];
    }
  }

  /** Splitting pieces joined with `@` gives back the pieces. */
  lemma {:induction false} SplitJoin(parts: seq<string>)
    requires |parts| >= 1
    requires forall k :: 0 <= k < |parts| ==> '@' !in parts[k]
    ensures SplitAt(JoinAt(parts)) == parts
  {
    if |parts| == 1 {
      SplitAfterPiece(parts[0], []);
      assert parts[0] + [] == parts[0];
    } else {
      var tail := JoinAt(parts[1..]);
      SplitJoin(parts[1..]);
      assert (['@'] + tail)[1..] == tail;
      assert SplitAt(['@'] + tail) == [[]] + parts[1..];
      assert JoinAt(parts) == parts[0] + (['@'] + tail);
      SplitAfterPiece(parts[0], ['@'] + tail);
      assert parts[0] + [] == parts[0];
    }
  }

  /** `email.split("@")[1]`: absent without an `@`, otherwise the piece
      between the first `@` and the next one (or the end). */
  function DomainOf(email: string): (d: Option<string>)
    ensures d.None? <==> '@' !in email
    ensures d.Some? ==> '@' !in d.value
  {
    SplitAtPieces(email);
    var parts := SplitAt(email);
    if |parts| > 1 then Some(parts[1]) else None
  }

  /** The domain is what follows the first `@`, up to any later `@`. */
  lemma DomainAfterFirstAt(local: string, rest: string)
    requires '@' !in local
    ensures DomainOf(local + ['@'] + rest) == Some(SplitAt(rest)[0])
  {
    SplitAfterPiece(local, ['@'] + rest);
    assert local + ['@'] + rest == local + (['@'] + rest);
    assert (['@'] + rest)[1..] == rest;
  }

  /** The part of `toLowerCase` that can produce one of the listed domains:
      ASCII capitals, and KELVIN SIGN, which lowers to `k`. */
  function LowerChar(c: char): char
  {
    if 'A' <= c <= 'Z' then (c as int + 32) as char
    else if c == '\U{212A}' then 'k'
    else c
  }

  function Lower(s: string): (r: string)
    ensures |r| == |s|
  {
    if s == [] then [] else [LowerChar(s[0])] + Lower(s[1..])
  }

  /** Lowering twice is lowering once. */
  lemma {:induction false} LowerIdempotent(s: string)
    ensures Lower(Lower(s)) == Lower(s)
  {
    if s != [] {
      LowerIdempotent(s[1..]);
    }
  }

  const BlockedDomains: seq<string> := [
    "tempmail.com", "temp-mail.org", "guerrillamail.com", "10minutemail.com",
    "mailinator.com", "throwaway.email", "fakeinbox.com", "yopmail.com",
    "getnada.com", "trashmail.com", "maildrop.cc", "dispostable.com",
    "mailnesia.com", "temp.email", "tempr.email", "discard.email"
  ]

  /** The refine of the e-mail schema fails: the lowered domain is listed. */
  predicate IsBlockedEmail(email: string)
  {
    match DomainOf(email)
    case None => false
    case Some(d) => Lower(d) in BlockedDomains
  }

  /** Without an `@` there is no domain, and the blocklist lets it pass. */
  lemma NoAtNotBlocked(email: string)
    requires '@' !in email
    ensures !IsBlockedEmail(email)
  {
  }

  /** A blocked domain is caught whatever its letter case. */
  lemma {:induction false} BlockedIgnoresCase(local: string, domain: string)
    requires '@' !in local && '@' !in domain
    ensures IsBlockedEmail(local + ['@'] + domain) <==> Lower(domain) in BlockedDomains
  {
    DomainAfterFirstAt(local, domain);
    SplitAfterPiece(domain, []);
    assert domain + [] == domain;
  }

  /** With a second `@` it is the piece between the first two that is
      checked; whatever follows the second `@` is ignored. */
  lemma {:induction false} MiddlePieceChecked(local: string, domain: string, rest: string)
    requires '@' !in local && '@' !in domain
    ensures IsBlockedEmail(local + ['@'] + domain + ['@'] + rest) <==> Lower(domain) in BlockedDomains
  {
    DomainAfterFirstAt(local, domain + ['@'] + rest);
    assert local + ['@'] + domain + ['@'] + rest == local + ['@'] + (domain + ['@'] + rest);
    SplitAfterPiece(domain, ['@'] + rest);
    assert domain + ['@'] + rest == domain + (['@'] + rest);
    assert SplitAt(['@'] + rest)[0] == [];
    assert domain + [] == domain;
  }

  // ---------------------------------------------------------------------
  // The two schemas and their first message
  // ---------------------------------------------------------------------

  const InvalidEmailMessage := "Please enter a valid email address"
  const EmailTooLongMessage := "Email must be less than 255 characters"
  const TemporaryEmailMessage := "Temporary email addresses are not allowed"
  const InvalidPhoneMessage := "Please enter a valid 10-digit Indian phone number"
  const IncompleteOtpMessage := "Please enter the complete 6-digit OTP"

  datatype LoginMethod = ByEmail | ByPhone

  /** Every issue the e-mail schema reports, in the order of its checks:
      format, length, then the blocklist, all on the trimmed value. The
      format check itself is the parameter `isEmail`. */
  function EmailIssues(email: string, isEmail: string -> bool): (issues: seq<string>)
  {
    var t := Trim(email);
    (if isEmail(t) then [] else [InvalidEmailMessage])
    + (if |t| <= 255 then [] else [EmailTooLongMessage])
    + (if IsBlockedEmail(t) then [TemporaryEmailMessage] else [])
  }

  function PhoneIssues(phone: string): (issues: seq<string>)
  {
    if PhoneValid(phone) then [] else [InvalidPhoneMessage]
  }

  /** The message shown after a failed validation: the first issue of the
      schema for the selected method, or none when it passes. */
  function FirstIssue(channel: LoginMethod, email: string, phone: string, isEmail: string -> bool): (m: Option<string>)
    ensures channel == ByEmail ==>
      (m.None? <==> isEmail(Trim(email)) && |Trim(email)| <= 255 && !IsBlockedEmail(Trim(email)))
    ensures channel == ByPhone ==> (m.None? <==> PhoneValid(phone))
    ensures channel == ByEmail && !isEmail(Trim(email)) ==> m == Some(InvalidEmailMessage)
    ensures channel == ByEmail && isEmail(Trim(email)) && |Trim(email)| > 255 ==> m == Some(EmailTooLongMessage)
    ensures channel == ByEmail && isEmail(Trim(email)) && |Trim(email)| <= 255 && IsBlockedEmail(Trim(email)) ==>
      m == Some(TemporaryEmailMessage)
    ensures channel == ByPhone && !PhoneValid(phone) ==> m == Some(InvalidPhoneMessage)
    ensures m.Some? ==> m.value in Messages
  {
    var issues := if channel == ByEmail then EmailIssues(email, isEmail) else PhoneIssues(phone);
    if issues == [] then None else Some(issues[0])
  }

  /** Every message the screen can show. */
  const Messages: set<string> := {InvalidEmailMessage, EmailTooLongMessage, TemporaryEmailMessage,
                                  InvalidPhoneMessage, IncompleteOtpMessage}

  // ---------------------------------------------------------------------
  // The step machine
  // ---------------------------------------------------------------------

  datatype Step = InputStep | OtpStep | SuccessStep

  /** The sign-in screen's state. Each handler is one atomic transition;
      whether a request is in flight is passed to the button predicates. */
  class LoginForm {
    var channel: LoginMethod
    var email: string
    var phone: string
    var otp: string
    var step: Step
    var error: string
    /** The e-mail format check of the schema. */
    const isEmail: string -> bool

    /** Past the input step the entered address or number is valid; success
        needs a six-character code; the phone field only ever holds what the
        sanitiser lets through; the error is blank or a known message. */
    ghost predicate Valid()
      reads this
    {
      (step != InputStep ==> FirstIssue(channel, email, phone, isEmail).None?)
      && (step == SuccessStep ==> |otp| == 6 && error == "")
      && |phone| <= 10 && AllDigits(phone)
      && (error == "" || error in Messages)
    }

    constructor (isEmail: string -> bool)
      ensures Valid()
      ensures this.isEmail == isEmail
      ensures channel == ByEmail && email == "" && phone == "" && otp == ""
      ensures step == InputStep && error == ""
    {
      this.isEmail := isEmail;
      channel := ByEmail;
      email := "";
      phone := "";
      otp := "";
      step := InputStep;
      error := "";
    }

    /** Switching the tab selects the method and clears the error. */
    method SelectMethod(m: LoginMethod)
      requires Valid() && step == InputStep
      modifies this
      ensures Valid()
      ensures channel == m && error == ""
      ensures email == old(email) && phone == old(phone) && otp == old(otp) && step == old(step)
    {
      channel := m;
      error := "";
    }

    /** Typing in the e-mail field stores the raw text and clears the error. */
    method EditEmail(v: string)
      requires Valid() && step == InputStep
      modifies this
      ensures Valid()
      ensures email == v && error == ""
      ensures channel == old(channel) && phone == old(phone) && otp == old(otp) && step == old(step)
    {
      email := v;
      error := "";
    }

    /** Typing in the phone field stores the sanitised digits and clears the error. */
    method EditPhone(v: string)
      requires Valid() && step == InputStep
      modifies this
      ensures Valid()
      ensures phone == SanitisePhone(v) && error == ""
      ensures channel == old(channel) && email == old(email) && otp == old(otp) && step == old(step)
    {
      phone := SanitisePhone(v);
      error := "";
    }

    /** Typing in the code boxes stores the code and clears the error. */
    method EditOtp(v: string)
      requires Valid() && step == OtpStep
      modifies this
      ensures Valid()
      ensures otp == v && error == ""
      ensures channel == old(channel) && email == old(email) && phone == old(phone) && step == old(step)
    {
      otp := v;
      error := "";
    }

    /** Runs the selected schema; on failure the first message becomes the error. */
    method ValidateInput() returns (ok: bool)
      requires Valid() && step == InputStep
      modifies this
      ensures Valid()
      ensures ok <==> FirstIssue(channel, email, phone, isEmail).None?
      ensures error == if ok then "" else FirstIssue(channel, email, phone, isEmail).value
      ensures channel == old(channel) && email == old(email) && phone == old(phone)
      ensures otp == old(otp) && step == old(step)
    {
      error := "";
      var issue := FirstIssue(channel, email, phone, isEmail);
      if issue.Some? {
        error := issue.value;
        return false;
      }
      return true;
    }

    /** Continue: invalid input stays on the input step with the first
        message; valid input moves on to code entry with no error. */
    method SendOtp()
      requires Valid() && step == InputStep
      modifies this
      ensures Valid()
      ensures FirstIssue(channel, email, phone, isEmail).None? ==> step == OtpStep && error == ""
      ensures FirstIssue(channel, email, phone, isEmail).Some? ==>
        step == InputStep && error == FirstIssue(channel, email, phone, isEmail).value
      ensures channel == ByPhone && ContinueDisabled(false) ==> step == InputStep && error == InvalidPhoneMessage
      ensures channel == old(channel) && email == old(email) && phone == old(phone) && otp == old(otp)
    {
      var ok := ValidateInput();
      if !ok {
        return;
      }
      step := OtpStep;
    }

    /** Verify: a code of any length but six is refused with a message and
        the step stays; any six-character code succeeds. */
    method VerifyOtp()
      requires Valid() && step == OtpStep
      modifies this
      ensures Valid()
      ensures |otp| != 6 ==> step == OtpStep && error == IncompleteOtpMessage
      ensures |otp| == 6 ==> step == SuccessStep && error == ""
      ensures VerifyDisabled(false) <==> step == OtpStep
      ensures channel == old(channel) && email == old(email) && phone == old(phone) && otp == old(otp)
    {
      if |otp| != 6 {
        error := IncompleteOtpMessage;
        return;
      }
      error := "";
      step := SuccessStep;
    }

    /** Resend: the entered code is cleared; the step and the error stay. */
    method ResendOtp()
      requires Valid() && step == OtpStep
      modifies this
      ensures Valid()
      ensures otp == ""
      ensures step == old(step) && error == old(error)
      ensures channel == old(channel) && email == old(email) && phone == old(phone)
    {
      otp := "";
    }

    /** "Change e-mail/phone": back to the input step with the code and the
        error cleared; what was entered before is kept. */
    method ChangeMethod()
      requires Valid() && step == OtpStep
      modifies this
      ensures Valid()
      ensures step == InputStep && otp == "" && error == ""
      ensures channel == old(channel) && email == old(email) && phone == old(phone)
    {
      step := InputStep;
      otp := "";
      error := "";
    }

    /** The Continue button is disabled while a request is in flight or
        while the selected field is empty. */
    predicate ContinueDisabled(loading: bool)
      reads this
    {
      loading || (if channel == ByEmail then email == "" else phone == "")
    }

    /** The Verify button is disabled while a request is in flight or
        unless the code has six characters. */
    predicate VerifyDisabled(loading: bool)
      reads this
    {
      loading || |otp| != 6
    }
  }

  /** Separators typed anywhere in the number are dropped by the sanitiser. */
  lemma SeparatorIgnored(before: string, c: char, after: string)
    requires !IsDigit(c)
    ensures SanitisePhone(before + [c] + after) == SanitisePhone(before + after)
  {
    DigitsAppend(before + [c], after);
    DigitsAppend(before, [c]);
    DigitsAppend(before, after);
    assert Digits([c]) == [];
    assert Digits(before) + [] == Digits(before);
  }

  /** Signing in by phone: pick the phone tab, type a number holding at
      least ten digits that starts with 6 to 9, continue, enter any
      six-character code and verify. */
  method PhoneSignIn(typed: string, code: string) returns (finalStep: Step, sentTo: string, shownError: string)
    requires |Digits(typed)| >= 10 && '6' <= Digits(typed)[0] <= '9'
    requires |code| == 6
    ensures finalStep == SuccessStep && sentTo == Digits(typed)[..10] && shownError == ""
  {
    var form := new LoginForm(e => false);
    form.SelectMethod(ByPhone);
    form.EditPhone(typed);
    SanitisedPhoneValid(typed);
    form.SendOtp();
    form.EditOtp(code);
    form.VerifyOtp();
    return form.step, form.phone, form.error;
  }

  /** A disposable address that passes the format and length checks is
      still refused, and the screen stays on the input step. */
  method DisposableEmailRefused(isEmail: string -> bool, local: string, domain: string)
    returns (finalStep: Step, shownError: string)
    requires '@' !in local && '@' !in domain && Lower(domain) in BlockedDomains
    requires var email := local + ['@'] + domain;
      Trim(email) == email && isEmail(email) && |email| <= 255
    ensures finalStep == InputStep && shownError == TemporaryEmailMessage
  {
    var email := local + ['@'] + domain;
    BlockedIgnoresCase(local, domain);
    assert FirstIssue(ByEmail, email, "", isEmail) == Some(TemporaryEmailMessage);
    var form := new LoginForm(isEmail);
    form.EditEmail(email);
    form.SendOtp();
    return form.step, form.error;
  }

  /** A short code is refused on the code step, and changing the method
      afterwards returns to the input step with a clean slate. */
  method ShortCodeThenChange(isEmail: string -> bool, email: string, code: string)
    returns (afterVerify: Step, verifyError: string, afterChange: Step, changeError: string)
    requires FirstIssue(ByEmail, email, "", isEmail).None?
    requires |code| != 6
    ensures afterVerify == OtpStep && verifyError == IncompleteOtpMessage
    ensures afterChange == InputStep && changeError == ""
  {
    var form := new LoginForm(isEmail);
    form.EditEmail(email);
    form.SendOtp();
    form.EditOtp(code);
    form.VerifyOtp();
    afterVerify, verifyError := form.step, form.error;
    form.ChangeMethod();
    afterChange, changeError := form.step, form.error;
  }
}
