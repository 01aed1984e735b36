/** The password-reset screen: step 1 asks for the e-mail address and sends a code, step 2 takes
    the code and a new password, step 3 reports success. */
module ForgotPassword {
  import opened Wrappers
  import opened Text

  // ---------------------------------------------------------------------------------------------
  // Field rules

  /** `\S` of a JavaScript regular expression. */
  predicate NonSpace(c: char) {
    !IsJsSpace(c)
  }

  /** The e-mail rule `/\S+@\S+\.\S+/`, unanchored: somewhere in the text there is an '@' with
      a non-space character before it, then at least one non-space character, a '.', and one
      more non-space character, all in one run without white space. */
  predicate EmailMatches(s: string) {
    exists at, dot :: 0 < at && at + 1 < dot && dot + 1 < |s| && EmailShapeAt(s, at, dot)
  }

  predicate EmailShapeAt(s: string, at: int, dot: int) {
    0 < at && at + 1 < dot && dot + 1 < |s| &&
    s[at] == '@' && s[dot] == '.' &&
    forall k :: at - 1 <= k <= dot + 1 ==> NonSpace(s[k])
  }

  datatype EmailRule = EmailRequired | EmailInvalid

  /** The first rule the e-mail field breaks, in react-hook-form's order (required, pattern). */
  function EmailError(s: string): (e: Option<EmailRule>)
    ensures e == None <==> s != "" && EmailMatches(s)
  {
    if s == "" then Some(EmailRequired)
    else if !EmailMatches(s) then Some(EmailInvalid)
    else None
  }

  /** The rule is unanchored: text around an accepted address does not matter. */
  lemma EmailMatchesInContext(pre: string, s: string, post: string)
    requires EmailMatches(s)
    ensures EmailMatches(pre + s + post)
  {
    var at, dot :| 0 < at && at + 1 < dot && dot + 1 < |s| && EmailShapeAt(s, at, dot);
    var t := pre + s + post;
    forall k | at + |pre| - 1 <= k <= dot + |pre| + 1 ensures NonSpace(t[k]) {
      assert t[k] == s[k - |pre|];
    }
    assert EmailShapeAt(t, at + |pre|, dot + |pre|);
  }

  /** An address written whole is accepted, and one without '@' or without a dot after it is not. */
  lemma EmailExamples()
    ensures EmailMatches("a@b.c")
    ensures !EmailMatches("abc.de")
    ensures !EmailMatches("a@bc")
  {
    assert EmailShapeAt("a@b.c", 1, 3);
    var s := "abc.de";
    forall at, dot | 0 < at && at + 1 < dot && dot + 1 < |s| ensures !EmailShapeAt(s, at, dot) {
      assert s[at] != '@';
    }
  }

  /** The text before the first line terminator: what `.*` in a lookahead can scan. */
  function FirstLine(s: string): (r: string)
    ensures |r| <= |s| && r == s[..|r|]
    ensures forall k :: 0 <= k < |r| ==> !IsLineTerminator(r[k])
    ensures |r| < |s| ==> IsLineTerminator(s[|r|])
  {
    if s == [] || IsLineTerminator(s[0]) then [] else [s[0]] + FirstLine(s[1..])
  }

  predicate IsDigit(c: char) {
    '0' <= c <= '9'
  }

  /** The special characters `[@$!%*?&]`. */
  predicate IsSpecial(c: char) {
    c == '@' || c == '$' || c == '!' || c == '%' || c == '*' || c == '?' || c == '&'
  }

  /** `/^(?=.*[A-Z])(?=.*\d)(?=.*[@$!%*?&])/`: an upper-case letter, a digit and a special
      character all occur before the first line break. */
  predicate StrengthPatternMatches(p: string) {
    var line := FirstLine(p);
    (exists k :: 0 <= k < |line| && IsAsciiUpper(line[k])) &&
    (exists k :: 0 <= k < |line| && IsDigit(line[k])) &&
    (exists k :: 0 <= k < |line| && IsSpecial(line[k]))
  }

  datatype PasswordRule = PasswordRequired | TooShort | TooWeak

  /** The first rule the new-password field breaks: required, at least 10 characters, pattern. */
  function NewPasswordError(p: string): (e: Option<PasswordRule>)
    ensures e == None <==> |p| >= 10 && StrengthPatternMatches(p)
    ensures e == Some(TooShort) <==> 0 < |p| < 10
  {
    if p == "" then Some(PasswordRequired)
    else if |p| < 10 then Some(TooShort)
    else if !StrengthPatternMatches(p) then Some(TooWeak)
    else None
  }

  /** On a one-line password the pattern asks only that the three kinds of character occur. */
  lemma SingleLinePassword(p: string)
    requires forall k :: 0 <= k < |p| ==> !IsLineTerminator(p[k])
    ensures NewPasswordError(p) == None <==>
      |p| >= 10 &&
      (exists k :: 0 <= k < |p| && IsAsciiUpper(p[k])) &&
      (exists k :: 0 <= k < |p| && IsDigit(p[k])) &&
      (exists k :: 0 <= k < |p| && IsSpecial(p[k]))
  {
    FirstLineStopsAtBreak(p, "");
    assert p + "" == p;
  }

  /** The first line of a text is everything before its first line terminator. */
  lemma {:induction false} FirstLineStopsAtBreak(a: string, rest: string)
    requires forall k :: 0 <= k < |a| ==> !IsLineTerminator(a[k])
    requires rest != [] ==> IsLineTerminator(rest[0])
    ensures FirstLine(a + rest) == a
  {
    if a == [] {
      assert a + rest == rest;
    } else {
      assert (a + rest)[1..] == a[1..] + rest;
      FirstLineStopsAtBreak(a[1..], rest);
    }
  }

  /** A password's strength characters after a line break do not count. */
  lemma SecondLineDoesNotCount()
    ensures NewPasswordError("abcdefghij\nA1@") == Some(TooWeak)
  {
    var line := "abcdefghij";
    FirstLineStopsAtBreak(line, "\nA1@");
    assert "abcdefghij\nA1@" == line + "\nA1@";
    assert forall k :: 0 <= k < |line| ==> !IsAsciiUpper(line[k]);
  }

  // ---------------------------------------------------------------------------------------------
  // The screen

  datatype ResetRequest = ResetRequest(email: string, code: string, newPassword: string, confirmNewPassword: string)

  datatype Alert = RequestFailed(detail: Option<string>) | PasswordsDiffer

  class ForgotPasswordScreen {
    var currentStep: int
    var isLoading: bool
    var registeredEmail: string
    // the form's values
    var email: string
    var code: string
    var newPassword: string
    var confirmNewPassword: string

    ghost predicate Valid()
      reads this
    {
      1 <= currentStep <= 3
    }

    constructor ()
      ensures Valid() && currentStep == 1 && !isLoading && registeredEmail == ""
      ensures email == "" && code == "" && newPassword == "" && confirmNewPassword == ""
    {
      currentStep, isLoading, registeredEmail := 1, false, "";
      email, code, newPassword, confirmNewPassword := "", "", "", "";
    }

    /** Typing into the form. */
    method EditForm(email': string, code': string, newPassword': string, confirmNewPassword': string)
      modifies this`email, this`code, this`newPassword, this`confirmNewPassword
      ensures email == email' && code == code' && newPassword == newPassword' && confirmNewPassword == confirmNewPassword'
    {
      email, code, newPassword, confirmNewPassword := email', code', newPassword', confirmNewPassword';
    }

    /** The pencil next to the recorded address: back to step 1 with the step 2 fields cleared. */
    method ResetToStep1()
      requires Valid()
      modifies this`currentStep, this`code, this`newPassword, this`confirmNewPassword
      ensures Valid() && currentStep == 1
      ensures code == "" && newPassword == "" && confirmNewPassword == ""
    {
      currentStep := 1;
      code, newPassword, confirmNewPassword := "", "", "";
    }

    /** The send-code button, through the form's submit handler: nothing happens unless the
        e-mail field is valid. `result` is the outcome of the send-code request; `busy` is the
        loading flag while it is awaited. */
    method HandleSendCode(result: Outcome) returns (request: Option<string>, busy: bool, alert: Option<Alert>)
      requires Valid()
      modifies this`currentStep, this`isLoading, this`registeredEmail
      ensures Valid()
      ensures EmailError(email).Some? ==>
        request == None && !busy && alert == None && currentStep == old(currentStep) &&
        isLoading == old(isLoading) && registeredEmail == old(registeredEmail)
      ensures EmailError(email) == None ==> request == Some(email) && busy && !isLoading
      ensures EmailError(email) == None && result.Resolved? ==>
        currentStep == 2 && registeredEmail == email && alert == None
      ensures EmailError(email) == None && result.Rejected? ==>
        currentStep == old(currentStep) && registeredEmail == old(registeredEmail) &&
        alert == Some(RequestFailed(result.message))
    {
      request, busy, alert := None, false, None;
      if EmailError(email).Some? {
        return;
      }
      isLoading := true;
      busy := isLoading;
      request := Some(email);
      if result.Resolved? {
        registeredEmail := email;
        currentStep := 2;
      } else {
        alert := Some(RequestFailed(result.message));
      }
      isLoading := false;
    }

    /** Whether the step 2 fields pass their rules (code required, new-password rules,
        confirmation required). */
    predicate Step2FieldsValid()
      reads this
    {
      code != "" && NewPasswordError(newPassword) == None && confirmNewPassword != ""
    }

    /** The reset button, through the form's submit handler. A confirmation that differs from the
        new password stops it before any request. */
    method HandleResetPassword(result: Outcome) returns (request: Option<ResetRequest>, busy: bool, alert: Option<Alert>)
      requires Valid()
      modifies this`currentStep, this`isLoading
      ensures Valid()
      ensures !Step2FieldsValid() ==>
        request == None && !busy && alert == None &&
        currentStep == old(currentStep) && isLoading == old(isLoading)
      ensures Step2FieldsValid() && newPassword != confirmNewPassword ==>
        request == None && !busy && alert == Some(PasswordsDiffer) &&
        currentStep == old(currentStep) && isLoading == old(isLoading)
      ensures Step2FieldsValid() && newPassword == confirmNewPassword ==>
        request == Some(ResetRequest(registeredEmail, code, newPassword, confirmNewPassword)) && busy && !isLoading &&
        (result.Resolved? ==> currentStep == 3 && alert == None) &&
        (result.Rejected? ==> currentStep == old(currentStep) && alert == Some(RequestFailed(result.message)))
    {
      request, busy, alert := None, false, None;
      if !Step2FieldsValid() {
        return;
      }
      if newPassword != confirmNewPassword {
        alert := Some(PasswordsDiffer);
        return;
      }
      isLoading := true;
      busy := isLoading;
      request := Some(ResetRequest(registeredEmail, code, newPassword, confirmNewPassword));
      if result.Resolved? {
        currentStep := 3;
      } else {
        alert := Some(RequestFailed(result.message));
      }
      isLoading := false;
    }
  }
}
