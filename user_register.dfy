/** The user registration form's one-time-password steps: the order of the
    input checks before a code is verified, the request and verify payloads,
    the mobile-number filter and the gating of the final submit. */
module UserRegister {
  import opened JsValues

  // ---------------------------------------------------------------------
  // String helpers with JavaScript's meaning

  /** The characters `String.prototype.trim` removes: the ECMAScript
      white-space and line-terminator code points. */
  predicate IsJsSpace(c: char)
  {
    || c == '\t' || c == '\n' || c == '\U{B}' || c == '\U{C}' || c == '\r' || c == ' '
    || c == '\U{A0}' || c == '\U{1680}' || ('\U{2000}' <= c <= '\U{200A}')
    || c == '\U{2028}' || c == '\U{2029}' || c == '\U{202F}' || c == '\U{205F}'
    || c == '\U{3000}' || c == '\U{FEFF}'
  }

  function TrimStart(s: string): string
  {
    if s != [] && IsJsSpace(s[0]) then TrimStart(s[1..]) else s
  }

  function TrimEnd(s: string): string
  {
    if s != [] && IsJsSpace(s[|s| - 1]) then TrimEnd(s[..|s| - 1]) else s
  }

  /** `s.trim()`. */
  function Trim(s: string): string
  {
    TrimEnd(TrimStart(s))
  }

  /** Trimming the start removes a prefix made only of spaces and leaves a
      suffix that does not start with one. */
  lemma {:induction false} TrimStartShape(s: string)
    ensures var r := TrimStart(s); |r| <= |s| && r == s[|s| - |r|..] && (r == [] || !IsJsSpace(r[0]))
    ensures forall k :: 0 <= k < |s| - |TrimStart(s)| ==> IsJsSpace(s[k])
  {
    if s != [] && IsJsSpace(s[0]) {
      var r := TrimStart(s);
      TrimStartShape(s[1..]);
      forall k | 0 < k < |s| - |r| ensures IsJsSpace(s[k]) {
        assert s[k] == s[1..][k - 1];
      }
    }
  }

  /** Trimming the end removes a suffix made only of spaces and leaves a
      prefix that does not end with one. */
  lemma {:induction false} TrimEndShape(s: string)
    ensures var r := TrimEnd(s); |r| <= |s| && r == s[..|r|] && (r == [] || !IsJsSpace(r[|r| - 1]))
    ensures forall k :: |TrimEnd(s)| <= k < |s| ==> IsJsSpace(s[k])
  {
    if s != [] && IsJsSpace(s[|s| - 1]) {
      var r := TrimEnd(s);
      TrimEndShape(s[..|s| - 1]);
      forall k | |r| <= k < |s| - 1 ensures IsJsSpace(s[k]) {
        assert s[k] == s[..|s| - 1][k];
      }
    }
  }

  /** A trimmed string starts and ends with a non-space character, it is the
      piece of the input between margins made only of spaces, and trimming
      it again changes nothing. */
  lemma TrimShape(s: string)
    ensures var t := Trim(s);
      && (t == [] || (!IsJsSpace(t[0]) && !IsJsSpace(t[|t| - 1])))
      && (exists i, j :: 0 <= i <= j <= |s| && t == s[i..j] && SpaceMargins(s, i, j))
      && Trim(t) == t
  {
    var u := TrimStart(s);
    var t := TrimEnd(u);
    TrimStartShape(s);
    TrimEndShape(u);
    if t != [] {
      assert t[0] == u[0];
    }
    var i := |s| - |u|;
    assert t == s[i..i + |t|];
    forall k | i + |t| <= k < |s| ensures IsJsSpace(s[k]) {
      assert s[k] == u[k - i];
    }
    assert SpaceMargins(s, i, i + |t|);
    TrimmedIsFixed(t);
  }

  /** Everything of `s` outside `s[i..j]` is white space. */
  predicate SpaceMargins(s: string, i: int, j: int)
    requires 0 <= i <= j <= |s|
  {
    (forall k :: 0 <= k < i ==> IsJsSpace(s[k])) && (forall k :: j <= k < |s| ==> IsJsSpace(s[k]))
  }

  /** A string without surrounding space is its own trim. */
  lemma TrimmedIsFixed(t: string)
    requires t == [] || (!IsJsSpace(t[0]) && !IsJsSpace(t[|t| - 1]))
    ensures Trim(t) == t
  {
    assert TrimStart(t) == t;
    assert TrimEnd(t) == t;
  }

  function LowerChar(c: char): char
  {
    if 'A' <= c <= 'Z' then (c as int + 32) as char else c
  }

  /** `s.toLowerCase()` on the ASCII letters. */
  function ToLower(s: string): (r: string)
    ensures |r| == |s|
  {
    if s == [] then [] else [LowerChar(s[0])] + ToLower(s[1..])
  }

  lemma {:induction false} ToLowerAt(s: string, i: int)
    requires 0 <= i < |s|
    ensures ToLower(s)[i] == LowerChar(s[i])
  {
    if i > 0 {
      ToLowerAt(s[1..], i - 1);
    }
  }

  lemma {:induction false} ToLowerIdempotent(s: string)
    ensures ToLower(ToLower(s)) == ToLower(s)
  {
    if s != [] {
      ToLowerIdempotent(s[1..]);
    }
  }

  /** The email as the server sees it: trimmed and lower-cased. */
  function NormalizedEmail(email: string): string
  {
    ToLower(Trim(email))
  }

  /** Normalising an already normalised email changes nothing. */
  lemma NormalizedEmailIdempotent(email: string)
    ensures NormalizedEmail(NormalizedEmail(email)) == NormalizedEmail(email)
  {
    var t := Trim(email);
    TrimShape(email);
    var l := ToLower(t);
    if t != [] {
      ToLowerAt(t, 0);
      ToLowerAt(t, |t| - 1);
    }
    TrimmedIsFixed(l);
    ToLowerIdempotent(t);
  }

  // ---------------------------------------------------------------------
  // The mobile-number filter

  /** The characters a mobile number may keep: digits, `+`, `(`, `)`, `-`. */
  predicate MobileChar(c: char)
  {
    ('0' <= c <= '9') || c == '+' || c == '(' || c == ')' || c == '-'
  }

  /** The mobile input drops every other character as it is typed. */
  function SanitizeMobile(s: string): (r: string)
    ensures |r| <= |s|
    ensures forall i :: 0 <= i < |r| ==> MobileChar(r[i])
  {
    if s == [] then []
    else if MobileChar(s[0]) then [s[0]] + SanitizeMobile(s[1..])
    else SanitizeMobile(s[1..])
  }

  /** A number made of allowed characters passes the filter unchanged, so
      filtering twice is filtering once. */
  lemma {:induction false} SanitizeKeepsAllowed(s: string)
    requires forall i :: 0 <= i < |s| ==> MobileChar(s[i])
    ensures SanitizeMobile(s) == s
  {
    if s != [] {
      assert MobileChar(s[0]);
      SanitizeKeepsAllowed(s[1..]);
    }
  }

  /** The filter works character by character: it keeps each allowed
      character, drops each other one, and the pieces of an input are
      filtered independently, so the kept characters stay in order. */
  lemma {:induction false} SanitizeConcat(a: string, b: string)
    ensures SanitizeMobile(a + b) == SanitizeMobile(a) + SanitizeMobile(b)
    decreases |a|
  {
    if a != [] {
      assert (a + b)[1..] == a[1..] + b;
      SanitizeConcat(a[1..], b);
    } else {
      assert a + b == b;
    }
  }

  lemma SanitizeChar(c: char)
    ensures SanitizeMobile([c]) == if MobileChar(c) then [c] else []
  {
    assert [c][1..] == [];
  }

  lemma SanitizeIdempotent(s: string)
    ensures SanitizeMobile(SanitizeMobile(s)) == SanitizeMobile(s)
    ensures '@' !in SanitizeMobile(s)
  {
    SanitizeKeepsAllowed(SanitizeMobile(s));
  }

  // ---------------------------------------------------------------------
  // One-time passwords

  datatype OtpType = EmailOtp | MobileOtp

  /** The `/otp/request` payload. */
  datatype OtpRequest = EmailRequest(email: string) | MobileRequest(mobile: string, deliveryMethod: string)

  /** The `/otp/verify` payload. */
  datatype OtpVerify = EmailVerify(email: string, otp: string) | MobileVerify(mobile: string, otp: string)

  const EmailRequired := "Email is required"
  const MobileRequired := "Mobile number is required"
  const MobileNotEmail := "Please enter a mobile number, not an email address"
  const OtpTooShort := "Please enter a valid OTP (must be at least 4 digits)"
  const OtpNotNumeric := "OTP must contain only numbers"

  predicate IsDigit(c: char)
  {
    '0' <= c <= '9'
  }

  /** `/^\d+$/`. */
  predicate AllDigits(s: string)
  {
    s != [] && forall i :: 0 <= i < |s| ==> IsDigit(s[i])
  }

  /** The checks before a code is verified, in order, stopping at the first
      that fails; a passing input yields the trimmed code. */
  function ValidateOtp(kind: OtpType, email: string, mobile: string, emailOtp: string, mobileOtp: string): Result<string>
  {
    if kind == EmailOtp && email == [] then Err(EmailRequired)
    else if kind == MobileOtp && mobile == [] then Err(MobileRequired)
    else if kind == MobileOtp && '@' in mobile then Err(MobileNotEmail)
    else
      var otp := if kind == EmailOtp then Trim(emailOtp) else Trim(mobileOtp);
      if otp == [] || |otp| < 4 then Err(OtpTooShort)
      else if !AllDigits(otp) then Err(OtpNotNumeric)
      else Ok(otp)
  }

  /** Every accepted code is the trimmed entry of its kind and has at least
      four characters, all decimal digits; the identifier it is for is
      present, and a mobile number holds no `@`. */
  lemma AcceptedOtpIsNumeric(kind: OtpType, email: string, mobile: string, emailOtp: string, mobileOtp: string)
    requires ValidateOtp(kind, email, mobile, emailOtp, mobileOtp).Ok?
    ensures var otp := ValidateOtp(kind, email, mobile, emailOtp, mobileOtp).value;
      && otp == (if kind == EmailOtp then Trim(emailOtp) else Trim(mobileOtp))
      && |otp| >= 4 && (forall i :: 0 <= i < |otp| ==> IsDigit(otp[i]))
      && (kind == EmailOtp ==> email != [])
      && (kind == MobileOtp ==> mobile != [] && '@' !in mobile)
  {
  }

  /** The message reported is that of the first failing check. */
  lemma FirstFailureReported(kind: OtpType, email: string, mobile: string, emailOtp: string, mobileOtp: string)
    ensures var r, otp := ValidateOtp(kind, email, mobile, emailOtp, mobileOtp),
                          (if kind == EmailOtp then Trim(emailOtp) else Trim(mobileOtp));
      var identifierOk := if kind == EmailOtp then email != [] else mobile != [] && '@' !in mobile;
      && (kind == EmailOtp && email == [] ==> r == Err(EmailRequired))
      && (kind == MobileOtp && mobile == [] ==> r == Err(MobileRequired))
      && (kind == MobileOtp && mobile != [] && '@' in mobile ==> r == Err(MobileNotEmail))
      && (identifierOk && |otp| < 4 ==> r == Err(OtpTooShort))
      && (identifierOk && |otp| >= 4 && !AllDigits(otp) ==> r == Err(OtpNotNumeric))
      && (r.Ok? <==> identifierOk && |otp| >= 4 && AllDigits(otp))
  {
  }

  /** A mobile number typed through the filter never trips the email check. */
  lemma FilteredMobileIsNotEmail(typed: string, email: string, emailOtp: string, mobileOtp: string)
    ensures ValidateOtp(MobileOtp, email, SanitizeMobile(typed), emailOtp, mobileOtp) != Err(MobileNotEmail)
  {
    SanitizeIdempotent(typed);
  }

  /** The payload asking for a code. */
  function RequestPayload(kind: OtpType, email: string, mobile: string, deliveryMethod: string): OtpRequest
  {
    if kind == EmailOtp then EmailRequest(NormalizedEmail(email)) else MobileRequest(Trim(mobile), deliveryMethod)
  }

  /** The payload verifying a code. */
  function VerifyPayload(kind: OtpType, email: string, mobile: string, otp: string): OtpVerify
  {
    if kind == EmailOtp then EmailVerify(NormalizedEmail(email), otp) else MobileVerify(Trim(mobile), otp)
  }

  /** A code is verified for the same normalised identifier it was requested
      for, and the delivery method travels only with the request. */
  lemma VerifyMatchesRequest(kind: OtpType, email: string, mobile: string, deliveryMethod: string, otp: string)
    ensures var q, v := RequestPayload(kind, email, mobile, deliveryMethod), VerifyPayload(kind, email, mobile, otp);
      && (q.EmailRequest? <==> v.EmailVerify?) && (q.EmailRequest? <==> kind == EmailOtp)
      && (kind == EmailOtp ==> q.email == v.email && NormalizedEmail(q.email) == q.email)
      && (kind == MobileOtp ==> q.mobile == v.mobile && Trim(q.mobile) == q.mobile && q.deliveryMethod == deliveryMethod)
  {
    NormalizedEmailIdempotent(email);
    TrimShape(mobile);
  }

  /** The server's answer to a verification. */
  datatype VerifyAnswer = Verified(verifiedToken: Option<string>) | VerifyFailed(message: Option<string>)

  /** The submit button is enabled only when nothing is pending and both
      the email and the mobile number carry a verification token. */
  predicate CanSubmit(busy: bool, emailVerifiedToken: Option<string>, mobileVerifiedToken: Option<string>)
  {
    !busy && Truthy(emailVerifiedToken) && Truthy(mobileVerifiedToken)
  }

  /** The two verification tokens the form holds. */
  datatype Verification = Verification(email: Option<string>, mobile: Option<string>)

  /** One press of a verify button: which code, how the checks came out on
      the form's fields and what the server answered. */
  datatype Attempt = Attempt(kind: OtpType, check: Result<string>, answer: VerifyAnswer)

  /** The tokens after one attempt: only a code that passed the checks and
      was answered `Verified` replaces the token of its kind. */
  function AfterVerify(v: Verification, a: Attempt): Verification
  {
    if a.check.Ok? && a.answer.Verified? then
      if a.kind == EmailOtp then v.(email := a.answer.verifiedToken) else v.(mobile := a.answer.verifiedToken)
    else v
  }

  /** The tokens after a sequence of attempts, in order. */
  function AfterAttempts(v: Verification, attempts: seq<Attempt>): Verification
    decreases |attempts|
  {
    if attempts == [] then v else AfterAttempts(AfterVerify(v, attempts[0]), attempts[1..])
  }

  /** One more attempt extends the history: the tokens a form holds after
      each further `VerifyOtp` are the fold of all attempts so far. */
  lemma {:induction false} AfterAttemptsSnoc(v: Verification, attempts: seq<Attempt>, a: Attempt)
    ensures AfterAttempts(v, attempts + [a]) == AfterVerify(AfterAttempts(v, attempts), a)
    decreases |attempts|
  {
    if attempts == [] {
      assert attempts + [a] == [a];
    } else {
      assert (attempts + [a])[1..] == attempts[1..] + [a];
      AfterAttemptsSnoc(AfterVerify(v, attempts[0]), attempts[1..], a);
    }
  }

  /** An attempt that passed the checks and got a verification token back. */
  predicate Succeeded(a: Attempt, kind: OtpType)
  {
    a.kind == kind && a.check.Ok? && a.answer.Verified? && Truthy(a.answer.verifiedToken)
  }

  /** A token present after a sequence of attempts was there before or came
      from a successful attempt of its kind. */
  lemma {:induction false} TokensComeFromSuccess(v: Verification, attempts: seq<Attempt>)
    ensures Truthy(AfterAttempts(v, attempts).email) ==>
              Truthy(v.email) || exists i :: 0 <= i < |attempts| && Succeeded(attempts[i], EmailOtp)
    ensures Truthy(AfterAttempts(v, attempts).mobile) ==>
              Truthy(v.mobile) || exists i :: 0 <= i < |attempts| && Succeeded(attempts[i], MobileOtp)
    decreases |attempts|
  {
    if attempts != [] {
      var v' := AfterVerify(v, attempts[0]);
      TokensComeFromSuccess(v', attempts[1..]);
      if Truthy(v'.email) && !Truthy(v.email) {
        assert Succeeded(attempts[0], EmailOtp);
      }
      if Truthy(v'.mobile) && !Truthy(v.mobile) {
        assert Succeeded(attempts[0], MobileOtp);
      }
      forall i | 0 <= i < |attempts[1..]| ensures attempts[1..][i] == attempts[i + 1] { }
    }
  }

  /** The form's fields that the code steps read and write. */
  class RegistrationForm {
    var email: string
    var mobile: string
    var emailOtp: string
    var mobileOtp: string
    var deliveryMethod: string
    var emailVerifiedToken: Option<string>
    var mobileVerifiedToken: Option<string>
    var error: Option<string>
    var busy: bool

    function Tokens(): Verification
      reads this
    {
      Verification(emailVerifiedToken, mobileVerifiedToken)
    }

    constructor ()
      ensures email == [] && mobile == [] && emailOtp == [] && mobileOtp == []
      ensures deliveryMethod == "sms"
      ensures emailVerifiedToken.None? && mobileVerifiedToken.None? && error.None? && !busy
      ensures Tokens() == Verification(None, None) && !CanSubmit(busy, emailVerifiedToken, mobileVerifiedToken)
    {
      email := [];
      mobile := [];
      emailOtp := [];
      mobileOtp := [];
      deliveryMethod := "sms";
      emailVerifiedToken := None;
      mobileVerifiedToken := None;
      error := None;
      busy := false;
    }

    /** The navigation state of a sign-in that already verified the email
        fills the email and its verification token. */
    method Prefill(stateEmail: Option<string>, stateToken: Option<string>)
      modifies this
      ensures email == (if Truthy(stateEmail) then stateEmail.value else old(email))
      ensures Tokens() == (if Truthy(stateToken) then old(Tokens()).(email := stateToken) else old(Tokens()))
      ensures mobile == old(mobile) && emailOtp == old(emailOtp) && mobileOtp == old(mobileOtp)
      ensures deliveryMethod == old(deliveryMethod) && error == old(error) && busy == old(busy)
    {
      if Truthy(stateEmail) {
        email := stateEmail.value;
      }
      if Truthy(stateToken) {
        emailVerifiedToken := stateToken;
      }
    }

    /** Typing into the mobile field keeps only the allowed characters. */
    method SetMobile(typed: string)
      modifies this
      ensures mobile == SanitizeMobile(typed)
      ensures email == old(email) && emailOtp == old(emailOtp) && mobileOtp == old(mobileOtp)
      ensures deliveryMethod == old(deliveryMethod) && error == old(error) && busy == old(busy)
      ensures emailVerifiedToken == old(emailVerifiedToken) && mobileVerifiedToken == old(mobileVerifiedToken)
    {
      var kept: string := [];
      var i := 0;
      while i < |typed|
        invariant 0 <= i <= |typed|
        invariant kept + SanitizeMobile(typed[i..]) == SanitizeMobile(typed)
      {
        assert typed[i..] == [typed[i]] + typed[i + 1..];
        if MobileChar(typed[i]) {
          kept := kept + [typed[i]];
        }
        i := i + 1;
      }
      assert typed[i..] == [];
      mobile := kept;
    }

    /** Ask for a code; on failure show the server's message or a default. */
    method RequestOtp(kind: OtpType, failed: Option<Option<string>>) returns (payload: OtpRequest)
      modifies this
      ensures payload == RequestPayload(kind, email, mobile, deliveryMethod)
      ensures error == (if failed.Some? then Or(failed.value, Some("Failed to send OTP")) else None)
      ensures email == old(email) && mobile == old(mobile) && deliveryMethod == old(deliveryMethod)
      ensures emailVerifiedToken == old(emailVerifiedToken) && mobileVerifiedToken == old(mobileVerifiedToken)
      ensures busy == old(busy) && emailOtp == old(emailOtp) && mobileOtp == old(mobileOtp)
    {
      error := None;
      if kind == EmailOtp {
        payload := EmailRequest(ToLower(Trim(email)));
      } else {
        payload := MobileRequest(Trim(mobile), deliveryMethod);
      }
      if failed.Some? {
        error := Or(failed.value, Some("Failed to send OTP"));
      }
    }

    /** Check the entry, and only when every check passes send the code and
        record the verification token the server returns. */
    method VerifyOtp(kind: OtpType, answer: VerifyAnswer) returns (sent: Option<OtpVerify>)
      modifies this
      ensures var v := ValidateOtp(kind, email, mobile, emailOtp, mobileOtp);
        && (v.Err? ==>
              sent.None? && error == Some(v.message)
              && emailVerifiedToken == old(emailVerifiedToken) && mobileVerifiedToken == old(mobileVerifiedToken))
        && (v.Ok? ==> sent == Some(VerifyPayload(kind, email, mobile, v.value)))
        && (v.Ok? && answer.Verified? ==>
              error.None?
              && (kind == EmailOtp ==> emailVerifiedToken == answer.verifiedToken && mobileVerifiedToken == old(mobileVerifiedToken))
              && (kind == MobileOtp ==> mobileVerifiedToken == answer.verifiedToken && emailVerifiedToken == old(emailVerifiedToken)))
        && (v.Ok? && answer.VerifyFailed? ==>
              error == Or(answer.message, Some("OTP verification failed"))
              && emailVerifiedToken == old(emailVerifiedToken) && mobileVerifiedToken == old(mobileVerifiedToken))
      ensures email == old(email) && mobile == old(mobile) && emailOtp == old(emailOtp) && mobileOtp == old(mobileOtp)
      ensures deliveryMethod == old(deliveryMethod) && busy == old(busy)
      ensures Tokens() == AfterVerify(old(Tokens()), Attempt(kind, ValidateOtp(kind, email, mobile, emailOtp, mobileOtp), answer))
    {
      error := None;
      sent := None;
      if kind == EmailOtp && email == [] {
        error := Some(EmailRequired);
        return;
      }
      if kind == MobileOtp && mobile == [] {
        error := Some(MobileRequired);
        return;
      }
      if kind == MobileOtp && '@' in mobile {
        error := Some(MobileNotEmail);
        return;
      }
      var otp := if kind == EmailOtp then Trim(emailOtp) else Trim(mobileOtp);
      if otp == [] || |otp| < 4 {
        error := Some(OtpTooShort);
        return;
      }
      if !AllDigits(otp) {
        error := Some(OtpNotNumeric);
        return;
      }
      if kind == EmailOtp {
        sent := Some(EmailVerify(ToLower(Trim(email)), otp));
      } else {
        sent := Some(MobileVerify(Trim(mobile), otp));
      }
      match answer {
        case Verified(token) =>
          if kind == EmailOtp {
            emailVerifiedToken := token;
          } else {
            mobileVerifiedToken := token;
          }
        case VerifyFailed(message) =>
          error := Or(message, Some("OTP verification failed"));
      }
    }
  }

  /** Submitting needs both verifications. A form opened without tokens
      (as the constructor leaves it), given the navigation state's email
      token `prefill` (as `Prefill` stores it), whose tokens then changed only
      through verify attempts (the other operations keep them), can submit
      only after a mobile code was checked, accepted and answered with a
      token, and likewise an email code unless the email came verified. */
  lemma SubmitNeedsBothTokens(prefill: Option<string>, attempts: seq<Attempt>, busy: bool)
    ensures var v := AfterAttempts(Verification(if Truthy(prefill) then prefill else None, None), attempts);
      CanSubmit(busy, v.email, v.mobile) ==>
        && !busy
        && (Truthy(prefill) || exists i :: 0 <= i < |attempts| && Succeeded(attempts[i], EmailOtp))
        && (exists j :: 0 <= j < |attempts| && Succeeded(attempts[j], MobileOtp))
  {
    TokensComeFromSuccess(Verification(if Truthy(prefill) then prefill else None, None), attempts);
  }
}
