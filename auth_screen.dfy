/**
 * The sign-in screen of components/AuthScreen.tsx: phone-number formatting,
 * the input checks in front of the two submit buttons, and the screen state
 * (`step`, `phoneNumber`, `verificationCode`, `isLoading`, `error`). Each
 * asynchronous call to the auth service is split in two: the handler records
 * the request it makes in `requests` and marks what it is waiting for, and a
 * completion method takes the service's answer.
 */
module AuthScreen {
  import opened Wrappers
  import Text

  // ---------------------------------------------------------------- formatting

  function MinNat(a: nat, b: nat): nat { if a <= b then a else b }

  /** `formatPhoneNumber`: `(XXX) XXX-XXXX` from the digits typed so far. */
  function FormatPhoneNumber(text: string): string {
    var cleaned := Text.Digits(text);
    var n := |cleaned|;
    if n >= 6 then "(" + cleaned[..3] + ") " + cleaned[3..6] + "-" + cleaned[6..MinNat(n, 10)]
    else if n >= 3 then "(" + cleaned[..3] + ") " + cleaned[3..]
    else cleaned
  }

  lemma DigitsOfPunctuation()
    ensures Text.Digits("(") == [] && Text.Digits(") ") == [] && Text.Digits("-") == []
  {
    Text.DigitsOfNonDigits("(");
    Text.DigitsOfNonDigits(") ");
    Text.DigitsOfNonDigits("-");
  }

  lemma DigitsOfShortForm(a: string, b: string)
    requires Text.AllDigits(a) && Text.AllDigits(b)
    ensures Text.Digits("(" + a + ") " + b) == a + b
  {
    DigitsOfPunctuation();
    Text.DigitsOfDigits(a);
    Text.DigitsOfDigits(b);
    var p1 := "(" + a;
    Text.DigitsConcat("(", a);
    assert Text.Digits(p1) == a;
    var p2 := p1 + ") ";
    Text.DigitsConcat(p1, ") ");
    assert Text.Digits(p2) == a;
    Text.DigitsConcat(p2, b);
  }

  lemma DigitsOfLongForm(a: string, b: string, c: string)
    requires Text.AllDigits(a) && Text.AllDigits(b) && Text.AllDigits(c)
    ensures Text.Digits("(" + a + ") " + b + "-" + c) == a + b + c
  {
    DigitsOfPunctuation();
    Text.DigitsOfDigits(c);
    var p3 := "(" + a + ") " + b;
    DigitsOfShortForm(a, b);
    var p4 := p3 + "-";
    Text.DigitsConcat(p3, "-");
    assert Text.Digits(p4) == a + b;
    Text.DigitsConcat(p4, c);
  }

  lemma FormatLongKeepsDigits(d: string, m: nat)
    requires Text.AllDigits(d) && 6 <= m <= |d|
    ensures Text.Digits("(" + d[..3] + ") " + d[3..6] + "-" + d[6..m]) == d[..m]
  {
    assert Text.AllDigits(d[..3]) && Text.AllDigits(d[3..6]) && Text.AllDigits(d[6..m]);
    DigitsOfLongForm(d[..3], d[3..6], d[6..m]);
    assert d[..3] + d[3..6] + d[6..m] == d[..m];
  }

  lemma FormatShortKeepsDigits(d: string)
    requires Text.AllDigits(d) && 3 <= |d|
    ensures Text.Digits("(" + d[..3] + ") " + d[3..]) == d
  {
    assert Text.AllDigits(d[..3]) && Text.AllDigits(d[3..]);
    DigitsOfShortForm(d[..3], d[3..]);
    assert d[..3] + d[3..] == d;
  }

  /** The formatted text carries exactly the first ten (or fewer) digits of the input, in order. */
  lemma FormatKeepsLeadingDigits(text: string)
    ensures var d := Text.Digits(text);
      Text.Digits(FormatPhoneNumber(text)) == d[..MinNat(|d|, 10)]
  {
    var d := Text.Digits(text);
    var n := |d|;
    if n >= 6 {
      FormatLongKeepsDigits(d, MinNat(n, 10));
    } else if n >= 3 {
      FormatShortKeepsDigits(d);
      assert d[..n] == d;
    } else {
      Text.DigitsOfDigits(d);
      assert d[..n] == d;
    }
  }

  /** A full ten-digit number formats to exactly 14 characters, the field's `maxLength`. */
  lemma TenDigitsFitTheField(text: string)
    requires |Text.Digits(text)| >= 10
    ensures |FormatPhoneNumber(text)| == 14
  {
  }

  /** Formatting an already formatted value changes nothing (the field re-formats on every keystroke). */
  lemma FormatIdempotent(text: string)
    ensures FormatPhoneNumber(FormatPhoneNumber(text)) == FormatPhoneNumber(text)
  {
    var d := Text.Digits(text);
    var n := |d|;
    FormatKeepsLeadingDigits(text);
    var d2 := Text.Digits(FormatPhoneNumber(text));
    assert d2 == d[..MinNat(n, 10)];
    if n >= 6 {
      var m := MinNat(n, 10);
      assert |d2| == m && MinNat(m, 10) == m;
      assert d2[..3] == d[..3] && d2[3..6] == d[3..6] && d2[6..m] == d[6..m];
    } else {
      assert d2 == d;
    }
  }

  // ---------------------------------------------------------------- input checks

  datatype Check<T> = Accept(value: T) | Reject(error: string)

  /** `handlePhoneSubmit`'s checks: the number to send, `+1` followed by the ten digits, or the error shown. */
  function CheckPhone(phoneNumber: string): Check<string> {
    if Text.Trim(phoneNumber) == "" then Reject("Please enter your phone number")
    else
      var cleanPhone := Text.Digits(phoneNumber);
      if |cleanPhone| != 10 then Reject("Please enter a valid 10-digit phone number")
      else Accept("+1" + cleanPhone)
  }

  /** A number passes exactly when it is not blank and has ten digits; it is then sent as `+1` and those digits. */
  lemma CheckPhoneOutcome(phoneNumber: string)
    ensures CheckPhone(phoneNumber).Accept? <==> Text.Trim(phoneNumber) != "" && |Text.Digits(phoneNumber)| == 10
    ensures CheckPhone(phoneNumber).Accept? ==>
      CheckPhone(phoneNumber).value == "+1" + Text.Digits(phoneNumber) && |CheckPhone(phoneNumber).value| == 12
  {
  }

  /** `handleCodeSubmit`'s checks: not blank, and a JavaScript `length` of exactly six. */
  function CheckCode(code: string): Check<string> {
    if Text.Trim(code) == "" then Reject("Please enter the verification code")
    else if Text.Utf16Length(code) != 6 then Reject("Please enter the complete 6-digit code")
    else Accept(code)
  }

  /** A code passes exactly when it is not blank and six code units long, and is sent as typed. */
  lemma CheckCodeOutcome(code: string)
    ensures CheckCode(code).Accept? <==> Text.Trim(code) != "" && Text.Utf16Length(code) == 6
    ensures CheckCode(code).Accept? ==> CheckCode(code).value == code && |code| <= 6
  {
  }

  /** Five digits and an emoji are six characters but seven code units, and are rejected as incomplete. */
  lemma AstralCodeRejected()
    ensures CheckCode("12345\U{1F600}") == Reject("Please enter the complete 6-digit code")
  {
    var c := "12345\U{1F600}";
    assert !Text.IsJsSpace(c[0]);
    Text.TrimEmptyIffBlank(c);
    assert Text.Utf16Length(c) == 7 by {
      assert c[1..] == "2345\U{1F600}";
      assert c[1..][1..] == "345\U{1F600}";
      assert c[1..][1..][1..] == "45\U{1F600}";
      assert c[1..][1..][1..][1..] == "5\U{1F600}";
      assert c[1..][1..][1..][1..][1..] == "\U{1F600}";
      assert c[1..][1..][1..][1..][1..][1..] == "";
    }
  }

  /** An input field showing ten or more typed digits always passes the phone check with its first ten digits. */
  lemma FormattedNumberPasses(text: string)
    requires |Text.Digits(text)| >= 10
    ensures CheckPhone(FormatPhoneNumber(text)) == Accept("+1" + Text.Digits(text)[..10])
  {
    FormatKeepsLeadingDigits(text);
    CheckPhoneOutcome(FormatPhoneNumber(text));
    var f := FormatPhoneNumber(text);
    assert f[0] == '(' && !Text.IsJsSpace(f[0]);
    Text.TrimEmptyIffBlank(f);
  }

  /** A blank field is rejected with the blank-field message, before the digit count is looked at. */
  lemma BlankPhoneRejected(phoneNumber: string)
    requires forall i :: 0 <= i < |phoneNumber| ==> Text.IsJsSpace(phoneNumber[i])
    ensures CheckPhone(phoneNumber) == Reject("Please enter your phone number")
  {
    Text.TrimEmptyIffBlank(phoneNumber);
  }

  // ---------------------------------------------------------------- the screen

  datatype ScreenStep = PhoneStep | CodeStep

  /** A call made to the auth service. */
  datatype Request = SendCode(phone: string) | VerifyCode(phone: string, code: string)

  /** Which answer the screen is waiting for. */
  datatype Waiting = Idle | SendAnswer | VerifyAnswer | ResendAnswer

  datatype ScreenState = ScreenState(
    step: ScreenStep,
    phoneNumber: string,
    verificationCode: string,
    isLoading: bool,
    error: string,
    waiting: Waiting,
    requests: seq<Request>)

  function InitialScreen(): ScreenState {
    ScreenState(PhoneStep, "", "", false, "", Idle, [])
  }

  /**
   * `handlePhoneSubmit`, up to the call: a rejected number only sets the error.
   * Its button is `disabled={isLoading}`, so it runs only while nothing is pending.
   */
  function PhoneSubmit(s: ScreenState): ScreenState
    requires !s.isLoading
  {
    match CheckPhone(s.phoneNumber)
    case Reject(message) => s.(error := message)
    case Accept(phone) => s.(isLoading := true, error := "", waiting := SendAnswer, requests := s.requests + [SendCode(phone)])
  }

  /** The rest of `handlePhoneSubmit`: a sent code moves to the code step, a failure shows its message. */
  function PhoneAnswer(s: ScreenState, success: bool, message: string): ScreenState {
    if success then s.(isLoading := false, waiting := Idle, step := CodeStep)
    else s.(isLoading := false, waiting := Idle, error := message)
  }

  /** `handleCodeSubmit`, up to the call: the code goes out with the number as it was sent. The button is disabled while loading. */
  function CodeSubmit(s: ScreenState): ScreenState
    requires !s.isLoading
  {
    match CheckCode(s.verificationCode)
    case Reject(message) => s.(error := message)
    case Accept(code) =>
      s.(isLoading := true, error := "", waiting := VerifyAnswer,
         requests := s.requests + [VerifyCode("+1" + Text.Digits(s.phoneNumber), code)])
  }

  /** The rest of `handleCodeSubmit` and of `handleResendCode`: only a failure changes what the screen shows. */
  function CodeAnswer(s: ScreenState, success: bool, message: string): ScreenState {
    if success then s.(isLoading := false, waiting := Idle)
    else s.(isLoading := false, waiting := Idle, error := message)
  }

  /** `handleBackToPhone` */
  function BackToPhone(s: ScreenState): ScreenState {
    s.(step := PhoneStep, verificationCode := "", error := "")
  }

  /** `handleResendCode`, up to the call: no input check, and the error is left as it was. The link is disabled while loading. */
  function ResendCode(s: ScreenState): ScreenState
    requires !s.isLoading
  {
    s.(isLoading := true, waiting := ResendAnswer, requests := s.requests + [SendCode("+1" + Text.Digits(s.phoneNumber))])
  }

  /** `PhoneSubmit` spelled out for a known outcome of the check. */
  lemma PhoneSubmitOf(s: ScreenState, check: Check<string>)
    requires !s.isLoading && check == CheckPhone(s.phoneNumber)
    ensures check.Reject? ==> PhoneSubmit(s) == s.(error := check.error)
    ensures check.Accept? ==>
      PhoneSubmit(s) == s.(isLoading := true, error := "", waiting := SendAnswer, requests := s.requests + [SendCode(check.value)])
  {
  }

  /** `CodeSubmit` spelled out for a known outcome of the check. */
  lemma CodeSubmitOf(s: ScreenState, check: Check<string>)
    requires !s.isLoading && check == CheckCode(s.verificationCode)
    ensures check.Reject? ==> CodeSubmit(s) == s.(error := check.error)
    ensures check.Accept? ==>
      CodeSubmit(s) == s.(isLoading := true, error := "", waiting := VerifyAnswer,
        requests := s.requests + [VerifyCode("+1" + Text.Digits(s.phoneNumber), check.value)])
  {
  }

  /** A phone submit asks for a code exactly when the number passes the check, and then for `+1` and its ten digits. */
  lemma PhoneSubmitRequestsIffValid(s: ScreenState)
    requires !s.isLoading
    ensures var r := PhoneSubmit(s);
      (CheckPhone(s.phoneNumber).Accept? <==> |r.requests| == |s.requests| + 1)
      && (CheckPhone(s.phoneNumber).Accept? ==>
            r.requests == s.requests + [SendCode("+1" + Text.Digits(s.phoneNumber))] && r.isLoading && r.error == "")
      && (CheckPhone(s.phoneNumber).Reject? ==>
            r.requests == s.requests && r.error == CheckPhone(s.phoneNumber).error && r.waiting == s.waiting)
  {
    CheckPhoneOutcome(s.phoneNumber);
  }

  /** A code submit sends a request exactly when the code is non-blank with a JavaScript `length` of six. */
  lemma CodeSubmitRequestsIffValid(s: ScreenState)
    requires !s.isLoading
    ensures var r := CodeSubmit(s);
      (Text.Trim(s.verificationCode) != "" && Text.Utf16Length(s.verificationCode) == 6 <==> |r.requests| == |s.requests| + 1)
      && (|r.requests| == |s.requests| + 1 ==> r.requests[|s.requests|].code == s.verificationCode)
  {
    CheckCodeOutcome(s.verificationCode);
  }

  /** After typing ten digits and submitting, the code is requested for `+1` and those digits. */
  lemma TypedNumberIsSent(s: ScreenState, text: string)
    requires !s.isLoading && |Text.Digits(text)| >= 10
    ensures PhoneSubmit(s.(phoneNumber := FormatPhoneNumber(text))).requests
         == s.requests + [SendCode("+1" + Text.Digits(text)[..10])]
  {
    FormattedNumberPasses(text);
  }

  /** Going back clears the code and the error; the number typed is kept for the next attempt. */
  lemma BackKeepsTheNumber(s: ScreenState)
    ensures var r := BackToPhone(s);
      r.step == PhoneStep && r.verificationCode == "" && r.error == "" && r.phoneNumber == s.phoneNumber
  {
  }

  /** The spinner shows exactly while an answer is awaited. */
  predicate LoadingMatchesWaiting(s: ScreenState) { s.isLoading <==> s.waiting != Idle }

  /**
   * Every transition keeps the spinner tied to the pending answer. So a
   * disabled button (`isLoading`) is exactly one with an answer outstanding,
   * and no submit can replace a pending request.
   */
  lemma TransitionsKeepLoadingMatchesWaiting(s: ScreenState, success: bool, message: string)
    requires LoadingMatchesWaiting(s)
    ensures LoadingMatchesWaiting(InitialScreen())
    ensures !s.isLoading ==> LoadingMatchesWaiting(PhoneSubmit(s)) && LoadingMatchesWaiting(CodeSubmit(s))
    ensures !s.isLoading ==> LoadingMatchesWaiting(ResendCode(s))
    ensures LoadingMatchesWaiting(PhoneAnswer(s, success, message)) && LoadingMatchesWaiting(CodeAnswer(s, success, message))
    ensures LoadingMatchesWaiting(BackToPhone(s))
    ensures !s.isLoading ==> s.waiting == Idle
  {
  }

  /** Only a successful phone answer leaves the phone step; a failed one keeps the step and shows its message. */
  lemma AnswersAndSteps(s: ScreenState, success: bool, message: string)
    ensures PhoneAnswer(s, success, message).step == (if success then CodeStep else s.step)
    ensures CodeAnswer(s, success, message).step == s.step
    ensures !success ==> PhoneAnswer(s, success, message).error == message && CodeAnswer(s, success, message).error == message
    ensures !PhoneAnswer(s, success, message).isLoading && !CodeAnswer(s, success, message).isLoading
  {
  }

  class AuthScreenView {
    var step: ScreenStep
    var phoneNumber: string
    var verificationCode: string
    var isLoading: bool
    var error: string
    var waiting: Waiting
    var requests: seq<Request>

    function State(): ScreenState
      reads this
    {
      ScreenState(step, phoneNumber, verificationCode, isLoading, error, waiting, requests)
    }

    constructor ()
      ensures State() == InitialScreen()
    {
      step := PhoneStep;
      phoneNumber := "";
      verificationCode := "";
      isLoading := false;
      error := "";
      waiting := Idle;
      requests := [];
    }

    /** The phone field's `onChangeText`. */
    method ChangePhoneText(text: string)
      modifies this`phoneNumber
      ensures State() == old(State()).(phoneNumber := FormatPhoneNumber(text))
    {
      phoneNumber := FormatPhoneNumber(text);
    }

    /** The code field's `onChangeText`. */
    method ChangeCodeText(text: string)
      modifies this`verificationCode
      ensures State() == old(State()).(verificationCode := text)
    {
      verificationCode := text;
    }

    method HandlePhoneSubmit()
      requires !isLoading
      modifies this`isLoading, this`error, this`waiting, this`requests
      ensures State() == PhoneSubmit(old(State()))
    {
      var check := CheckPhone(phoneNumber);
      PhoneSubmitOf(State(), check);
      if check.Reject? {
        error := check.error;
        return;
      }
      RequestCode(check.value);
    }

    /** The accepted branch of `handlePhoneSubmit`: start loading, clear the error, call `sendVerificationCode`. */
    method RequestCode(phone: string)
      modifies this`isLoading, this`error, this`waiting, this`requests
      ensures State() == old(State()).(isLoading := true, error := "", waiting := SendAnswer, requests := old(requests) + [SendCode(phone)])
    {
      isLoading := true;
      error := "";
      requests := requests + [SendCode(phone)];
      waiting := SendAnswer;
    }

    method CompletePhoneSubmit(success: bool, message: string)
      requires waiting == SendAnswer
      modifies this`step, this`isLoading, this`error, this`waiting
      ensures State() == PhoneAnswer(old(State()), success, message)
    {
      isLoading := false;
      waiting := Idle;
      if success {
        step := CodeStep;
      } else {
        error := message;
      }
    }

    method HandleCodeSubmit()
      requires !isLoading
      modifies this`isLoading, this`error, this`waiting, this`requests
      ensures State() == CodeSubmit(old(State()))
    {
      var check := CheckCode(verificationCode);
      CodeSubmitOf(State(), check);
      if check.Reject? {
        error := check.error;
        return;
      }
      var cleanPhone := Text.Digits(phoneNumber);
      RequestVerification("+1" + cleanPhone, check.value);
    }

    /** The accepted branch of `handleCodeSubmit`: start loading, clear the error, call `verifyCode`. */
    method RequestVerification(phone: string, code: string)
      modifies this`isLoading, this`error, this`waiting, this`requests
      ensures State() == old(State()).(isLoading := true, error := "", waiting := VerifyAnswer, requests := old(requests) + [VerifyCode(phone, code)])
    {
      isLoading := true;
      error := "";
      requests := requests + [VerifyCode(phone, code)];
      waiting := VerifyAnswer;
    }

    method CompleteCodeSubmit(success: bool, message: string)
      requires waiting == VerifyAnswer
      modifies this`isLoading, this`error, this`waiting
      ensures State() == CodeAnswer(old(State()), success, message)
    {
      isLoading := false;
      waiting := Idle;
      if !success {
        error := message;
      }
    }

    method HandleBackToPhone()
      modifies this`step, this`verificationCode, this`error
      ensures State() == BackToPhone(old(State()))
    {
      step := PhoneStep;
      verificationCode := "";
      error := "";
    }

    method HandleResendCode()
      requires !isLoading
      modifies this`isLoading, this`waiting, this`requests
      ensures State() == ResendCode(old(State()))
    {
      var cleanPhone := Text.Digits(phoneNumber);
      isLoading := true;
      requests := requests + [SendCode("+1" + cleanPhone)];
      waiting := ResendAnswer;
    }

    method CompleteResendCode(success: bool, message: string)
      requires waiting == ResendAnswer
      modifies this`isLoading, this`error, this`waiting
      ensures State() == CodeAnswer(old(State()), success, message)
    {
      isLoading := false;
      waiting := Idle;
      if !success {
        error := message;
      }
    }
  }
}
