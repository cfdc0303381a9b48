/**
  The email-verification form: a five-minute countdown shown as `m:ss`,
  a code submission guarded by "code entered" and "time left", and a resend
  that restarts the countdown.
 */
module EmailVerification {
  import opened Common
  import opened Decimal

  /** Seconds a code stays valid; also the value a resend restores. */
  const CodeLifetime := 300

  // The form's user-facing messages, as the page shows them.
  /** "Please enter the verification code." */
  const EnterCodeError := "인증 코드를 입력해주세요."
  /** "The verification time has expired. Please try again." */
  const ExpiredError := "인증 시간이 만료되었습니다. 다시 시도해주세요."
  /** "Email verification is complete." */
  const VerifiedNotice := "이메일 인증이 완료되었습니다."
  /** "An error occurred during verification. Please try again." */
  const CheckFailedError := "인증 과정에서 오류가 발생했습니다. 다시 시도해주세요."
  /** "The verification code has been resent." */
  const ResentNotice := "인증 코드가 재전송되었습니다."
  /** "Resending the verification code failed." */
  const ResendFailedError := "인증 코드 재전송에 실패했습니다."

  /** Two-digit seconds: a leading "0" below ten. Always two digits that read
      back as `secs`. */
  function Seconds2(secs: nat): (r: string)
    requires secs < 60
    ensures |r| == 2 && AllDigits(r) && DigitsValue(r) == secs
  {
    NatToStringRoundTrip(secs);
    if secs < 10 then
      LeadingZerosKeepValue("0", NatToString(secs));
      "0" + NatToString(secs)
    else NatToString(secs)
  }

  /** `formatTime`: whole minutes, a colon, then the seconds in two digits. */
  function FormatTime(seconds: nat): (r: string)
    ensures |r| >= 4 && r[|r| - 3] == ':'
  {
    NatToString(seconds / 60) + ":" + Seconds2(seconds % 60)
  }

  /** Reading the display back: the part before the colon is the minutes,
      the two digits after it the seconds, and together they give the input. */
  lemma FormatTimeReadsBack(seconds: nat)
    ensures var r := FormatTime(seconds);
      |r| >= 4 && r[|r| - 3] == ':' &&
      AllDigits(r[..|r| - 3]) && AllDigits(r[|r| - 2..]) &&
      DigitsValue(r[|r| - 2..]) < 60 &&
      DigitsValue(r[..|r| - 3]) * 60 + DigitsValue(r[|r| - 2..]) == seconds
  {
    var mins, secs := seconds / 60, seconds % 60;
    var m, sec := NatToString(mins), Seconds2(secs);
    var r := FormatTime(seconds);
    assert r == m + ":" + sec;
    assert r[..|r| - 3] == m;
    assert r[|r| - 2..] == sec;
    NatToStringRoundTrip(mins);
  }

  /** Within the countdown's range the display is always four characters. */
  lemma FormatTimeWithinLifetime(seconds: nat)
    requires seconds <= CodeLifetime
    ensures |FormatTime(seconds)| == 4
  {
  }

  /** The request a submission sends. */
  datatype CheckRequest = CheckRequest(email: string, authCode: string)

  /** How the check call ends: accepted; thrown as an `AxiosError` (a server
      rejection, but also a network failure or timeout), carrying the `message`
      of its response body when there is a response with one; or any other
      exception. */
  datatype CheckOutcome = Verified | AxiosFailure(responseMessage: Option<string>) | OtherFailure

  /** The guards of a submission, in the order the form applies them. */
  datatype SubmitGuard = MissingCode | TimeUp | Proceed

  function Guard(code: string, timeLeft: int): (g: SubmitGuard)
    ensures g == Proceed <==> code != "" && timeLeft > 0
    ensures g == MissingCode <==> code == ""
    ensures g == TimeUp <==> code != "" && timeLeft <= 0
  {
    if code == "" then MissingCode
    else if timeLeft <= 0 then TimeUp
    else Proceed
  }

  /** The error a guard reports: never empty, and the "enter the code" text
      exactly for a missing code. */
  function GuardError(g: SubmitGuard): (e: string)
    requires g != Proceed
    ensures e != ""
    ensures e == EnterCodeError <==> g == MissingCode
  {
    if g == MissingCode then EnterCodeError else ExpiredError
  }

  /** The error text after a failed check: for an `AxiosError` the message of
      its response, or nothing when there is no response or no message (the
      page stores `undefined`); the generic message only for any other exception. */
  function CheckError(outcome: CheckOutcome): (e: string)
    requires !outcome.Verified?
    ensures outcome.OtherFailure? ==> e == CheckFailedError
    ensures outcome.AxiosFailure? && outcome.responseMessage.Some? ==> e == outcome.responseMessage.value
    ensures outcome.AxiosFailure? && outcome.responseMessage.None? ==> e == ""
  {
    match outcome
    case AxiosFailure(m) => m.GetOr("")
    case OtherFailure => CheckFailedError
  }

  class VerificationForm {
    const email: string
    var verificationCode: string
    var timeLeft: int
    var isSubmitting: bool
    var error: string
    var success: string

    /** The countdown stays between 0 and the code's lifetime. */
    ghost predicate Valid()
      reads this
    {
      0 <= timeLeft <= CodeLifetime
    }

    /** The form as first rendered for `email`. */
    constructor (email: string)
      ensures Valid()
      ensures this.email == email && verificationCode == ""
      ensures timeLeft == CodeLifetime && !isSubmitting && error == "" && success == ""
    {
      this.email := email;
      verificationCode := "";
      timeLeft := CodeLifetime;
      isSubmitting := false;
      error := "";
      success := "";
    }

    /** The countdown text next to the code field: always `m:ss`. */
    function Display(): (r: string)
      reads this
      requires Valid()
      ensures |r| == 4 && r[1] == ':'
    {
      FormatTimeWithinLifetime(timeLeft);
      FormatTime(timeLeft)
    }

    /** A one-second interval is running exactly while time is left. */
    predicate TimerRunning()
      reads this
    {
      timeLeft > 0
    }

    /** Typing in the code field. */
    method EnterCode(code: string)
      modifies this`verificationCode
      ensures verificationCode == code
    {
      verificationCode := code;
    }

    /** One interval tick: one second less; reaching zero stops the timer and
        shows the expiry error. */
    method Tick()
      requires Valid() && TimerRunning()
      modifies this`timeLeft, this`error
      ensures Valid()
      ensures timeLeft == old(timeLeft) - 1
      ensures error == if timeLeft == 0 then ExpiredError else old(error)
    {
      timeLeft := timeLeft - 1;
      if timeLeft <= 0 {
        error := ExpiredError;
      }
    }

    /** Lets the interval run until it stops by itself. */
    method RunOut()
      requires Valid()
      modifies this`timeLeft, this`error
      ensures Valid() && !TimerRunning() && timeLeft == 0
      ensures error == if old(timeLeft) > 0 then ExpiredError else old(error)
    {
      while timeLeft > 0
        invariant Valid()
        invariant error == if timeLeft == 0 && old(timeLeft) > 0 then ExpiredError else old(error)
        invariant old(timeLeft) > 0 || timeLeft == old(timeLeft)
        decreases timeLeft
      {
        Tick();
      }
    }

    /** Submitting the code. While a check is in flight the submit button is
        disabled and nothing happens. Otherwise an empty code, then an expired
        countdown, is reported without calling the server; a submission that
        passes both clears the error, turns on `isSubmitting` and sends the
        request. */
    method Submit() returns (req: Option<CheckRequest>)
      requires Valid()
      modifies this`error, this`isSubmitting
      ensures Valid()
      ensures old(isSubmitting) ==> req == None && error == old(error) && isSubmitting
      ensures !old(isSubmitting) ==>
        var g := Guard(verificationCode, timeLeft);
        (g == Proceed ==> req == Some(CheckRequest(email, verificationCode)) && error == "" && isSubmitting) &&
        (g != Proceed ==> req == None && error == GuardError(g) && !isSubmitting)
      ensures req.Some? ==> verificationCode != "" && timeLeft > 0
    {
      req := None;
      if isSubmitting {
        return;
      }
      if verificationCode == "" {
        error := EnterCodeError;
        return;
      }
      if timeLeft <= 0 {
        error := ExpiredError;
        return;
      }
      isSubmitting := true;
      error := "";
      req := Some(CheckRequest(email, verificationCode));
    }

    /** The check call returns: success shows the notice, failure the error;
        `isSubmitting` is off again either way. */
    method CompleteCheck(outcome: CheckOutcome)
      requires Valid()
      modifies this`error, this`success, this`isSubmitting
      ensures Valid() && !isSubmitting
      ensures outcome.Verified? ==> success == VerifiedNotice && error == old(error)
      ensures !outcome.Verified? ==> error == CheckError(outcome) && success == old(success)
    {
      if outcome.Verified? {
        success := VerifiedNotice;
      } else {
        error := CheckError(outcome);
      }
      isSubmitting := false;
    }

    /** The resend button: a delivered resend restarts the countdown, clears
        the error and shows the notice; a failed one only sets its error. */
    method Resend(delivered: bool)
      requires Valid()
      modifies this`timeLeft, this`error, this`success
      ensures Valid()
      ensures delivered ==> timeLeft == CodeLifetime && error == "" && success == ResentNotice
      ensures !delivered ==> timeLeft == old(timeLeft) && error == ResendFailedError && success == old(success)
    {
      if delivered {
        timeLeft := CodeLifetime;
        error := "";
        success := ResentNotice;
      } else {
        error := ResendFailedError;
      }
    }
  }

  /** Once the countdown has run out a typed code is refused without calling
      the server, with the expiry error; after a delivered resend the same
      code is sent. */
  method ExpiredCodeNeedsResend(email: string, code: string)
    returns (afterExpiry: Option<CheckRequest>, shownError: string, afterResend: Option<CheckRequest>)
    requires code != ""
    ensures afterExpiry == None && shownError == ExpiredError
    ensures afterResend == Some(CheckRequest(email, code))
  {
    var form := new VerificationForm(email);
    form.EnterCode(code);
    form.RunOut();
    afterExpiry := form.Submit();
    shownError := form.error;
    form.Resend(true);
    afterResend := form.Submit();
  }
}
