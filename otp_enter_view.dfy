/**
 * The code-entry page (CapstoneFrontend/src/components/OtpEnter.jsx): a
 * three-minute countdown shown as `m:ss`, and the gates on the input and
 * on the Verify button.
 */
module OtpEnterView {
  import opened Wrappers
  import opened Text
  import opened BookingModel
  import opened OtpController

  /** Seconds below 60 as two digits, with a leading zero below 10. */
  function TwoDigits(x: nat): (s: string)
    requires x < 100
    ensures |s| == 2 && IsDigit(s[0]) && IsDigit(s[1])
    ensures ParseDigits(s) == x
  {
    ParseDigitsOfDigits(x);
    if x < 10 then
      var s := "0" + Digits(x);
      assert s[..1] == "0";
      s
    else
      assert Digits(x) == Digits(x / 10) + [DigitChar(x % 10)];
      Digits(x)
  }

  /** `formatTimer`: whole minutes, a colon, then the seconds as two digits. */
  function FormatTimer(timer: nat): (s: string)
    ensures |s| >= 4 && s[|s| - 3] == ':'
    ensures forall k :: 0 <= k < |s| - 3 ==> IsDigit(s[k])
  {
    Digits(timer / 60) + ":" + TwoDigits(timer % 60)
  }

  /** The display can be read back: minutes before the colon, seconds after it. */
  lemma {:induction false} FormatTimerRoundTrip(timer: nat)
    ensures var s := FormatTimer(timer);
            60 * ParseDigits(s[..|s| - 3]) + ParseDigits(s[|s| - 2..]) == timer
  {
    var m := Digits(timer / 60);
    var t := TwoDigits(timer % 60);
    var s := FormatTimer(timer);
    assert s == m + (":" + t);
    assert |s| == |m| + 3;
    assert s[..|s| - 3] == m;
    assert s[|s| - 2..] == t;
    ParseDigitsOfDigits(timer / 60);
    assert 60 * (timer / 60) + timer % 60 == timer;
  }

  /** So different times never look the same. */
  lemma FormatTimerInjective(a: nat, b: nat)
    ensures FormatTimer(a) == FormatTimer(b) <==> a == b
  {
    FormatTimerRoundTrip(a);
    FormatTimerRoundTrip(b);
  }

  /** The page opens with 180 seconds on the clock, shown as `3:00`. */
  lemma InitialDisplay()
    ensures FormatTimer(180) == "3:00"
  {
    assert Digits(3) == "3";
    assert Digits(0) == "0";
  }

  /** One tick of the interval: count down while positive, otherwise expire. */
  function Step(timer: nat, expired: bool): (r: (nat, bool))
    ensures timer > 0 ==> r == (timer - 1, expired)
    ensures timer == 0 ==> r == (0, true)
  {
    if timer > 0 then (timer - 1, expired) else (0, true)
  }

  function Steps(timer: nat, expired: bool, n: nat): (nat, bool)
    decreases n
  {
    if n == 0 then (timer, expired)
    else
      var next := Step(timer, expired);
      Steps(next.0, next.1, n - 1)
  }

  /**
   * After `n` ticks the clock shows `timer - n`, never below zero, and the
   * code has expired exactly when more ticks than seconds have passed.
   */
  lemma {:induction false} Countdown(timer: nat, n: nat)
    ensures Steps(timer, false, n).0 == if n <= timer then timer - n else 0
    ensures Steps(timer, false, n).1 <==> n > timer
    decreases n
  {
    if n > 0 {
      if timer > 0 {
        Countdown(timer - 1, n - 1);
      } else {
        StaysExpired(n - 1);
      }
    }
  }

  /** An expired clock stays at zero and expired. */
  lemma {:induction false} StaysExpired(n: nat)
    ensures Steps(0, true, n) == (0, true)
    decreases n
  {
    if n > 0 {
      StaysExpired(n - 1);
    }
  }

  /** `disabled={!otpCode || otpExpired}` on the Verify button, negated. */
  predicate VerifyEnabled(otpCode: string, expired: bool) {
    otpCode != "" && !expired
  }

  /** What pressing Verify posts: `{ otp: otpCode }`, or nothing while the button is disabled. */
  function SubmitPayload(otpCode: string, expired: bool): (r: Option<JsonValue>)
    ensures r.Some? <==> VerifyEnabled(otpCode, expired)
    ensures r.Some? ==> r.value == JString(otpCode)
  {
    if VerifyEnabled(otpCode, expired) then Some(JString(otpCode)) else None
  }

  /** The page never posts a missing code: the server's 400 `Missing OTP` cannot come from it. */
  lemma PayloadIsTruthy(otpCode: string, expired: bool)
    requires SubmitPayload(otpCode, expired).Some?
    ensures Truthy(SubmitPayload(otpCode, expired).value)
    ensures JsString(SubmitPayload(otpCode, expired).value) == otpCode
  {
  }

  /**
   * But it posts whatever was typed, so the word `undefined` reaches the
   * server's comparison as is and, as written, closes a booking that was
   * never sent a code.
   */
  lemma TypedWordReachesServer()
    ensures SubmitPayload("undefined", false) == Some(JString("undefined"))
    ensures OtpMatches(Unset, SubmitPayload("undefined", false).value)
    ensures !OtpMatchesIntended(Unset, SubmitPayload("undefined", false).value)
  {
    UncodedBookingAcceptsWordsAsWritten();
  }

  /** The page's state. */
  class OtpPage {
    var otpCode: string
    var expired: bool
    var timer: nat

    constructor ()
      ensures otpCode == "" && !expired && timer == 180
    {
      otpCode := "";
      expired := false;
      timer := 180;
    }

    /** The interval callback: `setTimer(timer - 1)` or `setOtpExpired(true)`. */
    method Tick()
      modifies this`timer, this`expired
      ensures (timer, expired) == Step(old(timer), old(expired))
    {
      if timer > 0 {
        timer := timer - 1;
      } else {
        expired := true;
      }
    }

    /** `onChange` of the input, which `disabled={otpExpired}` silences once expired. */
    method Type(text: string)
      modifies this`otpCode
      ensures otpCode == if expired then old(otpCode) else text
    {
      if !expired {
        otpCode := text;
      }
    }

    /** Pressing Verify. */
    method Submit() returns (sent: Option<JsonValue>)
      ensures sent == SubmitPayload(otpCode, expired)
    {
      if otpCode == "" || expired {
        return None;
      }
      sent := Some(JString(otpCode));
    }
  }
}
