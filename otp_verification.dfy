/** The one-time-password step: the two-minute resend countdown, its `m:ss` display, and the
    verify and resend buttons. */
module OtpVerification {
  import Text

  /** The countdown length in seconds. */
  const ResendSeconds: nat := 120

  /** `formatTime`: whole minutes, a colon, then the remaining seconds padded to two digits. */
  function FormatTime(seconds: nat): string
  {
    Text.DecimalString(seconds / 60) + ":" + Text.PadZeros(Text.DecimalString(seconds % 60), 2)
  }

  /** Reading the display back gives the time: the part before the colon is the minutes, the
      last two characters are the seconds below 60, and minutes * 60 + seconds is the input. */
  lemma FormatTimeRoundTrip(seconds: nat)
    ensures |FormatTime(seconds)| >= 4
    ensures FormatTime(seconds)[|FormatTime(seconds)| - 3] == ':'
    ensures Text.AllDigits(FormatTime(seconds)[..|FormatTime(seconds)| - 3])
    ensures Text.AllDigits(FormatTime(seconds)[|FormatTime(seconds)| - 2..])
    ensures Text.DecimalValue(FormatTime(seconds)[|FormatTime(seconds)| - 2..]) < 60
    ensures Text.DecimalValue(FormatTime(seconds)[..|FormatTime(seconds)| - 3]) * 60
      + Text.DecimalValue(FormatTime(seconds)[|FormatTime(seconds)| - 2..]) == seconds
  {
    var mins, secs := seconds / 60, seconds % 60;
    var m := Text.DecimalString(mins);
    var d := Text.DecimalString(secs);
    assert |d| <= 2 by {
      if secs >= 10 {
        assert Text.DecimalString(secs) == Text.DecimalString(secs / 10) + [Text.DigitChar(secs % 10)];
      }
    }
    var p := Text.PadZeros(d, 2);
    var t := FormatTime(seconds);
    assert t == m + ":" + p;
    assert |p| == 2;
    assert t[..|t| - 3] == m;
    assert t[|t| - 2..] == p;
    Text.PadZerosValue(d, 2);
    Text.DecimalRoundTrip(mins);
    Text.DecimalRoundTrip(secs);
  }

  /** The display on first render. */
  lemma FormatInitialTime(seconds: nat)
    requires seconds == ResendSeconds
    ensures FormatTime(seconds) == "2:00"
  {
    assert seconds / 60 == 2 && seconds % 60 == 0;
    assert Text.DecimalString(0) == "0";
    assert Text.PadZeros("0", 2) == "00" by {
      assert Text.Zeros(1) == "0";
    }
  }

  class Panel {
    var otp: string
    var timeLeft: nat
    var isVerifying: bool
    var canResend: bool
    /** Verifications started whose simulated answer has not arrived yet. */
    var pendingVerifications: nat
    /** How many times the step asked the wizard to advance. */
    var nextRequests: nat

    /** The countdown stays within two minutes, and resending is allowed exactly when it has
        run out. */
    predicate Valid()
      reads this
    {
      timeLeft <= ResendSeconds && (canResend <==> timeLeft == 0)
    }

    constructor ()
      ensures Valid() && otp == "" && timeLeft == ResendSeconds && !isVerifying && !canResend
      ensures pendingVerifications == 0 && nextRequests == 0
    {
      otp := "";
      timeLeft := ResendSeconds;
      isVerifying := false;
      canResend := false;
      pendingVerifications := 0;
      nextRequests := 0;
    }

    /** `isOtpValid`, and the verify button: enabled iff six characters are entered and no
        verification is in progress. */
    function VerifyEnabled(): (enabled: bool)
      reads this
      ensures enabled <==> |otp| == 6 && !isVerifying
    {
      |otp| == 6 && !isVerifying
    }

    /** The resend button is enabled iff the countdown has run out. */
    function ResendEnabled(): (enabled: bool)
      reads this
      ensures Valid() ==> (enabled <==> timeLeft == 0)
    {
      canResend
    }

    /** One second of the countdown: the timer exists only while time is left; it takes one
        second off, and when that reaches zero the effect allows resending. */
    method Tick()
      requires Valid() && timeLeft > 0
      modifies this
      ensures Valid() && timeLeft == old(timeLeft) - 1
      ensures canResend <==> timeLeft == 0
      ensures otp == old(otp) && isVerifying == old(isVerifying)
      ensures pendingVerifications == old(pendingVerifications) && nextRequests == old(nextRequests)
    {
      timeLeft := timeLeft - 1;
      if timeLeft == 0 {
        canResend := true;
      }
    }

    /** The code input's change handler. */
    method SetOtp(value: string)
      modifies this
      ensures otp == value && timeLeft == old(timeLeft) && canResend == old(canResend)
      ensures isVerifying == old(isVerifying)
      ensures pendingVerifications == old(pendingVerifications) && nextRequests == old(nextRequests)
    {
      otp := value;
    }

    /** `handleResendOtp`: the countdown restarts, resending is disallowed and the code is
        cleared. */
    method HandleResendOtp()
      modifies this
      ensures Valid() && timeLeft == ResendSeconds && !canResend && otp == ""
      ensures isVerifying == old(isVerifying)
      ensures pendingVerifications == old(pendingVerifications) && nextRequests == old(nextRequests)
    {
      timeLeft := ResendSeconds;
      canResend := false;
      otp := "";
    }

    /** `handleVerifyOtp`: nothing unless six characters are entered; otherwise verification
        starts and its answer is scheduled. */
    method HandleVerifyOtp()
      requires Valid()
      modifies this
      ensures Valid() && otp == old(otp) && timeLeft == old(timeLeft) && canResend == old(canResend)
      ensures |otp| != 6 ==> isVerifying == old(isVerifying) && pendingVerifications == old(pendingVerifications)
      ensures |otp| == 6 ==> isVerifying && pendingVerifications == old(pendingVerifications) + 1
      ensures nextRequests == old(nextRequests)
    {
      if |otp| != 6 {
        return;
      }
      isVerifying := true;
      pendingVerifications := pendingVerifications + 1;
    }

    /** The scheduled answer: verification ends and the wizard is asked to advance. */
    method CompleteVerification()
      requires Valid() && pendingVerifications > 0
      modifies this
      ensures Valid() && !isVerifying && nextRequests == old(nextRequests) + 1
      ensures pendingVerifications == old(pendingVerifications) - 1
      ensures otp == old(otp) && timeLeft == old(timeLeft) && canResend == old(canResend)
    {
      isVerifying := false;
      pendingVerifications := pendingVerifications - 1;
      nextRequests := nextRequests + 1;
    }

    /** A click on the verify button: only an enabled button verifies, so no second
        verification starts while one is in progress. */
    method ClickVerify()
      requires Valid()
      modifies this
      ensures Valid() && otp == old(otp) && timeLeft == old(timeLeft) && canResend == old(canResend)
      ensures old(VerifyEnabled()) ==> isVerifying && pendingVerifications == old(pendingVerifications) + 1
      ensures !old(VerifyEnabled()) ==> isVerifying == old(isVerifying) && pendingVerifications == old(pendingVerifications)
      ensures nextRequests == old(nextRequests)
    {
      if VerifyEnabled() {
        HandleVerifyOtp();
      }
    }

    /** A click on the resend button: it restarts the countdown only once the countdown has
        run out. */
    method ClickResend()
      requires Valid()
      modifies this
      ensures Valid()
      ensures old(timeLeft) == 0 ==> timeLeft == ResendSeconds && !canResend && otp == ""
      ensures old(timeLeft) != 0 ==> timeLeft == old(timeLeft) && canResend == old(canResend) && otp == old(otp)
      ensures isVerifying == old(isVerifying)
      ensures pendingVerifications == old(pendingVerifications) && nextRequests == old(nextRequests)
    {
      if ResendEnabled() {
        HandleResendOtp();
      }
    }
  }

  /** Two clicks on verify with a six-character code start one verification only, and its
      answer advances the wizard once. */
  method DoubleClickVerifiesOnce(code: string) returns (panel: Panel)
    requires |code| == 6
    ensures panel.Valid() && panel.nextRequests == 1
    ensures panel.pendingVerifications == 0 && !panel.isVerifying
  {
    panel := new Panel();
    panel.SetOtp(code);
    panel.ClickVerify();
    panel.ClickVerify();
    panel.CompleteVerification();
  }

  /** Letting the full two minutes run out enables resending, and resending restores the
      starting countdown. */
  method RunDownAndResend() returns (enabledAtZero: bool, timeAfterResend: nat, enabledAfterResend: bool)
    ensures enabledAtZero && timeAfterResend == ResendSeconds && !enabledAfterResend
  {
    var panel := new Panel();
    while panel.timeLeft > 0
      invariant panel.Valid()
      decreases panel.timeLeft
    {
      panel.Tick();
    }
    enabledAtZero := panel.ResendEnabled();
    panel.HandleResendOtp();
    timeAfterResend := panel.timeLeft;
    enabledAfterResend := panel.ResendEnabled();
  }
}
