/** The phone-verification step: the number typed is normalised to a Bahraini `+973` number, a
    simulated OTP is sent and verified, and continuing waits for verification. */
module PhoneVerification {
  import opened Lists
  import opened Text

  /** `formatPhoneNumber` as written: the digits of the input, prefixed by `+` when they already
      start with the country code and by `+973` otherwise. The middle branch tests the digit
      string for a leading `+`, which it can never have. */
  function FormatPhone(value: string): (r: string)
    ensures StartsWith(r, "+973")
    ensures AllDigits(r[1..])
    ensures StartsWith(Digits(value), "973") ==> r == "+" + Digits(value)
    ensures !StartsWith(Digits(value), "973") ==> r == "+973" + Digits(value)
  {
    var cleaned := Digits(value);
    assert cleaned == [] || cleaned[..1] != "+" by {
      if cleaned != [] {
        assert IsDigit(cleaned[..1][0]);
      }
    }
    if StartsWith(cleaned, "973") then
      assert ("+" + cleaned)[1..] == cleaned;
      assert ("+" + cleaned)[..4] == "+" + cleaned[..3];
      "+" + cleaned
    else if StartsWith(cleaned, "+") then value
    else
      assert ("+973" + cleaned)[1..] == "973" + cleaned;
      "+973" + cleaned
  }

  /** The `startsWith('+')` branch is dead: the digit string never starts with `+`. */
  lemma PlusBranchDead(value: string)
    ensures !StartsWith(Digits(value), "+")
  {
    var cleaned := Digits(value);
    if |cleaned| >= 1 {
      assert IsDigit(cleaned[0]);
    }
  }

  /** Formatting an already formatted number returns it unchanged. */
  lemma FormatPhoneIdempotent(value: string)
    ensures FormatPhone(FormatPhone(value)) == FormatPhone(value)
  {
    var r := FormatPhone(value);
    assert r == [r[0]] + r[1..];
    DigitsAppend([r[0]], r[1..]);
    assert Digits([r[0]]) == "";
    assert Digits(r) == r[1..];
    assert StartsWith(r[1..], "973");
  }

  /** The OTP field's `onChange`: the digits of the input, at most six of them. */
  function SanitizeOtp(value: string): (r: string)
    ensures AllDigits(r) && |r| <= 6
    ensures |r| == Min(|Digits(value)|, 6)
    ensures r == Digits(value)[..|r|]
  {
    var d := Digits(value);
    d[..Min(|d|, 6)]
  }

  /** Sanitising is idempotent, and a six-digit code passes through unchanged. */
  lemma SanitizeOtpStable(value: string, code: string)
    requires AllDigits(code) && |code| == 6
    ensures SanitizeOtp(SanitizeOtp(value)) == SanitizeOtp(value)
    ensures SanitizeOtp(code) == code
  {
  }

  /** `handleSendOtp`'s guard, shared by the Send button's `disabled`: the number is non-empty and
      has at least eight characters. */
  predicate CanSend(phoneNumber: string)
  {
    phoneNumber != "" && |phoneNumber| >= 8
  }

  /** A formatted number passes the send guard once seven digits were typed. */
  lemma FormattedNumberCanSend(value: string)
    requires |Digits(value)| >= 7
    ensures CanSend(FormatPhone(value))
  {
  }

  class Panel {
    /** The wizard's `phoneNumber` and `isPhoneVerified`, which this step updates. */
    var phoneNumber: string
    var isVerified: bool
    var otp: string
    var otpSent: bool
    var loading: bool
    /** Simulated sends and verifications whose timer has not fired yet. */
    var pendingSends: nat
    var pendingVerifications: nat
    /** How many times the step asked the wizard to advance. */
    var nextRequests: nat

    /** The OTP is always a sanitised code, and it is empty while no OTP was sent. */
    predicate Valid()
      reads this
    {
      AllDigits(otp) && |otp| <= 6 && (!otpSent ==> otp == "")
    }

    constructor (phoneNumber: string, isVerified: bool)
      ensures Valid()
      ensures this.phoneNumber == phoneNumber && this.isVerified == isVerified
      ensures otp == "" && !otpSent && !loading
      ensures pendingSends == 0 && pendingVerifications == 0 && nextRequests == 0
    {
      this.phoneNumber := phoneNumber;
      this.isVerified := isVerified;
      otp := "";
      otpSent := false;
      loading := false;
      pendingSends := 0;
      pendingVerifications := 0;
      nextRequests := 0;
    }

    /** Typing in the number field, which is shown only before verification and disabled once
        an OTP was sent. */
    method PhoneInput(value: string)
      requires Valid()
      modifies this
      ensures Valid()
      ensures !old(isVerified) && !old(otpSent) ==> phoneNumber == FormatPhone(value)
      ensures old(isVerified) || old(otpSent) ==> phoneNumber == old(phoneNumber)
      ensures otp == old(otp) && otpSent == old(otpSent) && loading == old(loading)
      ensures isVerified == old(isVerified) && nextRequests == old(nextRequests)
      ensures pendingSends == old(pendingSends) && pendingVerifications == old(pendingVerifications)
    {
      if !isVerified && !otpSent {
        phoneNumber := FormatPhone(value);
      }
    }

    /** The Send button is enabled iff the send guard holds and nothing is loading. */
    function SendEnabled(): (enabled: bool)
      reads this
      ensures enabled <==> phoneNumber != "" && |phoneNumber| >= 8 && !loading
    {
      CanSend(phoneNumber) && !loading
    }

    /** `handleSendOtp`: nothing when the guard fails; otherwise loading starts and the
        simulated send is scheduled. */
    method HandleSendOtp()
      requires Valid()
      modifies this
      ensures Valid()
      ensures !CanSend(old(phoneNumber)) ==> loading == old(loading) && pendingSends == old(pendingSends)
      ensures CanSend(old(phoneNumber)) ==> loading && pendingSends == old(pendingSends) + 1
      ensures phoneNumber == old(phoneNumber) && otp == old(otp) && otpSent == old(otpSent)
      ensures isVerified == old(isVerified) && nextRequests == old(nextRequests)
      ensures pendingVerifications == old(pendingVerifications)
    {
      if phoneNumber == "" || |phoneNumber| < 8 {
        return;
      }
      loading := true;
      pendingSends := pendingSends + 1;
    }

    /** The send timer: the OTP counts as sent and loading ends. */
    method CompleteSend()
      requires Valid() && pendingSends > 0
      modifies this
      ensures Valid()
      ensures otpSent && !loading && pendingSends == old(pendingSends) - 1
      ensures phoneNumber == old(phoneNumber) && otp == old(otp)
      ensures isVerified == old(isVerified) && nextRequests == old(nextRequests)
      ensures pendingVerifications == old(pendingVerifications)
    {
      otpSent := true;
      loading := false;
      pendingSends := pendingSends - 1;
    }

    /** Typing in the OTP field, which is shown only once an OTP was sent and before
        verification. */
    method SetOtp(value: string)
      requires Valid()
      modifies this
      ensures Valid()
      ensures old(otpSent) && !old(isVerified) ==> otp == SanitizeOtp(value)
      ensures !old(otpSent) || old(isVerified) ==> otp == old(otp)
      ensures phoneNumber == old(phoneNumber) && otpSent == old(otpSent) && loading == old(loading)
      ensures isVerified == old(isVerified) && nextRequests == old(nextRequests)
      ensures pendingSends == old(pendingSends) && pendingVerifications == old(pendingVerifications)
    {
      if otpSent && !isVerified {
        otp := SanitizeOtp(value);
      }
    }

    /** "Change Number": back to entering the number, with the OTP cleared. */
    method ChangeNumber()
      requires Valid()
      modifies this
      ensures Valid()
      ensures !otpSent && otp == ""
      ensures phoneNumber == old(phoneNumber) && loading == old(loading)
      ensures isVerified == old(isVerified) && nextRequests == old(nextRequests)
      ensures pendingSends == old(pendingSends) && pendingVerifications == old(pendingVerifications)
    {
      otpSent := false;
      otp := "";
    }

    /** The Verify button is enabled iff the OTP has six characters and nothing is loading. */
    function VerifyEnabled(): (enabled: bool)
      reads this
      ensures enabled <==> |otp| == 6 && !loading
    {
      |otp| == 6 && !loading
    }

    /** `handleVerifyOtp`: nothing unless the OTP has six characters; otherwise loading starts and
        the simulated verification is scheduled. */
    method HandleVerifyOtp()
      requires Valid()
      modifies this
      ensures Valid()
      ensures |old(otp)| != 6 ==> loading == old(loading) && pendingVerifications == old(pendingVerifications)
      ensures |old(otp)| == 6 ==> loading && pendingVerifications == old(pendingVerifications) + 1
      ensures phoneNumber == old(phoneNumber) && otp == old(otp) && otpSent == old(otpSent)
      ensures isVerified == old(isVerified) && nextRequests == old(nextRequests)
      ensures pendingSends == old(pendingSends)
    {
      if |otp| != 6 {
        return;
      }
      loading := true;
      pendingVerifications := pendingVerifications + 1;
    }

    /** The verification timer: the wizard records the number as verified and loading ends. */
    method CompleteVerification()
      requires Valid() && pendingVerifications > 0
      modifies this
      ensures Valid()
      ensures isVerified && !loading && pendingVerifications == old(pendingVerifications) - 1
      ensures phoneNumber == old(phoneNumber) && otp == old(otp) && otpSent == old(otpSent)
      ensures nextRequests == old(nextRequests) && pendingSends == old(pendingSends)
    {
      isVerified := true;
      loading := false;
      pendingVerifications := pendingVerifications - 1;
    }

    /** The continue button is enabled iff the number is verified. */
    function ContinueEnabled(): (enabled: bool)
      reads this
      ensures enabled <==> isVerified
    {
      isVerified
    }

    /** A click on continue advances the wizard only when it is enabled. */
    method Continue()
      modifies this
      ensures nextRequests == if old(isVerified) then old(nextRequests) + 1 else old(nextRequests)
      ensures phoneNumber == old(phoneNumber) && otp == old(otp) && otpSent == old(otpSent)
      ensures isVerified == old(isVerified) && loading == old(loading)
      ensures pendingSends == old(pendingSends) && pendingVerifications == old(pendingVerifications)
    {
      if isVerified {
        nextRequests := nextRequests + 1;
      }
    }

    /** A click on Send OTP, a button shown only before verification and before an OTP was
        sent: only an enabled button sends, so no second send starts while one is loading. */
    method ClickSend()
      requires Valid()
      modifies this
      ensures Valid()
      ensures !old(isVerified) && !old(otpSent) && old(SendEnabled()) ==> loading && pendingSends == old(pendingSends) + 1
      ensures !(!old(isVerified) && !old(otpSent) && old(SendEnabled())) ==> loading == old(loading) && pendingSends == old(pendingSends)
      ensures phoneNumber == old(phoneNumber) && otp == old(otp) && otpSent == old(otpSent)
      ensures isVerified == old(isVerified) && nextRequests == old(nextRequests)
      ensures pendingVerifications == old(pendingVerifications)
    {
      if !isVerified && !otpSent && SendEnabled() {
        HandleSendOtp();
      }
    }

    /** A click on Resend OTP, shown with the OTP field and disabled while loading; it runs the
        same send handler, guard included. */
    method ClickResend()
      requires Valid()
      modifies this
      ensures Valid()
      ensures !old(isVerified) && old(otpSent) && !old(loading) && CanSend(old(phoneNumber)) ==> loading && pendingSends == old(pendingSends) + 1
      ensures !(!old(isVerified) && old(otpSent) && !old(loading) && CanSend(old(phoneNumber))) ==> loading == old(loading) && pendingSends == old(pendingSends)
      ensures phoneNumber == old(phoneNumber) && otp == old(otp) && otpSent == old(otpSent)
      ensures isVerified == old(isVerified) && nextRequests == old(nextRequests)
      ensures pendingVerifications == old(pendingVerifications)
    {
      if !isVerified && otpSent && !loading {
        HandleSendOtp();
      }
    }

    /** A click on Verify OTP, shown with the OTP field: only an enabled button verifies, so no
        second verification starts while one is loading. */
    method ClickVerify()
      requires Valid()
      modifies this
      ensures Valid()
      ensures !old(isVerified) && old(otpSent) && old(VerifyEnabled()) ==> loading && pendingVerifications == old(pendingVerifications) + 1
      ensures !(!old(isVerified) && old(otpSent) && old(VerifyEnabled())) ==> loading == old(loading) && pendingVerifications == old(pendingVerifications)
      ensures phoneNumber == old(phoneNumber) && otp == old(otp) && otpSent == old(otpSent)
      ensures isVerified == old(isVerified) && nextRequests == old(nextRequests)
      ensures pendingSends == old(pendingSends)
    {
      if !isVerified && otpSent && VerifyEnabled() {
        HandleVerifyOtp();
      }
    }
  }

  /** Clicking Send twice schedules one send only, and clicking Verify twice schedules one
      verification only: the loading flag disables both buttons. */
  method DoubleClicksActOnce(local: string, code: string) returns (panel: Panel)
    requires AllDigits(local) && |local| == 8 && !StartsWith(local, "973")
    requires AllDigits(code) && |code| == 6
    ensures panel.isVerified && !panel.loading
    ensures panel.pendingSends == 0 && panel.pendingVerifications == 0
  {
    panel := new Panel("", false);
    panel.PhoneInput(local);
    panel.ClickSend();
    panel.ClickSend();
    panel.CompleteSend();
    panel.SetOtp(code);
    SanitizeOtpStable(code, code);
    panel.ClickVerify();
    panel.ClickVerify();
    panel.CompleteVerification();
  }

  /** The whole happy path: type an eight-digit local number, send, wait, type the six-digit code,
      verify, wait, continue. The wizard ends with a verified `+973` number and one request to
      advance. */
  method VerifyLocalNumber(local: string, code: string) returns (panel: Panel)
    requires AllDigits(local) && |local| == 8 && !StartsWith(local, "973")
    requires AllDigits(code) && |code| == 6
    ensures panel.phoneNumber == "+973" + local && panel.isVerified && panel.nextRequests == 1
  {
    panel := new Panel("", false);
    panel.PhoneInput(local);
    assert CanSend(panel.phoneNumber);
    panel.HandleSendOtp();
    panel.CompleteSend();
    panel.SetOtp(code);
    SanitizeOtpStable(code, code);
    panel.HandleVerifyOtp();
    panel.CompleteVerification();
    panel.Continue();
  }
}
