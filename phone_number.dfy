/** The phone-number step: the number typed is regrouped as `+973 XXXX XXXX`, input the
    formatter cannot place keeps the previous value, and proceeding waits for a simulated
    validation of an eleven-digit number. */
module PhoneNumber {
  import opened Base
  import opened Text

  /** Four digits, a space, the rest. */
  function Spaced(d: string): string
    requires |d| >= 4
  {
    d[..4] + " " + d[4..]
  }

  /** `replace(/(\d{4})(\d{0,4})/, '$1 $2')` on at most eight digits: from four digits on, a space
      goes after the fourth; shorter strings do not match and stay as they are. */
  function RegexGroup(d: string): (r: string)
    requires AllDigits(d) && |d| <= 8
    ensures |d| >= 4 ==> r == Spaced(d)
    ensures |d| < 4 ==> r == d
  {
    if |d| >= 4 then d[..4] + " " + d[4..] else d
  }

  /** The grouping followed by `trim()`: exactly four digits lose the trailing space. The digits
      are those given, in order. */
  function GroupDigits(d: string): (r: string)
    requires AllDigits(d) && |d| <= 8
    ensures |d| <= 4 ==> r == d
    ensures |d| > 4 ==> r == Spaced(d)
    ensures Digits(r) == d
  {
    var g := RegexGroup(d);
    if |d| == 4 then
      assert g == d + " ";
      assert TrimStart(g) == g;
      assert TrimEnd(g) == TrimEnd(d);
      TrimNoSpace(d);
      Trim(g)
    else if |d| < 4 then
      TrimNoSpace(d);
      Trim(g)
    else
      assert g[..4] == d[..4] && g[5..] == d[4..] && g[|g| - 1] == d[|d| - 1];
      TrimNoSpace(g);
      SpacedDigits(d);
      Trim(g)
  }

  lemma SpacedDigits(d: string)
    requires AllDigits(d) && |d| > 4
    ensures Digits(d[..4] + " " + d[4..]) == d
  {
    DigitsAppend(d[..4] + " ", d[4..]);
    DigitsAppend(d[..4], " ");
    assert d[..4] + d[4..] == d;
  }

  /** The local digits the formatter accepts: what follows a leading `973` when at most eight
      digits follow it, or, without that prefix, the whole digit string when it has at most
      eight digits. Anything else is not accepted. */
  function LocalPart(value: string): (local: Option<string>)
    ensures local.Some? ==> AllDigits(local.value) && |local.value| <= 8
    ensures local.Some? ==> Digits(value) == local.value || Digits(value) == "973" + local.value
  {
    var cleaned := Digits(value);
    if StartsWith(cleaned, "973") then
      assert cleaned == "973" + cleaned[3..];
      if |cleaned| - 3 <= 8 then Some(cleaned[3..]) else None
    else if |cleaned| <= 8 then Some(cleaned)
    else None
  }

  /** `formatPhoneNumber`: accepted digits become `+973 ` followed by them, grouped; otherwise the
      current value is returned unchanged. A formatted value carries the country code and the
      accepted digits, nothing else. */
  function FormatNumber(value: string, current: string): (r: string)
    ensures LocalPart(value).None? ==> r == current
    ensures LocalPart(value).Some? ==> r == "+973 " + GroupDigits(LocalPart(value).value)
    ensures LocalPart(value).Some? ==> Digits(r) == "973" + LocalPart(value).value
  {
    match LocalPart(value)
    case None => current
    case Some(local) =>
      PrefixDigits(GroupDigits(local));
      "+973 " + GroupDigits(local)
  }

  lemma PrefixDigits(g: string)
    ensures Digits("+973 " + g) == "973" + Digits(g)
  {
    DigitsAppend("+973 ", g);
    assert "+973 " == ['+'] + "973" + " ";
    DigitsAppend(['+'] + "973", " ");
    DigitsAppend(['+'], "973");
  }

  /** Formatting a formatted number gives it back, whatever the current value is. */
  lemma FormatNumberIdempotent(value: string, current: string, other: string)
    requires LocalPart(value).Some?
    ensures FormatNumber(FormatNumber(value, current), other) == FormatNumber(value, current)
  {
    var local := LocalPart(value).value;
    var r := FormatNumber(value, current);
    PrefixedLocalPart(local);
    SameDigitsSameLocal(r, "973" + local);
  }

  /** The formatter reads nothing but the digits of its input. */
  lemma SameDigitsSameLocal(x: string, y: string)
    requires Digits(x) == Digits(y)
    ensures LocalPart(x) == LocalPart(y)
  {
  }

  /** In particular a complete `+973 XXXX XXXX` number is a fixed point. */
  lemma FullNumberStable(d: string, current: string)
    requires AllDigits(d) && |d| == 8
    ensures FormatNumber("+973 " + Spaced(d), current) == "+973 " + Spaced(d)
  {
    var value := "973" + d;
    PrefixedLocalPart(d);
    FormatNumberIdempotent(value, current, current);
  }

  /** Digits that already carry the country code are accepted as their local part. */
  lemma PrefixedLocalPart(d: string)
    requires AllDigits(d) && |d| <= 8
    ensures Digits("973" + d) == "973" + d
    ensures LocalPart("973" + d) == Some(d)
  {
    var value := "973" + d;
    assert AllDigits(value);
    assert Digits(value) == value && StartsWith(value, "973") && value[3..] == d;
  }

  /** `isValidPhone`: at least eleven digits (country code and eight local digits). */
  predicate IsValidPhone(phoneNumber: string)
  {
    |Digits(phoneNumber)| >= 11
  }

  /** A formatted number is valid exactly when all eight local digits were given. */
  lemma FormattedValidIff(value: string, current: string)
    requires LocalPart(value).Some?
    ensures IsValidPhone(FormatNumber(value, current)) <==> |LocalPart(value).value| == 8
  {
  }

  class Panel {
    /** The `phoneNumber` prop this step reports its formatted value for. */
    var phoneNumber: string
    var isValidating: bool
    /** Validations started whose timer has not fired yet. */
    var pendingValidations: nat
    /** How many times the step asked the wizard to advance. */
    var nextRequests: nat

    constructor (phoneNumber: string)
      ensures this.phoneNumber == phoneNumber && !isValidating
      ensures pendingValidations == 0 && nextRequests == 0
    {
      this.phoneNumber := phoneNumber;
      isValidating := false;
      pendingValidations := 0;
      nextRequests := 0;
    }

    /** Typing in the number field. */
    method PhoneInput(value: string)
      modifies this
      ensures phoneNumber == FormatNumber(value, old(phoneNumber))
      ensures isValidating == old(isValidating) && pendingValidations == old(pendingValidations)
      ensures nextRequests == old(nextRequests)
    {
      var formatted := FormatNumber(value, phoneNumber);
      phoneNumber := formatted;
    }

    /** The continue button is enabled iff the number is valid and no validation is running. */
    function ProceedEnabled(): (enabled: bool)
      reads this
      ensures enabled <==> |Digits(phoneNumber)| >= 11 && !isValidating
    {
      IsValidPhone(phoneNumber) && !isValidating
    }

    /** `validateAndProceed`: nothing for an invalid number; otherwise validation starts and its
        completion is scheduled. */
    method ValidateAndProceed()
      modifies this
      ensures !IsValidPhone(old(phoneNumber)) ==>
        isValidating == old(isValidating) && pendingValidations == old(pendingValidations)
      ensures IsValidPhone(old(phoneNumber)) ==>
        isValidating && pendingValidations == old(pendingValidations) + 1
      ensures phoneNumber == old(phoneNumber) && nextRequests == old(nextRequests)
    {
      var cleanNumber := Digits(phoneNumber);
      if |cleanNumber| >= 11 {
        isValidating := true;
        pendingValidations := pendingValidations + 1;
      }
    }

    /** The validation timer: validation ends and the wizard is asked to advance. */
    method CompleteValidation()
      requires pendingValidations > 0
      modifies this
      ensures !isValidating && pendingValidations == old(pendingValidations) - 1
      ensures nextRequests == old(nextRequests) + 1
      ensures phoneNumber == old(phoneNumber)
    {
      isValidating := false;
      pendingValidations := pendingValidations - 1;
      nextRequests := nextRequests + 1;
    }

    /** A click on continue: only an enabled button starts a validation. */
    method ClickProceed()
      modifies this
      ensures old(ProceedEnabled()) ==> isValidating && pendingValidations == old(pendingValidations) + 1
      ensures !old(ProceedEnabled()) ==>
        isValidating == old(isValidating) && pendingValidations == old(pendingValidations)
      ensures phoneNumber == old(phoneNumber) && nextRequests == old(nextRequests)
    {
      if ProceedEnabled() {
        ValidateAndProceed();
      }
    }
  }

  /** Eight local digits become a valid `+973 XXXX XXXX` number. */
  lemma LocalNumberFormatted(local: string, current: string)
    requires AllDigits(local) && |local| == 8 && !StartsWith(local, "973")
    ensures FormatNumber(local, current) == "+973 " + Spaced(local)
    ensures IsValidPhone(FormatNumber(local, current))
  {
    assert LocalPart(local) == Some(local);
    FormattedValidIff(local, current);
  }

  /** Typing an eight-digit local number and proceeding advances the wizard once. */
  method EnterAndProceed(local: string) returns (panel: Panel)
    requires AllDigits(local) && |local| == 8 && !StartsWith(local, "973")
    ensures panel.nextRequests == 1 && IsValidPhone(panel.phoneNumber)
    ensures panel.phoneNumber == "+973 " + Spaced(local)
  {
    LocalNumberFormatted(local, "");
    panel := new Panel("");
    panel.PhoneInput(local);
    panel.ClickProceed();
    panel.CompleteValidation();
  }
}
