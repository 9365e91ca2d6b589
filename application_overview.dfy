/** The overview step: the fee table and processing time chosen by the first service's
    category, and the terms checkbox that gates Continue. */
module ApplicationOverview {
  import Text
  import opened Catalogue

  /** Amounts in US cents, so the sums are exact. */
  const VisaServiceFeeCents: nat := 2500
  const OtherServiceFeeCents: nat := 4000
  const ProcessingFeeCents: nat := 500
  const SmsFeeCents: nat := 200

  /** `services[0]?.category === 'visa'`: false for an empty list. */
  predicate FirstIsVisa(services: seq<Service>)
  {
    services != [] && services[0].category == Visa
  }

  /** The service fee the panel charges: US$ 25.00 for a visa, US$ 40.00 otherwise, including
      an empty service list. */
  function ServiceFeeCents(services: seq<Service>): (fee: nat)
    ensures fee == 2500 || fee == 4000
    ensures fee == 2500 <==> FirstIsVisa(services)
  {
    if FirstIsVisa(services) then VisaServiceFeeCents else OtherServiceFeeCents
  }

  /** `processingTime`: faster for a visa. */
  function ProcessingTime(services: seq<Service>): (time: string)
    ensures FirstIsVisa(services) <==> time == "3-5 days"
    ensures !FirstIsVisa(services) <==> time == "7-10 days"
  {
    if FirstIsVisa(services) then "3-5 days" else "7-10 days"
  }

  /** A dollar amount as the panel prints it. */
  function UsdText(cents: nat): string
  {
    "US$ " + Text.Fixed(cents, 2)
  }

  /** `serviceFee` as the panel writes it: a literal label per branch. */
  function ServiceFeeLabel(services: seq<Service>): string
  {
    if FirstIsVisa(services) then "US$ 25.00" else "US$ 40.00"
  }

  /** The total as the panel writes it: a literal chosen by comparing the fee label. */
  function TotalLabel(services: seq<Service>): string
  {
    if ServiceFeeLabel(services) == "US$ 25.00" then "US$ 32.00" else "US$ 47.00"
  }

  /** The literal labels agree with the arithmetic: the fee label prints the fee, the fixed
      lines print US$ 5.00 and US$ 2.00, and the total label prints the sum of the three lines
      (32.00 or 47.00). */
  lemma LabelsMatchAmounts(services: seq<Service>)
    ensures ServiceFeeLabel(services) == UsdText(ServiceFeeCents(services))
    ensures UsdText(ProcessingFeeCents) == "US$ 5.00" && UsdText(SmsFeeCents) == "US$ 2.00"
    ensures TotalLabel(services) == UsdText(ServiceFeeCents(services) + ProcessingFeeCents + SmsFeeCents)
  {
    FeeLabelMatches(services);
    TotalLabelMatches(services);
    FixedLinesText();
  }

  lemma FeeLabelMatches(services: seq<Service>)
    ensures ServiceFeeLabel(services) == UsdText(ServiceFeeCents(services))
  {
    if FirstIsVisa(services) {
      AmountText(2500, 2, 5, "US$ 25.00");
    } else {
      AmountText(4000, 4, 0, "US$ 40.00");
    }
  }

  lemma TotalLabelMatches(services: seq<Service>)
    ensures TotalLabel(services) == UsdText(ServiceFeeCents(services) + ProcessingFeeCents + SmsFeeCents)
  {
    if FirstIsVisa(services) {
      AmountText(3200, 3, 2, "US$ 32.00");
    } else {
      AmountText(4700, 4, 7, "US$ 47.00");
    }
  }

  lemma FixedLinesText()
    ensures UsdText(ProcessingFeeCents) == "US$ 5.00" && UsdText(SmsFeeCents) == "US$ 2.00"
  {
    ProcessingLineText();
    SmsLineText();
  }

  lemma ProcessingLineText()
    ensures UsdText(ProcessingFeeCents) == "US$ 5.00"
  {
    SmallAmountText(500, 5, "US$ 5.00");
  }

  lemma SmsLineText()
    ensures UsdText(SmsFeeCents) == "US$ 2.00"
  {
    SmallAmountText(200, 2, "US$ 2.00");
  }

  lemma AmountText(cents: nat, tens: nat, units: nat, shown: string)
    requires 1 <= tens < 10 && units < 10 && cents == (10 * tens + units) * 100
    requires shown == "US$ " + [('0' as int + tens) as char, ('0' as int + units) as char] + ".00"
    ensures UsdText(cents) == shown
  {
    DollarsText(cents, tens, units);
  }

  lemma SmallAmountText(cents: nat, dollars: nat, shown: string)
    requires 1 <= dollars < 10 && cents == dollars * 100
    requires shown == "US$ " + [('0' as int + dollars) as char] + ".00"
    ensures UsdText(cents) == shown
  {
    DollarText(cents, dollars);
  }

  /** A whole amount of 10 to 99 dollars prints as its two digits and `.00`. */
  lemma DollarsText(cents: nat, tens: nat, units: nat)
    requires 1 <= tens < 10 && units < 10 && cents == (10 * tens + units) * 100
    ensures UsdText(cents) == "US$ " + [Text.DigitChar(tens), Text.DigitChar(units)] + ".00"
  {
    var dollars := 10 * tens + units;
    calc {
      Text.Fixed(cents, 2);
    == { assert Text.Pow10(2) == 100; Text.FixedWhole(cents, dollars, 2); }
      Text.DecimalString(dollars) + "." + Text.Zeros(2);
    == { Text.TwoDigits(dollars); assert Text.Zeros(2) == "00"; }
      [Text.DigitChar(tens), Text.DigitChar(units)] + ".00";
    }
  }

  /** A whole amount of 1 to 9 dollars prints as its digit and `.00`. */
  lemma DollarText(cents: nat, dollars: nat)
    requires 1 <= dollars < 10 && cents == dollars * 100
    ensures UsdText(cents) == "US$ " + [Text.DigitChar(dollars)] + ".00"
  {
    calc {
      Text.Fixed(cents, 2);
    == { assert Text.Pow10(2) == 100; Text.FixedWhole(cents, dollars, 2); }
      Text.DecimalString(dollars) + "." + Text.Zeros(2);
    == { assert Text.Zeros(2) == "00"; }
      [Text.DigitChar(dollars)] + ".00";
    }
  }

  class Panel {
    var isAccepted: bool
    var nextRequests: nat

    /** The terms box starts unchecked. */
    constructor ()
      ensures !isAccepted && !ContinueEnabled() && nextRequests == 0
    {
      isAccepted := false;
      nextRequests := 0;
    }

    /** Continue is enabled iff the terms are accepted. */
    function ContinueEnabled(): (enabled: bool)
      reads this
      ensures enabled <==> isAccepted
    {
      isAccepted
    }

    /** The checkbox's change handler: the flag follows the box. */
    method SetAccepted(checked: bool)
      modifies this
      ensures isAccepted == checked && ContinueEnabled() == checked
      ensures nextRequests == old(nextRequests)
    {
      isAccepted := checked;
    }

    /** A click on Continue: the wizard is asked to advance only when the terms are accepted. */
    method Continue()
      modifies this
      ensures isAccepted ==> nextRequests == old(nextRequests) + 1
      ensures !isAccepted ==> nextRequests == old(nextRequests)
      ensures isAccepted == old(isAccepted)
    {
      if isAccepted {
        nextRequests := nextRequests + 1;
      }
    }
  }
}
