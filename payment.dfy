/** The payment step: billing fields, the fixed fee total in Bahraini dinars, and the
    "processing" flag around the simulated payment. */
module Payment {
  import Text

  datatype PaymentDetails = PaymentDetails(firstName: string, lastName: string, email: string, amount: int)

  /** The fields the form edits; `amount` is not one of them. */
  datatype PaymentField = FirstName | LastName | Email

  function FieldValue(p: PaymentDetails, f: PaymentField): string
  {
    match f
    case FirstName => p.firstName
    case LastName => p.lastName
    case Email => p.email
  }

  /** `handleInputChange`: the named field takes the value; the other fields and the amount keep
      theirs. */
  function WithField(p: PaymentDetails, field: PaymentField, value: string): (r: PaymentDetails)
    ensures FieldValue(r, field) == value
    ensures forall f :: f != field ==> FieldValue(r, f) == FieldValue(p, f)
    ensures r.amount == p.amount
  {
    match field
    case FirstName => p.(firstName := value)
    case LastName => p.(lastName := value)
    case Email => p.(email := value)
  }

  /** `isFormComplete`: first name, last name and email are all non-empty. */
  predicate IsFormComplete(p: PaymentDetails)
  {
    p.firstName != "" && p.lastName != "" && p.email != ""
  }

  /** Amounts in fils (1 BD = 1000 fils), so the sum is exact. */
  const ServiceFeeFils: nat := 35000
  const PreVerificationFeeFils: nat := 10000
  const ProcessingFeeFils: nat := 5000

  /** `totalAmount`: the three fees together, BD 50.000 whatever service was chosen. */
  function TotalFils(): (total: nat)
    ensures total == 50000
  {
    ServiceFeeFils + PreVerificationFeeFils + ProcessingFeeFils
  }

  /** The total as `toFixed(3)` renders it. */
  lemma TotalText()
    ensures Text.Fixed(TotalFils(), 3) == "50.000"
  {
    calc {
      Text.Fixed(TotalFils(), 3);
    == { assert Text.Pow10(2) == 100; Text.FixedWhole(TotalFils(), 50, 3); }
      Text.DecimalString(50) + "." + Text.Zeros(3);
    == { FiftyDinarsText(); }
      "50.000";
    }
  }

  lemma FiftyDinarsText()
    ensures Text.DecimalString(50) + "." + Text.Zeros(3) == "50.000"
  {
    Text.TwoDigits(50);
    assert Text.Zeros(3) == "000";
  }

  class Panel {
    var payment: PaymentDetails
    var processing: bool
    var paymentMethod: string
    /** Payments started whose simulated completion has not fired yet. */
    var pendingPayments: nat
    /** How many times the step asked the wizard to advance. */
    var nextRequests: nat
    /** How many times the step asked the wizard to go back. */
    var previousRequests: nat

    constructor (payment: PaymentDetails)
      ensures this.payment == payment && !processing && paymentMethod == "card"
      ensures pendingPayments == 0 && nextRequests == 0 && previousRequests == 0
    {
      this.payment := payment;
      processing := false;
      paymentMethod := "card";
      pendingPayments := 0;
      nextRequests := 0;
      previousRequests := 0;
    }

    /** The pay button is enabled iff the form is complete and no payment is processing. */
    function PayEnabled(): (enabled: bool)
      reads this
      ensures enabled <==> IsFormComplete(payment) && !processing
      ensures enabled ==> payment.firstName != "" && payment.lastName != "" && payment.email != ""
    {
      IsFormComplete(payment) && !processing
    }

    /** The previous button is disabled while a payment is processing. */
    function PreviousEnabled(): (enabled: bool)
      reads this
      ensures enabled <==> !processing
    {
      !processing
    }

    method InputChange(field: PaymentField, value: string)
      modifies this
      ensures payment == WithField(old(payment), field, value)
      ensures processing == old(processing) && pendingPayments == old(pendingPayments)
      ensures nextRequests == old(nextRequests) && paymentMethod == old(paymentMethod)
      ensures previousRequests == old(previousRequests)
    {
      payment := WithField(payment, field, value);
    }

    method SelectCard()
      modifies this
      ensures paymentMethod == "card"
      ensures payment == old(payment) && processing == old(processing)
      ensures pendingPayments == old(pendingPayments) && nextRequests == old(nextRequests)
      ensures previousRequests == old(previousRequests)
    {
      paymentMethod := "card";
    }

    /** `handlePayment`: processing starts and the completion is scheduled. */
    method HandlePayment()
      modifies this
      ensures processing && pendingPayments == old(pendingPayments) + 1
      ensures payment == old(payment) && nextRequests == old(nextRequests)
      ensures paymentMethod == old(paymentMethod)
      ensures previousRequests == old(previousRequests)
    {
      processing := true;
      pendingPayments := pendingPayments + 1;
    }

    /** The scheduled completion: processing ends and the wizard is asked to advance once. */
    method PaymentCompleted()
      requires pendingPayments > 0
      modifies this
      ensures !processing && pendingPayments == old(pendingPayments) - 1
      ensures nextRequests == old(nextRequests) + 1
      ensures payment == old(payment) && paymentMethod == old(paymentMethod)
      ensures previousRequests == old(previousRequests)
    {
      processing := false;
      pendingPayments := pendingPayments - 1;
      nextRequests := nextRequests + 1;
    }

    /** A click on the pay button: only an enabled button starts a payment, so no second payment
        starts while one is processing. */
    method ClickPay()
      modifies this
      ensures old(PayEnabled()) ==> processing && pendingPayments == old(pendingPayments) + 1
      ensures !old(PayEnabled()) ==> processing == old(processing) && pendingPayments == old(pendingPayments)
      ensures payment == old(payment) && paymentMethod == old(paymentMethod)
      ensures nextRequests == old(nextRequests) && previousRequests == old(previousRequests)
    {
      if PayEnabled() {
        HandlePayment();
      }
    }

    /** A click on the previous button: the wizard is asked to go back unless a payment is
        processing. */
    method ClickPrevious()
      modifies this
      ensures previousRequests == if old(PreviousEnabled()) then old(previousRequests) + 1 else old(previousRequests)
      ensures payment == old(payment) && processing == old(processing) && paymentMethod == old(paymentMethod)
      ensures pendingPayments == old(pendingPayments) && nextRequests == old(nextRequests)
    {
      if PreviousEnabled() {
        previousRequests := previousRequests + 1;
      }
    }
  }

  /** Clicking pay twice on a complete form starts one payment only; its completion advances
      the wizard once, and going back is refused while it is processing. */
  method DoubleClickPaysOnce(details: PaymentDetails) returns (panel: Panel)
    requires IsFormComplete(details)
    ensures panel.nextRequests == 1 && panel.previousRequests == 0
    ensures panel.pendingPayments == 0 && !panel.processing
  {
    panel := new Panel(details);
    panel.ClickPay();
    panel.ClickPay();
    panel.ClickPrevious();
    panel.PaymentCompleted();
  }
}
