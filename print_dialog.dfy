/**
 * The print dialog: a copies stepper bounded to 1..5 and, when payments are
 * enabled, a payment that must succeed before the copies are printed.  The
 * payment terminal is outside the model: pressing the button records the
 * amount asked of it, and its answer arrives later as `Settle`.
 */
module PrintDialog {
  datatype PaymentSettings = PaymentSettings(enablePayments: bool, pricePerPrint: real, currency: string)

  datatype Status = Idle | Processing | Success | Error

  const MinCopies := 1
  const MaxCopies := 5
  const FailureMessage := "Payment failed. Please try again."

  /** The minus button. */
  function Decrement(copies: int): int
  {
    if MinCopies >= copies - 1 then MinCopies else copies - 1
  }

  /** The plus button. */
  function Increment(copies: int): int
  {
    if MaxCopies <= copies + 1 then MaxCopies else copies + 1
  }

  /** Both buttons keep the count in range and move it by one where they can. */
  lemma StepperBounds(copies: int)
    requires MinCopies <= copies <= MaxCopies
    ensures MinCopies <= Decrement(copies) <= copies
    ensures copies <= Increment(copies) <= MaxCopies
    ensures copies > MinCopies ==> Decrement(copies) == copies - 1
    ensures copies < MaxCopies ==> Increment(copies) == copies + 1
  {
  }

  /** The count after pressing plus `n` times. */
  function IncrementTimes(copies: int, n: nat): int
  {
    if n == 0 then copies else Increment(IncrementTimes(copies, n - 1))
  }

  /** From one copy, `n` presses of plus reach `1 + n`, stopping at five. */
  lemma {:induction false} IncrementSaturates(n: nat)
    ensures IncrementTimes(MinCopies, n) == if n < MaxCopies - MinCopies then MinCopies + n else MaxCopies
  {
    if n > 0 {
      IncrementSaturates(n - 1);
    }
  }

  /** The amount handed to the terminal: the total in minor currency units. */
  function ChargeAmount(copies: int, pricePerPrint: real): (amount: real)
    ensures pricePerPrint >= 0.0 && copies >= 0 ==> amount >= 0.0
    ensures copies == 0 || pricePerPrint == 0.0 ==> amount == 0.0
  {
    (copies as real * pricePerPrint) * 100.0
  }

  class Dialog {
    const payment: PaymentSettings
    var copies: int
    var status: Status
    var error: string
    /** The count the pending payment will print: the one shown when the button was pressed. */
    var pendingCopies: int
    /** The counts handed to `onPrint`, oldest first. */
    var printed: seq<int>
    /** The amounts the terminal was asked to charge, oldest first. */
    var charges: seq<real>
    /** Whether `onClose` is due after a successful payment. */
    var closeScheduled: bool

    /**
     * The count stays in range, an error message is shown exactly in the
     * error state, every print was of 1 to 5 copies, and with payments on
     * there is never a print without a charge asked for it first.
     */
    predicate Valid()
      reads this
    {
      && MinCopies <= copies <= MaxCopies
      && (status == Error <==> error != "")
      && (status == Processing ==> MinCopies <= pendingCopies <= MaxCopies)
      && (forall i :: 0 <= i < |printed| ==> MinCopies <= printed[i] <= MaxCopies)
      && (payment.enablePayments ==> |printed| + (if status == Processing then 1 else 0) <= |charges|)
    }

    /** `totalAmount`. */
    function TotalAmount(): (total: real)
      reads this
      ensures total * 100.0 == ChargeAmount(copies, payment.pricePerPrint)
    {
      copies as real * payment.pricePerPrint
    }

    constructor (payment: PaymentSettings)
      ensures this.payment == payment && Valid()
      ensures copies == 1 && status == Idle && error == ""
      ensures printed == [] && charges == [] && !closeScheduled
    {
      this.payment := payment;
      copies, status, error := 1, Idle, "";
      pendingCopies, printed, charges, closeScheduled := 0, [], [], false;
    }

    method PressMinus()
      requires Valid()
      modifies this
      ensures Valid()
      ensures copies == Decrement(old(copies))
      ensures status == old(status) && printed == old(printed) && charges == old(charges)
    {
      copies := Decrement(copies);
    }

    method PressPlus()
      requires Valid()
      modifies this
      ensures Valid()
      ensures copies == Increment(old(copies))
      ensures status == old(status) && printed == old(printed) && charges == old(charges)
    {
      copies := Increment(copies);
    }

    /**
     * `handlePayment` up to the terminal: without payments the copies print
     * at once and the status stays as it is; with payments the status turns
     * to processing, the error clears and the total is asked of the terminal.
     * The button is disabled while a payment is processing.
     */
    method PressPay()
      requires Valid() && status != Processing
      modifies this
      ensures Valid()
      ensures copies == old(copies) && closeScheduled == old(closeScheduled)
      ensures !payment.enablePayments ==>
                printed == old(printed) + [copies] && charges == old(charges)
                && status == old(status) && error == old(error)
      ensures payment.enablePayments ==>
                printed == old(printed) && charges == old(charges) + [ChargeAmount(copies, payment.pricePerPrint)]
                && status == Processing && error == "" && pendingCopies == copies
    {
      if !payment.enablePayments {
        printed := printed + [copies];
        return;
      }
      status, error := Processing, "";
      pendingCopies := copies;
      charges := charges + [TotalAmount() * 100.0];
    }

    /**
     * The terminal's answer: on success the copies counted at the press print
     * and closing is scheduled; on failure the error shows and nothing prints.
     */
    method Settle(paid: bool)
      requires Valid() && status == Processing
      modifies this
      ensures Valid()
      ensures copies == old(copies) && charges == old(charges)
      ensures paid ==> status == Success && error == "" && printed == old(printed) + [old(pendingCopies)] && closeScheduled
      ensures !paid ==> status == Error && error == FailureMessage && printed == old(printed) && closeScheduled == old(closeScheduled)
    {
      if paid {
        status := Success;
        printed := printed + [pendingCopies];
        closeScheduled := true;
      } else {
        status, error := Error, FailureMessage;
      }
    }
  }
}
