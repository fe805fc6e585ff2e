/**
 * The checkout dialog of src/components/BookingModal.tsx: step 1 collects
 * name, phone and email; step 2 picks a payment method (and a UPI app);
 * submitting runs three timed phases, each with its status line, and the
 * last one hands the booking details to `onConfirm`, resets the form and
 * asks to be closed.
 *
 * Each `setTimeout` callback is one call of `Tick`. While a payment is being
 * processed an overlay covers the dialog, but it stops only the pointer: the
 * buttons beneath stay reachable from the keyboard, so the other handlers may
 * still run. The timer callbacks read the form, method and app as they were
 * at submit time (the `pending` fields), so such changes do not reach the
 * booking; only the submit button, disabled while loading, is out of reach.
 */
module Modal {

  import opened Wrappers
  import opened Types

  datatype PaymentMethod = Upi | Qr | Card | Cash

  /** The three text inputs of step 1. */
  datatype FormData = FormData(name: string, phone: string, email: string)

  const EMPTY_FORM := FormData("", "", "")

  /** The apps offered under the UPI tab. */
  const UPI_APPS: seq<string> := ["PhonePe", "Google Pay", "Paytm"]

  /** Which timer runs next: none, or the one that follows each status line. */
  datatype Phase = Idle | Connecting | Verifying | Finalizing

  const CONNECTING_STATUS := "Connecting to secure gateway..."
  const VERIFYING_STATUS := "Verifying transaction details..."
  const FINALIZING_CASH_STATUS := "Finalizing booking..."
  const PROCESSING_STATUS := "Processing secure payment..."

  /** The status line shown in each phase; the last one depends on the payment method. */
  function StatusMessage(phase: Phase, pm: PaymentMethod): string {
    match phase
    case Idle => ""
    case Connecting => CONNECTING_STATUS
    case Verifying => VERIFYING_STATUS
    case Finalizing => if pm == Cash then FINALIZING_CASH_STATUS else PROCESSING_STATUS
  }

  /** `payString`: how the booking records the way it was paid. */
  function PaymentLabel(pm: PaymentMethod, upiApp: Option<string>): string {
    match pm
    case Cash => "Cash at Venue"
    case Qr => "QR Scan"
    case Card => "Card"
    case Upi => if upiApp.Some? && upiApp.value != "" then upiApp.value else "UPI ID"
  }

  /** PaymentLabel case by case, as a reader checks it against the source's reassignments,
      and the one fact the cases do not show at a glance: no label is empty. */
  lemma PaymentLabelTable(pm: PaymentMethod, upiApp: Option<string>)
    ensures pm == Cash ==> PaymentLabel(pm, upiApp) == "Cash at Venue"
    ensures pm == Qr ==> PaymentLabel(pm, upiApp) == "QR Scan"
    ensures pm == Card ==> PaymentLabel(pm, upiApp) == "Card"
    ensures pm == Upi && upiApp.Some? && upiApp.value != "" ==> PaymentLabel(pm, upiApp) == upiApp.value
    ensures pm == Upi && upiApp == None ==> PaymentLabel(pm, upiApp) == "UPI ID"
    ensures PaymentLabel(pm, upiApp) != ""
  {
  }

  /** The label assembled as the source does it: start from "Card" and overwrite it for
      the other methods. */
  method ResolvePaymentLabel(pm: PaymentMethod, upiApp: Option<string>) returns (payString: string)
    ensures payString == PaymentLabel(pm, upiApp)
  {
    payString := "Card";
    if pm == Cash {
      payString := "Cash at Venue";
    }
    if pm == Qr {
      payString := "QR Scan";
    }
    if pm == Upi {
      payString := if upiApp.Some? && upiApp.value != "" then upiApp.value else "UPI ID";
    }
  }

  /** The `Partial<Booking>` handed to `onConfirm`: the form fields spread in, plus four more. */
  datatype ConfirmDetails = ConfirmDetails(
    name: string,
    phone: string,
    email: string,
    customerName: string,
    paymentMethod: string,
    amount: int,
    status: Status)

  function Payload(form: FormData, payString: string, price: int): (d: ConfirmDetails) {
    ConfirmDetails(form.name, form.phone, form.email, form.name, payString, price, Confirmed)
  }

  /** The browser submits the details form only when every `required` input is filled. */
  predicate DetailsComplete(form: FormData) {
    form.name != "" && form.phone != "" && form.email != ""
  }

  class BookingModal {
    const turf: Turf
    var step: int
    var formData: FormData
    var paymentMethod: PaymentMethod
    var selectedUpiApp: Option<string>
    var isSubmitting: bool
    var processStatus: string
    var phase: Phase
    // What the pending timer callbacks captured when the payment was submitted.
    var pendingForm: FormData
    var pendingMethod: PaymentMethod
    var pendingApp: Option<string>

    /** Steps 1 and 2 only; a payment is in progress exactly while a timer is pending, and
        the status line always matches the phase and the submitted method. */
    predicate Valid()
      reads this
    {
      && (step == 1 || step == 2)
      && (isSubmitting <==> phase != Idle)
      && processStatus == StatusMessage(phase, pendingMethod)
      && (selectedUpiApp.Some? ==> selectedUpiApp.value in UPI_APPS)
    }

    /** The payment in progress, if any, and what it will confirm are as they were. */
    twostate predicate PaymentUntouched()
      reads this
    {
      && isSubmitting == old(isSubmitting) && phase == old(phase) && processStatus == old(processStatus)
      && pendingForm == old(pendingForm) && pendingMethod == old(pendingMethod) && pendingApp == old(pendingApp)
    }

    /** A freshly opened dialog: step 1, empty form, UPI preselected, no app, nothing running. */
    constructor(turf: Turf)
      ensures Valid() && this.turf == turf
      ensures step == 1 && formData == EMPTY_FORM && paymentMethod == Upi && selectedUpiApp == None
      ensures !isSubmitting && processStatus == "" && phase == Idle
    {
      this.turf := turf;
      step := 1;
      formData := EMPTY_FORM;
      paymentMethod := Upi;
      selectedUpiApp := None;
      isSubmitting := false;
      processStatus := "";
      phase := Idle;
      pendingForm := EMPTY_FORM;
      pendingMethod := Upi;
      pendingApp := None;
    }

    /** Typing into one of the three inputs of step 1 replaces that field only. */
    method EditName(value: string)
      requires Valid() && step == 1
      modifies this
      ensures Valid() && step == 1 && formData == old(formData).(name := value)
      ensures paymentMethod == old(paymentMethod) && selectedUpiApp == old(selectedUpiApp) && PaymentUntouched()
    {
      formData := formData.(name := value);
    }

    method EditPhone(value: string)
      requires Valid() && step == 1
      modifies this
      ensures Valid() && step == 1 && formData == old(formData).(phone := value)
      ensures paymentMethod == old(paymentMethod) && selectedUpiApp == old(selectedUpiApp) && PaymentUntouched()
    {
      formData := formData.(phone := value);
    }

    method EditEmail(value: string)
      requires Valid() && step == 1
      modifies this
      ensures Valid() && step == 1 && formData == old(formData).(email := value)
      ensures paymentMethod == old(paymentMethod) && selectedUpiApp == old(selectedUpiApp) && PaymentUntouched()
    {
      formData := formData.(email := value);
    }

    /** `handleDetailsSubmit`: on to step 2 with the form untouched, once every field is filled. */
    method SubmitDetails()
      requires Valid() && step == 1
      modifies this
      ensures Valid()
      ensures step == (if DetailsComplete(old(formData)) then 2 else 1)
      ensures formData == old(formData) && paymentMethod == old(paymentMethod) && selectedUpiApp == old(selectedUpiApp)
      ensures PaymentUntouched()
    {
      if DetailsComplete(formData) {
        step := 2;
      }
    }

    /** "Back to Details": step 2 to step 1, keeping what was typed. */
    method BackToDetails()
      requires Valid() && step == 2
      modifies this
      ensures Valid() && step == 1
      ensures formData == old(formData) && paymentMethod == old(paymentMethod) && selectedUpiApp == old(selectedUpiApp)
      ensures PaymentUntouched()
    {
      step := 1;
    }

    /** A payment tab: switches the method and keeps any UPI app already chosen. */
    method ChoosePaymentMethod(m: PaymentMethod)
      requires Valid() && step == 2
      modifies this
      ensures Valid() && step == 2 && paymentMethod == m
      ensures formData == old(formData) && selectedUpiApp == old(selectedUpiApp)
      ensures PaymentUntouched()
    {
      paymentMethod := m;
    }

    /** An app under the UPI tab, which is listed only while UPI is the method: records
        exactly that app. */
    method ChooseUpiApp(app: string)
      requires Valid() && step == 2 && paymentMethod == Upi && app in UPI_APPS
      modifies this
      ensures Valid() && step == 2 && selectedUpiApp == Some(app)
      ensures formData == old(formData) && paymentMethod == old(paymentMethod)
      ensures PaymentUntouched()
    {
      selectedUpiApp := Some(app);
    }

    /** `handlePaymentSubmit`: starts the first phase, with the timers capturing the form,
        method and app. While a payment is in progress the submit button is disabled
        (`isLoading`), so a second submit changes nothing. */
    method SubmitPayment()
      requires Valid() && step == 2
      modifies this
      ensures Valid() && isSubmitting && step == 2
      ensures old(isSubmitting) ==> PaymentUntouched()
      ensures !old(isSubmitting) ==>
                && phase == Connecting && processStatus == CONNECTING_STATUS
                && pendingForm == formData && pendingMethod == paymentMethod && pendingApp == selectedUpiApp
      ensures formData == old(formData) && paymentMethod == old(paymentMethod) && selectedUpiApp == old(selectedUpiApp)
    {
      if !isSubmitting {
        pendingForm, pendingMethod, pendingApp := formData, paymentMethod, selectedUpiApp;
        isSubmitting := true;
        phase := Connecting;
        processStatus := CONNECTING_STATUS;
      }
    }

    /** One pending timer fires. The first two move the status line on; the third hands
        `onConfirm` the details captured at submit, clears the form, returns to step 1 and
        asks to close. */
    method Tick() returns (confirmed: Option<ConfirmDetails>, closeRequested: bool)
      requires Valid() && isSubmitting
      modifies this
      ensures Valid()
      ensures old(phase) == Connecting ==>
                phase == Verifying && processStatus == VERIFYING_STATUS && confirmed == None && !closeRequested
      ensures old(phase) == Verifying ==>
                phase == Finalizing && confirmed == None && !closeRequested
                && processStatus == (if pendingMethod == Cash then FINALIZING_CASH_STATUS else PROCESSING_STATUS)
      ensures old(phase) == Finalizing ==>
                && confirmed == Some(Payload(old(pendingForm), PaymentLabel(old(pendingMethod), old(pendingApp)), turf.price))
                && closeRequested
                && phase == Idle && !isSubmitting && processStatus == "" && step == 1 && formData == EMPTY_FORM
      ensures old(phase) != Finalizing ==> step == old(step) && formData == old(formData)
      ensures paymentMethod == old(paymentMethod) && selectedUpiApp == old(selectedUpiApp)
      ensures pendingForm == old(pendingForm) && pendingMethod == old(pendingMethod) && pendingApp == old(pendingApp)
    {
      confirmed, closeRequested := None, false;
      match phase
      case Connecting =>
        phase := Verifying;
        processStatus := VERIFYING_STATUS;
      case Verifying =>
        phase := Finalizing;
        processStatus := if pendingMethod == Cash then FINALIZING_CASH_STATUS else PROCESSING_STATUS;
      case Finalizing =>
        var payString := ResolvePaymentLabel(pendingMethod, pendingApp);
        confirmed := Some(Payload(pendingForm, payString, turf.price));
        isSubmitting := false;
        processStatus := "";
        closeRequested := true;
        step := 1;
        formData := EMPTY_FORM;
        phase := Idle;
    }

    /** A payment from submit to the last timer: the three status lines appear in order,
        `onConfirm` receives the details exactly once, and the dialog resets and asks to close. */
    method Pay() returns (statuses: seq<string>, confirmations: seq<ConfirmDetails>, closeRequested: bool)
      requires Valid() && step == 2 && !isSubmitting
      modifies this
      ensures statuses == [CONNECTING_STATUS, VERIFYING_STATUS,
                           if old(paymentMethod) == Cash then FINALIZING_CASH_STATUS else PROCESSING_STATUS]
      ensures confirmations == [Payload(old(formData), PaymentLabel(old(paymentMethod), old(selectedUpiApp)), turf.price)]
      ensures closeRequested
      ensures Valid() && step == 1 && formData == EMPTY_FORM && !isSubmitting && processStatus == ""
    {
      SubmitPayment();
      statuses := [processStatus];
      confirmations := [];
      var phaseCount := 0;
      closeRequested := false;
      while isSubmitting
        invariant Valid()
        invariant pendingForm == old(formData) && pendingMethod == old(paymentMethod) && pendingApp == old(selectedUpiApp)
        invariant isSubmitting ==> step == 2 && !closeRequested
        invariant isSubmitting ==> phaseCount < 3 && phase == [Connecting, Verifying, Finalizing][phaseCount]
        invariant isSubmitting ==> confirmations == []
        invariant phaseCount <= 2 && |statuses| == phaseCount + 1
        invariant forall k :: 0 <= k < |statuses| ==>
                    statuses[k] == StatusMessage([Connecting, Verifying, Finalizing][k], pendingMethod)
        invariant !isSubmitting ==>
                    && phaseCount == 2 && closeRequested && step == 1 && formData == EMPTY_FORM
                    && confirmations == [Payload(old(formData), PaymentLabel(old(paymentMethod), old(selectedUpiApp)), turf.price)]
        decreases if isSubmitting then 3 - phaseCount else 0
      {
        var confirmed, close := Tick();
        if isSubmitting {
          statuses := statuses + [processStatus];
          phaseCount := phaseCount + 1;
        } else {
          confirmations := confirmations + [confirmed.value];
          closeRequested := close;
        }
      }
    }

    /** Going back mid-payment and retyping the name (the keyboard still reaches the dialog
        under the overlay) does not change the booking: the last timer confirms what was
        submitted, under the method and app chosen then. */
    method RetypeNameDuringPayment(newName: string) returns (confirmation: ConfirmDetails)
      requires Valid() && step == 2 && !isSubmitting
      modifies this
      ensures confirmation == Payload(old(formData), PaymentLabel(old(paymentMethod), old(selectedUpiApp)), turf.price)
      ensures Valid() && step == 1 && formData == EMPTY_FORM && !isSubmitting
    {
      SubmitPayment();
      BackToDetails();
      EditName(newName);
      var c1, _ := Tick();
      var c2, _ := Tick();
      var c3, _ := Tick();
      confirmation := c3.value;
    }
  }
}
