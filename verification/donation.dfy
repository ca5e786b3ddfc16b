/** Creating donations (hooks/useDonation.ts): the payloads sent to the
    `createPaymentIntent` and `createSubscription` callables, the frequency
    precondition of a subscription, the translation of a callable's error into
    the message shown, and the hook's `loading` and `error` state. The callables
    themselves are outside the model; their outcome is a parameter. */
module Donation {
  import opened Wrappers
  import opened JsText
  import opened Callable

  // ---------------------------------------------------------------------------
  // callable errors
  // ---------------------------------------------------------------------------

  /** Which of the two creations failed; they differ only in two messages. */
  datatype Creation = OneTime | Recurring

  function NotFoundMessage(kind: Creation): string {
    match kind
    case OneTime => "Payment service not available"
    case Recurring => "Subscription service not available"
  }

  function FallbackMessage(kind: Creation): string {
    match kind
    case OneTime => "Failed to create donation"
    case Recurring => "Failed to create subscription"
  }

  const Unauthenticated: string := "functions/unauthenticated"
  const PermissionDenied: string := "functions/permission-denied"
  const NotFound: string := "functions/not-found"

  predicate KnownCode(code: Option<string>) {
    code == Some(Unauthenticated) || code == Some(PermissionDenied) || code == Some(NotFound)
  }

  /** The message stored and rethrown for a failed creation: one fixed text for
      each of the three known codes, otherwise the error's own message when it is
      non-empty, otherwise the creation's fallback. It is never empty. */
  function ErrorMessage(kind: Creation, err: CallableError): (msg: string)
    ensures msg != ""
    ensures err.code == Some(Unauthenticated) ==> msg == "Authentication required"
    ensures err.code == Some(PermissionDenied) ==> msg == "Permission denied"
    ensures err.code == Some(NotFound) ==> msg == NotFoundMessage(kind)
    ensures !KnownCode(err.code) && Truthy(err.message) ==> msg == err.message.value
    ensures !KnownCode(err.code) && !Truthy(err.message) ==> msg == FallbackMessage(kind)
  {
    if err.code == Some(Unauthenticated) then "Authentication required"
    else if err.code == Some(PermissionDenied) then "Permission denied"
    else if err.code == Some(NotFound) then NotFoundMessage(kind)
    else OrElse(err.message, FallbackMessage(kind))
  }

  /** The two creations translate errors alike except for 'functions/not-found'
      and for an error with neither a known code nor a message. */
  lemma CreationsDifferOnlyInTwoMessages(err: CallableError)
    ensures ErrorMessage(OneTime, err) != ErrorMessage(Recurring, err) <==>
      err.code == Some(NotFound) || (!KnownCode(err.code) && !Truthy(err.message))
  {
  }

  /** A known code takes precedence over the error's own message. */
  lemma CodeBeatsMessage(kind: Creation, code: string, message: Option<string>)
    requires KnownCode(Some(code))
    ensures ErrorMessage(kind, CallableError(Some(code), message)) == ErrorMessage(kind, CallableError(Some(code), None))
  {
  }

  // ---------------------------------------------------------------------------
  // form and payloads
  // ---------------------------------------------------------------------------

  datatype Frequency = Weekly | Fortnightly | Monthly | Yearly

  /** `DonationFormData`, with the `campaignId` the hook also reads. The amount is
      in dollars. */
  datatype DonationForm = DonationForm(
    amount: real,
    donationType: string,
    donationTypeLabel: string,
    isRecurring: bool,
    frequency: Option<Frequency>,
    donorName: string,
    donorEmail: string,
    donorPhone: string,
    donorMessage: Option<string>,
    campaignId: Option<string>)

  /** `Math.round(amount * 100)` in exact arithmetic: the nearest whole number of
      cents, halves rounded up. */
  function Cents(amount: real): (cents: int)
    ensures amount * 100.0 - 0.5 < cents as real <= amount * 100.0 + 0.5
  {
    (amount * 100.0 + 0.5).Floor
  }

  /** An amount that is a whole number of cents converts to exactly that many. */
  lemma CentsOfWholeCents(cents: int)
    ensures Cents(cents as real / 100.0) == cents
  {
    assert (cents as real / 100.0) * 100.0 == cents as real;
  }

  /** The argument of `createPaymentIntent`. */
  datatype PaymentIntentPayload = PaymentIntentPayload(
    amount: int,
    donor_name: string,
    donor_email: string,
    donor_phone: string,
    donation_type_id: string,
    donation_type_label: string,
    campaign_id: string,
    donor_message: Option<string>)

  /** The argument of `createSubscription`: it has a frequency and no message. */
  datatype SubscriptionPayload = SubscriptionPayload(
    amount: int,
    frequency: Frequency,
    donor_name: string,
    donor_email: string,
    donor_phone: string,
    donation_type_id: string,
    donation_type_label: string,
    campaign_id: string)

  function PaymentIntentPayloadFor(form: DonationForm): PaymentIntentPayload {
    PaymentIntentPayload(
      Cents(form.amount), form.donorName, form.donorEmail, form.donorPhone,
      form.donationType, form.donationTypeLabel, OrElse(form.campaignId, ""), form.donorMessage)
  }

  function SubscriptionPayloadFor(form: DonationForm, frequency: Frequency): SubscriptionPayload {
    SubscriptionPayload(
      Cents(form.amount), frequency, form.donorName, form.donorEmail, form.donorPhone,
      form.donationType, form.donationTypeLabel, OrElse(form.campaignId, ""))
  }

  /** The two payloads carry the same amount, donor and type fields and campaign
      id; the campaign id is empty exactly when the form has none or an empty
      one; only the one-time payload carries the donor's message. */
  lemma PayloadsAgree(form: DonationForm, frequency: Frequency)
    ensures var p := PaymentIntentPayloadFor(form);
      var s := SubscriptionPayloadFor(form, frequency);
      && p.amount == s.amount
      && p.donor_name == s.donor_name == form.donorName
      && p.donor_email == s.donor_email == form.donorEmail
      && p.donor_phone == s.donor_phone == form.donorPhone
      && p.donation_type_id == s.donation_type_id == form.donationType
      && p.donation_type_label == s.donation_type_label == form.donationTypeLabel
      && p.campaign_id == s.campaign_id
      && (p.campaign_id == "" <==> !Truthy(form.campaignId))
      && (Truthy(form.campaignId) ==> p.campaign_id == form.campaignId.value)
      && p.donor_message == form.donorMessage
      && s.frequency == frequency
  {
  }

  // ---------------------------------------------------------------------------
  // the hook
  // ---------------------------------------------------------------------------

  datatype PaymentIntentResponse = PaymentIntentResponse(clientSecret: string, paymentIntentId: string)
  datatype SubscriptionResponse = SubscriptionResponse(clientSecret: string, subscriptionId: string, customerId: string)

  const FrequencyRequired: string := "Frequency is required for recurring donations"

  /** A missing frequency is thrown inside the `try` as a plain error; the catch
      passes its message through, so that is what the user sees. */
  lemma MissingFrequencyMessage()
    ensures ErrorMessage(Recurring, CallableError(None, Some(FrequencyRequired))) == FrequencyRequired
  {
  }

  /** The hook's `loading` and `error` state (settings and the donation list are
      left out). */
  class DonationHook {
    var loading: bool
    var error: Option<string>

    constructor()
      ensures !loading && error == None
    {
      loading := false;
      error := None;
    }

    /** `createDonation`: always invokes the callable with the one-time payload;
        on failure the translated message is stored and thrown. Loading is off
        afterwards either way. */
    method CreateDonation(form: DonationForm, call: CallOutcome<PaymentIntentResponse>)
      returns (sent: PaymentIntentPayload, result: Result<PaymentIntentResponse, string>)
      modifies this
      ensures sent == PaymentIntentPayloadFor(form)
      ensures call.Returned? ==> result == Success(call.value) && error == None
      ensures call.Threw? ==>
        result == Failure(ErrorMessage(OneTime, call.error)) && error == Some(result.error)
      ensures !loading
    {
      loading := true;
      error := None;
      sent := PaymentIntentPayloadFor(form);
      match call {
        case Returned(response) =>
          loading := false;
          result := Success(response);
        case Threw(err) =>
          loading := false;
          var errorMessage := ErrorMessage(OneTime, err);
          error := Some(errorMessage);
          result := Failure(errorMessage);
      }
    }

    /** `createSubscription`: without a frequency the callable is not invoked and
        the frequency message is stored and thrown; otherwise as for a one-time
        donation, with the subscription payload and messages. */
    method CreateSubscription(form: DonationForm, call: CallOutcome<SubscriptionResponse>)
      returns (sent: Option<SubscriptionPayload>, result: Result<SubscriptionResponse, string>)
      modifies this
      ensures form.frequency.None? ==>
        sent.None? && result == Failure(FrequencyRequired) && error == Some(FrequencyRequired)
      ensures form.frequency.Some? ==> sent == Some(SubscriptionPayloadFor(form, form.frequency.value))
      ensures form.frequency.Some? && call.Returned? ==> result == Success(call.value) && error == None
      ensures form.frequency.Some? && call.Threw? ==>
        result == Failure(ErrorMessage(Recurring, call.error)) && error == Some(result.error)
      ensures !loading
    {
      loading := true;
      error := None;
      var thrown: CallableError;
      if form.frequency.None? {
        sent := None;
        thrown := CallableError(None, Some(FrequencyRequired));
      } else {
        var payload := SubscriptionPayloadFor(form, form.frequency.value);
        sent := Some(payload);
        if call.Returned? {
          loading := false;
          return sent, Success(call.value);
        }
        thrown := call.error;
      }
      loading := false;
      var errorMessage := ErrorMessage(Recurring, thrown);
      error := Some(errorMessage);
      result := Failure(errorMessage);
    }
  }

  /** A failed attempt's error is cleared by the next successful one. */
  method RetryClearsError(form: DonationForm, err: CallableError, response: PaymentIntentResponse)
    returns (first: Option<string>, second: Option<string>)
    ensures first == Some(ErrorMessage(OneTime, err))
    ensures second == None
  {
    var hook := new DonationHook();
    var _, _ := hook.CreateDonation(form, Threw(err));
    first := hook.error;
    var _, _ := hook.CreateDonation(form, Returned(response));
    second := hook.error;
  }
}
