/** The payment side of the apps, reduced to decisions over values. The network calls themselves
    (the SDK's `client.ask`, the HTTP token and payment requests) are not modelled: their outcome
    is an input.

    - `SendPaymentSdk` is app.py's `send_payman_payment_sdk`: its guards, then the classification
      of whatever `client.ask` returned.
    - `SendPaymentDirect` is the `send_payman_payment` that is in force in pay2.py (the second
      definition): its guards, with the outcome after authentication taken as an input. */
module Payment {
  import opened Text

  /** What `client.ask` produced: a dictionary (only the keys the classifier reads, each absent or
      a string), a plain string, any other object, or an exception. */
  datatype AskResponse =
    | Dict(status: Option<string>, state: Option<string>, paymentStatus: Option<string>,
           message: Option<string>, error: Option<string>, detail: Option<string>,
           transactionId: Option<string>, id: Option<string>)
    | Str(text: string)
    | Other
    | Raised

  /** Why a payment did not go through; each carries what the source puts into its message. */
  datatype FailureReason =
    | ClientNotInitialized
    | PayeeRequired
    | RejectedByStatus(info: string)
    | RejectedByText(response: string)
    | SdkFailure
    | AuthenticationFailed

  /** The `{"status": "success" | "error", ...}` dictionary the payment functions return. */
  datatype PaymentResult =
    | Success(transactionId: Option<string>)
    | Failure(reason: FailureReason)

  /** What happens in pay2.py's `send_payman_payment` after its destination guard: the token
      request fails, or it succeeds and the payment has some outcome. */
  datatype Transport = AuthenticationFails | Authenticated(outcome: PaymentResult)

  /** The payment a caller asks for: `destination_id`, `amount`, `memo` and `currency`. app.py
      turns it into the command `Send {amount} {currency} to payee with ID {destination}. Memo:
      {memo}` for `client.ask`; pay2.py's first definition puts it into the JSON body of the
      payment request. */
  datatype PaymentOrder = PaymentOrder(destination: string, amount: real, currency: string, memo: string)

  /** Whether app.py's function hands the order to `client.ask`: only past both guards. */
  predicate SdkAsks(clientPresent: bool, order: PaymentOrder) {
    clientPresent && order.destination != ""
  }

  /** Whether pay2.py's function gets as far as paying: past the destination guard and the token
      request. */
  predicate DirectPays(order: PaymentOrder, transport: Transport) {
    order.destination != "" && transport.Authenticated?
  }

  const ConfirmedByText := "Confirmed via AI response"
  const NotAvailable := "N/A"

  /** The keyword occurs in the lower-cased response text. */
  ghost predicate Mentions(text: string, keyword: string) {
    exists i :: OccursAt(Lower(text), keyword, i)
  }

  /** `keyword in text.lower()`, checked by scanning. */
  function MentionsScan(text: string, keyword: string): (b: bool)
    ensures b <==> Mentions(text, keyword)
  {
    ContainsIffOccurs(Lower(text), keyword);
    Contains(Lower(text), keyword)
  }

  /** `response.get('status') or response.get('state') or response.get('payment_status')` */
  function StatusOf(response: AskResponse): (status: Option<string>)
    requires response.Dict?
    ensures Truthy(status) <==> Truthy(response.status) || Truthy(response.state) || Truthy(response.paymentStatus)
    ensures Truthy(response.status) ==> status == response.status
    ensures !Truthy(response.status) ==> status == Or(response.state, response.paymentStatus)
  {
    Or(Or(response.status, response.state), response.paymentStatus)
  }

  /** `response.get('message') or response.get('error') or response.get('detail')` */
  function MessageOf(response: AskResponse): (message: Option<string>)
    requires response.Dict?
    ensures Truthy(message) <==> Truthy(response.message) || Truthy(response.error) || Truthy(response.detail)
    ensures Truthy(response.message) ==> message == response.message
    ensures !Truthy(response.message) ==> message == Or(response.error, response.detail)
  {
    Or(Or(response.message, response.error), response.detail)
  }

  /** The response carries an explicit rejection: a dictionary whose first non-empty status field,
      lower-cased, is one of rejected/failed/declined, or a text mentioning one of those words in
      any case. */
  ghost predicate RejectionSignal(response: AskResponse) {
    match response
    case Dict(_, _, _, _, _, _, _, _) =>
      var status := StatusOf(response);
      Truthy(status) && Lower(status.value) in {"rejected", "failed", "declined"}
    case Str(text) =>
      Mentions(text, "rejected") || Mentions(text, "failed") || Mentions(text, "declined")
    case Other => false
    case Raised => false
  }

  /** A text response reads as a confirmation: it mentions sent, success or completed. */
  ghost predicate ConfirmationText(text: string) {
    Mentions(text, "sent") || Mentions(text, "success") || Mentions(text, "completed")
  }

  /** `send_payman_payment_sdk(client, destination_id, amount, memo, currency)`, with `response`
      what `client.ask` answered to the order's command (it is not consulted when a guard
      refuses, since the command is then never sent). */
  function SendPaymentSdk(clientPresent: bool, order: PaymentOrder, response: AskResponse): (r: PaymentResult)
    ensures !clientPresent ==> r == Failure(ClientNotInitialized)
    ensures clientPresent && order.destination == "" ==> r == Failure(PayeeRequired)
    ensures SdkAsks(clientPresent, order) && response.Raised? ==> r == Failure(SdkFailure)
    ensures SdkAsks(clientPresent, order) && !response.Raised? ==>
      (r.Failure? <==> RejectionSignal(response))
    ensures SdkAsks(clientPresent, order) && response.Dict? && r.Failure? ==>
      r.reason == RejectedByStatus(if Truthy(MessageOf(response)) then MessageOf(response).value
                                   else "Status: " + StatusOf(response).value)
    ensures SdkAsks(clientPresent, order) && response.Str? && r.Failure? ==>
      r.reason == RejectedByText(response.text)
    ensures r.Success? && response.Dict? ==> r.transactionId == Or(response.transactionId, response.id)
    ensures r.Success? && response.Str? ==>
      r.transactionId == Some(if ConfirmationText(response.text) then ConfirmedByText else NotAvailable)
    ensures r.Success? && response.Other? ==> r.transactionId == Some(NotAvailable)
  {
    if !clientPresent then Failure(ClientNotInitialized)
    else if order.destination == "" then Failure(PayeeRequired)
    else
      match response
      case Raised => Failure(SdkFailure)
      case Dict(_, _, _, _, _, _, _, _) =>
        var status := StatusOf(response);
        var message := MessageOf(response);
        if Truthy(status) && Lower(status.value) in {"rejected", "failed", "declined"} then
          Failure(RejectedByStatus(if Truthy(message) then message.value else "Status: " + status.value))
        else
          Success(Or(response.transactionId, response.id))
      case Str(text) =>
        if MentionsScan(text, "rejected") || MentionsScan(text, "failed") || MentionsScan(text, "declined") then
          Failure(RejectedByText(text))
        else if MentionsScan(text, "sent") || MentionsScan(text, "success") || MentionsScan(text, "completed") then
          Success(Some(ConfirmedByText))
        else
          Success(Some(NotAvailable))
      case Other => Success(Some(NotAvailable))
  }

  /** The guards of pay2.py's `send_payman_payment(destination_id, amount, memo, currency)`: the
      destination is checked before any authentication is attempted. */
  function SendPaymentDirect(order: PaymentOrder, transport: Transport): (r: PaymentResult)
    ensures order.destination == "" ==> r == Failure(PayeeRequired)
    ensures order.destination != "" && transport.AuthenticationFails? ==> r == Failure(AuthenticationFailed)
    ensures DirectPays(order, transport) ==> r == transport.outcome
  {
    if order.destination == "" then Failure(PayeeRequired)
    else
      match transport
      case AuthenticationFails => Failure(AuthenticationFailed)
      case Authenticated(outcome) => outcome
  }

  /** Text classification ignores case: two texts that lower-case alike are classified alike. */
  lemma {:induction false} TextCaseInsensitive(order: PaymentOrder, a: string, b: string)
    requires Lower(a) == Lower(b)
    ensures SendPaymentSdk(true, order, Str(a)) == SendPaymentSdk(true, order, Str(b))
              || (SendPaymentSdk(true, order, Str(a)) == Failure(RejectedByText(a))
                  && SendPaymentSdk(true, order, Str(b)) == Failure(RejectedByText(b)))
  {
  }

  /** The rejection words are looked for before the success words: a text that says both is a
      rejection. */
  lemma RejectionBeforeSuccess(order: PaymentOrder, text: string)
    requires order.destination != ""
    requires Mentions(text, "failed") && Mentions(text, "success")
    ensures SendPaymentSdk(true, order, Str(text)) == Failure(RejectedByText(text))
  {
  }

  /** With no explicit rejection the answer is success: the optimistic default. */
  lemma OptimisticDefault(order: PaymentOrder, response: AskResponse)
    requires order.destination != "" && !response.Raised? && !RejectionSignal(response)
    ensures SendPaymentSdk(true, order, response).Success?
  {
  }

  /** Python's `or` skips empty strings: an empty `status` falls through to `state`. */
  lemma EmptyStatusFallsThrough(order: PaymentOrder)
    requires order.destination != ""
    ensures SendPaymentSdk(true, order,
              Dict(Some(""), Some("Declined"), None, None, None, None, Some("tx-1"), None))
            == Failure(RejectedByStatus("Status: Declined"))
  {
    var response := Dict(Some(""), Some("Declined"), None, None, None, None, Some("tx-1"), None);
    assert StatusOf(response) == Some("Declined");
    assert MessageOf(response) == None;
    assert Lower("Declined") == "declined";
  }

  /** The status keys are read in order: a truthy `state` wins over a rejecting `payment_status`. */
  lemma StateBeforePaymentStatus(order: PaymentOrder)
    requires order.destination != ""
    ensures SendPaymentSdk(true, order, Dict(None, Some("ok"), Some("failed"), None, None, None, None, None)).Success?
  {
    var response := Dict(None, Some("ok"), Some("failed"), None, None, None, None, None);
    assert StatusOf(response) == Some("ok");
    assert Lower("ok") == "ok";
  }

  /** A text rejection in capitals is still a rejection. */
  lemma UpperCaseRejection()
    ensures SendPaymentSdk(true, PaymentOrder("payee_1", 5.0, "TSD", "Growth bonus"), Str("DECLINED"))
         == Failure(RejectedByText("DECLINED"))
  {
    assert Lower("DECLINED") == "declined";
    assert OccursAt(Lower("DECLINED"), "declined", 0);
  }
}
