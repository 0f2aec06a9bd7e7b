/** The payment webhook: an ordered chain of guards (signature header, configured secret,
    signature verification), a switch on the event type, and for a completed checkout the
    set-based update "status = PAID where stripe_session_id = the session's id" over the
    orders table. Verification is an oracle parameter; the table is held in memory. */
module StripeWebhookRoute {
  import opened Common

  /** A row of the `orders` table. */
  datatype Order = Order(
    id: string,
    userId: string,
    number: string,
    total: int,
    currency: string,
    status: string,
    itemsSummary: string,
    stripeSessionId: Option<string>,
    createdAt: string)

  /** A verified event: its type and the id of the checkout session in `data.object`. */
  datatype Event = Event(eventType: string, sessionId: string)

  /** What `constructEvent` does with the body, the signature and the secret: return the
      event, or throw (with the error's message, if it has one). */
  datatype Verification = Verified(event: Event) | VerificationFailed(message: Option<string>)

  /** What the database update reports: success, an `error` in its result, or an exception. */
  datatype UpdateOutcome = UpdateApplied | UpdateReportedError | UpdateThrew

  /** A plain-text response with a status, or the JSON acknowledgement `{ received: true }`. */
  datatype Response = TextResponse(status: int, text: string) | Received

  /** What the guard chain and the event switch decide to do. */
  datatype Decision = Reject(status: int, text: string) | MarkPaid(sessionId: string) | Ignore(eventType: string)

  const COMPLETED_EVENT := "checkout.session.completed"
  const PAID := "PAID"

  /** `err?.message ?? "Invalid signature"`: only a missing message is replaced; an empty
      one is kept. */
  function VerificationErrorText(message: Option<string>): (r: string)
    ensures |r| >= 15 && r[..15] == "Webhook Error: "
    ensures message.Some? ==> r == "Webhook Error: " + message.value
    ensures message.None? ==> r == "Webhook Error: Invalid signature"
  {
    "Webhook Error: " + match message case Some(m) => m case None => "Invalid signature"
  }

  /** The guard chain and the event switch. `signature` is the `stripe-signature` header,
      `secret` the configured webhook secret, `verify` the provider's signature check. */
  function Decide(signature: Option<string>, secret: Option<string>, verify: (string, string) -> Verification): (d: Decision)
    ensures (signature.None? || signature.value == "") <==> d == Reject(400, "Missing stripe-signature header")
    ensures signature.Some? && signature.value != "" && (secret.None? || secret.value == "") ==>
              d == Reject(500, "Webhook secret not configured")
    ensures d.MarkPaid? <==>
              signature.Some? && signature.value != "" && secret.Some? && secret.value != "" &&
              verify(signature.value, secret.value).Verified? &&
              verify(signature.value, secret.value).event.eventType == COMPLETED_EVENT
    ensures signature.Some? && signature.value != "" && secret.Some? && secret.value != "" &&
            verify(signature.value, secret.value).VerificationFailed? ==>
              d == Reject(400, VerificationErrorText(verify(signature.value, secret.value).message))
    ensures d.MarkPaid? ==> d.sessionId == verify(signature.value, secret.value).event.sessionId
  {
    if signature.None? || signature.value == "" then Reject(400, "Missing stripe-signature header")
    else if secret.None? || secret.value == "" then Reject(500, "Webhook secret not configured")
    else match verify(signature.value, secret.value)
      case VerificationFailed(message) =>
        var text := VerificationErrorText(message);
        assert text[0] == 'W';
        Reject(400, text)
      case Verified(event) =>
        if event.eventType == COMPLETED_EVENT then MarkPaid(event.sessionId) else Ignore(event.eventType)
  }

  /** The response for a decision: the rejection's text and status, or the acknowledgement. */
  function Respond(d: Decision): (r: Response)
    ensures r.Received? <==> !d.Reject?
    ensures d.Reject? ==> r == TextResponse(d.status, d.text)
  {
    match d
    case Reject(status, text) => TextResponse(status, text)
    case _ => Received
  }

  /** The rows a completed session's update selects: those whose session id equals it. */
  predicate Selected(order: Order, sessionId: string) {
    order.stripeSessionId == Some(sessionId)
  }

  /** `update({ status: "PAID" }).eq("stripe_session_id", sessionId)` as a function of the table. */
  function MarkedPaid(orders: seq<Order>, sessionId: string): seq<Order> {
    seq(|orders|, k requires 0 <= k < |orders| =>
      if Selected(orders[k], sessionId) then orders[k].(status := PAID) else orders[k])
  }

  /** The update sets PAID on exactly the selected rows and changes nothing else: no other
      field of a selected row, and no field of any other row. */
  lemma MarkedPaidExact(orders: seq<Order>, sessionId: string)
    ensures |MarkedPaid(orders, sessionId)| == |orders|
    ensures forall k :: 0 <= k < |orders| ==>
              var r := MarkedPaid(orders, sessionId)[k];
              (Selected(orders[k], sessionId) ==> r.status == PAID) &&
              (!Selected(orders[k], sessionId) ==> r == orders[k]) &&
              r.(status := orders[k].status) == orders[k]
  {
  }

  /** Delivering the same completed event twice leaves the table as one delivery does. */
  lemma MarkedPaidIdempotent(orders: seq<Order>, sessionId: string)
    ensures MarkedPaid(MarkedPaid(orders, sessionId), sessionId) == MarkedPaid(orders, sessionId)
  {
  }

  /** The orders table. */
  class OrdersTable {
    var rows: seq<Order>

    constructor (rows: seq<Order>)
      ensures this.rows == rows
    {
      this.rows := rows;
    }

    /** The update, row by row in place. */
    method SetPaidWhereSession(sessionId: string)
      modifies this
      ensures rows == MarkedPaid(old(rows), sessionId)
    {
      ghost var target := MarkedPaid(rows, sessionId);
      ghost var original := rows;
      var i := 0;
      while i < |rows|
        invariant 0 <= i <= |rows| == |original| == |target|
        invariant forall k :: 0 <= k < i ==> rows[k] == target[k]
        invariant forall k :: i <= k < |rows| ==> rows[k] == original[k]
      {
        if Selected(rows[i], sessionId) {
          rows := rows[i := rows[i].(status := PAID)];
        }
        i := i + 1;
      }
    }
  }

  /** `POST /api/stripe-webhook`. `update` is what the database reports when asked to update;
      on anything but success the table is taken to be unchanged. */
  method Post(table: OrdersTable, signature: Option<string>, secret: Option<string>,
              verify: (string, string) -> Verification, update: UpdateOutcome) returns (r: Response)
    modifies table
    ensures r == Respond(Decide(signature, secret, verify))
    ensures r.Received? <==>
              signature.Some? && signature.value != "" && secret.Some? && secret.value != "" &&
              verify(signature.value, secret.value).Verified?
    ensures table.rows ==
              if Decide(signature, secret, verify).MarkPaid? && update == UpdateApplied
              then MarkedPaid(old(table.rows), Decide(signature, secret, verify).sessionId)
              else old(table.rows)
  {
    var d := Decide(signature, secret, verify);
    if d.MarkPaid? && update == UpdateApplied {
      table.SetPaidWhereSession(d.sessionId);
    }
    r := Respond(d);
  }

  /** A request without a signature header, without a configured secret, or whose
      signature does not verify is rejected and leaves the table alone; any other event
      type than a completed checkout is acknowledged and leaves the table alone. */
  lemma {:induction false} OnlyVerifiedCompletionsMutate(signature: Option<string>, secret: Option<string>,
                                                         verify: (string, string) -> Verification)
    ensures !Decide(signature, secret, verify).MarkPaid? ==>
              (Decide(signature, secret, verify).Reject? <==>
                 signature.None? || signature.value == "" || secret.None? || secret.value == "" ||
                 verify(signature.value, secret.value).VerificationFailed?)
  {
  }

  /** A signature that does not verify is answered 400 with "Webhook Error: " and the
      error's message, or "Invalid signature" when the error has none. */
  lemma FailedVerificationAnswers400(signature: string, secret: string, verify: (string, string) -> Verification)
    requires signature != "" && secret != "" && verify(signature, secret).VerificationFailed?
    ensures Respond(Decide(Some(signature), Some(secret), verify)) ==
              TextResponse(400, VerificationErrorText(verify(signature, secret).message))
    ensures verify(signature, secret).message.None? ==>
              Respond(Decide(Some(signature), Some(secret), verify)) == TextResponse(400, "Webhook Error: Invalid signature")
  {
  }

  /** A missing signature header is answered 400 before the secret or the verification is
      consulted: the answer is the same whatever they are. */
  lemma MissingSignatureFirst(secret1: Option<string>, secret2: Option<string>,
                              verify1: (string, string) -> Verification, verify2: (string, string) -> Verification)
    ensures Decide(None, secret1, verify1) == Decide(None, secret2, verify2)
    ensures Respond(Decide(None, secret1, verify1)) == TextResponse(400, "Missing stripe-signature header")
  {
  }
}
