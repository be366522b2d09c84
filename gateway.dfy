/** The ticketing gateway client (KonfHub service): how each HTTP reply is
    mapped to a result or an error, and the webhook signature decision.
    The HTTP exchange itself and the HMAC computation are outside the model:
    what the gateway answered, and the hex digest the crypto library produced,
    are inputs. */
module KonfHub {
  import opened Wrappers
  import opened Strings

  /** The fields of the gateway's JSON order body that the client reads
      (`undefined` is `None`). Amounts are integers: a fractional JSON number
      is outside the model. */
  datatype RawOrder = RawOrder(
    id: Option<string>,
    orderId: Option<string>,
    ticketId: Option<string>,
    paymentId: Option<string>,
    status: Option<string>,
    amount: Option<int>,
    price: Option<int>,
    currency: Option<string>,
    paymentUrl: Option<string>,
    checkoutUrl: Option<string>)

  /** What one `fetch` call came to: a 2xx reply with its body, a non-2xx reply
      with the `message` field of its error body, or a thrown value (an `Error`
      with its message, or `None` for anything else that was thrown). */
  datatype HttpReply =
    | Success(body: RawOrder)
    | Failure(errorMessage: Option<string>)
    | Threw(thrownMessage: Option<string>)

  /** The client's view of an order. */
  datatype OrderResponse = OrderResponse(
    orderId: Option<string>,
    ticketId: Option<string>,
    paymentId: Option<string>,
    status: Option<string>,
    amount: Option<int>,
    currency: string,
    paymentUrl: Option<string>,
    checkoutUrl: Option<string>)

  datatype CancelResult = CancelResult(success: bool, message: string)

  /** The message of the error a failed call raises: the error body's message,
      else `fallback` for a non-2xx reply; the thrown error's own message,
      else `thrownFallback`, when the call threw. */
  function ErrorOf(reply: HttpReply, fallback: string, thrownFallback: string): string
    requires !reply.Success?
  {
    match reply
    case Failure(m) => if Truthy(m) then m.value else fallback
    case Threw(m) => if m.Some? then m.value else thrownFallback
  }

  /** `createOrder`: a non-2xx reply or a throw is an error, never retried;
      a 2xx body is mapped with the defaults the client fills in. */
  function CreateOrder(quantity: int, reply: HttpReply): (r: Result<OrderResponse, string>)
    ensures r.Ok? <==> reply.Success?
    ensures reply.Failure? ==> r.Err? && r.error != ""
    ensures r.Ok? ==> r.value.status.Some? && r.value.status.value != ""
    ensures r.Ok? ==> r.value.currency != "" && r.value.amount.Some?
    ensures r.Ok? && !Truthy(reply.body.status) ==> r.value.status == Some("pending")
    ensures r.Ok? && !Truthy(reply.body.currency) ==> r.value.currency == "INR"
    ensures r.Ok? && !TruthyNum(reply.body.amount) && !TruthyNum(reply.body.price) ==> r.value.amount == Some(0)
    ensures r.Ok? && TruthyNum(reply.body.amount) ==> r.value.amount == reply.body.amount
    ensures r.Ok? && !TruthyNum(reply.body.amount) && TruthyNum(reply.body.price) ==>
      r.value.amount == Some(quantity * reply.body.price.value)
    ensures r.Ok? && Truthy(reply.body.id) ==> r.value.orderId == reply.body.id
    ensures r.Ok? && !Truthy(reply.body.id) ==> r.value.orderId == reply.body.orderId
    ensures r.Ok? && !Truthy(reply.body.checkoutUrl) ==> r.value.checkoutUrl == reply.body.paymentUrl
    ensures r.Ok? && Truthy(reply.body.checkoutUrl) ==> r.value.checkoutUrl == reply.body.checkoutUrl
    ensures r.Ok? ==> r.value.ticketId == reply.body.ticketId && r.value.paymentId == reply.body.paymentId
    ensures r.Ok? ==> r.value.paymentUrl == reply.body.paymentUrl
  {
    match reply
    case Success(d) =>
      Ok(OrderResponse(
        Or(d.id, d.orderId),
        d.ticketId,
        d.paymentId,
        Some(if Truthy(d.status) then d.status.value else "pending"),
        Some(if TruthyNum(d.amount) then d.amount.value
             else quantity * (if TruthyNum(d.price) then d.price.value else 0)),
        if Truthy(d.currency) then d.currency.value else "INR",
        d.paymentUrl,
        Or(d.checkoutUrl, d.paymentUrl)))
    case _ => Err(ErrorOf(reply, "Failed to create KonfHub order", "Failed to create order with KonfHub"))
  }

  /** `getOrder`: like `createOrder`, but the status and the amount are passed
      through with no default and no URLs are returned. */
  function GetOrder(reply: HttpReply): (r: Result<OrderResponse, string>)
    ensures r.Ok? <==> reply.Success?
    ensures reply.Failure? ==> r.Err? && r.error != ""
    ensures r.Ok? ==> r.value.status == reply.body.status && r.value.amount == reply.body.amount
    ensures r.Ok? ==> r.value.currency != "" && r.value.checkoutUrl.None? && r.value.paymentUrl.None?
    ensures r.Ok? && Truthy(reply.body.id) ==> r.value.orderId == reply.body.id
    ensures r.Ok? && !Truthy(reply.body.id) ==> r.value.orderId == reply.body.orderId
    ensures r.Ok? ==> r.value.ticketId == reply.body.ticketId && r.value.paymentId == reply.body.paymentId
    ensures r.Ok? && Truthy(reply.body.currency) ==> r.value.currency == reply.body.currency.value
    ensures r.Ok? && !Truthy(reply.body.currency) ==> r.value.currency == "INR"
  {
    match reply
    case Success(d) =>
      Ok(OrderResponse(
        Or(d.id, d.orderId), d.ticketId, d.paymentId, d.status, d.amount,
        if Truthy(d.currency) then d.currency.value else "INR",
        None, None))
    case _ => Err(ErrorOf(reply, "Failed to fetch KonfHub order", "Failed to fetch order from KonfHub"))
  }

  /** `cancelOrder`: success is reported only for a 2xx reply. */
  function CancelOrder(reply: HttpReply): (r: Result<CancelResult, string>)
    ensures r.Ok? <==> reply.Success?
    ensures r.Ok? ==> r.value.success
    ensures reply.Failure? ==> r.Err? && r.error != ""
  {
    if reply.Success? then Ok(CancelResult(true, "Order cancelled successfully"))
    else Err(ErrorOf(reply, "Failed to cancel KonfHub order", "Failed to cancel order"))
  }

  /** The outcome of computing the hex HMAC-SHA256 (RFC 2104) of the payload
      under the secret: the digest, or `None` when the library threw. */
  type Digest = Option<string>

  /** `verifyWebhookSignature`. With no secret configured every webhook is
      accepted; with one, the signature header must equal the hex digest;
      a failure while computing the digest rejects. */
  function VerifyWebhookSignature(secret: string, signature: Option<string>, digest: Digest): (ok: bool)
    ensures secret == "" ==> ok
    ensures secret != "" ==> (ok <==> digest.Some? && signature == Some(digest.value))
    ensures secret != "" && digest.None? ==> !ok
  {
    if secret == "" then true
    else match digest
      case None => false
      case Some(expected) => signature == Some(expected)
  }
}
