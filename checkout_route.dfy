/** The checkout endpoint: it validates the cart sent by the browser, turns each cart item
    into one payment-provider line item in yen, asks the provider for a checkout session and
    maps every outcome to an HTTP status and a JSON body. The provider is a parameter. */
module CheckoutRoute {
  import opened Common

  /** A cart item as the endpoint receives it (price in yen). */
  datatype CheckoutItem = CheckoutItem(id: string, name: string, price: int, quantity: int)

  /** A provider line item: quantity, and `price_data` with currency, product name and unit
      amount in the currency's smallest unit. */
  datatype LineItem = LineItem(quantity: int, currency: string, productName: string, unitAmount: int)

  /** The parameters of the session-creation request. */
  datatype SessionParams = SessionParams(
    mode: string,
    paymentMethodTypes: seq<string>,
    lineItems: seq<LineItem>,
    successUrl: string,
    cancelUrl: string)

  /** The request body as the handler reads it: a JSON object whose `items` is a list of cart
      items or is missing, or a body whose reading threw (with the error's message, if it has
      one). Besides malformed JSON, a `null` body (which throws at `body.items`) and a truthy
      `items` without `map` (which throws at `items.map`) are `Unparseable`; an `items` that is
      falsy or has no `length` reads as an empty cart, `Parsed(None)`. */
  datatype RequestBody = Parsed(items: Option<seq<CheckoutItem>>) | Unparseable(message: Option<string>)

  /** What the provider's session creation does: return a session, whose `url` may be
      missing, or throw (with the error's message, if it has one). */
  datatype ProviderResult = SessionCreated(url: Option<string>) | ProviderThrew(message: Option<string>)

  datatype ResponseBody = UrlBody(url: string) | ErrorBody(error: string)

  datatype Response = Response(status: int, body: ResponseBody)

  const DEFAULT_BASE_URL := "http://localhost:3000"
  const EMPTY_CART_ERROR := "カートが空です。"
  const NO_URL_ERROR := "Stripe から URL が返ってきませんでした"
  const UNKNOWN_ERROR := "Unknown error"

  /** `body.items || []` */
  function ItemsOrEmpty(items: Option<seq<CheckoutItem>>): seq<CheckoutItem> {
    match items
    case Some(s) => s
    case None => []
  }

  /** `process.env.NEXT_PUBLIC_BASE_URL || "http://localhost:3000"`: an unset or empty
      variable falls back to the local address. */
  function BaseUrl(env: Option<string>): (r: string)
    ensures r != ""
    ensures env.Some? && env.value != "" ==> r == env.value
    ensures env.None? || env.value == "" ==> r == DEFAULT_BASE_URL
  {
    match env
    case Some(u) => if u != "" then u else DEFAULT_BASE_URL
    case None => DEFAULT_BASE_URL
  }

  /** The line item for one cart item. */
  function ToLineItem(item: CheckoutItem): LineItem {
    LineItem(item.quantity, "jpy", item.name, item.price)
  }

  /** `items.map(...)`: one line item per cart item, in the same order. */
  function LineItems(items: seq<CheckoutItem>): (r: seq<LineItem>)
    ensures |r| == |items|
    ensures forall k :: 0 <= k < |items| ==> r[k] == ToLineItem(items[k])
  {
    if items == [] then [] else [ToLineItem(items[0])] + LineItems(items[1..])
  }

  /** The session request for a cart. */
  function SessionRequest(items: seq<CheckoutItem>, env: Option<string>): SessionParams {
    SessionParams(
      "payment",
      ["card"],
      LineItems(items),
      BaseUrl(env) + "/cart?status=success",
      BaseUrl(env) + "/cart?status=cancel")
  }

  /** `err?.message || "Unknown error"`: a missing or empty message becomes "Unknown error". */
  function ErrorMessage(message: Option<string>): (r: string)
    ensures r != ""
    ensures message.Some? && message.value != "" ==> r == message.value
    ensures message.None? || message.value == "" ==> r == UNKNOWN_ERROR
  {
    match message
    case Some(m) => if m != "" then m else UNKNOWN_ERROR
    case None => UNKNOWN_ERROR
  }

  /** `POST /api/checkout`. `createSession` is the payment provider. */
  function Post(body: RequestBody, env: Option<string>, createSession: SessionParams -> ProviderResult): (r: Response)
    ensures r.status == 200 || r.status == 400 || r.status == 500
    ensures body.Unparseable? ==> r == Response(400, ErrorBody(ErrorMessage(body.message)))
    ensures body.Parsed? && ItemsOrEmpty(body.items) == [] ==> r == Response(400, ErrorBody(EMPTY_CART_ERROR))
    ensures body.Parsed? && ItemsOrEmpty(body.items) != [] ==>
              r == Respond(createSession(SessionRequest(ItemsOrEmpty(body.items), env)))
  {
    match body
    case Unparseable(message) => Response(400, ErrorBody(ErrorMessage(message)))
    case Parsed(items) =>
      var cart := ItemsOrEmpty(items);
      if cart == [] then Response(400, ErrorBody(EMPTY_CART_ERROR))
      else Respond(createSession(SessionRequest(cart, env)))
  }

  /** The response to the provider's answer: its URL, a 500 when the session has no URL (or
      an empty one), and a 400 with the error's message when the provider threw. */
  function Respond(result: ProviderResult): (r: Response)
    ensures r.status == 200 <==> result.SessionCreated? && result.url.Some? && result.url.value != ""
    ensures r.status == 200 ==> r.body == UrlBody(result.url.value)
    ensures result.SessionCreated? && r.status != 200 ==> r == Response(500, ErrorBody(NO_URL_ERROR))
    ensures result.ProviderThrew? ==> r == Response(400, ErrorBody(ErrorMessage(result.message)))
  {
    match result
    case SessionCreated(url) =>
      if url.Some? && url.value != "" then Response(200, UrlBody(url.value))
      else Response(500, ErrorBody(NO_URL_ERROR))
    case ProviderThrew(message) => Response(400, ErrorBody(ErrorMessage(message)))
  }

  /** A missing or empty cart is answered with 400 before the provider is asked: the answer
      is the same whatever the provider would do. */
  lemma EmptyCartSkipsProvider(items: Option<seq<CheckoutItem>>, env: Option<string>,
                               provider1: SessionParams -> ProviderResult, provider2: SessionParams -> ProviderResult)
    requires ItemsOrEmpty(items) == []
    ensures Post(Parsed(items), env, provider1) == Post(Parsed(items), env, provider2)
    ensures Post(Parsed(items), env, provider1).status == 400
  {
  }

  /** The provider is asked for a card-only payment session with one line item per cart
      item, in order, each in yen with the item's name, quantity and unconverted price. */
  lemma {:induction false} SessionRequestShape(items: seq<CheckoutItem>, env: Option<string>)
    ensures var p := SessionRequest(items, env);
            && p.mode == "payment" && p.paymentMethodTypes == ["card"]
            && |p.lineItems| == |items|
            && (forall k :: 0 <= k < |items| ==>
                  p.lineItems[k].quantity == items[k].quantity &&
                  p.lineItems[k].currency == "jpy" &&
                  p.lineItems[k].productName == items[k].name &&
                  p.lineItems[k].unitAmount == items[k].price)
  {
  }

  /** The success and cancel URLs lie under the base URL, which is the local address when
      the variable is unset or empty. */
  lemma {:induction false} SessionUrls(items: seq<CheckoutItem>, env: Option<string>)
    ensures var p := SessionRequest(items, env);
            && p.successUrl == BaseUrl(env) + "/cart?status=success"
            && p.cancelUrl == BaseUrl(env) + "/cart?status=cancel"
            && (env.None? || env.value == "" ==> p.successUrl == DEFAULT_BASE_URL + "/cart?status=success")
            && (env.None? || env.value == "" ==> p.cancelUrl == DEFAULT_BASE_URL + "/cart?status=cancel")
            && (env.Some? && env.value != "" ==> StartsWith(p.successUrl, env.value) && StartsWith(p.cancelUrl, env.value))
  {
    var p := SessionRequest(items, env);
    var base := BaseUrl(env);
    assert p.successUrl[..|base|] == base;
    assert p.cancelUrl[..|base|] == base;
  }

  /** The line items carry the cart back: names, quantities and prices can be read off them. */
  lemma {:induction false} LineItemsRecoverCart(items: seq<CheckoutItem>)
    ensures forall k :: 0 <= k < |items| ==>
              var li := LineItems(items)[k];
              CheckoutItem(items[k].id, li.productName, li.unitAmount, li.quantity) == items[k]
  {
  }
}
