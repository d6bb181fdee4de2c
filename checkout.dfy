/** The `handler` of api/create-checkout-session.js as a pure function from the
    request, the environment and what the payment provider did, to the session
    request the handler sends (if any) and the response it writes. */
module CheckoutSession {
  import opened Wrappers
  import opened Http

  /** A number read from the request body. */
  datatype Number = NaN | Finite(r: real)

  datatype DonorInfo = DonorInfo(name: Js<string>, email: Js<string>, message: Js<string>)

  /** The destructured body `{ amount, currency = 'usd', donorInfo }`. */
  datatype Body = Body(amount: Js<Number>, currency: Js<string>, donorInfo: Js<DonorInfo>)

  /** `req.method`, `req.body` and `req.headers.origin`. */
  datatype Request = Request(httpMethod: string, body: Js<Body>, origin: Js<string>)

  /** `process.env.VITE_APP_URL` and `process.env.NODE_ENV`. */
  datatype Env = Env(appUrl: Js<string>, nodeEnv: Js<string>)

  /** What `stripe.checkout.sessions.create` did: resolved to a session, or threw. */
  datatype SessionOutcome = Created(id: string, url: string) | Threw(message: string)

  datatype PriceData = PriceData(currency: Js<string>, productName: string,
                                 productDescription: string, unitAmount: int)

  datatype LineItem = LineItem(priceData: PriceData, quantity: int)

  datatype Metadata = Metadata(donorName: string, donorEmail: string, donorMessage: string)

  /** The argument of `stripe.checkout.sessions.create`. */
  datatype SessionParams = SessionParams(
    paymentMethodTypes: seq<string>,
    lineItems: seq<LineItem>,
    mode: string,
    successUrl: string,
    cancelUrl: string,
    customerEmail: Js<string>,
    metadata: Metadata)

  /** The provider call the handler makes, if any, and the response it writes. */
  datatype Outcome = Outcome(call: Option<SessionParams>, response: Response)

  const ProductName := "Everybody's Cool Fundraiser Donation"
  const ProductDescription := "Thank you for your generous donation!"
  const InvalidAmount := Response(400, [("message", JStr("Invalid amount"))])

  /** JavaScript truthiness of `amount`: `undefined`, `null`, `NaN` and 0 are falsy. */
  predicate AmountTruthy(a: Js<Number>) {
    a.Value? && a.v.Finite? && a.v.r != 0.0
  }

  /** `amount < 1`, with JavaScript's conversion of `undefined` to NaN and of
      `null` to 0. */
  predicate AmountBelowOne(a: Js<Number>) {
    match a
    case Undefined => false
    case Null => true
    case Value(NaN) => false
    case Value(Finite(r)) => r < 1.0
  }

  /** The amounts the endpoint accepts: a number of at least one currency unit. */
  predicate ValidAmount(a: Js<Number>) {
    a.Value? && a.v.Finite? && a.v.r >= 1.0
  }

  /** The guard `!amount || amount < 1` rejects exactly the invalid amounts. */
  lemma AmountGuardRejectsInvalid(a: Js<Number>)
    ensures (!AmountTruthy(a) || AmountBelowOne(a)) <==> !ValidAmount(a)
  {
  }

  /** `Math.round`: the nearest integer, a half rounded up. */
  function MathRound(x: real): (n: int)
    ensures x - 0.5 < n as real <= x + 0.5
  {
    (x + 0.5).Floor
  }

  /** `donorInfo?.field`: a missing or null `donorInfo` reads as a donor
      whose every field is `undefined`. */
  function Donor(d: Js<DonorInfo>): DonorInfo {
    if d.Value? then d.v else DonorInfo(Undefined, Undefined, Undefined)
  }

  /** `process.env.VITE_APP_URL || req.headers.origin`, as a template literal renders it. */
  function BaseUrl(env: Env, origin: Js<string>): (u: string)
    ensures Truthy(env.appUrl) ==> |u| > 0
    ensures !Truthy(env.appUrl) && origin.Undefined? ==> u == "undefined"
    ensures !Truthy(env.appUrl) && origin.Null? ==> u == "null"
  {
    if Truthy(env.appUrl) then env.appUrl.v else Interpolate(origin)
  }

  /** The session the handler asks the provider to create for an accepted body. */
  function SessionRequest(b: Body, env: Env, origin: Js<string>): (p: SessionParams)
    requires ValidAmount(b.amount)
    ensures p.paymentMethodTypes == ["card"] && p.mode == "payment"
    ensures |p.lineItems| == 1 && p.lineItems[0].quantity == 1
    ensures p.lineItems[0].priceData.currency == (if b.currency.Undefined? then Value("usd") else b.currency)
    ensures p.lineItems[0].priceData.productName == ProductName
    ensures p.lineItems[0].priceData.productDescription == ProductDescription
    ensures p.lineItems[0].priceData.unitAmount >= 100
    ensures (p.lineItems[0].priceData.unitAmount as real) - 0.5 <= b.amount.v.r * 100.0
                                                              < (p.lineItems[0].priceData.unitAmount as real) + 0.5
    ensures p.successUrl == BaseUrl(env, origin) + "/success?session_id={CHECKOUT_SESSION_ID}"
    ensures p.cancelUrl == BaseUrl(env, origin) + "/cancel"
    ensures b.donorInfo.Value? ==> p.customerEmail == b.donorInfo.v.email
    ensures !b.donorInfo.Value? ==> p.customerEmail == Undefined
    ensures p.metadata.donorName == OrElse(Donor(b.donorInfo).name, "")
    ensures p.metadata.donorEmail == OrElse(Donor(b.donorInfo).email, "")
    ensures p.metadata.donorMessage == OrElse(Donor(b.donorInfo).message, "")
  {
    var currency := if b.currency.Undefined? then Value("usd") else b.currency;
    var donor := Donor(b.donorInfo);
    var base := BaseUrl(env, origin);
    SessionParams(
      ["card"],
      [LineItem(PriceData(currency, ProductName, ProductDescription, MathRound(b.amount.v.r * 100.0)), 1)],
      "payment",
      base + "/success?session_id={CHECKOUT_SESSION_ID}",
      base + "/cancel",
      donor.email,
      Metadata(OrElse(donor.name, ""), OrElse(donor.email, ""), OrElse(donor.message, "")))
  }

  /** The 500 response written in the `catch` block. */
  function ServerError(env: Env, message: string): Response {
    Response(500, [("message", JStr("Error creating checkout session")),
                   ("error", JStr(ErrorDetail(env.nodeEnv, message)))])
  }

  /** The handler. A `null` or `undefined` body makes the destructuring throw
      inside the `try`, so it ends in the `catch` block. */
  function Handle(req: Request, env: Env, outcome: SessionOutcome): (out: Outcome)
    ensures req.httpMethod != "POST" ==> out == Outcome(None, MethodNotAllowed)
    ensures out.call.Some? <==> req.httpMethod == "POST" && req.body.Value? && ValidAmount(req.body.v.amount)
    ensures out.call.Some? ==> out.call.value == SessionRequest(req.body.v, env, req.origin)
    ensures req.httpMethod == "POST" && !req.body.Value? ==>
              out.response == ServerError(env, DestructureErrorMessage("amount", req.body.Null?))
    ensures req.httpMethod == "POST" && req.body.Value? && !ValidAmount(req.body.v.amount) ==>
              out.response == InvalidAmount
    ensures out.call.Some? && outcome.Created? ==>
              out.response == Response(200, [("sessionId", JStr(outcome.id)), ("url", JStr(outcome.url))])
    ensures out.call.Some? && outcome.Threw? ==> out.response == ServerError(env, outcome.message)
    ensures out.response.status == 200 <==> out.call.Some? && outcome.Created?
  {
    if req.httpMethod != "POST" then
      Outcome(None, MethodNotAllowed)
    else if !req.body.Value? then
      Outcome(None, ServerError(env, DestructureErrorMessage("amount", req.body.Null?)))
    else
      var body := req.body.v;
      if !AmountTruthy(body.amount) || AmountBelowOne(body.amount) then
        Outcome(None, InvalidAmount)
      else
        var params := SessionRequest(body, env, req.origin);
        match outcome
        case Created(id, url) =>
          Outcome(Some(params), Response(200, [("sessionId", JStr(id)), ("url", JStr(url))]))
        case Threw(message) =>
          Outcome(Some(params), ServerError(env, message))
  }

  /** A whole-unit amount is sent as exactly a hundred times as many cents. */
  lemma WholeAmountInCents(b: Body, env: Env, origin: Js<string>, n: int)
    requires n >= 1 && b.amount == Value(Finite(n as real))
    ensures SessionRequest(b, env, origin).lineItems[0].priceData.unitAmount == 100 * n
  {
  }

  /** The 500 response hides the provider's message outside development. */
  lemma ErrorDetailOnlyInDevelopment(req: Request, env: Env, message: string)
    requires req.httpMethod == "POST" && req.body.Value? && ValidAmount(req.body.v.amount)
    ensures Handle(req, env, Threw(message)).response.body[1].1
            == JStr(if env.nodeEnv == Value("development") then message else InternalServerError)
  {
  }

  /** A donation of 25 with only a donor email succeeds with the provider's
      session id and a success URL that carries the session-id placeholder. */
  lemma DonationOfTwentyFive(origin: string, id: string, url: string)
    ensures var donor := DonorInfo(Undefined, Value("a@b.com"), Undefined);
            var req := Request("POST", Value(Body(Value(Finite(25.0)), Undefined, Value(donor))), Value(origin));
            var out := Handle(req, Env(Undefined, Undefined), Created(id, url));
            && out.response == Response(200, [("sessionId", JStr(id)), ("url", JStr(url))])
            && out.call.Some?
            && out.call.value.lineItems[0].priceData.unitAmount == 2500
            && out.call.value.successUrl == origin + "/success?session_id={CHECKOUT_SESSION_ID}"
            && out.call.value.customerEmail == Value("a@b.com")
            && out.call.value.metadata == Metadata("", "a@b.com", "")
  {
  }
}
