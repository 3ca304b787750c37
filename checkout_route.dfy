/**
 * `POST /api/create-checkout-session`: an early-return chain. It checks the
 * signed-in user, then the user's customer id, then reads the body and checks
 * the price id, then issues the checkout session; anything thrown on the way
 * becomes a 500.
 *
 * The current user is an input (`getCurrentUser` is not part of this model);
 * the body is `None` when `req.json()` or its destructuring throws.
 */
module CheckoutRoute {
  import opened Base
  import opened Checkout

  datatype RouteUser = RouteUser(stripeCustomerId: Option<string>)

  /** The body's `redirects`: left out, `null`, or an object. */
  datatype RedirectsField = RedirectsAbsent | RedirectsNull | RedirectsGiven(redirects: Redirects)

  datatype RequestBody = RequestBody(priceId: Option<string>, redirects: RedirectsField)

  datatype ReplyBody = ErrorReply(error: string) | SessionReply(sessionId: string)
  datatype Reply = Reply(status: int, body: ReplyBody)

  /**
   * What the handler did on the way: whether it read the body, whether it
   * called `createCheckoutSession`, and the request that call sent.
   */
  datatype PostTrace = PostTrace(bodyRead: bool, checkoutCalled: bool, sessionRequest: Option<SessionParams>)

  const UnauthorizedReply := Reply(401, ErrorReply("Unauthorized"))
  const NoCustomerReply := Reply(400, ErrorReply("No Stripe customer ID found"))
  const NoPriceReply := Reply(400, ErrorReply("Price ID is required"))
  const InternalErrorReply := Reply(500, ErrorReply("Internal server error"))

  function Post(user: Option<RouteUser>, body: Option<RequestBody>, siteUrl: Option<string>,
                createSession: SessionParams -> SessionOutcome): (r: (Reply, PostTrace))
    // each check happens only after the previous ones passed
    ensures (r.0 == UnauthorizedReply) <==> user.None?
    ensures r.1.bodyRead <==> user.Some? && Truthy(user.value.stripeCustomerId)
    ensures user.Some? && !Truthy(user.value.stripeCustomerId) ==> r.0 == NoCustomerReply
    ensures r.1.checkoutCalled <==> r.1.bodyRead && body.Some? && Truthy(body.value.priceId)
    ensures r.1.bodyRead && body.Some? && !Truthy(body.value.priceId) ==> r.0 == NoPriceReply
    ensures r.1.sessionRequest.Some? ==> r.1.checkoutCalled
    // once every check passes and the redirects can be read, the request is
    // built from the body's price and redirects and the user's customer id
    ensures r.1.checkoutCalled && !body.value.redirects.RedirectsNull? ==>
      r.1.sessionRequest == Some(SessionRequest(
        body.value.priceId.value, user.value.stripeCustomerId.value,
        if body.value.redirects.RedirectsGiven? then body.value.redirects.redirects else NoRedirects,
        siteUrl))
    // the outcome of the call decides the reply
    ensures r.0.status == 500 ==> r.0 == InternalErrorReply
    ensures r.0.status == 500 <==>
      r.1.bodyRead && (body.None? || (r.1.checkoutCalled && body.value.redirects.RedirectsNull?))
    ensures r.0.status == 200 <==>
      r.1.sessionRequest.Some? && createSession(r.1.sessionRequest.value).SessionReturned? &&
      Truthy(createSession(r.1.sessionRequest.value).id)
    ensures r.0.status == 200 ==> r.0.body == SessionReply(createSession(r.1.sessionRequest.value).id.value)
    ensures r.1.sessionRequest.Some? ==>
      r.1.sessionRequest.value.customer == user.value.stripeCustomerId.value &&
      r.1.sessionRequest.value.lineItems == [LineItem(body.value.priceId.value, 1)]
    // a session request was sent: the provider's answer alone decides the reply
    ensures r.1.sessionRequest.Some? ==>
      (r.0 == match createSession(r.1.sessionRequest.value)
              case SessionReturned(id) =>
                if Truthy(id) then Reply(200, SessionReply(id.value)) else Reply(400, ErrorReply(CreationFailedMessage))
              case SessionThrew(thrown) => Reply(400, ErrorReply(ErrorMessage(thrown))))
    ensures r.0.status in {200, 400, 401, 500}
  {
    if user.None? then (UnauthorizedReply, PostTrace(false, false, None))
    else if !Truthy(user.value.stripeCustomerId) then (NoCustomerReply, PostTrace(false, false, None))
    else if body.None? then (InternalErrorReply, PostTrace(true, false, None))
    else if !Truthy(body.value.priceId) then (NoPriceReply, PostTrace(true, false, None))
    else
      var customerId := user.value.stripeCustomerId.value;
      var priceId := body.value.priceId.value;
      match body.value.redirects
      case RedirectsNull =>
        // `redirects.success` on null throws before the provider is called
        (InternalErrorReply, PostTrace(true, true, None))
      case RedirectsAbsent => Issue(priceId, customerId, NoRedirects, siteUrl, createSession)
      case RedirectsGiven(redirects) => Issue(priceId, customerId, redirects, siteUrl, createSession)
  }

  /** Issues the session and maps the tagged result to a reply. */
  function Issue(priceId: string, customerId: string, redirects: Redirects, siteUrl: Option<string>,
                 createSession: SessionParams -> SessionOutcome): (r: (Reply, PostTrace))
    ensures r.1 == PostTrace(true, true, Some(SessionRequest(priceId, customerId, redirects, siteUrl)))
    ensures r.0 == match CreateCheckoutSession(priceId, customerId, redirects, siteUrl, createSession)
      case CheckoutFailed(error) => Reply(400, ErrorReply(error))
      case CheckoutSucceeded(sessionId) => Reply(200, SessionReply(sessionId))
    ensures r.0.status == 200 || r.0.status == 400
  {
    var request := SessionRequest(priceId, customerId, redirects, siteUrl);
    var result := CreateCheckoutSession(priceId, customerId, redirects, siteUrl, createSession);
    var reply := match result
      case CheckoutFailed(error) => Reply(400, ErrorReply(error))
      case CheckoutSucceeded(sessionId) => Reply(200, SessionReply(sessionId));
    (reply, PostTrace(true, true, Some(request)))
  }
}
