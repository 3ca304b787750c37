/**
 * `createCheckoutSession`: builds the provider's checkout-session request for
 * one price and one customer, and turns the provider's answer into a tagged
 * result. Nothing escapes: a thrown `Error` becomes its message, anything
 * else thrown becomes "Unknown error".
 *
 * `stripe.checkout.sessions.create` is a function-valued parameter and
 * `process.env.NEXT_PUBLIC_SITE_URL` is the parameter `siteUrl`.
 */
module Checkout {
  import opened Base

  /** The provider replaces the placeholder with the session id on redirect. */
  const SessionIdQuery := "?session_id={CHECKOUT_SESSION_ID}"
  const SuccessPath := "/subscription-success"
  const CreationFailedMessage := "Checkout session creation failed"
  const UnknownErrorMessage := "Unknown error"

  /** The optional caller-supplied redirect targets; `{}` by default. */
  datatype Redirects = Redirects(success: Option<string>, cancel: Option<string>)
  const NoRedirects := Redirects(None, None)

  datatype LineItem = LineItem(price: string, quantity: int)

  datatype SessionParams = SessionParams(
    paymentMethodTypes: seq<string>,
    lineItems: seq<LineItem>,
    mode: string,
    successUrl: string,
    cancelUrl: string,
    customer: string)

  /** What a JavaScript `catch` can receive. */
  datatype Thrown = ErrorThrown(message: string) | ValueThrown

  /** The provider's answer: a session (whose id may be falsy), or a throw. */
  datatype SessionOutcome = SessionReturned(id: Option<string>) | SessionThrew(thrown: Thrown)

  datatype CheckoutResult = CheckoutSucceeded(sessionId: string) | CheckoutFailed(error: string)

  /** The page a successful checkout returns to, before the session-id query. */
  function SuccessBase(redirects: Redirects, siteUrl: Option<string>): string
  {
    if Truthy(redirects.success) then redirects.success.value else Interpolate(siteUrl) + SuccessPath
  }

  function SuccessUrl(redirects: Redirects, siteUrl: Option<string>): string
  {
    SuccessBase(redirects, siteUrl) + SessionIdQuery
  }

  function CancelUrl(redirects: Redirects, siteUrl: Option<string>): string
  {
    if Truthy(redirects.cancel) then redirects.cancel.value else Interpolate(siteUrl)
  }

  /**
   * The success URL always ends in the session-id query, also when the
   * caller supplied it, and what precedes the query is the caller's URL or
   * the site's confirmation page; the cancel URL is the caller's or the
   * site's URL as it is.
   */
  lemma RedirectUrls(redirects: Redirects, siteUrl: Option<string>)
    ensures var url := SuccessUrl(redirects, siteUrl);
      && EndsWith(url, SessionIdQuery)
      && url[..|url| - |SessionIdQuery|] ==
           (if Truthy(redirects.success) then redirects.success.value
            else Interpolate(siteUrl) + SuccessPath)
    ensures CancelUrl(redirects, siteUrl) ==
      (if Truthy(redirects.cancel) then redirects.cancel.value else Interpolate(siteUrl))
    ensures !Truthy(redirects.success) && siteUrl.None? ==>
      SuccessUrl(redirects, siteUrl) == "undefined/subscription-success" + SessionIdQuery
  {
    var base := SuccessBase(redirects, siteUrl);
    var url := SuccessUrl(redirects, siteUrl);
    assert url[|url| - |SessionIdQuery|..] == SessionIdQuery;
    assert url[..|url| - |SessionIdQuery|] == base;
  }

  /** The request: one card-paid subscription line of quantity one for the customer. */
  function SessionRequest(priceId: string, customerId: string, redirects: Redirects, siteUrl: Option<string>)
    : (p: SessionParams)
    ensures p.mode == "subscription" && p.paymentMethodTypes == ["card"]
    ensures p.lineItems == [LineItem(priceId, 1)] && p.customer == customerId
    ensures p.successUrl == SuccessUrl(redirects, siteUrl) && p.cancelUrl == CancelUrl(redirects, siteUrl)
    ensures EndsWith(p.successUrl, SessionIdQuery)
    ensures p.successUrl[..|p.successUrl| - |SessionIdQuery|] ==
      (if Truthy(redirects.success) then redirects.success.value else Interpolate(siteUrl) + SuccessPath)
    ensures p.cancelUrl == (if Truthy(redirects.cancel) then redirects.cancel.value else Interpolate(siteUrl))
  {
    RedirectUrls(redirects, siteUrl);
    SessionParams(["card"], [LineItem(priceId, 1)], "subscription",
                  SuccessUrl(redirects, siteUrl), CancelUrl(redirects, siteUrl), customerId)
  }

  function ErrorMessage(thrown: Thrown): string
  {
    match thrown
    case ErrorThrown(message) => message
    case ValueThrown => UnknownErrorMessage
  }

  /**
   * The server action. It succeeds exactly when the provider returns a
   * session with a truthy id, and then carries that id; a falsy id and every
   * throw become a failure with the message the source gives.
   */
  function CreateCheckoutSession(priceId: string, customerId: string, redirects: Redirects,
                                 siteUrl: Option<string>,
                                 createSession: SessionParams -> SessionOutcome): (r: CheckoutResult)
    ensures var outcome := createSession(SessionRequest(priceId, customerId, redirects, siteUrl));
      && (r.CheckoutSucceeded? <==> outcome.SessionReturned? && Truthy(outcome.id))
      && (r.CheckoutSucceeded? ==> outcome.id == Some(r.sessionId))
      && (outcome.SessionReturned? && !Truthy(outcome.id) ==> r == CheckoutFailed(CreationFailedMessage))
      && (outcome == SessionThrew(ValueThrown) ==> r == CheckoutFailed(UnknownErrorMessage))
      && (outcome.SessionThrew? && outcome.thrown.ErrorThrown? ==>
            r == CheckoutFailed(outcome.thrown.message))
  {
    match createSession(SessionRequest(priceId, customerId, redirects, siteUrl))
    case SessionReturned(id) =>
      if Truthy(id) then CheckoutSucceeded(id.value) else CheckoutFailed(CreationFailedMessage)
    case SessionThrew(thrown) => CheckoutFailed(ErrorMessage(thrown))
  }
}
