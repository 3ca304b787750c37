/**
 * The users collection: the `afterChange` hook that keeps one provider
 * customer per user in step with the profile, and the `/refresh-token`
 * endpoint's response chain.
 *
 * The provider's `customers.create` is a function-valued parameter (`None`
 * stands for a throw); `customers.update` is recorded as a call whose answer
 * the hook ignores. The user collection is a class over a map, which the hook
 * writes the new customer id back into.
 */
module Users {
  import opened Base

  datatype Address = Address(
    line1: Option<string>, line2: Option<string>, city: Option<string>,
    state: Option<string>, postalCode: Option<string>, country: Option<string>)

  /** A user document, as far as the hook reads it. */
  datatype UserDoc = UserDoc(
    id: DocId,
    name: Option<string>, email: Option<string>, phone: Option<string>,
    companyName: Option<string>, address: Option<Address>,
    uid: Option<string>, stripeCustomerId: Option<string>)

  /** The provider's address shape, with its field names. */
  datatype AddressParams = AddressParams(
    line1: Option<string>, line2: Option<string>, city: Option<string>,
    state: Option<string>, postal_code: Option<string>, country: Option<string>)

  datatype CustomerMetadata = CustomerMetadata(uid: Option<string>, company_name: Option<string>)

  /** The body of both `customers.create` and `customers.update`. */
  datatype CustomerParams = CustomerParams(
    name: Option<string>, email: Option<string>, phone: Option<string>,
    address: Option<AddressParams>, metadata: CustomerMetadata)

  datatype CustomerCall = CreateCustomer(params: CustomerParams) | UpdateCustomer(customerId: string, params: CustomerParams)

  // ---------------------------------------------------------------------
  // The profile-to-customer mapping
  // ---------------------------------------------------------------------

  /** A field that is sent holds the profile's value; a falsy one is not sent. */
  predicate SentAsIs(sent: Option<string>, field: Option<string>)
  {
    (sent.Some? <==> Truthy(field)) && (sent.Some? ==> sent == field)
  }

  /** The address block, with `postalCode` sent as `postal_code`. */
  function AddressParamsOf(a: Address): (p: AddressParams)
    ensures SentAsIs(p.line1, a.line1) && SentAsIs(p.line2, a.line2) && SentAsIs(p.city, a.city)
    ensures SentAsIs(p.state, a.state) && SentAsIs(p.postal_code, a.postalCode) && SentAsIs(p.country, a.country)
  {
    AddressParams(OrUndefined(a.line1), OrUndefined(a.line2), OrUndefined(a.city),
                  OrUndefined(a.state), OrUndefined(a.postalCode), OrUndefined(a.country))
  }

  /**
   * The customer body built from a user document, the same for create and
   * update. Every truthy profile field is sent unchanged and every falsy one
   * is left out; the address is sent exactly when the profile has one; the
   * metadata carries the uid as it is (not `|| undefined`) and the company
   * name.
   */
  function CustomerParamsOf(doc: UserDoc): (p: CustomerParams)
    ensures SentAsIs(p.name, doc.name) && SentAsIs(p.email, doc.email) && SentAsIs(p.phone, doc.phone)
    ensures p.address.Some? <==> doc.address.Some?
    ensures p.address.Some? ==> p.address.value == AddressParamsOf(doc.address.value)
    ensures p.metadata.uid == doc.uid
    ensures SentAsIs(p.metadata.company_name, doc.companyName)
  {
    CustomerParams(
      OrUndefined(doc.name), OrUndefined(doc.email), OrUndefined(doc.phone),
      if doc.address.Some? then Some(AddressParamsOf(doc.address.value)) else None,
      CustomerMetadata(doc.uid, OrUndefined(doc.companyName)))
  }

  /** The hook creates a customer for a user with a uid and no customer id, on any operation. */
  predicate ShouldCreateCustomer(doc: UserDoc)
  {
    Truthy(doc.uid) && !Truthy(doc.stripeCustomerId)
  }

  /**
   * The hook pushes the profile to an existing customer on updates; never
   * for a document it would create a customer for, and never on a create.
   */
  predicate ShouldUpdateCustomer(doc: UserDoc, operation: Operation)
    ensures ShouldUpdateCustomer(doc, operation) ==> !ShouldCreateCustomer(doc) && operation == Update
  {
    operation == Update && Truthy(doc.stripeCustomerId)
  }

  // ---------------------------------------------------------------------
  // The user collection and the hook
  // ---------------------------------------------------------------------

  class UserStore {
    var users: map<DocId, UserDoc>

    constructor (users: map<DocId, UserDoc>)
      ensures this.users == users
    {
      this.users := users;
    }

    /**
     * The `afterChange` hook for the written document `doc`. It first
     * revalidates the user's cached data; `revalidated` is false when that
     * throws, and the exception then leaves the hook before anything else
     * runs. Otherwise it asks the provider for a new customer when `doc` has
     * a uid but no customer id and writes the new id back to the stored
     * user; it sends the profile to the existing customer on updates. Both
     * decisions read `doc` as it was written, so at most one of them fires.
     * Provider errors and a failed write-back (no such user) are swallowed.
     */
    method AfterChange(doc: UserDoc, operation: Operation, revalidated: bool,
                       createCustomer: CustomerParams -> Option<string>)
      returns (calls: seq<CustomerCall>, threw: bool)
      modifies this
      ensures threw <==> !revalidated
      ensures !revalidated ==> calls == [] && users == old(users)
      ensures revalidated && ShouldCreateCustomer(doc) ==> calls == [CreateCustomer(CustomerParamsOf(doc))]
      ensures revalidated && ShouldUpdateCustomer(doc, operation) ==>
        calls == [UpdateCustomer(doc.stripeCustomerId.value, CustomerParamsOf(doc))]
      ensures !ShouldCreateCustomer(doc) && !ShouldUpdateCustomer(doc, operation) ==> calls == []
      ensures revalidated && ShouldCreateCustomer(doc) && createCustomer(CustomerParamsOf(doc)).Some? && doc.id in old(users) ==>
        users == old(users)[doc.id := old(users)[doc.id].(stripeCustomerId := createCustomer(CustomerParamsOf(doc)))]
      ensures !(revalidated && ShouldCreateCustomer(doc) && createCustomer(CustomerParamsOf(doc)).Some? && doc.id in old(users)) ==>
        users == old(users)
    {
      calls := [];
      if !revalidated {
        return calls, true;
      }
      if Truthy(doc.uid) && !Truthy(doc.stripeCustomerId) {
        var params := CustomerParamsOf(doc);
        calls := calls + [CreateCustomer(params)];
        var customer := createCustomer(params);
        if customer.Some? && doc.id in users {
          users := users[doc.id := users[doc.id].(stripeCustomerId := customer)];
        }
      }
      if operation == Update && Truthy(doc.stripeCustomerId) {
        calls := calls + [UpdateCustomer(doc.stripeCustomerId.value, CustomerParamsOf(doc))];
      }
      threw := false;
    }
  }

  // ---------------------------------------------------------------------
  // POST /refresh-token
  // ---------------------------------------------------------------------

  /** The session user, passed through untouched. */
  datatype SessionUser = SessionUser(id: string)

  /** The session endpoint's answer: `None` for a body that is not JSON. */
  datatype Upstream = FetchThrew | Fetched(ok: bool, status: int, json: Option<SessionBody>)
  datatype SessionBody = SessionBody(user: Option<SessionUser>)

  /** The value of the auth cookie: the token and its expiry in epoch milliseconds. */
  datatype CookieValue = CookieValue(token: Option<string>, expiresMs: Option<int>)
  datatype AuthCookie = AuthCookie(value: Option<CookieValue>)

  /** The request's `url`: missing, present but not a valid URL, or a valid URL. */
  datatype RequestUrl = NoUrl | UnparsableUrl | ParsedUrl

  datatype RefreshBody = RefreshOk(message: string, refreshToken: Option<string>, exp: Option<int>, user: SessionUser)
                       | RefreshFailedBody(message: string)

  /**
   * What the handler produces: a text or JSON response, or an exception that
   * escapes it (`new URL` runs before the `try`).
   */
  datatype RefreshResponse = TextResponse(status: int, text: string) | JsonResponse(status: int, body: RefreshBody)
                           | HandlerThrew

  /** The status of a response the handler returns. */
  function Status(r: RefreshResponse): int
    requires !r.HandlerThrew?
  {
    match r
    case TextResponse(status, _) => status
    case JsonResponse(status, _) => status
  }

  /** `Math.floor(expires.getTime() / 1000)`: whole seconds, rounded down. */
  function ExpirySeconds(expiresMs: int): (seconds: int)
    ensures seconds * 1000 <= expiresMs < seconds * 1000 + 1000
  {
    expiresMs / 1000
  }

  /** Every check of the handler passes: a valid URL, an ok JSON answer with a user, and an auth cookie. */
  predicate RefreshChecksPass(url: RequestUrl, upstream: Upstream, authCookie: Option<AuthCookie>)
  {
    && url.ParsedUrl? && upstream.Fetched? && upstream.ok && upstream.json.Some?
    && upstream.json.value.user.Some? && authCookie.Some?
  }

  /**
   * The endpoint. `authCookie` is the auth cookie found among the session
   * response's cookies (cookie parsing is not part of this model). A request
   * URL that cannot be parsed throws out of the handler, since `new URL`
   * runs before the `try`.
   */
  function RefreshToken(url: RequestUrl, upstream: Upstream, authCookie: Option<AuthCookie>): (r: RefreshResponse)
    ensures r == TextResponse(400, "No request URL provided") <==> url.NoUrl?
    ensures r.HandlerThrew? <==> url.UnparsableUrl?
    ensures url.ParsedUrl? && (upstream.FetchThrew? || upstream.json.None? || !upstream.ok) ==>
      r == JsonResponse(401, RefreshFailedBody("Token refresh failed"))
    ensures r == TextResponse(401, "No user found") <==>
      url.ParsedUrl? && upstream.Fetched? && upstream.ok && upstream.json.Some? && upstream.json.value.user.None?
    ensures r == TextResponse(401, "No auth cookie found") <==>
      && url.ParsedUrl? && upstream.Fetched? && upstream.ok && upstream.json.Some? && upstream.json.value.user.Some?
      && authCookie.None?
    // the handler succeeds exactly when every check passes
    ensures (r.JsonResponse? && r.body.RefreshOk?) <==> RefreshChecksPass(url, upstream, authCookie)
    ensures RefreshChecksPass(url, upstream, authCookie) ==>
      && r.body.message == "Token refresh successful"
      && Status(r) == upstream.status
      && r.body.user == upstream.json.value.user.value
    ensures RefreshChecksPass(url, upstream, authCookie) ==>
      var cookieValue := authCookie.value.value;
      && r.body.refreshToken == (if cookieValue.Some? then cookieValue.value.token else None)
      && (r.body.exp.Some? <==> cookieValue.Some? && cookieValue.value.expiresMs.Some?)
      && (r.body.exp.Some? ==>
            r.body.exp.value * 1000 <= cookieValue.value.expiresMs.value < r.body.exp.value * 1000 + 1000)
    ensures url.ParsedUrl? && !RefreshChecksPass(url, upstream, authCookie) ==> Status(r) == 401
  {
    match url
    case NoUrl => TextResponse(400, "No request URL provided")
    case UnparsableUrl => HandlerThrew
    case ParsedUrl =>
      match upstream
      case FetchThrew => JsonResponse(401, RefreshFailedBody("Token refresh failed"))
      case Fetched(ok, status, json) =>
        // the body is parsed before `ok` is looked at
        if json.None? || !ok then JsonResponse(401, RefreshFailedBody("Token refresh failed"))
        else if json.value.user.None? then TextResponse(401, "No user found")
        else if authCookie.None? then TextResponse(401, "No auth cookie found")
        else
          var v := authCookie.value.value;
          JsonResponse(status, RefreshOk(
            "Token refresh successful",
            if v.Some? then v.value.token else None,
            if v.Some? && v.value.expiresMs.Some? then Some(ExpirySeconds(v.value.expiresMs.value)) else None,
            json.value.user.value))
  }
}
