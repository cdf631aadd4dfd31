/**
 * Error instances: what each constructor stores, and what a caller reads
 * back after narrowing an error by class.
 *
 * `J` stands for any JSON-like value (the values of the `Record<string,
 * unknown>` bodies and headers, and the billing `errorData`), `A` for the
 * HTTP adapter's response; both are opaque here.
 */
module ErrorValues {
  import opened Wrappers
  import opened ErrorHierarchy

  /** A `Record<string, unknown>`. */
  type Record<J> = map<string, J>

  /** `HttpResponseData`: what an HTTP response error keeps of the response. */
  datatype HttpResponseData<J> = HttpResponseData(
    code: int,
    statusText: string,
    body: Option<Record<J>>,
    headers: Option<Record<J>>)

  /** `HttpThrottlingErrorData`: `HttpResponseData` with an optional retry-after hint. */
  datatype HttpThrottlingErrorData<J> = HttpThrottlingErrorData(
    code: int,
    statusText: string,
    body: Option<Record<J>>,
    headers: Option<Record<J>>,
    retryAfter: Option<int>)

  datatype HttpResponseErrorParams<J> = HttpResponseErrorParams(
    message: string,
    code: int,
    statusText: string,
    body: Option<Record<J>>,
    headers: Option<Record<J>>)

  datatype HttpThrottlingErrorParams<J> = HttpThrottlingErrorParams(
    message: string,
    code: int,
    statusText: string,
    body: Option<Record<J>>,
    headers: Option<Record<J>>,
    retryAfter: Option<int>)

  datatype GraphqlQueryErrorParams<J> = GraphqlQueryErrorParams(
    message: string,
    response: Record<J>,
    headers: Option<Record<J>>,
    body: Option<Record<J>>)

  datatype InvalidWebhookParams<A> = InvalidWebhookParams(message: string, response: A)

  datatype BillingErrorParams<J> = BillingErrorParams(message: string, errorData: J)

  /** The fields a constructor below the root adds to the instance. */
  datatype Payload<J, A> =
    | NoPayload
    | Response(response: HttpResponseData<J>)
    | ThrottlingResponse(throttlingResponse: HttpThrottlingErrorData<J>)
    | GraphqlFields(graphqlResponse: Record<J>, graphqlHeaders: Option<Record<J>>, graphqlBody: Option<Record<J>>)
    | WebhookResponse(adapterResponse: A)
    | BillingData(errorData: J)

  /**
   * An error instance: its class, the message handed to the root
   * constructor (`None` when it was called without one) and its own fields.
   */
  datatype ErrorValue<J, A> = ErrorValue(kind: ErrorKind, message: Option<string>, payload: Payload<J, A>)

  /** The class whose constructor writes fields of this shape. */
  function PayloadWriter<J, A>(p: Payload<J, A>): (w: ErrorKind)
  {
    match p
    case NoPayload => ShopifyError
    case Response(_) => HttpResponseError
    case ThrottlingResponse(_) => HttpThrottlingError
    case GraphqlFields(_, _, _) => GraphqlQueryError
    case WebhookResponse(_) => InvalidWebhookError
    case BillingData(_) => BillingError
  }

  /**
   * The instance invariant: an error carries the fields its constructor
   * writes, and every constructor below the root passes a message.
   */
  predicate WellFormed<J, A>(e: ErrorValue<J, A>)
  {
    && PayloadWriter(e.payload) == ConstructorOwner(e.kind)
    && (ConstructorOwner(e.kind) != ShopifyError ==> e.message.Some?)
  }

  /**
   * Narrowing is sound: in a well-formed error, `response`, the GraphQL
   * fields, the adapter response and `errorData` are present exactly for
   * the classes that declare them and their subclasses.
   */
  lemma PayloadMatchesClass<J, A>(e: ErrorValue<J, A>)
    requires WellFormed(e)
    ensures IsA(e.kind, HttpResponseError) <==> e.payload.Response? || e.payload.ThrottlingResponse?
    ensures e.payload.ThrottlingResponse? <==> e.kind == HttpThrottlingError
    ensures IsA(e.kind, GraphqlQueryError) <==> e.payload.GraphqlFields?
    ensures IsA(e.kind, InvalidWebhookError) <==> e.payload.WebhookResponse?
    ensures IsA(e.kind, BillingError) <==> e.payload.BillingData?
  {
    ConstructorOwners(e.kind);
    HttpResponseFamily(e.kind);
    InvalidWebhookFamily(e.kind);
    RootHasNoAncestor(GraphqlQueryError);
    RootHasNoAncestor(BillingError);
  }

  /** Retry eligibility, decided by class alone. */
  predicate IsRetryEligible<J, A>(e: ErrorValue<J, A>)
  {
    IsA(e.kind, HttpRetriableError)
  }

  /**
   * `error.response` of an error narrowed to `HttpResponseError`, with
   * `retryAfter` read as absent unless the error stores one.
   */
  function HttpResponseOf<J, A>(e: ErrorValue<J, A>): (r: HttpThrottlingErrorData<J>)
    requires WellFormed(e) && IsA(e.kind, HttpResponseError)
    ensures r.retryAfter.Some? ==> e.kind == HttpThrottlingError
  {
    PayloadMatchesClass(e);
    match e.payload
    case Response(d) => HttpThrottlingErrorData(d.code, d.statusText, d.body, d.headers, None)
    case ThrottlingResponse(d) => d
  }

  /** `error.response` of an error narrowed to `InvalidWebhookError`. */
  function AdapterResponseOf<J, A>(e: ErrorValue<J, A>): (r: A)
    requires WellFormed(e) && IsA(e.kind, InvalidWebhookError)
    ensures e.payload == WebhookResponse(r)
  {
    PayloadMatchesClass(e);
    e.payload.adapterResponse
  }

  /** The `{code, statusText, body, headers}` object that `HttpResponseError`'s constructor stores. */
  function StoredResponse<J>(p: HttpResponseErrorParams<J>): (r: HttpResponseData<J>)
  {
    HttpResponseData(p.code, p.statusText, p.body, p.headers)
  }

  /** `new k(message)` for a class that inherits `ShopifyError`'s constructor. */
  function NewShopifyError<J, A>(k: ErrorKind, message: Option<string>): (e: ErrorValue<J, A>)
    requires ConstructorOwner(k) == ShopifyError
    ensures WellFormed(e) && e.kind == k && e.message == message
    ensures !IsA(k, HttpResponseError) && !IsA(k, GraphqlQueryError)
    ensures !IsA(k, InvalidWebhookError) && !IsA(k, BillingError)
  {
    var e := ErrorValue(k, message, NoPayload);
    PayloadMatchesClass(e);
    e
  }

  /** `new k(params)` for `HttpResponseError`, `HttpRetriableError` and `HttpInternalError`. */
  function NewHttpResponseError<J, A>(k: ErrorKind, p: HttpResponseErrorParams<J>): (e: ErrorValue<J, A>)
    requires ConstructorOwner(k) == HttpResponseError
    ensures WellFormed(e) && e.kind == k && e.message == Some(p.message)
    ensures IsA(k, HttpResponseError)
    ensures HttpResponseOf(e) == HttpThrottlingErrorData(p.code, p.statusText, p.body, p.headers, None)
  {
    ErrorValue(k, Some(p.message), Response(StoredResponse(p)))
  }

  /**
   * `new HttpThrottlingError(params)`: `HttpResponseError`'s constructor
   * runs on everything but `retryAfter`, then `retryAfter` is written onto
   * the stored response.
   */
  method NewHttpThrottlingError<J, A>(p: HttpThrottlingErrorParams<J>) returns (e: ErrorValue<J, A>)
    ensures WellFormed(e) && e.kind == HttpThrottlingError && e.message == Some(p.message)
    ensures IsRetryEligible(e)
    ensures HttpResponseOf(e) == HttpThrottlingErrorData(p.code, p.statusText, p.body, p.headers, p.retryAfter)
  {
    var params := HttpResponseErrorParams(p.message, p.code, p.statusText, p.body, p.headers);
    // First step: the parent constructor stores the response without `retryAfter`.
    var stored := StoredResponse(params);
    e := ErrorValue(HttpThrottlingError, Some(params.message),
                    ThrottlingResponse(HttpThrottlingErrorData(stored.code, stored.statusText, stored.body, stored.headers, None)));
    // Second step: write `retryAfter` onto the stored response.
    e := e.(payload := ThrottlingResponse(e.payload.throttlingResponse.(retryAfter := p.retryAfter)));
  }

  /** `new GraphqlQueryError(params)`. */
  function NewGraphqlQueryError<J, A>(p: GraphqlQueryErrorParams<J>): (e: ErrorValue<J, A>)
    ensures WellFormed(e) && e.kind == GraphqlQueryError && e.message == Some(p.message)
    ensures !IsA(e.kind, HttpResponseError)
    ensures e.payload.GraphqlFields?
    ensures e.payload.graphqlResponse == p.response
    ensures e.payload.graphqlHeaders == p.headers && e.payload.graphqlBody == p.body
  {
    var e := ErrorValue(GraphqlQueryError, Some(p.message), GraphqlFields(p.response, p.headers, p.body));
    PayloadMatchesClass(e);
    e
  }

  /** `new k(params)` for `InvalidWebhookError` and `MissingWebhookCallbackError`. */
  function NewInvalidWebhookError<J, A>(k: ErrorKind, p: InvalidWebhookParams<A>): (e: ErrorValue<J, A>)
    requires ConstructorOwner(k) == InvalidWebhookError
    ensures WellFormed(e) && e.kind == k && e.message == Some(p.message)
    ensures IsA(k, InvalidWebhookError) && AdapterResponseOf(e) == p.response
  {
    ErrorValue(k, Some(p.message), WebhookResponse(p.response))
  }

  /** `new BillingError(params)`. */
  function NewBillingError<J, A>(p: BillingErrorParams<J>): (e: ErrorValue<J, A>)
    ensures WellFormed(e) && e.kind == BillingError && e.message == Some(p.message)
    ensures e.payload.BillingData? && e.payload.errorData == p.errorData
  {
    ErrorValue(BillingError, Some(p.message), BillingData(p.errorData))
  }

  /**
   * Of the three classes sharing `HttpResponseError`'s constructor, all but
   * `HttpResponseError` itself build retry-eligible errors.
   */
  lemma HttpResponseErrorRetryEligibility<J, A>(k: ErrorKind, p: HttpResponseErrorParams<J>)
    requires ConstructorOwner(k) == HttpResponseError
    ensures IsRetryEligible(NewHttpResponseError<J, A>(k, p)) <==> k != HttpResponseError
  {
    ConstructorOwners(k);
    HttpRetriableFamily(k);
  }

  /** A caller that narrows a rate-limited response. */
  method ThrottlingScenario()
  {
    var e := NewHttpThrottlingError<int, int>(
      HttpThrottlingErrorParams("rate limited", 429, "Too Many Requests", None, None, Some(2)));
    EveryKindIsAShopifyError(e.kind);
    assert IsA(e.kind, ShopifyError) && IsA(e.kind, HttpResponseError) && IsRetryEligible(e);
    assert HttpResponseOf(e) == HttpThrottlingErrorData(429, "Too Many Requests", None, None, Some(2));
  }
}
