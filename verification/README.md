# Shopify API error taxonomy

A Dafny model of `packages/apps/shopify-api/lib/error.ts`, the error
classes of the Shopify API library. Every failure the library reports is a
`ShopifyError`; about thirty subclasses name the failure category (invalid
HMAC, invalid shop, HTTP response, throttling, GraphQL query, invalid
webhook, billing, ...), and a few carry data: the HTTP response
(`HttpResponseError` and its subclasses), the GraphQL error envelope
(`GraphqlQueryError`), the adapter response of a rejected webhook
(`InvalidWebhookError`) and the billing error data (`BillingError`).
Callers tell failures apart by class (`instanceof`), for instance "retry
eligible" means "is an `HttpRetriableError`".

- `wrappers.dfy` (module `Wrappers`): `Option`, where `None` stands for an
  absent or `undefined` property.
- `hierarchy.dfy` (module `ErrorHierarchy`): one `ErrorKind` per class,
  `Parent` for each `extends` clause, `IsA` as its reflexive-transitive
  closure (the meaning of `instanceof`), the proof that the hierarchy is a
  tree rooted at `ShopifyError`, the members of the HTTP response, retriable
  and webhook families, and `ConstructorOwner`: the class whose constructor
  `new k(...)` runs, which is the nearest ancestor declaring one.
- `errors.dfy` (module `ErrorValues`): the payload records, the instances as
  values (`ErrorValue`: class, message, fields), the invariant `WellFormed`
  tying the fields an instance carries to its constructor, one construction
  member per declared constructor, and the accessors a caller uses after
  narrowing. `HttpThrottlingError`'s constructor is a method that performs its
  two steps in order: the `HttpResponseError` constructor first, then the
  write of `retryAfter` onto the stored response.

The body and header records (`Record<string, unknown>`) are maps from
strings to an opaque type parameter `J`; the billing `errorData` (`any`) is a
`J` too, and the webhook adapter response is an opaque type parameter `A`.

The root constructor takes `message?: string` and checks nothing, so
`NewShopifyError` accepts an absent message and the payload constructors
accept any string, the empty one included. `HttpThrottlingError` writes
`retryAfter` onto the stored response inside its own constructor, and
`NewHttpThrottlingError` models that write.

## Model

| member | source | states |
|---|---|---|
| `ErrorHierarchy.Parent` | packages/apps/shopify-api/lib/error.ts:3-128 | only `ShopifyError` lacks a parent among the error classes; every other class's parent is one level closer to the root |
| `ErrorHierarchy.EveryKindIsAShopifyError` | packages/apps/shopify-api/lib/error.ts:3-128 | every error class is a `ShopifyError` |
| `ErrorHierarchy.AncestorIsShallower` | packages/apps/shopify-api/lib/error.ts:3-128 | a proper ancestor is strictly closer to the root |
| `ErrorHierarchy.IsATransitive` | packages/apps/shopify-api/lib/error.ts:3-128 | is-a is transitive |
| `ErrorHierarchy.IsAAntisymmetric` | packages/apps/shopify-api/lib/error.ts:3-128 | is-a is antisymmetric: the hierarchy has no cycles |
| `ErrorHierarchy.ParentIsNotASubclass` | packages/apps/shopify-api/lib/error.ts:3-128 | following parents never leads back to the starting class |
| `ErrorHierarchy.AncestorsFormAChain` | packages/apps/shopify-api/lib/error.ts:3-128 | any two ancestors of a class are related by is-a: the hierarchy is a tree |
| `ErrorHierarchy.RootHasNoAncestor` | packages/apps/shopify-api/lib/error.ts:3-8 | `ShopifyError` is an instance of no error class but itself |
| `ErrorHierarchy.HttpResponseFamily` | packages/apps/shopify-api/lib/error.ts:20-65 | a class is an `HttpResponseError` iff it is `HttpResponseError`, `HttpRetriableError`, `HttpInternalError` or `HttpThrottlingError`; so `HttpRequestError` and `HttpMaxRetriesError` are not |
| `ErrorHierarchy.HttpRetriableFamily` | packages/apps/shopify-api/lib/error.ts:54-65 | a class is an `HttpRetriableError` iff it is `HttpRetriableError`, `HttpInternalError` or `HttpThrottlingError`; so a plain `HttpResponseError` is not |
| `ErrorHierarchy.InvalidWebhookFamily` | packages/apps/shopify-api/lib/error.ts:103-111 | a class is an `InvalidWebhookError` iff it is `InvalidWebhookError` or `MissingWebhookCallbackError` |
| `ErrorHierarchy.ConstructorOwner` | packages/apps/shopify-api/lib/error.ts:3-128 | the constructor a class runs belongs to an ancestor that declares one, and to the nearest such ancestor |
| `ErrorHierarchy.ConstructorOwners` | packages/apps/shopify-api/lib/error.ts:33-128 | which classes share each declared constructor, in both directions |
| `ErrorValues.PayloadMatchesClass` | packages/apps/shopify-api/lib/error.ts:33-126 | in a well-formed error, each kind of field is present iff the error is an instance of the class that declares it; a stored `retryAfter` record only on `HttpThrottlingError` |
| `ErrorValues.HttpResponseOf` | packages/apps/shopify-api/lib/error.ts:36-68 | `response` can be read exactly after narrowing to `HttpResponseError`; a `retryAfter` is present only on an `HttpThrottlingError` |
| `ErrorValues.AdapterResponseOf` | packages/apps/shopify-api/lib/error.ts:103-109 | the adapter response can be read after narrowing to `InvalidWebhookError` and is the stored one |
| `ErrorValues.NewShopifyError` | packages/apps/shopify-api/lib/error.ts:3-8 | a class using the root constructor keeps its class and the message exactly as given (absent when omitted) and carries no HTTP, GraphQL, webhook or billing fields |
| `ErrorValues.NewHttpResponseError` | packages/apps/shopify-api/lib/error.ts:38-52 | the error is well formed, keeps the message, and reads back `code`, `statusText`, `body` and `headers` exactly as passed, absent when omitted, with no `retryAfter` |
| `ErrorValues.NewHttpThrottlingError` | packages/apps/shopify-api/lib/error.ts:65-70 | the error is well formed and retry eligible, keeps the message, and and after the `retryAfter` write reads back `code`, `statusText`, `body`, `headers` and `retryAfter` exactly as passed, each optional one absent when omitted |
| `ErrorValues.NewGraphqlQueryError` | packages/apps/shopify-api/lib/error.ts:81-92 | the error is well formed, not an HTTP response error, keeps the message, and stores `response`, `headers` and `body` unchanged, absent when omitted |
| `ErrorValues.NewInvalidWebhookError` | packages/apps/shopify-api/lib/error.ts:103-111 | for `InvalidWebhookError` and `MissingWebhookCallbackError`: the error is well formed, is an `InvalidWebhookError`, keeps the message, and reads back the adapter response it was given |
| `ErrorValues.NewBillingError` | packages/apps/shopify-api/lib/error.ts:120-126 | the error is well formed, keeps the message, and stores `errorData` unchanged |
| `ErrorValues.HttpResponseErrorRetryEligibility` | packages/apps/shopify-api/lib/error.ts:38-57 | of the classes built by `HttpResponseError`'s constructor, the error is retry eligible iff its class is not `HttpResponseError` itself |

## Left out

- `Object.setPrototypeOf(this, new.target.prototype)` (error.ts:6) is the JavaScript runtime's way of making `instanceof` work for subclasses of `Error`. Here `IsA` on the closed `ErrorKind` type takes its place.
- The inherited `Error` behaviour is not modelled: `name`, `stack`, and the runtime turning an omitted message into `""`. `ErrorValue.message` records what was passed to the root constructor.
- `AdapterResponse` is defined in `runtime/http/types`, which is not part of this model. It is the opaque type parameter `A`.
- The `Record<string, unknown>` bodies and headers, the GraphQL `response` and the billing `errorData` have no schema in the source. They are opaque values of type `J`.
- `code` and `retryAfter` are JavaScript numbers. They are modelled as `int`, so fractional values and `NaN` are not represented.
- A property that is missing and a property set to `undefined` both read as `None`. JavaScript can tell them apart with `in`, but nothing in this file does.
- Errors are values, so object identity is not modelled. The in-place write of `retryAfter` becomes an update of the value under construction inside `NewHttpThrottlingError`. No other reference to that response object exists at that point.
- The TypeScript cast `as ResponseType` (error.ts:51) has no runtime effect. The throttling response is its own record type, `HttpThrottlingErrorData`.
- The code that raises and catches these errors is outside this file and outside the model: HTTP transport, retry loops, OAuth, webhook validation, session storage and billing.
