/**
 * The class hierarchy of the library's errors: one kind per exported error
 * class, the `extends` clause of each class, and the is-a relation that
 * `instanceof` tests decide.
 */
module ErrorHierarchy {
  import opened Wrappers

  /** One constructor per error class, named as the class is. */
  datatype ErrorKind =
    | ShopifyError
    | InvalidHmacError
    | InvalidShopError
    | InvalidHostError
    | InvalidJwtError
    | MissingJwtTokenError
    | InvalidDeliveryMethodError
    | SafeCompareError
    | PrivateAppError
    | HttpRequestError
    | HttpMaxRetriesError
    | HttpResponseError
    | HttpRetriableError
    | HttpInternalError
    | HttpThrottlingError
    | RestResourceError
    | GraphqlQueryError
    | InvalidOAuthError
    | BotActivityDetected
    | CookieNotFound
    | InvalidSession
    | InvalidWebhookError
    | MissingWebhookCallbackError
    | SessionStorageError
    | MissingRequiredArgument
    | UnsupportedClientType
    | InvalidRequestError
    | BillingError
    | FeatureDeprecatedError

  /** How many `extends` steps separate a class from the root (its level in the tree). */
  function Depth(k: ErrorKind): (d: nat)
  {
    match k
    case ShopifyError => 0
    case HttpRetriableError | MissingWebhookCallbackError => 2
    case HttpInternalError | HttpThrottlingError => 3
    case _ => 1
  }

  /**
   * The class named in `k`'s `extends` clause; the root extends only the
   * runtime's `Error`, which is not an error kind of the library.
   */
  function Parent(k: ErrorKind): (p: Option<ErrorKind>)
    ensures p.None? <==> k == ShopifyError
    ensures p.Some? ==> Depth(p.value) + 1 == Depth(k)
  {
    match k
    case ShopifyError => None
    case HttpRetriableError => Some(HttpResponseError)
    case HttpInternalError | HttpThrottlingError => Some(HttpRetriableError)
    case MissingWebhookCallbackError => Some(InvalidWebhookError)
    case _ => Some(ShopifyError)
  }

  /** `k` is `ancestor` or a subclass of it: the reflexive-transitive closure of `Parent`. */
  predicate IsA(k: ErrorKind, ancestor: ErrorKind)
    decreases Depth(k)
  {
    k == ancestor || (Parent(k).Some? && IsA(Parent(k).value, ancestor))
  }

  /** Every error class is a `ShopifyError`: following parents always reaches the root. */
  lemma {:induction false} EveryKindIsAShopifyError(k: ErrorKind)
    ensures IsA(k, ShopifyError)
    decreases Depth(k)
  {
    if k != ShopifyError {
      EveryKindIsAShopifyError(Parent(k).value);
    }
  }

  /** A proper ancestor sits strictly closer to the root. */
  lemma {:induction false} AncestorIsShallower(k: ErrorKind, ancestor: ErrorKind)
    requires IsA(k, ancestor)
    ensures Depth(ancestor) <= Depth(k)
    ensures Depth(ancestor) == Depth(k) ==> k == ancestor
    decreases Depth(k)
  {
    if k != ancestor {
      AncestorIsShallower(Parent(k).value, ancestor);
    }
  }

  /** The is-a relation is transitive. */
  lemma {:induction false} IsATransitive(a: ErrorKind, b: ErrorKind, c: ErrorKind)
    requires IsA(a, b) && IsA(b, c)
    ensures IsA(a, c)
    decreases Depth(a)
  {
    if a != b {
      IsATransitive(Parent(a).value, b, c);
    }
  }

  /** The is-a relation is antisymmetric: there are no cycles in the hierarchy. */
  lemma IsAAntisymmetric(a: ErrorKind, b: ErrorKind)
    requires IsA(a, b) && IsA(b, a)
    ensures a == b
  {
    AncestorIsShallower(a, b);
    AncestorIsShallower(b, a);
  }

  /** A class is never a subclass of its own subclass: following parents never comes back. */
  lemma ParentIsNotASubclass(k: ErrorKind)
    requires k != ShopifyError
    ensures !IsA(Parent(k).value, k)
  {
    if IsA(Parent(k).value, k) {
      AncestorIsShallower(Parent(k).value, k);
    }
  }

  /**
   * The hierarchy is a tree: the ancestors of any class form a single chain,
   * so any two of them are related by is-a.
   */
  lemma {:induction false} AncestorsFormAChain(k: ErrorKind, a: ErrorKind, b: ErrorKind)
    requires IsA(k, a) && IsA(k, b)
    ensures IsA(a, b) || IsA(b, a)
    decreases Depth(k)
  {
    if k != a && k != b {
      AncestorsFormAChain(Parent(k).value, a, b);
    }
  }

  /** The root is a subclass of nothing but itself. */
  lemma RootHasNoAncestor(a: ErrorKind)
    ensures IsA(ShopifyError, a) <==> a == ShopifyError
  {
  }

  /** Exactly four classes are `HttpResponseError`s; `HttpRequestError` and `HttpMaxRetriesError` are not among them. */
  lemma HttpResponseFamily(k: ErrorKind)
    ensures IsA(k, HttpResponseError) <==>
              k in {HttpResponseError, HttpRetriableError, HttpInternalError, HttpThrottlingError}
  {
    RootHasNoAncestor(HttpResponseError);
  }

  /**
   * Retry eligibility: exactly `HttpRetriableError`, `HttpInternalError` and
   * `HttpThrottlingError` are `HttpRetriableError`s; a plain `HttpResponseError` is not.
   */
  lemma HttpRetriableFamily(k: ErrorKind)
    ensures IsA(k, HttpRetriableError) <==>
              k in {HttpRetriableError, HttpInternalError, HttpThrottlingError}
  {
    RootHasNoAncestor(HttpRetriableError);
  }

  /** Exactly `InvalidWebhookError` and `MissingWebhookCallbackError` are `InvalidWebhookError`s. */
  lemma InvalidWebhookFamily(k: ErrorKind)
    ensures IsA(k, InvalidWebhookError) <==> k in {InvalidWebhookError, MissingWebhookCallbackError}
  {
    RootHasNoAncestor(InvalidWebhookError);
  }

  /** The classes whose body declares a `constructor`; every other class inherits its parent's. */
  predicate DeclaresConstructor(k: ErrorKind)
  {
    k in {ShopifyError, HttpResponseError, HttpThrottlingError, GraphqlQueryError, InvalidWebhookError, BillingError}
  }

  /**
   * The constructor that `new k(...)` runs: that of the nearest ancestor
   * (or `k` itself) declaring one. It decides which parameters the class
   * takes and which fields its instances carry.
   */
  function ConstructorOwner(k: ErrorKind): (c: ErrorKind)
    ensures DeclaresConstructor(c) && IsA(k, c)
    ensures forall d :: IsA(k, d) && DeclaresConstructor(d) ==> IsA(c, d)
    decreases Depth(k)
  {
    if DeclaresConstructor(k) then k else ConstructorOwner(Parent(k).value)
  }

  /** Which classes share each constructor. */
  lemma ConstructorOwners(k: ErrorKind)
    ensures ConstructorOwner(k) == HttpResponseError <==>
              k in {HttpResponseError, HttpRetriableError, HttpInternalError}
    ensures ConstructorOwner(k) == HttpThrottlingError <==> k == HttpThrottlingError
    ensures ConstructorOwner(k) == InvalidWebhookError <==>
              k in {InvalidWebhookError, MissingWebhookCallbackError}
    ensures ConstructorOwner(k) == GraphqlQueryError <==> k == GraphqlQueryError
    ensures ConstructorOwner(k) == BillingError <==> k == BillingError
  {
  }
}
