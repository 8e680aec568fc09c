/**
 * Cache operation descriptors: Spring's `CacheableOperation`, `CachePutOperation`
 * and `CacheEvictOperation`, and this library's `Expireable` variants
 * `ExpireableCacheableOperation` and `ExpireableCachePutOperation`, which carry
 * an (expire, unit) pair. Descriptors are immutable values.
 */
module Operations {
  import opened Wrappers
  import opened Lang

  /** The `Expireable` view of an operation: a long and a unit that may be null. */
  datatype Ttl = Ttl(expire: Long, unit: Option<TimeUnit>)

  /** The attributes every `CacheOperation` has; `cacheNames` is an insertion-ordered set. */
  datatype CommonAttributes = CommonAttributes(
    name: string,
    cacheNames: seq<string>,
    key: string,
    keyGenerator: string,
    cacheManager: string,
    cacheResolver: string,
    condition: string)

  /** What a fresh `CacheOperation.Builder` holds. */
  const EMPTY_ATTRIBUTES: CommonAttributes := CommonAttributes("", [], "", "", "", "", "")

  /**
   * A cache operation. `ttl` is `Some` exactly for the `Expireable`
   * subclasses: `Cacheable(_, _, _, Some(_))` is an `ExpireableCacheableOperation`,
   * `CachePut(_, _, Some(_))` an `ExpireableCachePutOperation`.
   */
  datatype CacheOperation =
    | Cacheable(common: CommonAttributes, unless: string, sync: bool, ttl: Option<Ttl>)
    | CachePut(common: CommonAttributes, unless: string, ttl: Option<Ttl>)
    | CacheEvict(common: CommonAttributes, cacheWide: bool, beforeInvocation: bool)
  {
    /** `operation instanceof Expireable`. */
    predicate IsExpireable() {
      !CacheEvict? && ttl.Some?
    }
  }

  /** The runtime class of an operation object. */
  datatype OperationClass =
    | CacheableOperationClass
    | ExpireableCacheableOperationClass
    | CachePutOperationClass
    | ExpireableCachePutOperationClass
    | CacheEvictOperationClass

  /** `operation.getClass()`. */
  function ClassOf(op: CacheOperation): (c: OperationClass)
    ensures op.IsExpireable() <==> c in {ExpireableCacheableOperationClass, ExpireableCachePutOperationClass}
  {
    match op
    case Cacheable(_, _, _, ttl) =>
      if ttl.Some? then ExpireableCacheableOperationClass else CacheableOperationClass
    case CachePut(_, _, ttl) =>
      if ttl.Some? then ExpireableCachePutOperationClass else CachePutOperationClass
    case CacheEvict(_, _, _) => CacheEvictOperationClass
  }

  /** The `unless` text of a Cacheable or CachePut operation; evictions have none. */
  function UnlessOf(op: CacheOperation): string {
    if op.CacheEvict? then "" else op.unless
  }
}
