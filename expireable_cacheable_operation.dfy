/**
 * `ExpireableCacheableOperation` and its `Builder`: a `CacheableOperation`
 * that also carries an expire and a time unit. The builder is mutable; the
 * operation it builds is an immutable value that copies the builder's fields.
 */
module ExpireableCacheableOperations {
  import opened Wrappers
  import opened Lang
  import opened Operations
  import CacheUtils

  /** `getExpire()` of a built operation. */
  function GetExpire(op: CacheOperation): Long
    requires op.Cacheable? && op.ttl.Some?
  {
    op.ttl.value.expire
  }

  /** `getTimeUnit()` of a built operation; `None` is a null unit. */
  function GetTimeUnit(op: CacheOperation): Option<TimeUnit>
    requires op.Cacheable? && op.ttl.Some?
  {
    op.ttl.value.unit
  }

  class Builder {
    var common: CommonAttributes
    var unless: string
    var sync: bool
    var expire: Long
    var timeUnit: Option<TimeUnit>

    /** A fresh builder: Java's field defaults, so expire 0 and a null unit. */
    constructor()
      ensures common == EMPTY_ATTRIBUTES && unless == "" && !sync
      ensures expire == 0 && timeUnit == None
    {
      common := EMPTY_ATTRIBUTES;
      unless := "";
      sync := false;
      expire := 0;
      timeUnit := None;
    }

    method SetName(name: string)
      modifies this
      ensures common == old(common).(name := name)
      ensures unless == old(unless) && sync == old(sync) && expire == old(expire) && timeUnit == old(timeUnit)
    {
      common := common.(name := name);
    }

    /** The names are kept as an insertion-ordered set: first occurrences, in order. */
    method SetCacheNames(names: seq<string>)
      modifies this
      ensures common == old(common).(cacheNames := Dedup(names))
      ensures NoDuplicates(common.cacheNames) && forall n :: n in common.cacheNames <==> n in names
      ensures common.cacheNames == FirstOccurrences(names, [])
      ensures unless == old(unless) && sync == old(sync) && expire == old(expire) && timeUnit == old(timeUnit)
    {
      DedupKeepsFirstOccurrences(names);
      common := common.(cacheNames := Dedup(names));
    }

    method SetKey(key: string)
      modifies this
      ensures common == old(common).(key := key)
      ensures unless == old(unless) && sync == old(sync) && expire == old(expire) && timeUnit == old(timeUnit)
    {
      common := common.(key := key);
    }

    method SetKeyGenerator(keyGenerator: string)
      modifies this
      ensures common == old(common).(keyGenerator := keyGenerator)
      ensures unless == old(unless) && sync == old(sync) && expire == old(expire) && timeUnit == old(timeUnit)
    {
      common := common.(keyGenerator := keyGenerator);
    }

    method SetCacheManager(cacheManager: string)
      modifies this
      ensures common == old(common).(cacheManager := cacheManager)
      ensures unless == old(unless) && sync == old(sync) && expire == old(expire) && timeUnit == old(timeUnit)
    {
      common := common.(cacheManager := cacheManager);
    }

    method SetCacheResolver(cacheResolver: string)
      modifies this
      ensures common == old(common).(cacheResolver := cacheResolver)
      ensures unless == old(unless) && sync == old(sync) && expire == old(expire) && timeUnit == old(timeUnit)
    {
      common := common.(cacheResolver := cacheResolver);
    }

    method SetCondition(condition: string)
      modifies this
      ensures common == old(common).(condition := condition)
      ensures unless == old(unless) && sync == old(sync) && expire == old(expire) && timeUnit == old(timeUnit)
    {
      common := common.(condition := condition);
    }

    method SetUnless(unless: string)
      modifies this
      ensures this.unless == unless
      ensures common == old(common) && sync == old(sync) && expire == old(expire) && timeUnit == old(timeUnit)
    {
      this.unless := unless;
    }

    method SetSync(sync: bool)
      modifies this
      ensures this.sync == sync
      ensures common == old(common) && unless == old(unless) && expire == old(expire) && timeUnit == old(timeUnit)
    {
      this.sync := sync;
    }

    method SetExpire(expire: Long)
      modifies this
      ensures this.expire == expire
      ensures common == old(common) && unless == old(unless) && sync == old(sync) && timeUnit == old(timeUnit)
    {
      this.expire := expire;
    }

    method SetTimeUnit(timeUnit: Option<TimeUnit>)
      modifies this
      ensures this.timeUnit == timeUnit
      ensures common == old(common) && unless == old(unless) && sync == old(sync) && expire == old(expire)
    {
      this.timeUnit := timeUnit;
    }

    /**
     * The builder's description: the description the plain `CacheableOperation`
     * builder produces (`base`), followed by the expire/unit suffix.
     */
    method GetOperationDescription(base: CacheUtils.StringBuilder) returns (sb: CacheUtils.StringBuilder)
      modifies base
      ensures sb == base
      ensures sb.content == old(base.content) + CacheUtils.ExpireableDesc(expire, timeUnit)
      ensures CacheUtils.DecodeExpireableDesc(sb.content[|old(base.content)|..]) == Some((expire as int, timeUnit))
    {
      sb := CacheUtils.AddExpireableDesc(base, expire, timeUnit);
      assert sb.content[|old(base.content)|..] == CacheUtils.ExpireableDesc(expire, timeUnit);
      CacheUtils.DecodeExpireableDescRoundTrip(expire, timeUnit);
    }

    /** `build()`: a new operation that copies every field of the builder. */
    method Build() returns (op: CacheOperation)
      ensures op.Cacheable? && op.IsExpireable() && ClassOf(op) == ExpireableCacheableOperationClass
      ensures op.common == common && op.unless == unless && op.sync == sync
      ensures GetExpire(op) == expire && GetTimeUnit(op) == timeUnit
    {
      op := Cacheable(common, unless, sync, Some(Ttl(expire, timeUnit)));
    }
  }

  /**
   * Helper: setters called after `build()` change the builder, not the built operation:
   * the operation's expire and unit are the ones the builder held when it was built.
   */
  method SettersAfterBuild(b: Builder, expire: Long, timeUnit: Option<TimeUnit>) returns (op: CacheOperation)
    modifies b
    ensures op.Cacheable? && op.ttl.Some?
    ensures GetExpire(op) == old(b.expire) && GetTimeUnit(op) == old(b.timeUnit)
    ensures b.expire == expire && b.timeUnit == timeUnit
  {
    op := b.Build();
    b.SetExpire(expire);
    b.SetTimeUnit(timeUnit);
  }
}
