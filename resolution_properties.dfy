/**
 * What the operations the annotation parser builds meet in the Redis cache
 * resolver: a parsed `ExpireableCacheable` records its time-to-live under
 * every cache name, while a parsed `ExpireableCachePut`, which carries no
 * time unit, fails the resolution.
 */
module ExpireableResolution {
  import opened Wrappers
  import opened Lang
  import opened Operations
  import opened AnnotationParser
  import opened RedisCacheResolution

  /** When every name has a cache, the loop handles all of them. */
  lemma {:induction false} AllPresentAllHandled(caches: map<string, CacheId>, names: seq<string>)
    requires forall i :: 0 <= i < |names| ==> names[i] in caches
    ensures Handled(caches, names) == |names|
    decreases |names|
  {
    if |names| > 0 {
      assert forall i :: 0 <= i < |names[1..]| ==> names[1..][i] == names[i + 1];
      AllPresentAllHandled(caches, names[1..]);
    }
  }

  /**
   * A parsed `ExpireableCachePut` has no time unit, so a Redis manager's
   * resolver throws a `NullPointerException` on its first cache name and
   * records nothing.
   */
  lemma PutAnnotationFailsOnRedis(ae: AnnotatedElement, cfg: DefaultCacheConfig, a: CachePutAnnotation,
                                  caches: map<string, CacheId>, expires: Option<map<string, Long>>)
    requires |PutOperationOf(ae, cfg, a).common.cacheNames| > 0
    ensures var op := PutOperationOf(ae, cfg, a);
      ResolveCachesSpec(true, caches, op, Some(op.common.cacheNames), expires) == Resolution(expires, Failure(NullPointer))
  {
    var op := PutOperationOf(ae, cfg, a);
    NullUnitFails(caches, op, op.common.cacheNames, expires);
  }

  /**
   * A parsed `ExpireableCacheable` whose names all have caches resolves to
   * one cache per name and leaves each name mapped to its expire in seconds.
   */
  lemma CacheableAnnotationRecordsTtl(ae: AnnotatedElement, cfg: DefaultCacheConfig, a: CacheableAnnotation,
                                      caches: map<string, CacheId>, expires: Option<map<string, Long>>)
    requires var names := CacheableOperationOf(ae, cfg, a).common.cacheNames;
      |names| > 0 && forall i :: 0 <= i < |names| ==> names[i] in caches
    ensures var op := CacheableOperationOf(ae, cfg, a);
      var names := op.common.cacheNames;
      var r := ResolveCachesSpec(true, caches, op, Some(names), expires);
      ConvertToSeconds(a.expire, Some(a.timeUnit)).Success? &&
      r.result.Success? && |r.result.value| == |names| &&
      (forall i :: 0 <= i < |names| ==> r.result.value[i] == caches[names[i]]) &&
      r.expires.Some? &&
      forall n :: n in names ==> n in r.expires.value && r.expires.value[n] == ConvertToSeconds(a.expire, Some(a.timeUnit)).value
  {
    var op := CacheableOperationOf(ae, cfg, a);
    var names := op.common.cacheNames;
    assert ExpireSeconds(op) == ConvertToSeconds(a.expire, Some(a.timeUnit));
    ResolveOneCachePerName(true, caches, op, names, expires, []);
    ResolveRecordsExpires(true, caches, op, names, expires, []);
    AllPresentAllHandled(caches, names);
    assert names[..|names|] == names;
    var r := ResolveCachesSpec(true, caches, op, Some(names), expires);
    forall n | n in names
      ensures n in r.expires.value && r.expires.value[n] == ExpireSeconds(op).value
    {
      AssignLookup(TableOf(expires), names, ExpireSeconds(op).value, n);
    }
  }
}
