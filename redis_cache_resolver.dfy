/**
 * `DataRedisCacheResolver`: resolves an operation's cache names to caches
 * and, when the cache manager is a Redis one and the operation is
 * `Expireable`, first records each name's time-to-live, in whole seconds, in
 * the manager's `expires` table.
 */
module RedisCacheResolution {
  import opened Wrappers
  import opened Lang
  import opened Operations

  /** The cache manager the resolver delegates to. */
  class CacheManager {
    /** `instanceof RedisCacheManager`. */
    const isRedis: bool
    /** `getCache(name)`: a name missing here yields null. */
    const caches: map<string, CacheId>
    /** The Redis manager's `expires` table; `None` is a null table. */
    var expires: Option<map<string, Long>>

    constructor(isRedis: bool, caches: map<string, CacheId>, expires: Option<map<string, Long>>)
      ensures this.isRedis == isRedis && this.caches == caches && this.expires == expires
    {
      this.isRedis := isRedis;
      this.caches := caches;
      this.expires := expires;
    }
  }

  /** Whether a resolution records expires: a Redis manager and an `Expireable` operation. */
  predicate RecordsExpires(isRedis: bool, op: CacheOperation) {
    isRedis && op.IsExpireable()
  }

  /** `TimeUnit.SECONDS.convert(getExpire(), getTimeUnit())` for an `Expireable` operation. */
  function ExpireSeconds(op: CacheOperation): Result<Long, Exception>
    requires op.IsExpireable()
  {
    ConvertToSeconds(op.ttl.value.expire, op.ttl.value.unit)
  }

  /** A null `expires` table is replaced by an empty one before the put. */
  function TableOf(expires: Option<map<string, Long>>): map<string, Long> {
    if expires.Some? then expires.value else map[]
  }

  /** The `expires` table after one name's update; a failed conversion changes nothing. */
  function RecordExpire(isRedis: bool, op: CacheOperation, name: string, expires: Option<map<string, Long>>)
    : (r: Result<Option<map<string, Long>>, Exception>)
    ensures !RecordsExpires(isRedis, op) ==> r == Success(expires)
    ensures RecordsExpires(isRedis, op) ==> (r.Failure? <==> ExpireSeconds(op).Failure?)
    ensures RecordsExpires(isRedis, op) && r.Success? ==>
      r.value.Some? && r.value.value == TableOf(expires)[name := ExpireSeconds(op).value]
  {
    if !RecordsExpires(isRedis, op) then Success(expires)
    else
      var seconds :- ExpireSeconds(op);
      Success(Some(TableOf(expires)[name := seconds]))
  }

  /** The `expires` table after a resolution, and the caches resolved or the exception raised. */
  datatype Resolution = Resolution(expires: Option<map<string, Long>>, result: Result<seq<CacheId>, Exception>)

  /**
   * The name loop: for each name, record its expire (when required), then
   * look the cache up, failing on a missing one. `acc` is the result so far.
   */
  function ResolveNames(isRedis: bool, caches: map<string, CacheId>, op: CacheOperation, names: seq<string>,
                        expires: Option<map<string, Long>>, acc: seq<CacheId>): Resolution
    decreases |names|
  {
    if |names| == 0 then Resolution(expires, Success(acc))
    else
      var recorded := RecordExpire(isRedis, op, names[0], expires);
      if recorded.Failure? then Resolution(expires, Failure(recorded.error))
      else if names[0] !in caches then Resolution(recorded.value, Failure(IllegalArgument(MissingCache(names[0]))))
      else ResolveNames(isRedis, caches, op, names[1..], recorded.value, acc + [caches[names[0]]])
  }

  /** `resolveCaches`: null names yield no caches and no update. */
  function ResolveCachesSpec(isRedis: bool, caches: map<string, CacheId>, op: CacheOperation, names: Option<seq<string>>,
                             expires: Option<map<string, Long>>): Resolution
  {
    if names.None? then Resolution(expires, Success([]))
    else ResolveNames(isRedis, caches, op, names.value, expires, [])
  }

  class DataRedisCacheResolver {
    const cacheManager: CacheManager

    constructor(cacheManager: CacheManager)
      ensures this.cacheManager == cacheManager
    {
      this.cacheManager := cacheManager;
    }

    /**
     * `resolveCaches` for an operation whose `getCacheNames` is `names`. Only
     * the manager's `expires` table changes, as `ResolveCachesSpec` says,
     * even when the call fails.
     */
    method ResolveCaches(op: CacheOperation, names: Option<seq<string>>) returns (r: Result<seq<CacheId>, Exception>)
      modifies cacheManager
      ensures Resolution(cacheManager.expires, r)
           == ResolveCachesSpec(cacheManager.isRedis, cacheManager.caches, op, names, old(cacheManager.expires))
    {
      if names.None? {
        return Success([]);
      }
      var cacheNames := names.value;
      var result: seq<CacheId> := [];
      var i := 0;
      while i < |cacheNames|
        invariant 0 <= i <= |cacheNames|
        invariant ResolveNames(cacheManager.isRedis, cacheManager.caches, op, cacheNames, old(cacheManager.expires), [])
               == ResolveNames(cacheManager.isRedis, cacheManager.caches, op, cacheNames[i..], cacheManager.expires, result)
      {
        var cacheName := cacheNames[i];
        if cacheManager.isRedis && op.IsExpireable() {
          var expire := ConvertToSeconds(op.ttl.value.expire, op.ttl.value.unit);
          if expire.Failure? {
            return Failure(expire.error);
          }
          var oldExpires: map<string, Long> := if cacheManager.expires.Some? then cacheManager.expires.value else map[];
          oldExpires := oldExpires[cacheName := expire.value];
          cacheManager.expires := Some(oldExpires);
        }
        if cacheName !in cacheManager.caches {
          return Failure(IllegalArgument(MissingCache(cacheName)));
        }
        result := result + [cacheManager.caches[cacheName]];
        assert cacheNames[i..][1..] == cacheNames[i + 1..];
        i := i + 1;
      }
      r := Success(result);
    }
  }

  // ---------------------------------------------------------------- properties

  /** `Assign(base, ns, s)`: `base` with every name of `ns` set to `s`, in order. */
  function Assign(base: map<string, Long>, ns: seq<string>, s: Long): map<string, Long>
    decreases |ns|
  {
    if |ns| == 0 then base else Assign(base[ns[0] := s], ns[1..], s)
  }

  /** Helper: every assigned name maps to `s`; every other entry is kept. */
  lemma {:induction false} AssignLookup(base: map<string, Long>, ns: seq<string>, s: Long, n: string)
    ensures n in ns ==> n in Assign(base, ns, s) && Assign(base, ns, s)[n] == s
    ensures n !in ns ==> (n in Assign(base, ns, s) <==> n in base)
    ensures n !in ns && n in base ==> Assign(base, ns, s)[n] == base[n]
    decreases |ns|
  {
    if |ns| > 0 {
      AssignLookup(base[ns[0] := s], ns[1..], s, n);
      if n != ns[0] {
        assert n in ns ==> n in ns[1..];
      }
      if n == ns[0] && n !in ns[1..] {
        AssignKeeps(base[ns[0] := s], ns[1..], s, n);
      }
    }
  }

  /** Helper: a name the loop does not write keeps its entry. */
  lemma {:induction false} AssignKeeps(base: map<string, Long>, ns: seq<string>, s: Long, n: string)
    requires n in base && n !in ns
    ensures n in Assign(base, ns, s) && Assign(base, ns, s)[n] == base[n]
    decreases |ns|
  {
    if |ns| > 0 {
      AssignKeeps(base[ns[0] := s], ns[1..], s, n);
    }
  }

  /** How many names the loop handles: up to and including the first missing one. */
  function Handled(caches: map<string, CacheId>, names: seq<string>): (k: nat)
    ensures k <= |names|
    decreases |names|
  {
    if |names| == 0 then 0
    else if names[0] !in caches then 1
    else 1 + Handled(caches, names[1..])
  }

  /**
   * When no conversion fails, the result is one cache per name in name order
   * if every name has a cache, and otherwise the `IllegalArgumentException`
   * for the first name without one.
   */
  lemma {:induction false} ResolveOneCachePerName(isRedis: bool, caches: map<string, CacheId>, op: CacheOperation,
                                                  names: seq<string>, expires: Option<map<string, Long>>, acc: seq<CacheId>)
    requires !RecordsExpires(isRedis, op) || ExpireSeconds(op).Success? || |names| == 0
    ensures var r := ResolveNames(isRedis, caches, op, names, expires, acc).result;
      && ((forall i :: 0 <= i < |names| ==> names[i] in caches) <==> r.Success?)
      && (r.Success? ==>
            |r.value| == |acc| + |names| && r.value[..|acc|] == acc
            && forall i :: 0 <= i < |names| ==> r.value[|acc| + i] == caches[names[i]])
      && (r.Failure? ==> var k := Handled(caches, names) - 1;
            0 <= k < |names| && names[k] !in caches && (forall j :: 0 <= j < k ==> names[j] in caches)
            && r.error == IllegalArgument(MissingCache(names[k])))
    decreases |names|
  {
    if |names| > 0 {
      var recorded := RecordExpire(isRedis, op, names[0], expires);
      if names[0] in caches {
        ResolveOneCachePerName(isRedis, caches, op, names[1..], recorded.value, acc + [caches[names[0]]]);
        var r := ResolveNames(isRedis, caches, op, names, expires, acc).result;
        assert forall i :: 1 <= i < |names| ==> names[i] == names[1..][i - 1];
        if r.Success? {
          assert r.value[..|acc| + 1][..|acc|] == acc;
          forall i | 0 <= i < |names|
            ensures r.value[|acc| + i] == caches[names[i]]
          {
            if i > 0 {
              assert r.value[|acc| + 1 + (i - 1)] == caches[names[1..][i - 1]];
            }
          }
        }
      }
    }
  }

  /**
   * With a Redis manager and an `Expireable` operation whose expire converts
   * to `s` seconds, every name the loop handled (all of them, or up to the
   * first missing cache, which is recorded before the lookup fails) maps to
   * `s` afterwards, and every other entry is kept.
   */
  lemma {:induction false} ResolveRecordsExpires(isRedis: bool, caches: map<string, CacheId>, op: CacheOperation,
                                                 names: seq<string>, expires: Option<map<string, Long>>, acc: seq<CacheId>)
    requires RecordsExpires(isRedis, op) && ExpireSeconds(op).Success? && |names| > 0
    ensures ResolveNames(isRedis, caches, op, names, expires, acc).expires
         == Some(Assign(TableOf(expires), names[..Handled(caches, names)], ExpireSeconds(op).value))
    decreases |names|
  {
    var s := ExpireSeconds(op).value;
    var next := Some(TableOf(expires)[names[0] := s]);
    if names[0] !in caches {
      assert names[..1] == [names[0]];
    } else if |names| == 1 {
      assert names[..1] == [names[0]];
    } else {
      ResolveRecordsExpires(isRedis, caches, op, names[1..], next, acc + [caches[names[0]]]);
      var h := Handled(caches, names);
      assert names[..h][1..] == names[1..][..h - 1];
    }
  }

  /** Without a Redis manager or an `Expireable` operation, `expires` is untouched. */
  lemma {:induction false} ResolveLeavesExpires(isRedis: bool, caches: map<string, CacheId>, op: CacheOperation,
                                                names: seq<string>, expires: Option<map<string, Long>>, acc: seq<CacheId>)
    requires !RecordsExpires(isRedis, op)
    ensures ResolveNames(isRedis, caches, op, names, expires, acc).expires == expires
    decreases |names|
  {
    if |names| > 0 && names[0] in caches {
      ResolveLeavesExpires(isRedis, caches, op, names[1..], expires, acc + [caches[names[0]]]);
    }
  }

  /** A null time unit fails the first conversion: a `NullPointerException`, nothing recorded. */
  lemma NullUnitFails(caches: map<string, CacheId>, op: CacheOperation, names: seq<string>,
                      expires: Option<map<string, Long>>)
    requires op.IsExpireable() && op.ttl.value.unit.None? && |names| > 0
    ensures ResolveNames(true, caches, op, names, expires, []) == Resolution(expires, Failure(NullPointer))
  {
  }

  /**
   * The update is last-write-wins: resolving the same name for a second
   * operation leaves that operation's seconds, whatever the first recorded.
   */
  lemma LastWriteWins(caches: map<string, CacheId>, first: CacheOperation, second: CacheOperation,
                      name: string, expires: Option<map<string, Long>>)
    requires first.IsExpireable() && second.IsExpireable()
    requires ExpireSeconds(first).Success? && ExpireSeconds(second).Success?
    ensures var afterFirst := ResolveNames(true, caches, first, [name], expires, []).expires;
      ResolveNames(true, caches, second, [name], afterFirst, []).expires.Some?
      && name in ResolveNames(true, caches, second, [name], afterFirst, []).expires.value
      && ResolveNames(true, caches, second, [name], afterFirst, []).expires.value[name] == ExpireSeconds(second).value
  {
  }

  /** Five minutes then two hours for the same name leaves 7200 seconds. */
  lemma MinutesThenHours(caches: map<string, CacheId>, common: CommonAttributes, name: string)
    ensures var first := Cacheable(common, "", false, Some(Ttl(5, Some(Minutes))));
      var second := Cacheable(common, "", false, Some(Ttl(2, Some(Hours))));
      var afterFirst := ResolveNames(true, caches, first, [name], None, []).expires;
      afterFirst == Some(map[name := 300])
      && ResolveNames(true, caches, second, [name], afterFirst, []).expires == Some(map[name := 7200])
  {
    var first := Cacheable(common, "", false, Some(Ttl(5, Some(Minutes))));
    var second := Cacheable(common, "", false, Some(Ttl(2, Some(Hours))));
    assert ExpireSeconds(first) == Success(300);
    assert ExpireSeconds(second) == Success(7200);
    assert map[name := 300][name := 7200] == map[name := 7200];
  }
}
