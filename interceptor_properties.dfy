/**
 * Properties of the interceptor's decision engine, stated over the functions
 * of `CacheInvocation`: when the method runs, in which order caches are read,
 * what puts and evictions leave in the caches, how contexts are registered,
 * and why the synchronised path is never taken.
 */
module InterceptorProperties {
  import opened Wrappers
  import opened Lang
  import opened Operations
  import opened ExpressionEvaluation
  import opened CacheInvocation

  /** A configuration under which every cache access reaches a working backend. */
  predicate Healthy(cfg: Config) {
    cfg.handler.DelegatingHandler? && cfg.broken == {}
  }

  // ---------------------------------------------------------------- lookup order

  /** `findInCaches` on a working backend returns the entry of the first cache, in order, that holds the key. */
  lemma {:induction false} FindInCachesFirstHit(cfg: Config, entries: Entries, caches: seq<CacheId>, key: Value)
    requires Healthy(cfg)
    ensures FindInCaches(cfg, entries, caches, key).Success?
    ensures var r := FindInCaches(cfg, entries, caches, key).value;
      (r.None? <==> forall i :: 0 <= i < |caches| ==> Stored(entries, caches[i], key).None?) &&
      (r.Some? ==> exists i :: 0 <= i < |caches| && r == Stored(entries, caches[i], key) &&
                     forall j :: 0 <= j < i ==> Stored(entries, caches[j], key).None?)
    decreases |caches|
  {
    if |caches| > 0 {
      FindInCachesFirstHit(cfg, entries, caches[1..], key);
      var r := FindInCaches(cfg, entries, caches, key).value;
      if Stored(entries, caches[0], key).None? {
        if r.Some? {
          var i :| 0 <= i < |caches[1..]| && r == Stored(entries, caches[1..][i], key) &&
                   forall j :: 0 <= j < i ==> Stored(entries, caches[1..][j], key).None?;
          assert forall j :: 0 <= j < i + 1 ==> Stored(entries, caches[j], key).None?;
        } else {
          assert forall i :: 1 <= i < |caches| ==> caches[i] == caches[1..][i - 1];
        }
      }
    }
  }

  /**
   * What one Cacheable context contributes to `findCachedItem`: nothing when
   * its condition is false, otherwise the lookup of its key in its caches.
   */
  function Probe(cfg: Config, inv: Invocation, entries: Entries, ctx: OperationContext): Result<Option<Value>, Exception> {
    var passing :- ConditionPassing(inv, ctx.operation, NoResult);
    if !passing then Success(None)
    else
      var key :- GenerateKey(inv, ctx.operation, NoResult);
      FindInCaches(cfg, entries, ctx.caches, key)
  }

  /**
   * `findCachedItem` is a miss iff every context's probe is a miss; otherwise
   * it is the probe (a hit or an error) of the first context, in order, whose
   * probe is not a miss. Contexts whose condition is false are skipped.
   */
  lemma {:induction false} FindCachedItemFirstHit(cfg: Config, inv: Invocation, entries: Entries, ctxs: seq<OperationContext>)
    ensures var r := FindCachedItem(cfg, inv, entries, ctxs);
      (r == Success(None) <==> forall i :: 0 <= i < |ctxs| ==> Probe(cfg, inv, entries, ctxs[i]) == Success(None)) &&
      (r != Success(None) ==> exists i :: 0 <= i < |ctxs| && Probe(cfg, inv, entries, ctxs[i]) == r &&
                                forall j :: 0 <= j < i ==> Probe(cfg, inv, entries, ctxs[j]) == Success(None))
    decreases |ctxs|
  {
    if |ctxs| > 0 {
      FindCachedItemFirstHit(cfg, inv, entries, ctxs[1..]);
      var r := FindCachedItem(cfg, inv, entries, ctxs);
      assert forall i :: 1 <= i < |ctxs| ==> ctxs[i] == ctxs[1..][i - 1];
      if Probe(cfg, inv, entries, ctxs[0]) == Success(None) {
        assert r == FindCachedItem(cfg, inv, entries, ctxs[1..]);
        if r != Success(None) {
          var i :| 0 <= i < |ctxs[1..]| && Probe(cfg, inv, entries, ctxs[1..][i]) == r &&
                   forall j :: 0 <= j < i ==> Probe(cfg, inv, entries, ctxs[1..][j]) == Success(None);
          assert Probe(cfg, inv, entries, ctxs[i + 1]) == r;
        }
      } else {
        assert r == Probe(cfg, inv, entries, ctxs[0]);
      }
    }
  }

  /** With the interceptor's own null handler and a log-only error handler, no lookup ever hits. */
  lemma {:induction false} NullHandlerNeverHits(cfg: Config, inv: Invocation, entries: Entries, ctxs: seq<OperationContext>)
    requires cfg.handler.NullHandler? && cfg.errorHandler.LogOnly?
    ensures FindCachedItem(cfg, inv, entries, ctxs).Success? ==> FindCachedItem(cfg, inv, entries, ctxs).value.None?
    decreases |ctxs|
  {
    if |ctxs| > 0 {
      NullHandlerNeverHits(cfg, inv, entries, ctxs[1..]);
      forall key: Value
        ensures FindInCaches(cfg, entries, ctxs[0].caches, key) == Success(None)
      {
        NullHandlerFindsNothing(cfg, entries, ctxs[0].caches, key);
      }
    }
  }

  lemma {:induction false} NullHandlerFindsNothing(cfg: Config, entries: Entries, caches: seq<CacheId>, key: Value)
    requires cfg.handler.NullHandler? && cfg.errorHandler.LogOnly?
    ensures FindInCaches(cfg, entries, caches, key) == Success(None)
    decreases |caches|
  {
    if |caches| > 0 {
      NullHandlerFindsNothing(cfg, entries, caches[1..], key);
    }
  }

  // ---------------------------------------------------------------- hasCachePut

  /** The excluded list grows by exactly the contexts whose condition is false without the result. */
  lemma {:induction false} ExcludedCount(inv: Invocation, ctxs: seq<OperationContext>, acc: seq<OperationContext>)
    ensures ExcludedContexts(inv, ctxs, acc).Success? <==> forall i :: 0 <= i < |ctxs| ==> IsExcluded(inv, ctxs[i]).Success?
    ensures ExcludedContexts(inv, ctxs, acc).Success? ==>
      var ex := ExcludedContexts(inv, ctxs, acc).value;
      |acc| <= |ex| <= |acc| + |ctxs| &&
      (|ex| == |acc| + |ctxs| <==> forall i :: 0 <= i < |ctxs| ==> IsExcluded(inv, ctxs[i]) == Success(true))
    decreases |ctxs|
  {
    if |ctxs| > 0 {
      var excluded := IsExcluded(inv, ctxs[0]);
      if excluded.Success? {
        var acc' := if excluded.value then acc + [ctxs[0]] else acc;
        ExcludedCount(inv, ctxs[1..], acc');
        assert forall i :: 1 <= i < |ctxs| ==> ctxs[i] == ctxs[1..][i - 1];
      }
    }
  }

  /**
   * `hasCachePut` succeeds iff no CachePut condition fails other than by
   * needing the result, and is then true iff some CachePut context is not
   * excluded by its condition.
   */
  lemma HasCachePutIff(inv: Invocation, ctxs: seq<OperationContext>)
    ensures HasCachePut(inv, ctxs).Success? <==> forall i :: 0 <= i < |ctxs| ==> IsExcluded(inv, ctxs[i]).Success?
    ensures HasCachePut(inv, ctxs).Success? ==>
      (HasCachePut(inv, ctxs).value <==> exists i :: 0 <= i < |ctxs| && IsExcluded(inv, ctxs[i]) == Success(false))
  {
    ExcludedCount(inv, ctxs, []);
  }

  /** A condition that needs the not yet available result never excludes a CachePut. */
  lemma ResultUnavailableKeepsPut(inv: Invocation, ctx: OperationContext, name: string)
    requires HasText(ctx.operation.common.condition)
    requires inv.condition(ctx.operation, ResultUnavailable) == Failure(VariableNotAvailable(name))
    ensures IsExcluded(inv, ctx) == Success(false)
  {
  }

  /**
   * As written, the interceptor's conditions go to Spring's evaluator, whose
   * `VariableNotAvailableException` `hasCachePut` does not catch: a CachePut
   * condition that reads the result fails `hasCachePut`.
   */
  lemma SpringUnavailableEscapes(inv: Invocation, ctxs: seq<OperationContext>, name: string)
    requires |ctxs| > 0 && HasText(ctxs[0].operation.common.condition)
    requires inv.condition(ctxs[0].operation, ResultUnavailable) == Failure(SpringVariableNotAvailable(name))
    ensures IsExcluded(inv, ctxs[0]) == Failure(SpringVariableNotAvailable(name))
    ensures HasCachePut(inv, ctxs) == Failure(SpringVariableNotAvailable(name))
  {
  }

  /**
   * Hence a cache hit with nothing staged, whose first CachePut condition
   * reads the result, makes the call throw Spring's exception: the method
   * does not run and the caches keep what the early evictions left.
   */
  lemma HitWithResultConditionThrows(cfg: Config, inv: Invocation, outcome: Result<Value, Throwable>,
                                     ctxs: Contexts, entries: Entries, hit: Value, name: string)
    requires FindCachedItem(cfg, inv, entries, Get(ctxs.byClass, CacheableOperationClass)) == Success(Some(hit))
    requires var puts := Get(ctxs.byClass, CachePutOperationClass);
      |puts| > 0 && HasText(puts[0].operation.common.condition)
      && inv.condition(puts[0].operation, ResultUnavailable) == Failure(SpringVariableNotAvailable(name))
    ensures AfterEarlyEvicts(cfg, inv, outcome, ctxs, entries) == Outcome(entries, Failure(SpringVariableNotAvailable(name)), 0)
  {
    SpringUnavailableEscapes(inv, Get(ctxs.byClass, CachePutOperationClass), name);
  }

  /** The same outcome for a whole enabled call, once the early evictions have succeeded. */
  lemma ExecuteThrowsOnResultCondition(cfg: Config, inv: Invocation, outcome: Result<Value, Throwable>,
                                       entries: Entries, hit: Value, name: string)
    requires inv.operations.Some? && |inv.operations.value| > 0
    requires BuildContexts(inv, inv.operations.value).Success?
    requires var ctxs := BuildContexts(inv, inv.operations.value).value;
      var early := ProcessEvicts(cfg, inv, entries, Get(ctxs.byClass, CacheEvictOperationClass), true, NoResult);
      var puts := Get(ctxs.byClass, CachePutOperationClass);
      && early.result.Success?
      && FindCachedItem(cfg, inv, early.entries, Get(ctxs.byClass, CacheableOperationClass)) == Success(Some(hit))
      && |puts| > 0 && HasText(puts[0].operation.common.condition)
      && inv.condition(puts[0].operation, ResultUnavailable) == Failure(SpringVariableNotAvailable(name))
    ensures var ctxs := BuildContexts(inv, inv.operations.value).value;
      var early := ProcessEvicts(cfg, inv, entries, Get(ctxs.byClass, CacheEvictOperationClass), true, NoResult);
      Execute(true, cfg, inv, outcome, entries) == Outcome(early.entries, Failure(SpringVariableNotAvailable(name)), 0)
  {
    var ctxs := BuildContexts(inv, inv.operations.value).value;
    var early := ProcessEvicts(cfg, inv, entries, Get(ctxs.byClass, CacheEvictOperationClass), true, NoResult);
    ExecuteTakesStandardPath(cfg, inv, outcome, entries);
    HitWithResultConditionThrows(cfg, inv, outcome, ctxs, early.entries, hit, name);
  }

  /**
   * The intended `hasCachePut`: a condition that needs the missing result
   * keeps the put, whichever evaluator raised the exception; in every other
   * case the intended and the written exclusion agree.
   */
  lemma ResultUnavailableKeepsPutIntended(inv: Invocation, ctx: OperationContext, name: string)
    ensures HasText(ctx.operation.common.condition)
      && inv.condition(ctx.operation, ResultUnavailable) in {Failure(VariableNotAvailable(name)), Failure(SpringVariableNotAvailable(name))}
      ==> IsExcludedIntended(inv, ctx) == Success(false)
    ensures !(ConditionPassing(inv, ctx.operation, ResultUnavailable).Failure?
              && ConditionPassing(inv, ctx.operation, ResultUnavailable).error.SpringVariableNotAvailable?)
      ==> IsExcludedIntended(inv, ctx) == IsExcluded(inv, ctx)
  {
  }

  /** Helper: without a CachePut context there is nothing to force an invocation. */
  lemma NoCachePutNoInvocation(inv: Invocation)
    ensures HasCachePut(inv, []) == Success(false)
  {
  }

  // ---------------------------------------------------------------- evictions

  /** A cache-wide eviction empties every listed cache, leaves the others alone and computes no key. */
  lemma {:induction false} CacheWideEvictClears(cfg: Config, inv: Invocation, entries: Entries, op: CacheOperation,
                                                caches: seq<CacheId>, result: ResultArg, key: Value)
    requires IsCacheWide(op) && cfg.broken == {}
    ensures var s := PerformEvict(cfg, inv, entries, op, caches, result, key);
      s.result == Success(()) &&
      (forall c, k :: c in caches ==> Stored(s.entries, c, k) == None) &&
      (forall c, k :: c !in caches ==> Stored(s.entries, c, k) == Stored(entries, c, k))
    ensures KeyComputations(cfg, inv, entries, op, caches, result, key) == 0
    decreases |caches|
  {
    if |caches| > 0 {
      var s0 := DoClear(cfg, entries, caches[0]);
      CacheWideEvictClears(cfg, inv, s0.entries, op, caches[1..], result, key);
      var s := PerformEvict(cfg, inv, entries, op, caches, result, key);
      forall c, k | c in caches
        ensures Stored(s.entries, c, k) == None
      {
        if c !in caches[1..] {
          assert c == caches[0];
        }
      }
    }
  }

  /** Evicting a known, non-null key removes it from every listed cache and changes nothing else. */
  lemma {:induction false} EvictKnownKey(cfg: Config, inv: Invocation, entries: Entries, op: CacheOperation,
                                         caches: seq<CacheId>, result: ResultArg, key: Value)
    requires !IsCacheWide(op) && cfg.broken == {} && key != Null
    ensures var s := PerformEvict(cfg, inv, entries, op, caches, result, key);
      s.result == Success(()) &&
      (forall c :: c in caches ==> Stored(s.entries, c, key) == None) &&
      (forall c, k :: c !in caches || k != key ==> Stored(s.entries, c, k) == Stored(entries, c, k))
    ensures KeyComputations(cfg, inv, entries, op, caches, result, key) == 0
    decreases |caches|
  {
    if |caches| > 0 {
      var s0 := DoEvict(cfg, entries, caches[0], key);
      EvictKnownKey(cfg, inv, s0.entries, op, caches[1..], result, key);
      var s := PerformEvict(cfg, inv, entries, op, caches, result, key);
      forall c | c in caches
        ensures Stored(s.entries, c, key) == None
      {
        if c !in caches[1..] {
          assert c == caches[0];
        }
      }
    }
  }

  /**
   * `performCacheEvict` computes a non-null key once, for the first cache,
   * and evicts it from every cache.
   */
  lemma EvictComputesKeyOnce(cfg: Config, inv: Invocation, entries: Entries, op: CacheOperation,
                             caches: seq<CacheId>, result: ResultArg, key: Value)
    requires !IsCacheWide(op) && cfg.broken == {} && |caches| > 0
    requires inv.key(op, result) == Success(key) && key != Null
    ensures var s := PerformEvict(cfg, inv, entries, op, caches, result, Null);
      s.result == Success(()) &&
      (forall c :: c in caches ==> Stored(s.entries, c, key) == None) &&
      (forall c, k :: c !in caches || k != key ==> Stored(s.entries, c, k) == Stored(entries, c, k))
    ensures KeyComputations(cfg, inv, entries, op, caches, result, Null) == 1
  {
    var s0 := DoEvict(cfg, entries, caches[0], key);
    EvictKnownKey(cfg, inv, s0.entries, op, caches[1..], result, key);
    var s := PerformEvict(cfg, inv, entries, op, caches, result, Null);
    forall c | c in caches
      ensures Stored(s.entries, c, key) == None
    {
      if c !in caches[1..] {
        assert c == caches[0];
      }
    }
  }

  /**
   * A key generator that yields null is asked again for every cache, since
   * the lazy computation only checks whether the key is still null; the
   * null key is then evicted from each cache.
   */
  lemma {:induction false} NullKeyRecomputedPerCache(cfg: Config, inv: Invocation, entries: Entries, op: CacheOperation,
                                                     caches: seq<CacheId>, result: ResultArg)
    requires !IsCacheWide(op) && cfg.broken == {}
    requires inv.key(op, result) == Success(Null)
    ensures KeyComputations(cfg, inv, entries, op, caches, result, Null) == |caches|
    ensures var s := PerformEvict(cfg, inv, entries, op, caches, result, Null);
      s.result == Success(()) && forall c :: c in caches ==> Stored(s.entries, c, Null) == None
    decreases |caches|
  {
    if |caches| > 0 {
      var s0 := DoEvict(cfg, entries, caches[0], Null);
      NullKeyRecomputedPerCache(cfg, inv, s0.entries, op, caches[1..], result);
      var s := PerformEvict(cfg, inv, entries, op, caches, result, Null);
      assert s == PerformEvict(cfg, inv, s0.entries, op, caches[1..], result, Null);
      forall c | c in caches
        ensures Stored(s.entries, c, Null) == None
      {
        if c !in caches[1..] {
          assert c == caches[0];
          EvictionOnlyRemoves(cfg, inv, s0.entries, op, caches[1..], result, Null);
        }
      }
    }
  }

  /** An eviction never adds or changes an entry: whatever remains was there before. */
  lemma {:induction false} EvictionOnlyRemoves(cfg: Config, inv: Invocation, entries: Entries, op: CacheOperation,
                                               caches: seq<CacheId>, result: ResultArg, key: Value)
    ensures var s := PerformEvict(cfg, inv, entries, op, caches, result, key);
      forall c, k :: Stored(s.entries, c, k).Some? ==> Stored(s.entries, c, k) == Stored(entries, c, k)
    decreases |caches|
  {
    if |caches| > 0 {
      if IsCacheWide(op) {
        var s0 := DoClear(cfg, entries, caches[0]);
        EvictionOnlyRemoves(cfg, inv, s0.entries, op, caches[1..], result, key);
      } else {
        var k := if key == Null then inv.key(op, result) else Success(key);
        if k.Success? {
          var s0 := DoEvict(cfg, entries, caches[0], k.value);
          EvictionOnlyRemoves(cfg, inv, s0.entries, op, caches[1..], result, k.value);
        }
      }
    }
  }

  /** A phase of evictions never adds or changes an entry either. */
  lemma {:induction false} EvictPhaseOnlyRemoves(cfg: Config, inv: Invocation, entries: Entries, ctxs: seq<OperationContext>,
                                                 beforeInvocation: bool, result: ResultArg)
    ensures var s := ProcessEvicts(cfg, inv, entries, ctxs, beforeInvocation, result);
      forall c, k :: Stored(s.entries, c, k).Some? ==> Stored(s.entries, c, k) == Stored(entries, c, k)
    decreases |ctxs|
  {
    if |ctxs| > 0 {
      if beforeInvocation != IsBeforeInvocation(ctxs[0].operation) {
        EvictPhaseOnlyRemoves(cfg, inv, entries, ctxs[1..], beforeInvocation, result);
      } else {
        var passing := ConditionPassing(inv, ctxs[0].operation, result);
        if passing.Success? && !passing.value {
          EvictPhaseOnlyRemoves(cfg, inv, entries, ctxs[1..], beforeInvocation, result);
        } else if passing.Success? {
          var s0 := PerformEvict(cfg, inv, entries, ctxs[0].operation, ctxs[0].caches, result, Null);
          EvictionOnlyRemoves(cfg, inv, entries, ctxs[0].operation, ctxs[0].caches, result, Null);
          EvictPhaseOnlyRemoves(cfg, inv, s0.entries, ctxs[1..], beforeInvocation, result);
        }
      }
    }
  }

  /** Every listed cache is empty. */
  ghost predicate AllEmpty(entries: Entries, caches: seq<CacheId>) {
    forall c, k :: c in caches ==> Stored(entries, c, k) == None
  }

  /**
   * A cache-wide eviction of this phase whose condition passes leaves its
   * caches empty once the phase succeeds, whatever the evictions after it do.
   */
  lemma {:induction false} EvictPhaseClears(cfg: Config, inv: Invocation, entries: Entries, ctxs: seq<OperationContext>,
                                            beforeInvocation: bool, result: ResultArg, i: nat)
    requires cfg.broken == {} && i < |ctxs|
    requires IsCacheWide(ctxs[i].operation) && IsBeforeInvocation(ctxs[i].operation) == beforeInvocation
    requires ConditionPassing(inv, ctxs[i].operation, result) == Success(true)
    ensures ProcessEvicts(cfg, inv, entries, ctxs, beforeInvocation, result).result.Success? ==>
      AllEmpty(ProcessEvicts(cfg, inv, entries, ctxs, beforeInvocation, result).entries, ctxs[i].caches)
    decreases i
  {
    var s := ProcessEvicts(cfg, inv, entries, ctxs, beforeInvocation, result);
    if i == 0 {
      var s0 := PerformEvict(cfg, inv, entries, ctxs[0].operation, ctxs[0].caches, result, Null);
      CacheWideEvictClears(cfg, inv, entries, ctxs[0].operation, ctxs[0].caches, result, Null);
      EvictPhaseOnlyRemoves(cfg, inv, s0.entries, ctxs[1..], beforeInvocation, result);
    } else {
      var tail := ctxs[1..];
      assert tail[i - 1] == ctxs[i];
      var start := entries;
      if beforeInvocation == IsBeforeInvocation(ctxs[0].operation) {
        var passing := ConditionPassing(inv, ctxs[0].operation, result);
        if passing.Success? && passing.value {
          var s0 := PerformEvict(cfg, inv, entries, ctxs[0].operation, ctxs[0].caches, result, Null);
          start := s0.entries;
        }
      }
      EvictPhaseClears(cfg, inv, start, tail, beforeInvocation, result, i - 1);
      assert s.result.Success? ==> s == ProcessEvicts(cfg, inv, start, tail, beforeInvocation, result);
    }
  }

  /** Clearing is idempotent: a second cache-wide eviction leaves the caches as the first did. */
  lemma {:induction false} CacheWideEvictIdempotent(cfg: Config, inv: Invocation, entries: Entries, op: CacheOperation,
                                                    caches: seq<CacheId>, result: ResultArg)
    requires IsCacheWide(op) && cfg.broken == {}
    ensures var once := PerformEvict(cfg, inv, entries, op, caches, result, Null).entries;
      forall c, k :: Stored(PerformEvict(cfg, inv, once, op, caches, result, Null).entries, c, k) == Stored(once, c, k)
  {
    var once := PerformEvict(cfg, inv, entries, op, caches, result, Null).entries;
    CacheWideEvictClears(cfg, inv, entries, op, caches, result, Null);
    CacheWideEvictClears(cfg, inv, once, op, caches, result, Null);
  }

  // ---------------------------------------------------------------- puts

  /** On a working backend a put writes the value under the key to every listed cache and nothing else. */
  lemma {:induction false} PutWritesEveryCache(cfg: Config, entries: Entries, caches: seq<CacheId>, key: Value, value: Value)
    requires Healthy(cfg)
    ensures var s := PutToCaches(cfg, entries, caches, key, value);
      s.result == Success(()) &&
      (forall c :: c in caches ==> Stored(s.entries, c, key) == Some(value)) &&
      (forall c, k :: c !in caches || k != key ==> Stored(s.entries, c, k) == Stored(entries, c, k))
    decreases |caches|
  {
    if |caches| > 0 {
      var s0 := DoPut(cfg, entries, caches[0], key, value);
      PutWritesEveryCache(cfg, s0.entries, caches[1..], key, value);
      var s := PutToCaches(cfg, entries, caches, key, value);
      forall c | c in caches
        ensures Stored(s.entries, c, key) == Some(value)
      {
        if c !in caches[1..] {
          assert c == caches[0];
        }
      }
    }
  }

  /**
   * What one context contributes to `collectPutRequests`: nothing when its
   * condition is false, otherwise one request with its key.
   */
  function PutContribution(inv: Invocation, ctx: OperationContext, result: ResultArg): Result<seq<PutRequest>, Exception> {
    var passing :- ConditionPassing(inv, ctx.operation, result);
    if !passing then Success([])
    else
      var key :- GenerateKey(inv, ctx.operation, result);
      Success([PutRequest(ctx, key)])
  }

  /** The contributions of a successful run, in context order. */
  function Contributions(inv: Invocation, ctxs: seq<OperationContext>, result: ResultArg): seq<seq<PutRequest>> {
    seq(|ctxs|, i requires 0 <= i < |ctxs| =>
      var c := PutContribution(inv, ctxs[i], result); if c.Success? then c.value else [])
  }

  function Flatten<T>(xss: seq<seq<T>>): seq<T> {
    if |xss| == 0 then [] else xss[0] + Flatten(xss[1..])
  }

  /**
   * `collectPutRequests` succeeds iff every context's condition evaluates and,
   * where it holds, its key; it then appends to `acc` one request per passing
   * context, in order. Otherwise it fails with the first context's error.
   */
  lemma {:induction false} CollectPutRequestsCharacterisation(inv: Invocation, ctxs: seq<OperationContext>,
                                                              result: ResultArg, acc: seq<PutRequest>)
    ensures var r := CollectPutRequests(inv, ctxs, result, acc);
      && (r.Success? <==> forall i :: 0 <= i < |ctxs| ==> PutContribution(inv, ctxs[i], result).Success?)
      && (r.Success? ==> r.value == acc + Flatten(Contributions(inv, ctxs, result)))
      && (r.Failure? ==> exists i :: 0 <= i < |ctxs| && PutContribution(inv, ctxs[i], result) == Failure(r.error) &&
                           forall j :: 0 <= j < i ==> PutContribution(inv, ctxs[j], result).Success?)
    decreases |ctxs|
  {
    if |ctxs| > 0 {
      var c0 := PutContribution(inv, ctxs[0], result);
      var r := CollectPutRequests(inv, ctxs, result, acc);
      CollectPutRequestsStep(inv, ctxs, result, acc);
      assert forall i :: 1 <= i < |ctxs| ==> ctxs[i] == ctxs[1..][i - 1];
      if c0.Success? {
        CollectPutRequestsCharacterisation(inv, ctxs[1..], result, acc + c0.value);
        ContributionsTail(inv, ctxs, result);
        if r.Failure? {
          var i :| 0 <= i < |ctxs[1..]| && PutContribution(inv, ctxs[1..][i], result) == Failure(r.error) &&
                   forall j :: 0 <= j < i ==> PutContribution(inv, ctxs[1..][j], result).Success?;
          assert PutContribution(inv, ctxs[i + 1], result) == Failure(r.error);
        }
      }
    }
  }

  /** Helper: the contributions of a non-empty list, split into the first and the rest. */
  lemma ContributionsTail(inv: Invocation, ctxs: seq<OperationContext>, result: ResultArg)
    requires |ctxs| > 0 && PutContribution(inv, ctxs[0], result).Success?
    ensures Flatten(Contributions(inv, ctxs, result))
         == PutContribution(inv, ctxs[0], result).value + Flatten(Contributions(inv, ctxs[1..], result))
  {
    var cs := Contributions(inv, ctxs, result);
    assert cs[1..] == Contributions(inv, ctxs[1..], result);
  }

  /** Helper: one step of `collectPutRequests`: the first context's contribution, then the rest. */
  lemma CollectPutRequestsStep(inv: Invocation, ctxs: seq<OperationContext>, result: ResultArg, acc: seq<PutRequest>)
    requires |ctxs| > 0
    ensures var c0 := PutContribution(inv, ctxs[0], result);
      CollectPutRequests(inv, ctxs, result, acc)
      == if c0.Failure? then Failure(c0.error) else CollectPutRequests(inv, ctxs[1..], result, acc + c0.value)
  {
    var passing := ConditionPassing(inv, ctxs[0].operation, result);
    if passing == Success(false) {
      assert acc + [] == acc;
    }
  }

  /** With every condition true, each context yields exactly one request, in order. */
  lemma CollectPutRequestsAllPassing(inv: Invocation, ctxs: seq<OperationContext>, result: ResultArg, keys: seq<Value>)
    requires |keys| == |ctxs|
    requires forall i :: 0 <= i < |ctxs| ==>
      ConditionPassing(inv, ctxs[i].operation, result) == Success(true) && GenerateKey(inv, ctxs[i].operation, result) == Success(keys[i])
    ensures CollectPutRequests(inv, ctxs, result, []) == Success(seq(|ctxs|, i requires 0 <= i < |ctxs| => PutRequest(ctxs[i], keys[i])))
  {
    CollectPutRequestsCharacterisation(inv, ctxs, result, []);
    var expected := seq(|ctxs|, i requires 0 <= i < |ctxs| => PutRequest(ctxs[i], keys[i]));
    var cs := Contributions(inv, ctxs, result);
    forall i | 0 <= i < |ctxs|
      ensures PutContribution(inv, ctxs[i], result) == Success([expected[i]])
      ensures cs[i] == [expected[i]]
    {
    }
    FlattenSingletons(cs, expected);
    assert [] + Flatten(cs) == expected;
  }

  lemma {:induction false} FlattenSingletons<T>(xss: seq<seq<T>>, xs: seq<T>)
    requires |xss| == |xs| && forall i :: 0 <= i < |xs| ==> xss[i] == [xs[i]]
    ensures Flatten(xss) == xs
    decreases |xs|
  {
    if |xs| > 0 {
      FlattenSingletons(xss[1..], xs[1..]);
    }
  }

  /** `CachePutRequest.apply` writes to every cache of its context iff the value may be cached. */
  lemma ApplyPutIff(cfg: Config, inv: Invocation, entries: Entries, request: PutRequest, value: Value)
    requires Healthy(cfg)
    requires CanPutToCache(inv, request.context.operation, value).Success?
    ensures var s := ApplyPut(cfg, inv, entries, request, value);
      s.result == Success(()) &&
      (CanPutToCache(inv, request.context.operation, value).value ==>
         forall c :: c in request.context.caches ==> Stored(s.entries, c, request.key) == Some(value)) &&
      (!CanPutToCache(inv, request.context.operation, value).value ==> s.entries == entries)
  {
    PutWritesEveryCache(cfg, entries, request.context.caches, request.key, value);
  }

  /** Whether an allowed request writes key `k` to cache `c`. */
  predicate Covers(inv: Invocation, request: PutRequest, value: Value, c: CacheId, k: Value) {
    CanPutToCache(inv, request.context.operation, value) == Success(true) && c in request.context.caches && request.key == k
  }

  /**
   * With a working backend and every `unless` evaluable, applying the requests
   * succeeds and afterwards a cache holds the value under a key iff some
   * allowed request wrote it there; every other entry is unchanged.
   */
  lemma {:induction false} ApplyAllStores(cfg: Config, inv: Invocation, entries: Entries, requests: seq<PutRequest>, value: Value)
    requires Healthy(cfg)
    requires forall i :: 0 <= i < |requests| ==> CanPutToCache(inv, requests[i].context.operation, value).Success?
    ensures var s := ApplyAll(cfg, inv, entries, requests, value);
      && s.result == Success(())
      && forall c, k :: Stored(s.entries, c, k) ==
           if exists i :: 0 <= i < |requests| && Covers(inv, requests[i], value, c, k) then Some(value)
           else Stored(entries, c, k)
    decreases |requests|
  {
    if |requests| > 0 {
      var r0 := requests[0];
      var s0 := ApplyPut(cfg, inv, entries, r0, value);
      PutWritesEveryCache(cfg, entries, r0.context.caches, r0.key, value);
      assert s0.result == Success(());
      ApplyAllStores(cfg, inv, s0.entries, requests[1..], value);
      var s := ApplyAll(cfg, inv, entries, requests, value);
      assert s == ApplyAll(cfg, inv, s0.entries, requests[1..], value);
      forall c, k
        ensures Stored(s.entries, c, k) ==
          if exists i :: 0 <= i < |requests| && Covers(inv, requests[i], value, c, k) then Some(value)
          else Stored(entries, c, k)
      {
        if exists i :: 0 <= i < |requests| && Covers(inv, requests[i], value, c, k) {
          var i :| 0 <= i < |requests| && Covers(inv, requests[i], value, c, k);
          if i > 0 {
            assert requests[1..][i - 1] == requests[i];
          }
        } else {
          assert !Covers(inv, r0, value, c, k);
          forall i | 0 <= i < |requests[1..]|
            ensures !Covers(inv, requests[1..][i], value, c, k)
          {
            assert requests[1..][i] == requests[i + 1];
          }
        }
      }
    }
  }

  /**
   * An `unless` that fails to evaluate stops the requests there: the earlier
   * ones have been applied, the failing one and the later ones have not.
   */
  lemma {:induction false} ApplyAllStopsAtFailure(cfg: Config, inv: Invocation, entries: Entries, requests: seq<PutRequest>,
                                                  value: Value, i: nat)
    requires i < |requests|
    requires forall j :: 0 <= j < i ==> CanPutToCache(inv, requests[j].context.operation, value).Success?
    requires CanPutToCache(inv, requests[i].context.operation, value).Failure?
    requires Healthy(cfg)
    ensures ApplyAll(cfg, inv, entries, requests, value)
         == Step(ApplyAll(cfg, inv, entries, requests[..i], value).entries,
                 Failure(CanPutToCache(inv, requests[i].context.operation, value).error))
    decreases i
  {
    var r0 := requests[0];
    var s0 := ApplyPut(cfg, inv, entries, r0, value);
    if i > 0 {
      PutWritesEveryCache(cfg, entries, r0.context.caches, r0.key, value);
      assert s0.result == Success(());
      ApplyAllStopsAtFailure(cfg, inv, s0.entries, requests[1..], value, i - 1);
      assert requests[..i][1..] == requests[1..][..i - 1];
    }
  }

  /** With the interceptor's own null handler and a log-only error handler, no put reaches a cache. */
  lemma {:induction false} NullHandlerNeverStores(cfg: Config, inv: Invocation, entries: Entries, requests: seq<PutRequest>, value: Value)
    requires cfg.handler.NullHandler? && cfg.errorHandler.LogOnly?
    ensures ApplyAll(cfg, inv, entries, requests, value).entries == entries
    decreases |requests|
  {
    if |requests| > 0 {
      NullHandlerNeverStoresOne(cfg, entries, requests[0].context.caches, requests[0].key, value);
      NullHandlerNeverStores(cfg, inv, entries, requests[1..], value);
    }
  }

  lemma {:induction false} NullHandlerNeverStoresOne(cfg: Config, entries: Entries, caches: seq<CacheId>, key: Value, value: Value)
    requires cfg.handler.NullHandler? && cfg.errorHandler.LogOnly?
    ensures PutToCaches(cfg, entries, caches, key, value) == Step(entries, Success(()))
    decreases |caches|
  {
    if |caches| > 0 {
      NullHandlerNeverStoresOne(cfg, entries, caches[1..], key, value);
    }
  }

  // ---------------------------------------------------------------- registration and the sync flag

  /** A plain Cacheable is registered twice under `CacheableOperation`: once as its base class, once as its own. */
  lemma PlainCacheableRegisteredTwice(inv: Invocation, op: CacheOperation, caches: seq<CacheId>)
    requires op.Cacheable? && op.ttl.None? && inv.caches(op) == Success(caches)
    ensures Register(inv, [op]) == Success(map[CacheableOperationClass := [OperationContext(op, caches), OperationContext(op, caches)]])
  {
    var ctx := OperationContext(op, caches);
    RegisterSingle(inv, op, caches);
    var empty: ContextMap := map[];
    assert Get(empty, CacheableOperationClass) == [];
    assert [] + [ctx] == [ctx];
    assert [ctx] + [ctx] == [ctx, ctx];
    var once := Add(empty, CacheableOperationClass, ctx);
    assert once == map[CacheableOperationClass := [ctx]];
    assert RegisterOne(empty, ctx) == Add(once, CacheableOperationClass, ctx);
    assert Get(once, CacheableOperationClass) == [ctx];
    assert Add(once, CacheableOperationClass, ctx) == once[CacheableOperationClass := [ctx, ctx]];
    assert once[CacheableOperationClass := [ctx, ctx]] == map[CacheableOperationClass := [ctx, ctx]];
  }

  /** Helper: registering one operation whose caches resolve is one `RegisterOne` step. */
  lemma RegisterSingle(inv: Invocation, op: CacheOperation, caches: seq<CacheId>)
    requires inv.caches(op) == Success(caches)
    ensures Register(inv, [op]) == Success(RegisterOne(map[], OperationContext(op, caches)))
  {
    assert [op][1..] == [];
    assert RegisterFrom(inv, [op], map[]) == RegisterFrom(inv, [], RegisterOne(map[], OperationContext(op, caches)));
  }

  /** An `Expireable` Cacheable is registered under `CacheableOperation` and under its own class. */
  lemma ExpireableCacheableRegisteredUnderBoth(inv: Invocation, op: CacheOperation, caches: seq<CacheId>)
    requires op.Cacheable? && op.ttl.Some? && inv.caches(op) == Success(caches)
    ensures Register(inv, [op]) == Success(map[CacheableOperationClass := [OperationContext(op, caches)],
                                               ExpireableCacheableOperationClass := [OperationContext(op, caches)]])
  {
    var ctx := OperationContext(op, caches);
    RegisterSingle(inv, op, caches);
    assert [] + [ctx] == [ctx];
    assert RegisterOne(map[], ctx) == map[CacheableOperationClass := [ctx]][ExpireableCacheableOperationClass := [ctx]];
  }

  /** An eviction is registered once, under its own class. */
  lemma EvictRegisteredOnce(inv: Invocation, op: CacheOperation, caches: seq<CacheId>)
    requires op.CacheEvict? && inv.caches(op) == Success(caches)
    ensures Register(inv, [op]) == Success(map[CacheEvictOperationClass := [OperationContext(op, caches)]])
  {
    var ctx := OperationContext(op, caches);
    RegisterSingle(inv, op, caches);
    assert [] + [ctx] == [ctx];
    assert RegisterOne(map[], ctx) == map[CacheEvictOperationClass := [ctx]];
  }

  /**
   * What the double registration guarantees: once `CacheableOperation` has a
   * context, the map has another class too, or that class has two contexts.
   */
  ghost predicate SyncGuarded(m: ContextMap) {
    CacheableOperationClass in m ==>
      (exists other :: other in m && other != CacheableOperationClass) || |m[CacheableOperationClass]| > 1
  }

  lemma RegisterOneGuarded(m: ContextMap, ctx: OperationContext)
    requires SyncGuarded(m)
    ensures SyncGuarded(RegisterOne(m, ctx))
  {
    var op := ctx.operation;
    var withBase := if BaseClassOf(op).Some? then Add(m, BaseClassOf(op).value, ctx) else m;
    var r := Add(withBase, ClassOf(op), ctx);
    assert r == RegisterOne(m, ctx);
    if CacheableOperationClass in m {
      if |m[CacheableOperationClass]| > 1 {
        assert |Get(r, CacheableOperationClass)| >= |Get(m, CacheableOperationClass)|;
      } else {
        var other :| other in m && other != CacheableOperationClass;
        assert other in r;
      }
    } else if op.Cacheable? {
      if op.ttl.None? {
        assert |Get(r, CacheableOperationClass)| == 2;
      } else {
        assert ExpireableCacheableOperationClass in r;
      }
    } else {
      assert BaseClassOf(op) != Some(CacheableOperationClass);
      assert ClassOf(op) != CacheableOperationClass;
    }
  }

  lemma {:induction false} RegisterFromGuarded(inv: Invocation, ops: seq<CacheOperation>, m: ContextMap)
    requires SyncGuarded(m)
    ensures RegisterFrom(inv, ops, m).Success? ==> SyncGuarded(RegisterFrom(inv, ops, m).value)
    decreases |ops|
  {
    if |ops| > 0 && inv.caches(ops[0]).Success? {
      var ctx := OperationContext(ops[0], inv.caches(ops[0]).value);
      RegisterOneGuarded(m, ctx);
      RegisterFromGuarded(inv, ops[1..], RegisterOne(m, ctx));
    }
  }

  /** A map with two distinct keys has more than one entry. */
  lemma TwoKeys(m: ContextMap, a: OperationClass, b: OperationClass)
    requires a in m && b in m && a != b
    ensures |m| > 1
  {
    var rest := m.Keys - {a};
    assert b in rest;
    assert m.Keys == rest + {a};
    assert |m.Keys| == |rest| + 1;
  }

  /**
   * `determineSyncFlag` never returns true for contexts the constructor
   * builds: a sync Cacheable always meets a second registration first.
   */
  lemma SyncNeverEnabled(inv: Invocation, ops: seq<CacheOperation>)
    ensures BuildContexts(inv, ops).Success? ==> !BuildContexts(inv, ops).value.sync
  {
    RegisterFromGuarded(inv, ops, map[]);
    var m := Register(inv, ops);
    if m.Success? && CacheableOperationClass in m.value && |m.value[CacheableOperationClass]| <= 1 {
      var other :| other in m.value && other != CacheableOperationClass;
      TwoKeys(m.value, CacheableOperationClass, other);
    }
  }

  /** Hence an enabled interceptor always takes the standard path once the contexts are built. */
  lemma ExecuteTakesStandardPath(cfg: Config, inv: Invocation, outcome: Result<Value, Throwable>, entries: Entries)
    requires inv.operations.Some? && |inv.operations.value| > 0
    requires BuildContexts(inv, inv.operations.value).Success?
    ensures Execute(true, cfg, inv, outcome, entries)
         == StandardPath(cfg, inv, outcome, BuildContexts(inv, inv.operations.value).value, entries)
  {
    SyncNeverEnabled(inv, inv.operations.value);
  }

  predicate HasSync(cs: seq<OperationContext>) {
    exists j :: 0 <= j < |cs| && IsSync(cs[j].operation)
  }

  lemma {:induction false} RegisterFromKeepsSync(inv: Invocation, ops: seq<CacheOperation>, m: ContextMap)
    requires HasSync(Get(m, CacheableOperationClass)) || exists i :: 0 <= i < |ops| && IsSync(ops[i])
    ensures RegisterFrom(inv, ops, m).Success? ==> HasSync(Get(RegisterFrom(inv, ops, m).value, CacheableOperationClass))
    decreases |ops|
  {
    if |ops| > 0 && inv.caches(ops[0]).Success? {
      var ctx := OperationContext(ops[0], inv.caches(ops[0]).value);
      var m' := RegisterOne(m, ctx);
      var before := Get(m, CacheableOperationClass);
      var after := Get(m', CacheableOperationClass);
      assert before <= after by {
        var op := ctx.operation;
        var withBase := if BaseClassOf(op).Some? then Add(m, BaseClassOf(op).value, ctx) else m;
        assert before <= Get(withBase, CacheableOperationClass);
      }
      if IsSync(ops[0]) {
        assert after[|before|] == ctx;
      } else if !HasSync(before) {
        var i :| 0 <= i < |ops| && IsSync(ops[i]);
        assert ops[1..][i - 1] == ops[i];
      } else {
        var j :| 0 <= j < |before| && IsSync(before[j].operation);
        assert after[j] == before[j];
      }
      RegisterFromKeepsSync(inv, ops[1..], m');
    }
  }

  /**
   * So a `sync` Cacheable, whatever else is declared, is refused with an
   * `IllegalStateException`: it is combined with something, or duplicated.
   */
  lemma SyncOperationRejected(inv: Invocation, ops: seq<CacheOperation>, i: nat)
    requires i < |ops| && IsSync(ops[i]) && Register(inv, ops).Success?
    ensures BuildContexts(inv, ops) == Failure(IllegalState(SyncCombined))
         || BuildContexts(inv, ops) == Failure(IllegalState(SyncMultipleEntries))
  {
    RegisterFromKeepsSync(inv, ops, map[]);
    RegisterFromGuarded(inv, ops, map[]);
    var m := Register(inv, ops).value;
    assert CacheableOperationClass in m;
    if |m[CacheableOperationClass]| <= 1 {
      var other :| other in m && other != CacheableOperationClass;
      TwoKeys(m, CacheableOperationClass, other);
    }
  }

  // ---------------------------------------------------------------- Optional values

  /** A value read from the cache and wrapped for an `Optional` method unwraps back to itself. */
  lemma WrapThenUnwrap(m: MethodRef, v: Value)
    requires !v.Optional?
    ensures UnwrapReturnValue(WrapCacheValue(m, v)) == Success(v)
  {
  }

  /** An `Optional` a method returns is cached unwrapped and rebuilt by the wrap on a later hit. */
  lemma UnwrapThenWrap(m: MethodRef, returned: Value)
    requires m.returnsOptional && returned.Optional? && !returned.content.Optional?
    ensures UnwrapReturnValue(returned).Success?
    ensures WrapCacheValue(m, UnwrapReturnValue(returned).value) == returned
  {
  }

  /** Nested `Optional`s are refused. */
  lemma NestedOptionalRefused(inner: Value)
    requires inner.Optional?
    ensures UnwrapReturnValue(Optional(inner)) == Failure(IllegalArgument(NestedOptional))
  {
  }

  // ---------------------------------------------------------------- metadata keys

  /** `CacheOperationCacheKey.compareTo` is antisymmetric. */
  lemma CompareKeysAntisymmetric(a: OperationKey, b: OperationKey)
    ensures CompareKeys(a, b) == -CompareKeys(b, a)
  {
    CompareToAntisymmetric(a.operation.common.name, b.operation.common.name);
    CompareToAntisymmetric(a.element.element.text, b.element.element.text);
    CompareToAntisymmetric(a.element.targetClass.name, b.element.targetClass.name);
  }

  /** ... and is zero exactly for keys with the same operation name, method and target class. */
  lemma CompareKeysZeroIff(a: OperationKey, b: OperationKey)
    ensures CompareKeys(a, b) == 0 <==>
      a.operation.common.name == b.operation.common.name &&
      a.element.element.text == b.element.element.text &&
      a.element.targetClass.name == b.element.targetClass.name
  {
    CompareToZeroIffEqual(a.operation.common.name, b.operation.common.name);
    CompareToZeroIffEqual(a.element.element.text, b.element.element.text);
    CompareToZeroIffEqual(a.element.targetClass.name, b.element.targetClass.name);
    var byName := CompareTo(a.operation.common.name, b.operation.common.name);
    var byMethod := CompareTo(a.element.element.text, b.element.element.text);
    var byClass := CompareTo(a.element.targetClass.name, b.element.targetClass.name);
    assert CompareKeys(a, b) == if byName != 0 then byName else if byMethod != 0 then byMethod else byClass;
  }

  // ---------------------------------------------------------------- the read-through scenario

  /** The contexts of a method with a single plain, non-sync Cacheable whose caches resolve. */
  lemma SinglePlainCacheableContexts(inv: Invocation, op: CacheOperation, caches: seq<CacheId>)
    requires op.Cacheable? && op.ttl.None? && !op.sync && inv.caches(op) == Success(caches)
    ensures BuildContexts(inv, [op]) ==
      Success(Contexts(map[CacheableOperationClass := [OperationContext(op, caches), OperationContext(op, caches)]], false))
  {
    PlainCacheableRegisteredTwice(inv, op, caches);
  }

  /** Nothing to evict and nothing to put: the standard path is the lookup and the invocation. */
  lemma OnlyCacheables(cfg: Config, inv: Invocation, outcome: Result<Value, Throwable>, ctxs: Contexts, entries: Entries)
    requires ctxs.byClass.Keys == {CacheableOperationClass}
    ensures StandardPath(cfg, inv, outcome, ctxs, entries) == AfterEarlyEvicts(cfg, inv, outcome, ctxs, entries)
    ensures Get(ctxs.byClass, CachePutOperationClass) == [] && Get(ctxs.byClass, CacheEvictOperationClass) == []
  {
  }

  /** The first call of the scenario: a miss, two staged puts of the same request, one invocation. */
  lemma ReadThroughMiss(cfg: Config, inv: Invocation, op: CacheOperation, caches: seq<CacheId>, k: Value, v: Value, entries: Entries)
    requires Healthy(cfg)
    requires op.Cacheable? && !HasText(op.common.condition) && !HasText(op.unless)
    requires inv.key(op, NoResult) == Success(k) && k != Null
    requires forall c :: c in caches ==> Stored(entries, c, k) == None
    requires !v.Optional?
    ensures var ctx := OperationContext(op, caches);
      var o := AfterEarlyEvicts(cfg, inv, Success(v), Contexts(map[CacheableOperationClass := [ctx, ctx]], false), entries);
      o.invocations == 1 && o.ret == Success(v) && forall c :: c in caches ==> Stored(o.entries, c, k) == Some(v)
  {
    var ctx := OperationContext(op, caches);
    var ctxs := Contexts(map[CacheableOperationClass := [ctx, ctx]], false);
    OnlyCacheables(cfg, inv, Success(v), ctxs, entries);
    FindInCachesFirstHit(cfg, entries, caches, k);
    assert FindCachedItem(cfg, inv, entries, [ctx, ctx]) == Success(None) by {
      assert [ctx, ctx][1..] == [ctx];
      assert FindCachedItem(cfg, inv, entries, [ctx]) == Success(None) by {
        assert [ctx][1..] == [];
      }
    }
    var req := PutRequest(ctx, k);
    assert CollectPutRequests(inv, [ctx, ctx], NoResult, []) == Success([req, req]) by {
      assert [ctx, ctx][1..] == [ctx];
      assert [ctx][1..] == [];
      assert [] + [req] == [req] && [req] + [req] == [req, req];
      assert CollectPutRequests(inv, [ctx], NoResult, [req]) == Success([req, req]);
    }
    PutWritesEveryCache(cfg, entries, caches, k, v);
    var e1 := PutToCaches(cfg, entries, caches, k, v).entries;
    PutWritesEveryCache(cfg, e1, caches, k, v);
    var e2 := PutToCaches(cfg, e1, caches, k, v).entries;
    assert CanPutToCache(inv, op, v) == Success(true);
    assert ApplyPut(cfg, inv, entries, req, v) == Step(e1, Success(()));
    assert ApplyPut(cfg, inv, e1, req, v) == Step(e2, Success(()));
    assert ApplyAll(cfg, inv, entries, [req, req], v) == Step(e2, Success(())) by {
      assert [req, req][1..] == [req];
      assert [req][1..] == [];
      assert ApplyAll(cfg, inv, e1, [req], v) == Step(e2, Success(()));
    }
    assert Finish(cfg, inv, ctxs, entries, [req, req], v, v, 1) == Outcome(e2, Success(v), 1);
  }

  /** The second call of the scenario: a hit in the first cache, nothing staged, no invocation. */
  lemma ReadThroughHit(cfg: Config, inv: Invocation, op: CacheOperation, caches: seq<CacheId>, k: Value, v: Value,
                       entries: Entries, outcome: Result<Value, Throwable>)
    requires Healthy(cfg)
    requires op.Cacheable? && !HasText(op.common.condition)
    requires inv.key(op, NoResult) == Success(k) && k != Null
    requires |caches| > 0 && Stored(entries, caches[0], k) == Some(v)
    requires !inv.methodRef.returnsOptional
    ensures var ctx := OperationContext(op, caches);
      AfterEarlyEvicts(cfg, inv, outcome, Contexts(map[CacheableOperationClass := [ctx, ctx]], false), entries)
        == Outcome(entries, Success(v), 0)
  {
    var ctx := OperationContext(op, caches);
    var ctxs := Contexts(map[CacheableOperationClass := [ctx, ctx]], false);
    OnlyCacheables(cfg, inv, outcome, ctxs, entries);
    assert FindInCaches(cfg, entries, caches, k) == Success(Some(v));
    assert FindCachedItem(cfg, inv, entries, [ctx, ctx]) == Success(Some(v));
    assert Finish(cfg, inv, ctxs, entries, [], v, v, 0) == Outcome(entries, Success(v), 0);
  }

  /**
   * A method with one plain Cacheable and no condition or unless, its caches
   * empty under its key: the first call runs the method once and stores the
   * value in every cache; a second call returns the stored value without
   * running the method, whatever it would do, and changes nothing.
   */
  lemma ReadThroughThenHit(cfg: Config, inv: Invocation, op: CacheOperation, caches: seq<CacheId>, k: Value, v: Value,
                           entries: Entries, later: Result<Value, Throwable>)
    requires Healthy(cfg)
    requires inv.operations == Some([op]) && op.Cacheable? && op.ttl.None? && !op.sync
    requires !HasText(op.common.condition) && !HasText(op.unless)
    requires inv.caches(op) == Success(caches) && |caches| > 0
    requires inv.key(op, NoResult) == Success(k) && k != Null
    requires forall c :: c in caches ==> Stored(entries, c, k) == None
    requires !v.Optional? && !inv.methodRef.returnsOptional
    ensures var first := Execute(true, cfg, inv, Success(v), entries);
      first.invocations == 1 && first.ret == Success(v) &&
      (forall c :: c in caches ==> Stored(first.entries, c, k) == Some(v)) &&
      Execute(true, cfg, inv, later, first.entries) == Outcome(first.entries, Success(v), 0)
  {
    var ctx := OperationContext(op, caches);
    SinglePlainCacheableContexts(inv, op, caches);
    var ctxs := Contexts(map[CacheableOperationClass := [ctx, ctx]], false);
    OnlyCacheables(cfg, inv, Success(v), ctxs, entries);
    ReadThroughMiss(cfg, inv, op, caches, k, v, entries);
    var first := AfterEarlyEvicts(cfg, inv, Success(v), ctxs, entries);
    assert Execute(true, cfg, inv, Success(v), entries) == first;
    OnlyCacheables(cfg, inv, later, ctxs, first.entries);
    ReadThroughHit(cfg, inv, op, caches, k, v, first.entries, later);
  }

  // ---------------------------------------------------------------- when the method runs

  /** Before initialisation, or for a method without operations, the method runs once and its result is returned untouched. */
  lemma InactiveInvokesOnce(initialized: bool, cfg: Config, inv: Invocation, outcome: Result<Value, Throwable>, entries: Entries)
    requires !initialized || inv.operations.None? || inv.operations == Some([])
    ensures Execute(initialized, cfg, inv, outcome, entries) == Outcome(entries, Invoked(outcome), 1)
  {
  }

  /** Helper: the end of the standard path keeps the invocation count it is given. */
  lemma FinishKeepsCount(cfg: Config, inv: Invocation, ctxs: Contexts, entries: Entries, staged: seq<PutRequest>,
                         cacheValue: Value, returnValue: Value, n: nat)
    ensures Finish(cfg, inv, ctxs, entries, staged, cacheValue, returnValue, n).invocations == n
  {
  }

  lemma StandardAtMostOnce(cfg: Config, inv: Invocation, outcome: Result<Value, Throwable>, ctxs: Contexts, entries: Entries)
    ensures StandardPath(cfg, inv, outcome, ctxs, entries).invocations <= 1
    ensures outcome.Failure? && StandardPath(cfg, inv, outcome, ctxs, entries).invocations == 1 ==>
      StandardPath(cfg, inv, outcome, ctxs, entries).ret == Failure(Thrown(outcome.error))
  {
    var early := ProcessEvicts(cfg, inv, entries, Get(ctxs.byClass, CacheEvictOperationClass), true, NoResult);
    if early.result.Success? {
      var cacheables := Get(ctxs.byClass, CacheableOperationClass);
      var hit := FindCachedItem(cfg, inv, early.entries, cacheables);
      if hit.Success? {
        var staged := if hit.value.None? then CollectPutRequests(inv, cacheables, NoResult, []) else Success([]);
        if staged.Success? {
          var must := MustInvoke(inv, ctxs, hit.value, staged.value);
          if must.Success? && !must.value {
            FinishKeepsCount(cfg, inv, ctxs, early.entries, staged.value, hit.value.value, WrapCacheValue(inv.methodRef, hit.value.value), 0);
          } else if must.Success? && outcome.Success? && UnwrapReturnValue(outcome.value).Success? {
            FinishKeepsCount(cfg, inv, ctxs, early.entries, staged.value, UnwrapReturnValue(outcome.value).value, outcome.value, 1);
          }
        }
      }
    }
  }

  /** The method runs at most once per call, and a throwable it raises is what the call raises. */
  lemma InvokedAtMostOnce(initialized: bool, cfg: Config, inv: Invocation, outcome: Result<Value, Throwable>, entries: Entries)
    ensures Execute(initialized, cfg, inv, outcome, entries).invocations <= 1
    ensures outcome.Failure? && Execute(initialized, cfg, inv, outcome, entries).invocations == 1 ==>
      Execute(initialized, cfg, inv, outcome, entries).ret == Failure(Thrown(outcome.error))
  {
    if initialized && inv.operations.Some? && |inv.operations.value| > 0 {
      var ctxs := BuildContexts(inv, inv.operations.value);
      if ctxs.Success? {
        StandardAtMostOnce(cfg, inv, outcome, ctxs.value, entries);
      }
    }
  }

  /**
   * A hit with nothing staged and no applicable CachePut skips the method:
   * the outcome does not depend on what the method would do, and a
   * successful call returns the hit, wrapped for an `Optional` method.
   */
  lemma HitSkipsInvocation(cfg: Config, inv: Invocation, o1: Result<Value, Throwable>, o2: Result<Value, Throwable>,
                           ctxs: Contexts, entries: Entries, v: Value)
    requires FindCachedItem(cfg, inv, entries, Get(ctxs.byClass, CacheableOperationClass)) == Success(Some(v))
    requires HasCachePut(inv, Get(ctxs.byClass, CachePutOperationClass)) == Success(false)
    ensures AfterEarlyEvicts(cfg, inv, o1, ctxs, entries) == AfterEarlyEvicts(cfg, inv, o2, ctxs, entries)
    ensures AfterEarlyEvicts(cfg, inv, o1, ctxs, entries).invocations == 0
    ensures AfterEarlyEvicts(cfg, inv, o1, ctxs, entries).ret.Success? ==>
      AfterEarlyEvicts(cfg, inv, o1, ctxs, entries).ret.value == WrapCacheValue(inv.methodRef, v)
  {
  }

  /** A CachePut that may apply forces the method to run even on a hit. */
  lemma CachePutForcesInvocation(cfg: Config, inv: Invocation, outcome: Result<Value, Throwable>, ctxs: Contexts, entries: Entries, v: Value)
    requires FindCachedItem(cfg, inv, entries, Get(ctxs.byClass, CacheableOperationClass)) == Success(Some(v))
    requires HasCachePut(inv, Get(ctxs.byClass, CachePutOperationClass)) == Success(true)
    ensures AfterEarlyEvicts(cfg, inv, outcome, ctxs, entries).invocations == 1
  {
  }

  /**
   * On a miss the method runs once; a throwable it raises propagates
   * unchanged and no put is applied.
   */
  lemma MissInvokesOnce(cfg: Config, inv: Invocation, outcome: Result<Value, Throwable>, ctxs: Contexts, entries: Entries)
    requires FindCachedItem(cfg, inv, entries, Get(ctxs.byClass, CacheableOperationClass)) == Success(None)
    requires CollectPutRequests(inv, Get(ctxs.byClass, CacheableOperationClass), NoResult, []).Success?
    ensures AfterEarlyEvicts(cfg, inv, outcome, ctxs, entries).invocations == 1
    ensures outcome.Failure? ==> AfterEarlyEvicts(cfg, inv, outcome, ctxs, entries) == Outcome(entries, Failure(Thrown(outcome.error)), 1)
  {
  }

  // ---------------------------------------------------------------- the synchronised path

  /** The single context and cache of a synchronised call. */
  predicate SyncReady(cfg: Config, inv: Invocation, ctxs: Contexts, k: Value, c: CacheId) {
    Healthy(cfg) &&
    |Get(ctxs.byClass, CacheableOperationClass)| > 0 &&
    ConditionPassing(inv, Get(ctxs.byClass, CacheableOperationClass)[0].operation, NoResult) == Success(true) &&
    GenerateKey(inv, Get(ctxs.byClass, CacheableOperationClass)[0].operation, NoResult) == Success(k) &&
    |Get(ctxs.byClass, CacheableOperationClass)[0].caches| > 0 &&
    Get(ctxs.byClass, CacheableOperationClass)[0].caches[0] == c
  }

  /** A synchronised hit returns the stored value without running the method. */
  lemma SyncHit(cfg: Config, inv: Invocation, outcome: Result<Value, Throwable>, ctxs: Contexts, entries: Entries, k: Value, c: CacheId)
    requires SyncReady(cfg, inv, ctxs, k, c) && Stored(entries, c, k).Some?
    ensures SyncPath(cfg, inv, outcome, ctxs, entries) == Outcome(entries, Success(WrapCacheValue(inv.methodRef, Stored(entries, c, k).value)), 0)
  {
  }

  /**
   * A synchronised miss runs the method once as the loader and stores its
   * unwrapped value; a throwable propagates as is, and a nested `Optional`
   * fails the cast of the loader's exception.
   */
  lemma SyncMissLoads(cfg: Config, inv: Invocation, outcome: Result<Value, Throwable>, ctxs: Contexts, entries: Entries, k: Value, c: CacheId)
    requires SyncReady(cfg, inv, ctxs, k, c) && Stored(entries, c, k).None?
    ensures var o := SyncPath(cfg, inv, outcome, ctxs, entries);
      o.invocations == 1 &&
      (outcome.Failure? ==> o == Outcome(entries, Failure(Thrown(outcome.error)), 1)) &&
      (outcome.Success? && UnwrapReturnValue(outcome.value).Failure? ==> o == Outcome(entries, Failure(ClassCast), 1)) &&
      (outcome.Success? && UnwrapReturnValue(outcome.value).Success? ==>
         Stored(o.entries, c, k) == Some(UnwrapReturnValue(outcome.value).value) &&
         o.ret == Success(WrapCacheValue(inv.methodRef, UnwrapReturnValue(outcome.value).value)))
  {
  }

  /**
   * With the interceptor's own null handler the synchronised read throws a
   * `NullPointerException` that no error handler sees, even a log-only one.
   */
  lemma SyncNullHandlerThrows(cfg: Config, inv: Invocation, outcome: Result<Value, Throwable>, ctxs: Contexts, entries: Entries, k: Value, c: CacheId)
    requires SyncReady(cfg.(handler := DelegatingHandler), inv, ctxs, k, c) && cfg.handler.NullHandler?
    ensures SyncPath(cfg, inv, outcome, ctxs, entries) == Outcome(entries, Failure(NullPointer), 0)
  {
  }

  /** After a successful synchronised miss, the next synchronised call hits and skips the method. */
  lemma SyncMissThenHit(cfg: Config, inv: Invocation, v: Value, later: Result<Value, Throwable>, ctxs: Contexts, entries: Entries, k: Value, c: CacheId)
    requires SyncReady(cfg, inv, ctxs, k, c) && Stored(entries, c, k).None?
    requires UnwrapReturnValue(v).Success?
    ensures var first := SyncPath(cfg, inv, Success(v), ctxs, entries);
      SyncPath(cfg, inv, later, ctxs, first.entries) == Outcome(first.entries, first.ret, 0)
  {
    SyncMissLoads(cfg, inv, Success(v), ctxs, entries, k, c);
    var first := SyncPath(cfg, inv, Success(v), ctxs, entries);
    SyncHit(cfg, inv, later, ctxs, first.entries, k, c);
  }
}
