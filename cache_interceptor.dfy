/**
 * `CustomableCacheInterceptor` as a class: the `initialized` flag and the
 * metadata memo are its fields, the caches live in a `CacheStore`, and the
 * underlying method is an `Invoker` that counts how often it runs. Each phase
 * of `execute` is a method proved against its function in `CacheInvocation`.
 */
module CacheInterceptor {
  import opened Wrappers
  import opened Lang
  import opened Operations
  import opened ExpressionEvaluation
  import opened CacheInvocation

  /** The cache backend, updated in place by puts, evictions and clears. */
  class CacheStore {
    var entries: Entries

    constructor(initial: Entries)
      ensures entries == initial
    {
      entries := initial;
    }
  }

  /** `CacheOperationInvoker`: the intercepted method with a fixed outcome; `calls` counts invocations. */
  class Invoker {
    const outcome: Result<Value, Throwable>
    var calls: nat

    constructor(outcome: Result<Value, Throwable>)
      ensures this.outcome == outcome && calls == 0
    {
      this.outcome := outcome;
      calls := 0;
    }

    /** `invokeOperation`: runs the method once; a throwable comes back wrapped. */
    method Invoke() returns (r: Result<Value, Exception>)
      modifies this
      ensures r == Invoked(outcome)
      ensures calls == old(calls) + 1
    {
      calls := calls + 1;
      match outcome
      case Success(v) => r := Success(v);
      case Failure(t) => r := Failure(Thrown(t));
    }
  }

  class CustomableCacheInterceptor {
    const config: Config
    var initialized: bool
    var metadataCache: map<OperationKey, OperationMetadata>

    /** Every memoised metadata is the one computed for its key. */
    ghost predicate Valid()
      reads this
    {
      forall k :: k in metadataCache ==> metadataCache[k] == MetadataOf(k)
    }

    constructor(config: Config)
      ensures Valid()
      ensures this.config == config && !initialized && metadataCache == map[]
    {
      this.config := config;
      initialized := false;
      metadataCache := map[];
    }

    /** `afterSingletonsInstantiated`: caching is enabled from now on. */
    method AfterSingletonsInstantiated()
      modifies this
      ensures initialized
      ensures metadataCache == old(metadataCache)
    {
      initialized := true;
    }

    /** `getCacheOperationMetadata`: computed once per key, then served from the memo. */
    method GetCacheOperationMetadata(op: CacheOperation, methodRef: MethodRef, targetClass: ClassRef)
      returns (md: OperationMetadata)
      requires Valid()
      modifies this
      ensures Valid()
      ensures md == MetadataOf(OperationKey(op, ElementKey(methodRef, targetClass)))
      ensures metadataCache == old(metadataCache)[OperationKey(op, ElementKey(methodRef, targetClass)) := md]
      ensures initialized == old(initialized)
    {
      var key := OperationKey(op, ElementKey(methodRef, targetClass));
      if key in metadataCache {
        md := metadataCache[key];
      } else {
        md := MetadataOf(key);
        metadataCache := metadataCache[key := md];
      }
    }

    /** `clearMetadataCache`. */
    method ClearMetadataCache()
      modifies this
      ensures Valid()
      ensures metadataCache == map[]
      ensures initialized == old(initialized)
    {
      metadataCache := map[];
    }

    /** `determineSyncFlag`: looks for a sync Cacheable, then checks the restrictions in order. */
    method DetermineSyncFlag(m: ContextMap) returns (r: Result<bool, Exception>)
      ensures r == SyncFlag(m)
    {
      if CacheableOperationClass !in m {
        return Success(false);
      }
      var cs := m[CacheableOperationClass];
      var syncEnabled := false;
      var i := 0;
      while i < |cs|
        invariant 0 <= i <= |cs|
        invariant !syncEnabled
        invariant forall j :: 0 <= j < i ==> !IsSync(cs[j].operation)
      {
        if IsSync(cs[i].operation) {
          syncEnabled := true;
          break;
        }
        i := i + 1;
      }
      if !syncEnabled {
        return Success(false);
      }
      if |m| > 1 {
        return Failure(IllegalState(SyncCombined));
      }
      if |cs| > 1 {
        return Failure(IllegalState(SyncMultipleEntries));
      }
      if |cs[0].caches| > 1 {
        return Failure(IllegalState(SyncMultipleCaches));
      }
      if HasText(UnlessOf(cs[0].operation)) {
        return Failure(IllegalState(SyncWithUnless));
      }
      return Success(true);
    }

    /** `getOperationContext`: the operation's metadata, memoised, and the caches resolved for it. */
    method GetOperationContext(inv: Invocation, op: CacheOperation) returns (r: Result<OperationContext, Exception>)
      requires Valid()
      modifies this
      ensures Valid() && initialized == old(initialized)
      ensures inv.caches(op).Success? <==> r.Success?
      ensures r.Success? ==> r.value == OperationContext(op, inv.caches(op).value)
      ensures r.Failure? ==> r.error == inv.caches(op).error
      ensures metadataCache.Keys == old(metadataCache).Keys + {OperationKey(op, ElementKey(inv.methodRef, inv.targetClass))}
    {
      var _ := GetCacheOperationMetadata(op, inv.methodRef, inv.targetClass);
      var caches := inv.caches(op);
      if caches.Failure? {
        return Failure(caches.error);
      }
      return Success(OperationContext(op, caches.value));
    }

    /** The loop of the `CacheOperationContexts` constructor: each operation gets its metadata and caches and is registered. */
    method RegisterContexts(inv: Invocation, ops: seq<CacheOperation>) returns (r: Result<ContextMap, Exception>)
      requires Valid()
      modifies this
      ensures Valid()
      ensures r == Register(inv, ops)
      ensures initialized == old(initialized)
      ensures old(metadataCache).Keys <= metadataCache.Keys
      ensures r.Success? ==> forall j :: 0 <= j < |ops| ==> OperationKey(ops[j], ElementKey(inv.methodRef, inv.targetClass)) in metadataCache
      ensures forall k :: k in metadataCache && k !in old(metadataCache) ==>
        k.operation in ops && k.element == ElementKey(inv.methodRef, inv.targetClass)
    {
      var e := ElementKey(inv.methodRef, inv.targetClass);
      var m: ContextMap := map[];
      var i := 0;
      while i < |ops|
        invariant 0 <= i <= |ops|
        invariant Valid() && initialized == old(initialized)
        invariant Register(inv, ops) == RegisterFrom(inv, ops[i..], m)
        invariant old(metadataCache).Keys <= metadataCache.Keys
        invariant forall j :: 0 <= j < i ==> OperationKey(ops[j], e) in metadataCache
        invariant forall k :: k in metadataCache && k !in old(metadataCache) ==> k.operation in ops && k.element == e
      {
        assert ops[i..][1..] == ops[i + 1..];
        var ctx := GetOperationContext(inv, ops[i]);
        if ctx.Failure? {
          return Failure(ctx.error);
        }
        m := RegisterOne(m, ctx.value);
        i := i + 1;
      }
      return Success(m);
    }

    /** The `CacheOperationContexts` constructor: the contexts registered, then the sync flag. */
    method NewContexts(inv: Invocation, ops: seq<CacheOperation>) returns (r: Result<Contexts, Exception>)
      requires Valid()
      modifies this
      ensures Valid()
      ensures r == BuildContexts(inv, ops)
      ensures initialized == old(initialized)
      ensures old(metadataCache).Keys <= metadataCache.Keys
      ensures r.Success? ==> forall j :: 0 <= j < |ops| ==> OperationKey(ops[j], ElementKey(inv.methodRef, inv.targetClass)) in metadataCache
      ensures forall k :: k in metadataCache && k !in old(metadataCache) ==>
        k.operation in ops && k.element == ElementKey(inv.methodRef, inv.targetClass)
    {
      var m := RegisterContexts(inv, ops);
      if m.Failure? {
        return Failure(m.error);
      }
      var sync := DetermineSyncFlag(m.value);
      if sync.Failure? {
        return Failure(sync.error);
      }
      return Success(Contexts(m.value, sync.value));
    }

    // ------------------------------------------------------------ cache access

    /** `doGet`. */
    method DoGet(store: CacheStore, c: CacheId, key: Value) returns (r: Result<Option<Value>, Exception>)
      ensures r == CacheInvocation.DoGet(config, store.entries, c, key)
    {
      if config.handler.NullHandler? {
        r := Handle(config, None, NullPointer);
      } else if c in config.broken {
        r := Handle(config, None, CacheFailure(c));
      } else {
        r := Success(Stored(store.entries, c, key));
      }
    }

    /** `doPut`. */
    method DoPut(store: CacheStore, c: CacheId, key: Value, value: Value) returns (r: Result<(), Exception>)
      modifies store
      ensures Step(store.entries, r) == CacheInvocation.DoPut(config, old(store.entries), c, key, value)
    {
      if config.handler.NullHandler? {
        r := Handle(config, (), NullPointer);
      } else if c in config.broken {
        r := Handle(config, (), CacheFailure(c));
      } else {
        store.entries := Store(store.entries, c, key, value);
        r := Success(());
      }
    }

    /** `doEvict`. */
    method DoEvict(store: CacheStore, c: CacheId, key: Value) returns (r: Result<(), Exception>)
      modifies store
      ensures Step(store.entries, r) == CacheInvocation.DoEvict(config, old(store.entries), c, key)
    {
      if c in config.broken {
        r := Handle(config, (), CacheFailure(c));
      } else {
        store.entries := Evicted(store.entries, c, key);
        r := Success(());
      }
    }

    /** `doClear`. */
    method DoClear(store: CacheStore, c: CacheId) returns (r: Result<(), Exception>)
      modifies store
      ensures Step(store.entries, r) == CacheInvocation.DoClear(config, old(store.entries), c)
    {
      if c in config.broken {
        r := Handle(config, (), CacheFailure(c));
      } else {
        store.entries := Cleared(store.entries, c);
        r := Success(());
      }
    }

    // ------------------------------------------------------------ phases

    /** `findInCaches`. */
    method FindInCaches(store: CacheStore, caches: seq<CacheId>, key: Value) returns (r: Result<Option<Value>, Exception>)
      ensures r == CacheInvocation.FindInCaches(config, store.entries, caches, key)
    {
      var i := 0;
      while i < |caches|
        invariant 0 <= i <= |caches|
        invariant CacheInvocation.FindInCaches(config, store.entries, caches, key)
               == CacheInvocation.FindInCaches(config, store.entries, caches[i..], key)
      {
        assert caches[i..][1..] == caches[i + 1..];
        var wrapper := DoGet(store, caches[i], key);
        if wrapper.Failure? {
          return Failure(wrapper.error);
        }
        if wrapper.value.Some? {
          return wrapper;
        }
        i := i + 1;
      }
      return Success(None);
    }

    /** `findCachedItem`. */
    method FindCachedItem(store: CacheStore, inv: Invocation, ctxs: seq<OperationContext>)
      returns (r: Result<Option<Value>, Exception>)
      ensures r == CacheInvocation.FindCachedItem(config, inv, store.entries, ctxs)
    {
      var i := 0;
      while i < |ctxs|
        invariant 0 <= i <= |ctxs|
        invariant CacheInvocation.FindCachedItem(config, inv, store.entries, ctxs)
               == CacheInvocation.FindCachedItem(config, inv, store.entries, ctxs[i..])
      {
        assert ctxs[i..][1..] == ctxs[i + 1..];
        var passing := ConditionPassing(inv, ctxs[i].operation, NoResult);
        if passing.Failure? {
          return Failure(passing.error);
        }
        if passing.value {
          var key := GenerateKey(inv, ctxs[i].operation, NoResult);
          if key.Failure? {
            return Failure(key.error);
          }
          var cached := FindInCaches(store, ctxs[i].caches, key.value);
          if cached.Failure? || cached.value.Some? {
            return cached;
          }
        }
        i := i + 1;
      }
      return Success(None);
    }

    /** `collectPutRequests`: appends to `requests` one request per context whose condition passes. */
    method CollectPutRequests(inv: Invocation, ctxs: seq<OperationContext>, result: ResultArg, requests: seq<PutRequest>)
      returns (r: Result<seq<PutRequest>, Exception>)
      ensures r == CacheInvocation.CollectPutRequests(inv, ctxs, result, requests)
    {
      var acc := requests;
      var i := 0;
      while i < |ctxs|
        invariant 0 <= i <= |ctxs|
        invariant CacheInvocation.CollectPutRequests(inv, ctxs, result, requests)
               == CacheInvocation.CollectPutRequests(inv, ctxs[i..], result, acc)
      {
        assert ctxs[i..][1..] == ctxs[i + 1..];
        var passing := ConditionPassing(inv, ctxs[i].operation, result);
        if passing.Failure? {
          return Failure(passing.error);
        }
        if passing.value {
          var key := GenerateKey(inv, ctxs[i].operation, result);
          if key.Failure? {
            return Failure(key.error);
          }
          acc := acc + [PutRequest(ctxs[i], key.value)];
        }
        i := i + 1;
      }
      return Success(acc);
    }

    /** `hasCachePut`: some CachePut context is not excluded by its condition. */
    method HasCachePut(inv: Invocation, ctxs: seq<OperationContext>) returns (r: Result<bool, Exception>)
      ensures r == CacheInvocation.HasCachePut(inv, ctxs)
    {
      var excluded: seq<OperationContext> := [];
      var i := 0;
      while i < |ctxs|
        invariant 0 <= i <= |ctxs|
        invariant ExcludedContexts(inv, ctxs, []) == ExcludedContexts(inv, ctxs[i..], excluded)
      {
        assert ctxs[i..][1..] == ctxs[i + 1..];
        var passing := ConditionPassing(inv, ctxs[i].operation, ResultUnavailable);
        if passing.Failure? && !passing.error.VariableNotAvailable? {
          return Failure(passing.error);
        }
        if passing.Success? && !passing.value {
          excluded := excluded + [ctxs[i]];
        }
        i := i + 1;
      }
      return Success(|ctxs| != |excluded|);
    }

    /** `performCacheEvict`: the key is computed lazily, again for each cache while it is null. */
    method PerformCacheEvict(store: CacheStore, inv: Invocation, op: CacheOperation, caches: seq<CacheId>, result: ResultArg)
      returns (r: Result<(), Exception>)
      modifies store
      ensures Step(store.entries, r) == PerformEvict(config, inv, old(store.entries), op, caches, result, Null)
    {
      var key := Null;
      var i := 0;
      while i < |caches|
        invariant 0 <= i <= |caches|
        invariant PerformEvict(config, inv, old(store.entries), op, caches, result, Null)
               == PerformEvict(config, inv, store.entries, op, caches[i..], result, key)
      {
        assert caches[i..][1..] == caches[i + 1..];
        if IsCacheWide(op) {
          var cleared := DoClear(store, caches[i]);
          if cleared.Failure? {
            return cleared;
          }
        } else {
          if key == Null {
            var k := inv.key(op, result);
            if k.Failure? {
              return Failure(k.error);
            }
            key := k.value;
          }
          var evicted := DoEvict(store, caches[i], key);
          if evicted.Failure? {
            return evicted;
          }
        }
        i := i + 1;
      }
      return Success(());
    }

    /** `processCacheEvicts`: the evictions of one phase whose condition passes. */
    method ProcessCacheEvicts(store: CacheStore, inv: Invocation, ctxs: seq<OperationContext>, beforeInvocation: bool, result: ResultArg)
      returns (r: Result<(), Exception>)
      modifies store
      ensures Step(store.entries, r) == ProcessEvicts(config, inv, old(store.entries), ctxs, beforeInvocation, result)
    {
      var i := 0;
      while i < |ctxs|
        invariant 0 <= i <= |ctxs|
        invariant ProcessEvicts(config, inv, old(store.entries), ctxs, beforeInvocation, result)
               == ProcessEvicts(config, inv, store.entries, ctxs[i..], beforeInvocation, result)
      {
        assert ctxs[i..][1..] == ctxs[i + 1..];
        if beforeInvocation == IsBeforeInvocation(ctxs[i].operation) {
          var passing := ConditionPassing(inv, ctxs[i].operation, result);
          if passing.Failure? {
            return Failure(passing.error);
          }
          if passing.value {
            var evicted := PerformCacheEvict(store, inv, ctxs[i].operation, ctxs[i].caches, result);
            if evicted.Failure? {
              return evicted;
            }
          }
        }
        i := i + 1;
      }
      return Success(());
    }

    /** `CachePutRequest.apply`. */
    method ApplyPutRequest(store: CacheStore, inv: Invocation, request: PutRequest, value: Value) returns (r: Result<(), Exception>)
      modifies store
      ensures Step(store.entries, r) == ApplyPut(config, inv, old(store.entries), request, value)
    {
      var canPut := CanPutToCache(inv, request.context.operation, value);
      if canPut.Failure? {
        return Failure(canPut.error);
      }
      if !canPut.value {
        return Success(());
      }
      var caches := request.context.caches;
      var i := 0;
      while i < |caches|
        invariant 0 <= i <= |caches|
        invariant PutToCaches(config, old(store.entries), caches, request.key, value)
               == PutToCaches(config, store.entries, caches[i..], request.key, value)
      {
        assert caches[i..][1..] == caches[i + 1..];
        var put := DoPut(store, caches[i], request.key, value);
        if put.Failure? {
          return put;
        }
        i := i + 1;
      }
      return Success(());
    }

    // ------------------------------------------------------------ execute

    /** Every collected put request applied in order, stopping at the first failure. */
    method ApplyPutRequests(store: CacheStore, inv: Invocation, requests: seq<PutRequest>, cacheValue: Value)
      returns (r: Result<(), Exception>)
      modifies store
      ensures Step(store.entries, r) == ApplyAll(config, inv, old(store.entries), requests, cacheValue)
    {
      var i := 0;
      while i < |requests|
        invariant 0 <= i <= |requests|
        invariant ApplyAll(config, inv, old(store.entries), requests, cacheValue)
               == ApplyAll(config, inv, store.entries, requests[i..], cacheValue)
      {
        assert requests[i..][1..] == requests[i + 1..];
        ApplyAllFirst(config, inv, store.entries, requests[i..], cacheValue);
        var applied := ApplyPutRequest(store, inv, requests[i], cacheValue);
        if applied.Failure? {
          return applied;
        }
        i := i + 1;
      }
      return Success(());
    }

    /** The end of `execute`: explicit puts, every staged request applied, late evictions. */
    method FinishExecution(store: CacheStore, inv: Invocation, ctxs: Contexts, staged: seq<PutRequest>,
                           cacheValue: Value, returnValue: Value) returns (r: Result<Value, Exception>)
      modifies store
      ensures var o := Finish(config, inv, ctxs, old(store.entries), staged, cacheValue, returnValue, 0);
        store.entries == o.entries && r == o.ret
    {
      var requests := CollectPutRequests(inv, Get(ctxs.byClass, CachePutOperationClass), Result(cacheValue), staged);
      if requests.Failure? {
        return Failure(requests.error);
      }
      var applied := ApplyPutRequests(store, inv, requests.value, cacheValue);
      if applied.Failure? {
        return Failure(applied.error);
      }
      var late := ProcessCacheEvicts(store, inv, Get(ctxs.byClass, CacheEvictOperationClass), false, Result(cacheValue));
      if late.Failure? {
        return Failure(late.error);
      }
      return Success(returnValue);
    }

    /** The standard path of `execute`. */
    method ExecuteStandard(invoker: Invoker, store: CacheStore, inv: Invocation, ctxs: Contexts) returns (r: Result<Value, Exception>)
      modifies store, invoker
      ensures var o := StandardPath(config, inv, invoker.outcome, ctxs, old(store.entries));
        store.entries == o.entries && r == o.ret && invoker.calls == old(invoker.calls) + o.invocations
    {
      var early := ProcessCacheEvicts(store, inv, Get(ctxs.byClass, CacheEvictOperationClass), true, NoResult);
      if early.Failure? {
        return Failure(early.error);
      }
      var cacheables := Get(ctxs.byClass, CacheableOperationClass);
      var hit := FindCachedItem(store, inv, cacheables);
      if hit.Failure? {
        return Failure(hit.error);
      }
      var staged: seq<PutRequest> := [];
      if hit.value.None? {
        var collected := CollectPutRequests(inv, cacheables, NoResult, staged);
        if collected.Failure? {
          return Failure(collected.error);
        }
        staged := collected.value;
      }
      var mustInvoke := true;
      if hit.value.Some? && |staged| == 0 {
        var hasPut := HasCachePut(inv, Get(ctxs.byClass, CachePutOperationClass));
        if hasPut.Failure? {
          return Failure(hasPut.error);
        }
        mustInvoke := hasPut.value;
      }
      var cacheValue, returnValue;
      if !mustInvoke {
        cacheValue := hit.value.value;
        returnValue := WrapCacheValue(inv.methodRef, cacheValue);
      } else {
        var returned := invoker.Invoke();
        if returned.Failure? {
          return returned;
        }
        returnValue := returned.value;
        var unwrapped := UnwrapReturnValue(returnValue);
        if unwrapped.Failure? {
          return Failure(unwrapped.error);
        }
        cacheValue := unwrapped.value;
      }
      r := FinishExecution(store, inv, ctxs, staged, cacheValue, returnValue);
    }

    /** The synchronised path of `execute`: one read through the handler, loading on a miss. */
    method ExecuteSync(invoker: Invoker, store: CacheStore, inv: Invocation, ctxs: Contexts) returns (r: Result<Value, Exception>)
      modifies store, invoker
      ensures var o := SyncPath(config, inv, invoker.outcome, ctxs, old(store.entries));
        store.entries == o.entries && r == o.ret && invoker.calls == old(invoker.calls) + o.invocations
    {
      var cacheables := Get(ctxs.byClass, CacheableOperationClass);
      if |cacheables| == 0 {
        return Failure(NoSuchElement);
      }
      var ctx := cacheables[0];
      var passing := ConditionPassing(inv, ctx.operation, NoResult);
      if passing.Failure? {
        return Failure(passing.error);
      }
      if !passing.value {
        r := invoker.Invoke();
        return;
      }
      var key := GenerateKey(inv, ctx.operation, NoResult);
      if key.Failure? {
        return Failure(key.error);
      }
      if |ctx.caches| == 0 {
        return Failure(NoSuchElement);
      }
      var cache := ctx.caches[0];
      if config.handler.NullHandler? {
        return Failure(NullPointer);
      }
      if cache in config.broken {
        return Failure(CacheFailure(cache));
      }
      var cached := Stored(store.entries, cache, key.value);
      if cached.Some? {
        return Success(WrapCacheValue(inv.methodRef, cached.value));
      }
      var returned := invoker.Invoke();
      if returned.Failure? {
        return returned;
      }
      var loaded := UnwrapReturnValue(returned.value);
      if loaded.Failure? {
        return Failure(ClassCast);
      }
      store.entries := Store(store.entries, cache, key.value, loaded.value);
      return Success(WrapCacheValue(inv.methodRef, loaded.value));
    }

    /** `execute`: caching applies once initialised and when the method has operations. */
    method Execute(invoker: Invoker, store: CacheStore, inv: Invocation) returns (r: Result<Value, Exception>)
      requires Valid()
      modifies this, store, invoker
      ensures Valid()
      ensures initialized == old(initialized)
      ensures old(metadataCache).Keys <= metadataCache.Keys
      ensures forall k :: k in metadataCache && k !in old(metadataCache) ==>
        inv.operations.Some? && k.operation in inv.operations.value && k.element == ElementKey(inv.methodRef, inv.targetClass)
      ensures !old(initialized) ==> metadataCache == old(metadataCache)
      ensures var o := CacheInvocation.Execute(old(initialized), config, inv, invoker.outcome, old(store.entries));
        store.entries == o.entries && r == o.ret && invoker.calls == old(invoker.calls) + o.invocations
    {
      if initialized && inv.operations.Some? && |inv.operations.value| > 0 {
        var ctxs := NewContexts(inv, inv.operations.value);
        if ctxs.Failure? {
          return Failure(ctxs.error);
        }
        if ctxs.value.sync {
          r := ExecuteSync(invoker, store, inv, ctxs.value);
        } else {
          r := ExecuteStandard(invoker, store, inv, ctxs.value);
        }
      } else {
        r := invoker.Invoke();
      }
    }
  }
}
