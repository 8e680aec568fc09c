/**
 * The caching decision engine of `CustomableCacheInterceptor`, as functions
 * over the state of the caches: how the operations of one method call are
 * grouped into contexts, how the synchronised path and the standard path run
 * (early evictions, lookup, staged puts, invoke or skip, applied puts, late
 * evictions), and what each cache access does. The expression oracles
 * (`condition`, `key`, `unless`) and cache resolution belong to the invocation.
 */
module CacheInvocation {
  import opened Wrappers
  import opened Lang
  import opened Operations
  import opened ExpressionEvaluation

  /** The caches' contents: for each cache, its key-to-value mappings. */
  type Entries = map<CacheId, map<Value, Value>>

  /** `getCacheHandler()`: the interceptor's own handler is null; a subclass may return a delegating one. */
  datatype CacheHandler = NullHandler | DelegatingHandler

  /** The cache error handler: the library's log-only one swallows, Spring's default rethrows. */
  datatype ErrorHandler = LogOnly | Rethrowing

  /** Interceptor configuration; `broken` are the caches whose backend throws on every access. */
  datatype Config = Config(handler: CacheHandler, errorHandler: ErrorHandler, broken: set<CacheId>)

  /** An operation together with the caches resolved for it. */
  datatype OperationContext = OperationContext(operation: CacheOperation, caches: seq<CacheId>)

  /** `CachePutRequest`: a context and the key computed for it. */
  datatype PutRequest = PutRequest(context: OperationContext, key: Value)

  /** One intercepted call: the method, its operations, and the oracles that evaluate its expressions. */
  datatype Invocation = Invocation(
    methodRef: MethodRef,
    targetClass: ClassRef,
    /** `getCacheOperationSource().getCacheOperations(method, targetClass)`; `None` is null. */
    operations: Option<seq<CacheOperation>>,
    /** The caches a context resolves for an operation (failing when none can be resolved). */
    caches: CacheOperation -> Result<seq<CacheId>, Exception>,
    /** The operation's `condition` expression evaluated against the result argument. */
    condition: (CacheOperation, ResultArg) -> Result<bool, Exception>,
    /** `generateKey(result)` of the context, which may be null. */
    key: (CacheOperation, ResultArg) -> Result<Value, Exception>,
    /** The `unless` expression evaluated against the value to cache. */
    unless: (CacheOperation, Value) -> Result<bool, Exception>)

  /** The caches after a step, and what the step returned or threw. */
  datatype Step<T> = Step(entries: Entries, result: Result<T, Exception>)

  // ---------------------------------------------------------------- the cache backend

  function Stored(entries: Entries, c: CacheId, k: Value): Option<Value> {
    if c in entries && k in entries[c] then Some(entries[c][k]) else None
  }

  function Store(entries: Entries, c: CacheId, k: Value, v: Value): (r: Entries)
    ensures Stored(r, c, k) == Some(v)
  {
    entries[c := (if c in entries then entries[c] else map[])[k := v]]
  }

  function Evicted(entries: Entries, c: CacheId, k: Value): (r: Entries)
    ensures Stored(r, c, k) == None
  {
    if c in entries then entries[c := entries[c] - {k}] else entries
  }

  function Cleared(entries: Entries, c: CacheId): (r: Entries)
    ensures forall k :: Stored(r, c, k) == None
  {
    if c in entries then entries[c := map[]] else entries
  }

  /** What the error handler makes of a failed cache access. */
  function Handle<T>(cfg: Config, fallback: T, e: Exception): (r: Result<T, Exception>)
    ensures cfg.errorHandler.LogOnly? <==> r == Success(fallback)
    ensures cfg.errorHandler.Rethrowing? <==> r == Failure(e)
  {
    if cfg.errorHandler.LogOnly? then Success(fallback) else Failure(e)
  }

  /** `doGet`: a lookup through the handler; any failure goes to the error handler, a handled one being a miss. */
  function DoGet(cfg: Config, entries: Entries, c: CacheId, k: Value): (r: Result<Option<Value>, Exception>)
    ensures cfg.handler.DelegatingHandler? && c !in cfg.broken ==> r == Success(Stored(entries, c, k))
    ensures r.Success? && r.value.Some? ==> r.value == Stored(entries, c, k)
    ensures r.Failure? ==> cfg.errorHandler.Rethrowing?
    ensures cfg.handler.NullHandler? ==> r == Handle(cfg, None, NullPointer)
    ensures cfg.handler.DelegatingHandler? && c in cfg.broken ==> r == Handle(cfg, None, CacheFailure(c))
  {
    if cfg.handler.NullHandler? then Handle(cfg, None, NullPointer)
    else if c in cfg.broken then Handle(cfg, None, CacheFailure(c))
    else Success(Stored(entries, c, k))
  }

  /** `doPut`: a write through the handler; any failure goes to the error handler. */
  function DoPut(cfg: Config, entries: Entries, c: CacheId, k: Value, v: Value): (s: Step<()>)
    ensures cfg.handler.DelegatingHandler? && c !in cfg.broken ==> s == Step(Store(entries, c, k, v), Success(()))
    ensures !(cfg.handler.DelegatingHandler? && c !in cfg.broken) ==> s.entries == entries
    ensures s.result.Failure? ==> cfg.errorHandler.Rethrowing?
    ensures cfg.handler.NullHandler? ==> s.result == Handle(cfg, (), NullPointer)
    ensures cfg.handler.DelegatingHandler? && c in cfg.broken ==> s.result == Handle(cfg, (), CacheFailure(c))
  {
    if cfg.handler.NullHandler? then Step(entries, Handle(cfg, (), NullPointer))
    else if c in cfg.broken then Step(entries, Handle(cfg, (), CacheFailure(c)))
    else Step(Store(entries, c, k, v), Success(()))
  }

  /** `doEvict`: straight to the cache, not through the handler; a failure goes to the error handler. */
  function DoEvict(cfg: Config, entries: Entries, c: CacheId, k: Value): (s: Step<()>)
    ensures c !in cfg.broken ==> s == Step(Evicted(entries, c, k), Success(()))
    ensures c in cfg.broken ==> s == Step(entries, Handle(cfg, (), CacheFailure(c)))
  {
    if c in cfg.broken then Step(entries, Handle(cfg, (), CacheFailure(c)))
    else Step(Evicted(entries, c, k), Success(()))
  }

  /** `doClear`: straight to the cache; a failure goes to the error handler. */
  function DoClear(cfg: Config, entries: Entries, c: CacheId): (s: Step<()>)
    ensures c !in cfg.broken ==> s == Step(Cleared(entries, c), Success(()))
    ensures c in cfg.broken ==> s == Step(entries, Handle(cfg, (), CacheFailure(c)))
  {
    if c in cfg.broken then Step(entries, Handle(cfg, (), CacheFailure(c)))
    else Step(Cleared(entries, c), Success(()))
  }

  // ---------------------------------------------------------------- the operation context

  /** `isConditionPassing`: an operation without a condition always passes. */
  function ConditionPassing(inv: Invocation, op: CacheOperation, result: ResultArg): (r: Result<bool, Exception>)
    ensures !HasText(op.common.condition) ==> r == Success(true)
    ensures HasText(op.common.condition) ==> r == inv.condition(op, result)
  {
    if HasText(op.common.condition) then inv.condition(op, result) else Success(true)
  }

  /** `canPutToCache`: allowed unless the operation's `unless` expression holds of the value. */
  function CanPutToCache(inv: Invocation, op: CacheOperation, value: Value): (r: Result<bool, Exception>)
    ensures !HasText(UnlessOf(op)) ==> r == Success(true)
    ensures HasText(UnlessOf(op)) && inv.unless(op, value).Success? ==> r == Success(!inv.unless(op, value).value)
    ensures HasText(UnlessOf(op)) && inv.unless(op, value).Failure? ==> r == Failure(inv.unless(op, value).error)
  {
    if !HasText(UnlessOf(op)) then Success(true)
    else
      var unless :- inv.unless(op, value);
      Success(!unless)
  }

  // ---------------------------------------------------------------- keys, values, the invoker

  /** `generateKey`: the context's key, a null one raising an `IllegalArgumentException`. */
  function GenerateKey(inv: Invocation, op: CacheOperation, result: ResultArg): (k: Result<Value, Exception>)
    ensures k.Success? <==> inv.key(op, result).Success? && inv.key(op, result).value != Null
    ensures k.Success? ==> k == inv.key(op, result)
    ensures inv.key(op, result) == Success(Null) ==> k == Failure(IllegalArgument(NullKey))
    ensures inv.key(op, result).Failure? ==> k == inv.key(op, result)
  {
    var key :- inv.key(op, result);
    if key == Null then Failure(IllegalArgument(NullKey)) else Success(key)
  }

  /** `wrapCacheValue`: a method returning `Optional` gets a non-`Optional` cached value wrapped. */
  function WrapCacheValue(m: MethodRef, cacheValue: Value): Value {
    if m.returnsOptional && !cacheValue.Optional? then Optional(cacheValue) else cacheValue
  }

  /** `unwrapReturnValue`: an `Optional` is unwrapped, the empty one to null; nesting is refused. */
  function UnwrapReturnValue(returnValue: Value): Result<Value, Exception> {
    if !returnValue.Optional? then Success(returnValue)
    else if returnValue.content == Null then Success(Null)
    else if returnValue.content.Optional? then Failure(IllegalArgument(NestedOptional))
    else Success(returnValue.content)
  }

  /** The underlying method's outcome as the invoker reports it: a throwable arrives wrapped. */
  function Invoked(outcome: Result<Value, Throwable>): (r: Result<Value, Exception>)
    ensures outcome.Success? <==> r.Success?
    ensures outcome.Success? ==> r.value == outcome.value
    ensures outcome.Failure? ==> r.error == Thrown(outcome.error)
  {
    match outcome
    case Success(v) => Success(v)
    case Failure(t) => Failure(Thrown(t))
  }

  // ---------------------------------------------------------------- contexts and the sync flag

  type ContextMap = map<OperationClass, seq<OperationContext>>

  /** `CacheOperationContexts.get`: the contexts registered under a class, or none. */
  function Get(m: ContextMap, cls: OperationClass): (r: seq<OperationContext>)
    ensures cls !in m ==> r == []
  {
    if cls in m then m[cls] else []
  }

  /** `MultiValueMap.add`. */
  function Add(m: ContextMap, cls: OperationClass, c: OperationContext): (r: ContextMap)
    ensures Get(r, cls) == Get(m, cls) + [c]
    ensures forall other :: other != cls ==> Get(r, other) == Get(m, other)
    ensures r.Keys == m.Keys + {cls}
  {
    m[cls := Get(m, cls) + [c]]
  }

  /** The base class a Cacheable or CachePut context is first registered under. */
  function BaseClassOf(op: CacheOperation): Option<OperationClass> {
    if op.Cacheable? then Some(CacheableOperationClass)
    else if op.CachePut? then Some(CachePutOperationClass)
    else None
  }

  /** The contexts one operation registers: under its base class (if any), then under its own class. */
  function RegisterOne(m: ContextMap, ctx: OperationContext): ContextMap {
    var op := ctx.operation;
    var withBase := if BaseClassOf(op).Some? then Add(m, BaseClassOf(op).value, ctx) else m;
    Add(withBase, ClassOf(op), ctx)
  }

  /** The `CacheOperationContexts` constructor's loop: each operation resolves its caches and registers. */
  function RegisterFrom(inv: Invocation, ops: seq<CacheOperation>, m: ContextMap): Result<ContextMap, Exception>
    decreases |ops|
  {
    if |ops| == 0 then Success(m)
    else
      var caches :- inv.caches(ops[0]);
      RegisterFrom(inv, ops[1..], RegisterOne(m, OperationContext(ops[0], caches)))
  }

  function Register(inv: Invocation, ops: seq<CacheOperation>): Result<ContextMap, Exception> {
    RegisterFrom(inv, ops, map[])
  }

  predicate IsSync(op: CacheOperation) {
    op.Cacheable? && op.sync
  }

  /** `determineSyncFlag`, its checks in the source's order. */
  function SyncFlag(m: ContextMap): Result<bool, Exception>
  {
    if CacheableOperationClass !in m then Success(false)
    else
      var cs := m[CacheableOperationClass];
      if !(exists i :: 0 <= i < |cs| && IsSync(cs[i].operation)) then Success(false)
      else if |m| > 1 then Failure(IllegalState(SyncCombined))
      else if |cs| > 1 then Failure(IllegalState(SyncMultipleEntries))
      else if |cs[0].caches| > 1 then Failure(IllegalState(SyncMultipleCaches))
      else if HasText(UnlessOf(cs[0].operation)) then Failure(IllegalState(SyncWithUnless))
      else Success(true)
  }

  /** `CacheOperationContexts`: the registered contexts and the sync flag. */
  datatype Contexts = Contexts(byClass: ContextMap, sync: bool)

  function BuildContexts(inv: Invocation, ops: seq<CacheOperation>): Result<Contexts, Exception> {
    var m :- Register(inv, ops);
    var sync :- SyncFlag(m);
    Success(Contexts(m, sync))
  }

  // ---------------------------------------------------------------- lookup

  /** `findInCaches`: the first cache, in order, whose lookup yields a wrapper. */
  function FindInCaches(cfg: Config, entries: Entries, caches: seq<CacheId>, key: Value): Result<Option<Value>, Exception>
    decreases |caches|
  {
    if |caches| == 0 then Success(None)
    else
      var wrapper :- DoGet(cfg, entries, caches[0], key);
      if wrapper.Some? then Success(wrapper) else FindInCaches(cfg, entries, caches[1..], key)
  }

  /** `findCachedItem`: the Cacheable contexts in order, those whose condition fails skipped. */
  function FindCachedItem(cfg: Config, inv: Invocation, entries: Entries, ctxs: seq<OperationContext>): Result<Option<Value>, Exception>
    decreases |ctxs|
  {
    if |ctxs| == 0 then Success(None)
    else
      var passing :- ConditionPassing(inv, ctxs[0].operation, NoResult);
      if !passing then FindCachedItem(cfg, inv, entries, ctxs[1..])
      else
        var key :- GenerateKey(inv, ctxs[0].operation, NoResult);
        var cached :- FindInCaches(cfg, entries, ctxs[0].caches, key);
        if cached.Some? then Success(cached) else FindCachedItem(cfg, inv, entries, ctxs[1..])
  }

  // ---------------------------------------------------------------- puts

  /** `collectPutRequests`: appends a request for each context whose condition passes. */
  function CollectPutRequests(inv: Invocation, ctxs: seq<OperationContext>, result: ResultArg, acc: seq<PutRequest>)
    : Result<seq<PutRequest>, Exception>
    decreases |ctxs|
  {
    if |ctxs| == 0 then Success(acc)
    else
      var passing :- ConditionPassing(inv, ctxs[0].operation, result);
      if !passing then CollectPutRequests(inv, ctxs[1..], result, acc)
      else
        var key :- GenerateKey(inv, ctxs[0].operation, result);
        CollectPutRequests(inv, ctxs[1..], result, acc + [PutRequest(ctxs[0], key)])
  }

  /**
   * Whether `hasCachePut` counts a CachePut context as excluded: its condition,
   * evaluated with the result unavailable, is false. Only this project's
   * `VariableNotAvailableException` is caught and then does not exclude; any
   * other failure propagates, Spring's exception of the same name included.
   */
  function IsExcluded(inv: Invocation, ctx: OperationContext): Result<bool, Exception> {
    match ConditionPassing(inv, ctx.operation, ResultUnavailable)
    case Success(passing) => Success(!passing)
    case Failure(e) => if e.VariableNotAvailable? then Success(false) else Failure(e)
  }

  /**
   * `IsExcluded` as its comment intends: a condition that needs the missing
   * result does not exclude, whichever evaluator raised the exception.
   */
  function IsExcludedIntended(inv: Invocation, ctx: OperationContext): (r: Result<bool, Exception>)
    ensures var c := ConditionPassing(inv, ctx.operation, ResultUnavailable);
      && (c.Success? ==> r == Success(!c.value))
      && (c.Failure? && (c.error.VariableNotAvailable? || c.error.SpringVariableNotAvailable?) ==> r == Success(false))
      && (c.Failure? && !c.error.VariableNotAvailable? && !c.error.SpringVariableNotAvailable? ==> r == Failure(c.error))
  {
    match ConditionPassing(inv, ctx.operation, ResultUnavailable)
    case Success(passing) => Success(!passing)
    case Failure(e) =>
      if e.VariableNotAvailable? || e.SpringVariableNotAvailable? then Success(false) else Failure(e)
  }

  /** The `excluded` list `hasCachePut` builds. */
  function ExcludedContexts(inv: Invocation, ctxs: seq<OperationContext>, acc: seq<OperationContext>)
    : Result<seq<OperationContext>, Exception>
    decreases |ctxs|
  {
    if |ctxs| == 0 then Success(acc)
    else
      var excluded :- IsExcluded(inv, ctxs[0]);
      ExcludedContexts(inv, ctxs[1..], if excluded then acc + [ctxs[0]] else acc)
  }

  /** `hasCachePut`: not every CachePut context is excluded. */
  function HasCachePut(inv: Invocation, ctxs: seq<OperationContext>): Result<bool, Exception> {
    var excluded :- ExcludedContexts(inv, ctxs, []);
    Success(|ctxs| != |excluded|)
  }

  /** Writes the value under the key to each cache in order. */
  function PutToCaches(cfg: Config, entries: Entries, caches: seq<CacheId>, key: Value, value: Value): Step<()>
    decreases |caches|
  {
    if |caches| == 0 then Step(entries, Success(()))
    else
      var s := DoPut(cfg, entries, caches[0], key, value);
      if s.result.Failure? then s else PutToCaches(cfg, s.entries, caches[1..], key, value)
  }

  /** `CachePutRequest.apply`: writes to every cache of the context iff the value may be cached. */
  function ApplyPut(cfg: Config, inv: Invocation, entries: Entries, request: PutRequest, value: Value): Step<()> {
    var canPut := CanPutToCache(inv, request.context.operation, value);
    if canPut.Failure? then Step(entries, Failure(canPut.error))
    else if !canPut.value then Step(entries, Success(()))
    else PutToCaches(cfg, entries, request.context.caches, request.key, value)
  }

  /** The staged requests applied in list order. */
  function ApplyAll(cfg: Config, inv: Invocation, entries: Entries, requests: seq<PutRequest>, value: Value): Step<()>
    decreases |requests|
  {
    if |requests| == 0 then Step(entries, Success(()))
    else
      var s := ApplyPut(cfg, inv, entries, requests[0], value);
      if s.result.Failure? then s else ApplyAll(cfg, inv, s.entries, requests[1..], value)
  }

  /** Helper: one request applied, then the rest, which is how a loop over the requests advances. */
  lemma ApplyAllFirst(cfg: Config, inv: Invocation, entries: Entries, requests: seq<PutRequest>, value: Value)
    requires |requests| > 0
    ensures var s := ApplyPut(cfg, inv, entries, requests[0], value);
      ApplyAll(cfg, inv, entries, requests, value)
      == if s.result.Failure? then s else ApplyAll(cfg, inv, s.entries, requests[1..], value)
  {
  }

  // ---------------------------------------------------------------- evictions

  predicate IsCacheWide(op: CacheOperation) {
    op.CacheEvict? && op.cacheWide
  }

  predicate IsBeforeInvocation(op: CacheOperation) {
    op.CacheEvict? && op.beforeInvocation
  }

  /**
   * `performCacheEvict`: clears each cache for a cache-wide eviction;
   * otherwise evicts `key` from each, computing it (with no null check)
   * whenever it is still null.
   */
  function PerformEvict(cfg: Config, inv: Invocation, entries: Entries, op: CacheOperation, caches: seq<CacheId>,
                        result: ResultArg, key: Value): Step<()>
    decreases |caches|
  {
    if |caches| == 0 then Step(entries, Success(()))
    else if IsCacheWide(op) then
      var s := DoClear(cfg, entries, caches[0]);
      if s.result.Failure? then s else PerformEvict(cfg, inv, s.entries, op, caches[1..], result, key)
    else
      var k := if key == Null then inv.key(op, result) else Success(key);
      if k.Failure? then Step(entries, Failure(k.error))
      else
        var s := DoEvict(cfg, entries, caches[0], k.value);
        if s.result.Failure? then s else PerformEvict(cfg, inv, s.entries, op, caches[1..], result, k.value)
  }

  /** How many times `performCacheEvict` computes the key. */
  function KeyComputations(cfg: Config, inv: Invocation, entries: Entries, op: CacheOperation, caches: seq<CacheId>,
                           result: ResultArg, key: Value): nat
    decreases |caches|
  {
    if |caches| == 0 then 0
    else if IsCacheWide(op) then
      var s := DoClear(cfg, entries, caches[0]);
      if s.result.Failure? then 0 else KeyComputations(cfg, inv, s.entries, op, caches[1..], result, key)
    else
      var k := if key == Null then inv.key(op, result) else Success(key);
      var here := if key == Null then 1 else 0;
      if k.Failure? then here
      else
        var s := DoEvict(cfg, entries, caches[0], k.value);
        if s.result.Failure? then here else here + KeyComputations(cfg, inv, s.entries, op, caches[1..], result, k.value)
  }

  /** `processCacheEvicts`: the evictions of this phase whose condition passes, in order. */
  function ProcessEvicts(cfg: Config, inv: Invocation, entries: Entries, ctxs: seq<OperationContext>,
                         beforeInvocation: bool, result: ResultArg): Step<()>
    decreases |ctxs|
  {
    if |ctxs| == 0 then Step(entries, Success(()))
    else if beforeInvocation != IsBeforeInvocation(ctxs[0].operation) then
      ProcessEvicts(cfg, inv, entries, ctxs[1..], beforeInvocation, result)
    else
      var passing := ConditionPassing(inv, ctxs[0].operation, result);
      if passing.Failure? then Step(entries, Failure(passing.error))
      else if !passing.value then ProcessEvicts(cfg, inv, entries, ctxs[1..], beforeInvocation, result)
      else
        var s := PerformEvict(cfg, inv, entries, ctxs[0].operation, ctxs[0].caches, result, Null);
        if s.result.Failure? then s else ProcessEvicts(cfg, inv, s.entries, ctxs[1..], beforeInvocation, result)
  }

  // ---------------------------------------------------------------- the two paths

  /** What a call does: the caches afterwards, what it returns or throws, how often the method ran. */
  datatype Outcome = Outcome(entries: Entries, ret: Result<Value, Exception>, invocations: nat)

  /**
   * The end of the standard path with the final value known: explicit puts
   * are staged after the miss-puts, all are applied, then the late evictions run.
   */
  function Finish(cfg: Config, inv: Invocation, ctxs: Contexts, entries: Entries, staged: seq<PutRequest>,
                  cacheValue: Value, returnValue: Value, invocations: nat): Outcome
  {
    var requests := CollectPutRequests(inv, Get(ctxs.byClass, CachePutOperationClass), Result(cacheValue), staged);
    if requests.Failure? then Outcome(entries, Failure(requests.error), invocations)
    else
      var applied := ApplyAll(cfg, inv, entries, requests.value, cacheValue);
      if applied.result.Failure? then Outcome(applied.entries, Failure(applied.result.error), invocations)
      else
        var late := ProcessEvicts(cfg, inv, applied.entries, Get(ctxs.byClass, CacheEvictOperationClass), false, Result(cacheValue));
        if late.result.Failure? then Outcome(late.entries, Failure(late.result.error), invocations)
        else Outcome(late.entries, Success(returnValue), invocations)
  }

  /** Whether the method must run: unless there is a hit, nothing staged and no applicable CachePut. */
  function MustInvoke(inv: Invocation, ctxs: Contexts, hit: Option<Value>, staged: seq<PutRequest>): Result<bool, Exception> {
    if hit.Some? && |staged| == 0 then
      var hasPut :- HasCachePut(inv, Get(ctxs.byClass, CachePutOperationClass));
      Success(hasPut)
    else Success(true)
  }

  /** The standard path, after the early evictions. */
  function AfterEarlyEvicts(cfg: Config, inv: Invocation, outcome: Result<Value, Throwable>, ctxs: Contexts, entries: Entries): Outcome
  {
    var cacheables := Get(ctxs.byClass, CacheableOperationClass);
    var hit := FindCachedItem(cfg, inv, entries, cacheables);
    if hit.Failure? then Outcome(entries, Failure(hit.error), 0)
    else
      var staged := if hit.value.None? then CollectPutRequests(inv, cacheables, NoResult, []) else Success([]);
      if staged.Failure? then Outcome(entries, Failure(staged.error), 0)
      else
        var must := MustInvoke(inv, ctxs, hit.value, staged.value);
        if must.Failure? then Outcome(entries, Failure(must.error), 0)
        else if !must.value then
          Finish(cfg, inv, ctxs, entries, staged.value, hit.value.value, WrapCacheValue(inv.methodRef, hit.value.value), 0)
        else
          var returned := Invoked(outcome);
          if returned.Failure? then Outcome(entries, returned, 1)
          else
            var cacheValue := UnwrapReturnValue(returned.value);
            if cacheValue.Failure? then Outcome(entries, Failure(cacheValue.error), 1)
            else Finish(cfg, inv, ctxs, entries, staged.value, cacheValue.value, returned.value, 1)
  }

  /** The standard path. */
  function StandardPath(cfg: Config, inv: Invocation, outcome: Result<Value, Throwable>, ctxs: Contexts, entries: Entries): Outcome
  {
    var early := ProcessEvicts(cfg, inv, entries, Get(ctxs.byClass, CacheEvictOperationClass), true, NoResult);
    if early.result.Failure? then Outcome(early.entries, Failure(early.result.error), 0)
    else AfterEarlyEvicts(cfg, inv, outcome, ctxs, early.entries)
  }

  /**
   * The synchronised path: one Cacheable context and one cache, read with a
   * loader that runs the method. A loader failure is rethrown as its cause:
   * the invoker's wrapped throwable as is, anything else failing the cast.
   */
  function SyncPath(cfg: Config, inv: Invocation, outcome: Result<Value, Throwable>, ctxs: Contexts, entries: Entries): Outcome
  {
    var cacheables := Get(ctxs.byClass, CacheableOperationClass);
    if |cacheables| == 0 then Outcome(entries, Failure(NoSuchElement), 0)
    else
      var ctx := cacheables[0];
      var passing := ConditionPassing(inv, ctx.operation, NoResult);
      if passing.Failure? then Outcome(entries, Failure(passing.error), 0)
      else if !passing.value then Outcome(entries, Invoked(outcome), 1)
      else
        var key := GenerateKey(inv, ctx.operation, NoResult);
        if key.Failure? then Outcome(entries, Failure(key.error), 0)
        else if |ctx.caches| == 0 then Outcome(entries, Failure(NoSuchElement), 0)
        else
          var cache := ctx.caches[0];
          if cfg.handler.NullHandler? then Outcome(entries, Failure(NullPointer), 0)
          else if cache in cfg.broken then Outcome(entries, Failure(CacheFailure(cache)), 0)
          else if Stored(entries, cache, key.value).Some? then
            Outcome(entries, Success(WrapCacheValue(inv.methodRef, Stored(entries, cache, key.value).value)), 0)
          else
            var returned := Invoked(outcome);
            if returned.Failure? then Outcome(entries, returned, 1)
            else
              var loaded := UnwrapReturnValue(returned.value);
              if loaded.Failure? then Outcome(entries, Failure(ClassCast), 1)
              else Outcome(Store(entries, cache, key.value, loaded.value), Success(WrapCacheValue(inv.methodRef, loaded.value)), 1)
  }

  /** `execute`: caching applies only once initialised and when the method has operations. */
  function Execute(initialized: bool, cfg: Config, inv: Invocation, outcome: Result<Value, Throwable>, entries: Entries): Outcome
  {
    if initialized && inv.operations.Some? && |inv.operations.value| > 0 then
      var ctxs := BuildContexts(inv, inv.operations.value);
      if ctxs.Failure? then Outcome(entries, Failure(ctxs.error), 0)
      else if ctxs.value.sync then SyncPath(cfg, inv, outcome, ctxs.value, entries)
      else StandardPath(cfg, inv, outcome, ctxs.value, entries)
    else Outcome(entries, Invoked(outcome), 1)
  }

  // ---------------------------------------------------------------- operation metadata

  datatype KeyGeneratorChoice = NamedKeyGenerator(bean: string) | DefaultKeyGenerator
  datatype ResolverChoice = NamedResolver(bean: string) | ManagerResolver(manager: string) | DefaultResolver

  /** `CacheOperationCacheKey`: an operation on a method of a target class. */
  datatype OperationKey = OperationKey(operation: CacheOperation, element: ElementKey)

  /** `CacheOperationMetadata`: the key generator and cache resolver chosen for an operation. */
  datatype OperationMetadata = OperationMetadata(key: OperationKey, keyGenerator: KeyGeneratorChoice, cacheResolver: ResolverChoice)

  /**
   * The metadata `getCacheOperationMetadata` computes: a named key generator
   * if one is given, else the default; a named resolver first, then a
   * resolver over a named manager, then the default resolver.
   */
  function MetadataOf(k: OperationKey): (md: OperationMetadata)
    ensures md.key == k
    ensures md.keyGenerator.NamedKeyGenerator? <==> HasText(k.operation.common.keyGenerator)
    ensures md.keyGenerator.NamedKeyGenerator? ==> md.keyGenerator.bean == k.operation.common.keyGenerator
    ensures md.cacheResolver.NamedResolver? <==> HasText(k.operation.common.cacheResolver)
    ensures md.cacheResolver.ManagerResolver? <==>
      !HasText(k.operation.common.cacheResolver) && HasText(k.operation.common.cacheManager)
    ensures md.cacheResolver.NamedResolver? ==> md.cacheResolver.bean == k.operation.common.cacheResolver
    ensures md.cacheResolver.ManagerResolver? ==> md.cacheResolver.manager == k.operation.common.cacheManager
  {
    var op := k.operation;
    var keyGenerator := if HasText(op.common.keyGenerator) then NamedKeyGenerator(op.common.keyGenerator) else DefaultKeyGenerator;
    var resolver :=
      if HasText(op.common.cacheResolver) then NamedResolver(op.common.cacheResolver)
      else if HasText(op.common.cacheManager) then ManagerResolver(op.common.cacheManager)
      else DefaultResolver;
    OperationMetadata(k, keyGenerator, resolver)
  }

  /** `CacheOperationCacheKey.compareTo`: by operation name, then by method, then by target class. */
  function CompareKeys(a: OperationKey, b: OperationKey): int {
    var byName := CompareTo(a.operation.common.name, b.operation.common.name);
    if byName != 0 then byName
    else
      var byMethod := CompareTo(a.element.element.text, b.element.element.text);
      if byMethod != 0 then byMethod
      else CompareTo(a.element.targetClass.name, b.element.targetClass.name)
  }
}
