# spring-cache-support, modelled in Dafny

This project models the core of spring-cache-support. The library extends Spring's
annotation-driven caching with time-to-live annotations (`@ExpireableCacheable`,
`@ExpireableCachePut`, `@ExpireableCaching`) and a cache interceptor that routes cache
reads and writes through a pluggable `CacheHandler`. The model covers six parts of the core:

- **annotation_parser.dfy** (`ExpireableCacheAnnotationParser`): turns annotations into cache
  operations. The parser builds a put annotation as an `ExpireableCacheableOperation` with
  no time-to-live, and the model keeps that.
- **expireable_cacheable_operation.dfy** and **expireable_cache_put_operation.dfy**: the two
  operation classes and their builders.
- **cache_utils.dfy** (`CacheUtils`): the description suffix ` | expire='…' | timeUnit='…'`.
  A decoder proves the suffix determines the expire value and the unit.
- **redis_cache_resolver.dfy** (`DataRedisCacheResolver`): resolves cache names. With a Redis
  manager and an expireable operation, it also writes the expire, in seconds, into the
  manager's `expires` table.
- **expression_evaluator.dfy** (`CacheOperationExpressionEvaluator`): the evaluation-context
  factory, its memo maps and the unavailable-variable context. SpEL itself is a parameter.
- **cache_invocation.dfy** and **cache_interceptor.dfy** (`CustomableCacheInterceptor`):
  - cache_invocation.dfy is a value-level specification of one interception: the context map
    and its sync flag, early and late evictions, the cache lookup, put requests and
    `unless`, the decision to invoke, and the synchronized path.
  - cache_interceptor.dfy is the imperative interceptor class. It has the metadata cache and
    the `initialized` flag, and its loop methods are proved equal to that specification.
  - The cache backend is a map from cache to entries, held in a `CacheStore` object.
  - The invoked method is an `Invoker` object that counts its calls.

interceptor_properties.dfy and resolution_properties.dfy hold the lemmas that relate these
pieces.

The model follows the code wherever the code and its documentation differ:

- **Every Cacheable and CachePut context is registered twice.** The `CacheOperationContexts`
  constructor registers such a context under its base class and then again under its runtime
  class. A plain `Cacheable` is stored twice under `CacheableOperation`. A `CacheEvict` context
  matches neither base-class test, so it is registered once, under its runtime class only
  (`EvictRegisteredOnce`). Since only a `Cacheable` can be synchronized, `determineSyncFlag`
  can never return true for contexts built by the constructor:
  - one sync operation gives two entries, or two keys when the operation is expireable;
  - so the synchronized path cannot be reached from `execute`.
  
  `SyncNeverEnabled` and `SyncOperationRejected` prove this. The synchronized path itself is
  still modelled and proved.
- **The eviction key is recomputed while it is null.** `performCacheEvict` computes the key
  lazily, once per cache, for as long as it is still `null`. `KeyComputations` counts the
  computations.
- **A put annotation fails on Redis.** A parsed `@ExpireableCachePut` carries no time unit. With
  a Redis manager, `TimeUnit.SECONDS.convert` therefore throws a `NullPointerException`
  (`PutAnnotationFailsOnRedis`).
- **The sync loader's cast can fail.** In the synchronized path the loader's exception is cast to
  `ThrowableWrapper`. An exception from `unwrapReturnValue` inside the loader is not such a
  wrapper, so the model gives `ClassCastException` there (`SyncMissLoads`).
- **A CachePut condition that reads `result` makes a hit throw.** Conditions are evaluated by
  Spring's evaluator, which raises Spring's own `VariableNotAvailableException`. `hasCachePut`
  catches the project's class of the same name instead. On a cache hit with nothing staged, a
  CachePut condition that reads `result` therefore escapes `execute` (see "## Findings").

## Model

| member | source | states |
|---|---|---|
| Lang.ConvertToSeconds | src/main/java/com/youmu/maven/springframework/cache/support/redis/DataRedisCacheResolver.java:41-42 | a null unit throws NullPointerException and nothing else does; seconds are returned unchanged |
| Lang.ConvertCoarseExact | src/main/java/com/youmu/maven/springframework/cache/support/redis/DataRedisCacheResolver.java:41-42 | minutes, hours and days scale exactly by 60, 3600 and 86400, negative durations included, whenever the magnitude is at most Long.MAX_VALUE divided by that ratio |
| Lang.ConvertCoarseSaturates | src/main/java/com/youmu/maven/springframework/cache/support/redis/DataRedisCacheResolver.java:41-42 | above that bound the conversion gives Long.MAX_VALUE, below its negation Long.MIN_VALUE |
| Lang.ConvertFineShrinks | src/main/java/com/youmu/maven/springframework/cache/support/redis/DataRedisCacheResolver.java:41-42 | finer units give the quotient by 10^9, 10^6 or 1000 truncated toward zero: s·m ≤ d < s·m + m for d ≥ 0 and s·m − m < d ≤ s·m for d < 0, keeping the sign and never growing the magnitude |
| Lang.Dedup | src/main/java/com/youmu/maven/springframework/cache/parser/ExpireableCacheAnnotationParser.java:101 | the cache-name set keeps exactly the given names, without duplicates |
| Lang.FirstOccurrencesSnoc | src/main/java/com/youmu/maven/springframework/cache/parser/ExpireableCacheAnnotationParser.java:101 | adding one more name to the set appends it exactly when it is not already present |
| Lang.DedupKeepsFirstOccurrences | src/main/java/com/youmu/maven/springframework/cache/parser/ExpireableCacheAnnotationParser.java:101 | the set is the first occurrence of each name in the order of first occurrence, as a LinkedHashSet keeps them |
| Lang.DedupOfDistinct | src/main/java/com/youmu/maven/springframework/cache/parser/ExpireableCacheAnnotationParser.java:101 | names that are already distinct are kept in their order |
| Lang.CharUnits | src/main/java/com/youmu/maven/springframework/cache/interceptor/CustomableCacheInterceptor.java:581-587 | a character below U+10000 is one code unit; any other is a high surrogate followed by a low surrogate |
| Lang.CharUnitsPrefixFree | src/main/java/com/youmu/maven/springframework/cache/interceptor/CustomableCacheInterceptor.java:581-587 | no character's UTF-16 encoding is a prefix of another's, so equal encodings with their continuations mean equal characters |
| Lang.CodeUnitsInjective | src/main/java/com/youmu/maven/springframework/cache/interceptor/CustomableCacheInterceptor.java:581-587 | strings with the same UTF-16 code units are equal |
| Lang.CompareUnitsAntisymmetric | src/main/java/com/youmu/maven/springframework/cache/interceptor/CustomableCacheInterceptor.java:581-587 | code-unit comparison is antisymmetric |
| Lang.CompareUnitsZeroIffEqual | src/main/java/com/youmu/maven/springframework/cache/interceptor/CustomableCacheInterceptor.java:581-587 | code-unit comparison is zero exactly for equal unit sequences |
| Lang.CompareToAntisymmetric | src/main/java/com/youmu/maven/springframework/cache/interceptor/CustomableCacheInterceptor.java:581-587 | string comparison is antisymmetric |
| Lang.CompareToZeroIffEqual | src/main/java/com/youmu/maven/springframework/cache/interceptor/CustomableCacheInterceptor.java:581-587 | string comparison is zero exactly for equal strings |
| Lang.CompareToByCodeUnits | src/main/java/com/youmu/maven/springframework/cache/interceptor/CustomableCacheInterceptor.java:581-587 | strings compare by UTF-16 code units, not code points: U+FFFF sorts after U+1F600 |
| Operations.ClassOf | src/main/java/com/youmu/maven/springframework/cache/interceptor/CustomableCacheInterceptor.java:413-427 | an operation's runtime class is one of the two expireable classes iff it carries a time-to-live |
| CacheUtils.StringBuilder.Append | src/main/java/com/youmu/maven/springframework/cache/utils/CacheUtils.java:15-20 | appending extends the content by exactly the text |
| CacheUtils.AddExpireableDesc | src/main/java/com/youmu/maven/springframework/cache/utils/CacheUtils.java:12-22 | a null builder is replaced by a fresh one; the builder ends with the expire and unit suffix appended to its old content |
| CacheUtils.NatTextRoundTrip | src/main/java/com/youmu/maven/springframework/cache/utils/CacheUtils.java:16 | the decimal digits of a natural read back to the number |
| CacheUtils.LongTextRoundTrip | src/main/java/com/youmu/maven/springframework/cache/utils/CacheUtils.java:16 | the appended long, sign included, parses back to the same long |
| CacheUtils.UnitTextRoundTrip | src/main/java/com/youmu/maven/springframework/cache/utils/CacheUtils.java:19 | the appended unit name, or `null`, reads back to the same unit |
| CacheUtils.DecodeExpireableDescRoundTrip | src/main/java/com/youmu/maven/springframework/cache/utils/CacheUtils.java:12-22 | the suffix decodes to exactly the expire value and unit it was built from |
| ExpireableCacheableOperations.Builder.constructor | src/main/java/com/youmu/maven/springframework/cache/ExpireableCacheableOperation.java:35-39 | a new builder has empty attributes, expire 0 and a null unit |
| ExpireableCacheableOperations.Builder.SetExpire | src/main/java/com/youmu/maven/springframework/cache/ExpireableCacheableOperation.java:41-43 | sets the expire and nothing else |
| ExpireableCacheableOperations.Builder.SetTimeUnit | src/main/java/com/youmu/maven/springframework/cache/ExpireableCacheableOperation.java:45-47 | sets the unit and nothing else |
| ExpireableCacheableOperations.Builder.SetCacheNames | src/main/java/com/youmu/maven/springframework/cache/parser/ExpireableCacheAnnotationParser.java:101 | the names become the first occurrences of the given names, in order, as an insertion-ordered set; other fields are kept |
| ExpireableCacheableOperations.Builder.SetName | src/main/java/com/youmu/maven/springframework/cache/parser/ExpireableCacheAnnotationParser.java:100 | sets the operation name and nothing else |
| ExpireableCacheableOperations.Builder.SetCondition | src/main/java/com/youmu/maven/springframework/cache/parser/ExpireableCacheAnnotationParser.java:102 | sets the condition and nothing else |
| ExpireableCacheableOperations.Builder.SetUnless | src/main/java/com/youmu/maven/springframework/cache/parser/ExpireableCacheAnnotationParser.java:103 | sets the unless expression and nothing else |
| ExpireableCacheableOperations.Builder.SetKey | src/main/java/com/youmu/maven/springframework/cache/parser/ExpireableCacheAnnotationParser.java:104 | sets the key expression and nothing else |
| ExpireableCacheableOperations.Builder.SetKeyGenerator | src/main/java/com/youmu/maven/springframework/cache/parser/ExpireableCacheAnnotationParser.java:105 | sets the key generator name and nothing else |
| ExpireableCacheableOperations.Builder.SetCacheManager | src/main/java/com/youmu/maven/springframework/cache/parser/ExpireableCacheAnnotationParser.java:106 | sets the cache manager name and nothing else |
| ExpireableCacheableOperations.Builder.SetCacheResolver | src/main/java/com/youmu/maven/springframework/cache/parser/ExpireableCacheAnnotationParser.java:107 | sets the cache resolver name and nothing else |
| ExpireableCacheableOperations.Builder.SetSync | src/main/java/com/youmu/maven/springframework/cache/parser/ExpireableCacheAnnotationParser.java:108 | sets the sync flag and nothing else |
| ExpireableCacheableOperations.Builder.GetOperationDescription | src/main/java/com/youmu/maven/springframework/cache/ExpireableCacheableOperation.java:49-53 | the base description gains the suffix, and that suffix decodes to the builder's expire and unit |
| ExpireableCacheableOperations.Builder.Build | src/main/java/com/youmu/maven/springframework/cache/ExpireableCacheableOperation.java:19-33 | the built operation is an expireable Cacheable that copies the builder's attributes, expire and unit |
| ExpireableCachePutOperations.Builder.constructor | src/main/java/com/youmu/maven/springframework/cache/ExpireableCachePutOperation.java:35-39 | a new builder has empty attributes, expire 0 and a null unit |
| ExpireableCachePutOperations.Builder.SetExpire | src/main/java/com/youmu/maven/springframework/cache/ExpireableCachePutOperation.java:41-43 | sets the expire and nothing else |
| ExpireableCachePutOperations.Builder.SetTimeUnit | src/main/java/com/youmu/maven/springframework/cache/ExpireableCachePutOperation.java:45-47 | sets the unit and nothing else |
| ExpireableCachePutOperations.Builder.SetCacheNames | src/main/java/com/youmu/maven/springframework/cache/ExpireableCachePutOperation.java:35 | the inherited setter: the names become the first occurrences of the given names, in order; other fields are kept |
| ExpireableCachePutOperations.Builder.SetName | src/main/java/com/youmu/maven/springframework/cache/ExpireableCachePutOperation.java:35 | the inherited setter: sets the operation name and nothing else |
| ExpireableCachePutOperations.Builder.SetCondition | src/main/java/com/youmu/maven/springframework/cache/ExpireableCachePutOperation.java:35 | the inherited setter: sets the condition and nothing else |
| ExpireableCachePutOperations.Builder.SetUnless | src/main/java/com/youmu/maven/springframework/cache/ExpireableCachePutOperation.java:35 | the inherited setter: sets the unless expression and nothing else |
| ExpireableCachePutOperations.Builder.SetKey | src/main/java/com/youmu/maven/springframework/cache/ExpireableCachePutOperation.java:35 | the inherited setter: sets the key expression and nothing else |
| ExpireableCachePutOperations.Builder.SetKeyGenerator | src/main/java/com/youmu/maven/springframework/cache/ExpireableCachePutOperation.java:35 | the inherited setter: sets the key generator name and nothing else |
| ExpireableCachePutOperations.Builder.SetCacheManager | src/main/java/com/youmu/maven/springframework/cache/ExpireableCachePutOperation.java:35 | the inherited setter: sets the cache manager name and nothing else |
| ExpireableCachePutOperations.Builder.SetCacheResolver | src/main/java/com/youmu/maven/springframework/cache/ExpireableCachePutOperation.java:35 | the inherited setter: sets the cache resolver name and nothing else |
| ExpireableCachePutOperations.Builder.GetOperationDescription | src/main/java/com/youmu/maven/springframework/cache/ExpireableCachePutOperation.java:49-53 | the base description gains the suffix, and that suffix decodes to the builder's expire and unit |
| ExpireableCachePutOperations.Builder.Build | src/main/java/com/youmu/maven/springframework/cache/ExpireableCachePutOperation.java:19-33 | the built operation is an expireable CachePut that copies the builder's attributes, expire and unit |
| ExpressionEvaluation.Memoised | src/main/java/com/youmu/maven/springframework/cache/interceptor/CacheOperationExpressionEvaluator.java:101-116 | an expression memo is left alone on a hit or a failed parse and gains exactly the parsed key otherwise, and stays a memo of successful parses |
| ExpressionEvaluation.MemoisedOnce | src/main/java/com/youmu/maven/springframework/cache/interceptor/CacheOperationExpressionEvaluator.java:101-116 | after a lookup the key is memoised iff its text parses, with that parse, and a second lookup changes nothing |
| ExpressionEvaluation.NewRootObject | src/main/java/com/youmu/maven/springframework/cache/interceptor/CacheOperationExpressionEvaluator.java:153-163 | a null method or a null target class is rejected with IllegalArgumentException; otherwise every argument is kept |
| ExpressionEvaluation.TargetMethodOf | src/main/java/com/youmu/maven/springframework/cache/interceptor/CacheOperationExpressionEvaluator.java:131-135 | the most specific method when there is one, or the method itself |
| ExpressionEvaluation.CacheEvaluationContext.constructor | src/main/java/com/youmu/maven/springframework/cache/interceptor/CacheOperationExpressionEvaluator.java:88-89 | a new context has no variables, no unavailable variables and no bean resolver |
| ExpressionEvaluation.CacheEvaluationContext.AddUnavailableVariable | src/main/java/com/youmu/maven/springframework/cache/interceptor/CacheOperationExpressionEvaluator.java:210-212 | the name becomes unavailable and looking it up then fails |
| ExpressionEvaluation.CacheEvaluationContext.SetVariable | src/main/java/com/youmu/maven/springframework/cache/interceptor/CacheOperationExpressionEvaluator.java:93 | binds one variable and leaves the rest of the context unchanged |
| ExpressionEvaluation.CacheEvaluationContext.SetBeanResolver | src/main/java/com/youmu/maven/springframework/cache/interceptor/CacheOperationExpressionEvaluator.java:95-97 | installs the bean resolver and leaves the rest of the context unchanged |
| ExpressionEvaluation.CacheEvaluationContext.LookupVariable | src/main/java/com/youmu/maven/springframework/cache/interceptor/CacheOperationExpressionEvaluator.java:218-223 | fails with VariableNotAvailable exactly for unavailable names; otherwise gives the bound value or null |
| ExpressionEvaluation.Evaluator.constructor | src/main/java/com/youmu/maven/springframework/cache/interceptor/CacheOperationExpressionEvaluator.java:45-55 | all four memo maps start empty |
| ExpressionEvaluation.Evaluator.Clear | src/main/java/com/youmu/maven/springframework/cache/interceptor/CacheOperationExpressionEvaluator.java:121-126 | all four memo maps become empty |
| ExpressionEvaluation.Evaluator.GetTargetMethod | src/main/java/com/youmu/maven/springframework/cache/interceptor/CacheOperationExpressionEvaluator.java:128-139 | gives the most specific method, or the method itself, and memoises exactly that key |
| ExpressionEvaluation.Evaluator.CreateEvaluationContext | src/main/java/com/youmu/maven/springframework/cache/interceptor/CacheOperationExpressionEvaluator.java:81-99 | RESULT_UNAVAILABLE makes `result` unavailable, a real result binds it, NO_RESULT leaves it unbound; the bean resolver is set only when given; the root object's errors propagate |
| ExpressionEvaluation.Evaluator.CreateEvaluationContextWithoutResult | src/main/java/com/youmu/maven/springframework/cache/interceptor/CacheOperationExpressionEvaluator.java:62-68 | the same context with no result: nothing unavailable, nothing bound, `result` reads as null |
| ExpressionEvaluation.Evaluator.Key | src/main/java/com/youmu/maven/springframework/cache/interceptor/CacheOperationExpressionEvaluator.java:101-104 | a memoised expression is reused; a parse failure propagates and memoises nothing; otherwise the parsed key expression is evaluated and memoised in the key map only |
| ExpressionEvaluation.Evaluator.Condition | src/main/java/com/youmu/maven/springframework/cache/interceptor/CacheOperationExpressionEvaluator.java:106-110 | a memoised expression is reused; a parse failure propagates and memoises nothing; otherwise the parsed condition is evaluated as a boolean and memoised in the condition map only |
| ExpressionEvaluation.Evaluator.Unless | src/main/java/com/youmu/maven/springframework/cache/interceptor/CacheOperationExpressionEvaluator.java:112-116 | a memoised expression is reused; a parse failure propagates and memoises nothing; otherwise the parsed unless is evaluated as a boolean and memoised in the unless map only |
| ExpressionEvaluation.UnavailableOnlyAffectsResult | src/main/java/com/youmu/maven/springframework/cache/interceptor/CacheOperationExpressionEvaluator.java:210-223 | a result-unavailable context differs from a plain one only in looking up `result` |
| AnnotationParser.WithDefaults | src/main/java/com/youmu/maven/springframework/cache/parser/ExpireableCacheAnnotationParser.java:112 | applying the defaults keeps the name, the key and the condition |
| AnnotationParser.ValidateCacheOperation | src/main/java/com/youmu/maven/springframework/cache/parser/ExpireableCacheAnnotationParser.java:118-135 | passes iff not both key and key generator, and not both cache manager and resolver, have text; key checked first |
| AnnotationParser.OperationCollection.Add | src/main/java/com/youmu/maven/springframework/cache/parser/ExpireableCacheAnnotationParser.java:32-33 | appends one operation at the end |
| AnnotationParser.OperationCollection.AddAll | src/main/java/com/youmu/maven/springframework/cache/parser/ExpireableCacheAnnotationParser.java:52 | appends the operations at the end, in order |
| AnnotationParser.LazyInit | src/main/java/com/youmu/maven/springframework/cache/parser/ExpireableCacheAnnotationParser.java:30 | keeps an existing collection, or creates an empty one |
| AnnotationParser.ApplyDefault | src/main/java/com/youmu/maven/springframework/cache/parser/ExpireableCacheAnnotationParser.java:112 | the builder's attributes gain the defaults; unless, sync, expire and unit are kept |
| AnnotationParser.ParseExpireableCacheableAnnotation | src/main/java/com/youmu/maven/springframework/cache/parser/ExpireableCacheAnnotationParser.java:97-116 | gives the operation built from the annotation iff it validates, else the validation error |
| AnnotationParser.ParseExpireableCachePutAnnotation | src/main/java/com/youmu/maven/springframework/cache/parser/ExpireableCacheAnnotationParser.java:80-95 | gives the operation built from the put annotation iff it validates, else the validation error |
| AnnotationParser.AddCacheables | src/main/java/com/youmu/maven/springframework/cache/parser/ExpireableCacheAnnotationParser.java:29-35 | appends the parsed operations in annotation order and stops at the first invalid one |
| AnnotationParser.AddPuts | src/main/java/com/youmu/maven/springframework/cache/parser/ExpireableCacheAnnotationParser.java:38-43 | appends the parsed put operations in annotation order and stops at the first invalid one |
| AnnotationParser.ParseEachStopsAtFailure | src/main/java/com/youmu/maven/springframework/cache/parser/ExpireableCacheAnnotationParser.java:31-34 | once an annotation fails, the ones after it change nothing |
| AnnotationParser.ParseCachingsStopsAtFailure | src/main/java/com/youmu/maven/springframework/cache/parser/ExpireableCacheAnnotationParser.java:48-54 | once a caching group fails, the groups after it change nothing |
| AnnotationParser.ParseExpireableCachingAnnotation | src/main/java/com/youmu/maven/springframework/cache/parser/ExpireableCacheAnnotationParser.java:59-78 | null for an empty group; otherwise its cacheables then its puts, or the first validation error |
| AnnotationParser.AddCachings | src/main/java/com/youmu/maven/springframework/cache/parser/ExpireableCacheAnnotationParser.java:46-55 | appends every non-null group's operations in order and stops at the first failure |
| AnnotationParser.CustomCache | src/main/java/com/youmu/maven/springframework/cache/parser/ExpireableCacheAnnotationParser.java:23-57 | appends cacheables, then puts, then groups; keeps a null collection null when no annotation is present; raises the first validation error |
| AnnotationParser.ParseEachCharacterisation | src/main/java/com/youmu/maven/springframework/cache/parser/ExpireableCacheAnnotationParser.java:31-34 | succeeds iff every annotation validates; the i-th operation comes from the i-th annotation; on failure the error is the first invalid one's |
| AnnotationParser.CachingGroupOrder | src/main/java/com/youmu/maven/springframework/cache/parser/ExpireableCacheAnnotationParser.java:59-78 | a group gives null iff it is empty, and otherwise its cacheables come before its puts |
| AnnotationParser.CustomCacheOrder | src/main/java/com/youmu/maven/springframework/cache/parser/ExpireableCacheAnnotationParser.java:23-57 | the operations are the cacheables, then the puts, then each group's operations, in that order |
| AnnotationParser.NothingPresentNothingAdded | src/main/java/com/youmu/maven/springframework/cache/parser/ExpireableCacheAnnotationParser.java:29-46 | an element with no expireable annotation adds no operation |
| AnnotationParser.CacheableAnnotationCopied | src/main/java/com/youmu/maven/springframework/cache/parser/ExpireableCacheAnnotationParser.java:97-116 | the operation copies the annotation's condition, unless, sync, expire and unit, and takes the element's name |
| AnnotationParser.PutAnnotationBecomesCacheable | src/main/java/com/youmu/maven/springframework/cache/parser/ExpireableCacheAnnotationParser.java:80-95 | a put annotation becomes an expireable Cacheable with sync off, expire 0 and no unit |
| RedisCacheResolution.CacheManager.constructor | src/main/java/com/youmu/maven/springframework/cache/support/redis/DataRedisCacheResolver.java:37-55 | the manager holds its kind, its caches and its expires table |
| RedisCacheResolution.RecordExpire | src/main/java/com/youmu/maven/springframework/cache/support/redis/DataRedisCacheResolver.java:37-56 | the table is written only for a Redis manager and an expireable operation; a null table starts empty; a bad unit fails |
| RedisCacheResolution.DataRedisCacheResolver.constructor | src/main/java/com/youmu/maven/springframework/cache/support/redis/DataRedisCacheResolver.java:26 | the resolver holds its cache manager |
| RedisCacheResolution.DataRedisCacheResolver.ResolveCaches | src/main/java/com/youmu/maven/springframework/cache/support/redis/DataRedisCacheResolver.java:29-66 | the caches and the manager's new expires table are those of the resolution specification |
| RedisCacheResolution.ResolveOneCachePerName | src/main/java/com/youmu/maven/springframework/cache/support/redis/DataRedisCacheResolver.java:34-64 | succeeds iff every name has a cache, and then gives one cache per name in order; on failure every name before the missing one has a cache |
| RedisCacheResolution.ResolveRecordsExpires | src/main/java/com/youmu/maven/springframework/cache/support/redis/DataRedisCacheResolver.java:37-56 | every name handled before a missing cache is recorded with the expire in seconds |
| RedisCacheResolution.ResolveLeavesExpires | src/main/java/com/youmu/maven/springframework/cache/support/redis/DataRedisCacheResolver.java:37-38 | for another manager or a non-expireable operation the table is untouched |
| RedisCacheResolution.NullUnitFails | src/main/java/com/youmu/maven/springframework/cache/support/redis/DataRedisCacheResolver.java:41-42 | an expireable operation with no unit throws NullPointerException on the first name and records nothing |
| RedisCacheResolution.LastWriteWins | src/main/java/com/youmu/maven/springframework/cache/support/redis/DataRedisCacheResolver.java:54-55 | resolving the same name twice leaves the later operation's expire |
| RedisCacheResolution.MinutesThenHours | src/main/java/com/youmu/maven/springframework/cache/support/redis/DataRedisCacheResolver.java:41-55 | 5 minutes then 2 hours under one name leaves 7200 seconds |
| ExpireableResolution.PutAnnotationFailsOnRedis | src/main/java/com/youmu/maven/springframework/cache/parser/ExpireableCacheAnnotationParser.java:80-95 | a parsed put annotation with any cache name fails on a Redis manager with NullPointerException and leaves the table as it was |
| ExpireableResolution.CacheableAnnotationRecordsTtl | src/main/java/com/youmu/maven/springframework/cache/support/redis/DataRedisCacheResolver.java:34-64 | a parsed cacheable annotation resolves to one cache per name and records its expire in seconds under every name |
| CacheInvocation.Handle | src/main/java/com/youmu/maven/springframework/cache/interceptor/CustomableCacheInterceptor.java:377-380 | a logging error handler turns the error into the fallback; a rethrowing one propagates it |
| CacheInvocation.DoGet | src/main/java/com/youmu/maven/springframework/cache/interceptor/CustomableCacheInterceptor.java:374-381 | a working cache returns its entry; a null handler's NullPointerException or a failing cache's error goes to the error handler, whose outcome is the result, and a handled error is a miss |
| CacheInvocation.DoPut | src/main/java/com/youmu/maven/springframework/cache/interceptor/CustomableCacheInterceptor.java:536-542 | a working cache stores the value; otherwise nothing is stored and the NullPointerException or the cache's error goes to the error handler, whose outcome is the result |
| CacheInvocation.DoEvict | src/main/java/com/youmu/maven/springframework/cache/interceptor/CustomableCacheInterceptor.java:289-304 | the key is removed from a working cache; a failing cache goes to the error handler |
| CacheInvocation.DoClear | src/main/java/com/youmu/maven/springframework/cache/interceptor/CustomableCacheInterceptor.java:289-304 | every entry of a working cache is removed; a failing cache goes to the error handler |
| CacheInvocation.ConditionPassing | src/main/java/com/youmu/maven/springframework/cache/interceptor/CustomableCacheInterceptor.java:383-390 | a blank condition passes without evaluation; otherwise the condition's result or error |
| CacheInvocation.CanPutToCache | src/main/java/com/youmu/maven/springframework/cache/interceptor/CustomableCacheInterceptor.java:501-503 | a blank unless always allows the put; otherwise the put is allowed iff unless is false |
| CacheInvocation.GenerateKey | src/main/java/com/youmu/maven/springframework/cache/interceptor/CustomableCacheInterceptor.java:392-405 | succeeds iff the key computes to a non-null value; a null key is IllegalArgumentException |
| CacheInvocation.Invoked | src/main/java/com/youmu/maven/springframework/cache/interceptor/CustomableCacheInterceptor.java:220 | the method's value is returned, or its throwable propagates wrapped |
| CacheInvocation.Add | src/main/java/com/youmu/maven/springframework/cache/interceptor/CustomableCacheInterceptor.java:421-424 | one context is appended under one class and every other class is unchanged |
| CacheInvocation.MetadataOf | src/main/java/com/youmu/maven/springframework/cache/interceptor/CustomableCacheInterceptor.java:106-134 | a named key generator iff one has text; a named resolver iff one has text, else a manager resolver iff a manager has text, else the default |
| CacheInterceptor.Invoker.Invoke | src/main/java/com/youmu/maven/springframework/cache/interceptor/CustomableCacheInterceptor.java:220 | invokes the method once, counting the call, and returns its value or throwable |
| CacheInterceptor.CustomableCacheInterceptor.constructor | src/main/java/com/youmu/maven/springframework/cache/interceptor/CustomableCacheInterceptor.java:72-82 | starts uninitialised with an empty metadata cache |
| CacheInterceptor.CustomableCacheInterceptor.AfterSingletonsInstantiated | src/main/java/com/youmu/maven/springframework/cache/interceptor/CustomableCacheInterceptor.java:90-94 | sets the initialised flag and keeps the metadata cache |
| CacheInterceptor.CustomableCacheInterceptor.GetCacheOperationMetadata | src/main/java/com/youmu/maven/springframework/cache/interceptor/CustomableCacheInterceptor.java:106-134 | the metadata for the (operation, method, class) key, memoised under that key; every memo entry stays the metadata of its key |
| CacheInterceptor.CustomableCacheInterceptor.ClearMetadataCache | src/main/java/com/youmu/maven/springframework/cache/interceptor/CustomableCacheInterceptor.java:139-142 | the metadata cache becomes empty |
| CacheInterceptor.CustomableCacheInterceptor.DetermineSyncFlag | src/main/java/com/youmu/maven/springframework/cache/interceptor/CustomableCacheInterceptor.java:439-480 | false without a sync Cacheable; otherwise IllegalStateException for other operations, several entries, several caches or an unless, in that order |
| CacheInterceptor.CustomableCacheInterceptor.GetOperationContext | src/main/java/com/youmu/maven/springframework/cache/interceptor/CustomableCacheInterceptor.java:84-88 | the context holds the operation and its resolved caches, or the resolver's error; the operation's metadata key is memoised |
| CacheInterceptor.CustomableCacheInterceptor.RegisterContexts | src/main/java/com/youmu/maven/springframework/cache/interceptor/CustomableCacheInterceptor.java:413-424 | the context map of the register specification; on success every operation's metadata is memoised |
| CacheInterceptor.CustomableCacheInterceptor.NewContexts | src/main/java/com/youmu/maven/springframework/cache/interceptor/CustomableCacheInterceptor.java:413-427 | the contexts and sync flag of the specification, and only keys of these operations enter the memo |
| CacheInterceptor.CustomableCacheInterceptor.DoGet | src/main/java/com/youmu/maven/springframework/cache/interceptor/CustomableCacheInterceptor.java:374-381 | the read of the cache specification, on the current store |
| CacheInterceptor.CustomableCacheInterceptor.DoPut | src/main/java/com/youmu/maven/springframework/cache/interceptor/CustomableCacheInterceptor.java:536-542 | the store and result of the write specification |
| CacheInterceptor.CustomableCacheInterceptor.DoEvict | src/main/java/com/youmu/maven/springframework/cache/interceptor/CustomableCacheInterceptor.java:289-304 | the store and result of the evict specification |
| CacheInterceptor.CustomableCacheInterceptor.DoClear | src/main/java/com/youmu/maven/springframework/cache/interceptor/CustomableCacheInterceptor.java:289-304 | the store and result of the clear specification |
| CacheInterceptor.CustomableCacheInterceptor.FindInCaches | src/main/java/com/youmu/maven/springframework/cache/interceptor/CustomableCacheInterceptor.java:360-372 | the lookup over the context's caches in order, as specified |
| CacheInterceptor.CustomableCacheInterceptor.FindCachedItem | src/main/java/com/youmu/maven/springframework/cache/interceptor/CustomableCacheInterceptor.java:322-340 | equals `CacheInvocation.FindCachedItem`, which `FindCachedItemFirstHit` characterises as the first context's non-miss |
| CacheInterceptor.CustomableCacheInterceptor.CollectPutRequests | src/main/java/com/youmu/maven/springframework/cache/interceptor/CustomableCacheInterceptor.java:349-358 | equals `CacheInvocation.CollectPutRequests`, which `CollectPutRequestsCharacterisation` characterises as one request per passing context, in order, or the first error |
| CacheInterceptor.CustomableCacheInterceptor.HasCachePut | src/main/java/com/youmu/maven/springframework/cache/interceptor/CustomableCacheInterceptor.java:258-276 | whether some CachePut is not excluded, as specified |
| CacheInterceptor.CustomableCacheInterceptor.PerformCacheEvict | src/main/java/com/youmu/maven/springframework/cache/interceptor/CustomableCacheInterceptor.java:289-304 | clears or evicts every cache of the context, computing the key while it is null, as specified |
| CacheInterceptor.CustomableCacheInterceptor.ProcessCacheEvicts | src/main/java/com/youmu/maven/springframework/cache/interceptor/CustomableCacheInterceptor.java:278-287 | evicts for every context of the right phase whose condition passes, as specified |
| CacheInterceptor.CustomableCacheInterceptor.ApplyPutRequest | src/main/java/com/youmu/maven/springframework/cache/interceptor/CustomableCacheInterceptor.java:527-533 | writes the value to every cache of the request iff it may be cached, as specified |
| CacheInterceptor.CustomableCacheInterceptor.ApplyPutRequests | src/main/java/com/youmu/maven/springframework/cache/interceptor/CustomableCacheInterceptor.java:229-231 | leaves the store and result of `CacheInvocation.ApplyAll`, which `ApplyAllStores` and `ApplyAllStopsAtFailure` characterise |
| CacheInterceptor.CustomableCacheInterceptor.FinishExecution | src/main/java/com/youmu/maven/springframework/cache/interceptor/CustomableCacheInterceptor.java:224-236 | explicit puts, every request applied, then late evictions, as specified |
| CacheInterceptor.CustomableCacheInterceptor.ExecuteStandard | src/main/java/com/youmu/maven/springframework/cache/interceptor/CustomableCacheInterceptor.java:198-236 | the store, result and number of invocations of the standard path |
| CacheInterceptor.CustomableCacheInterceptor.ExecuteSync | src/main/java/com/youmu/maven/springframework/cache/interceptor/CustomableCacheInterceptor.java:172-195 | the store, result and number of invocations of the synchronized path |
| CacheInterceptor.CustomableCacheInterceptor.Execute | src/main/java/com/youmu/maven/springframework/cache/interceptor/CustomableCacheInterceptor.java:144-159 | the store, result and invocation count of the interception specification; the memo keeps only true metadata and is untouched before initialisation |
| InterceptorProperties.FindInCachesFirstHit | src/main/java/com/youmu/maven/springframework/cache/interceptor/CustomableCacheInterceptor.java:360-372 | with working caches, a miss iff every cache misses, and otherwise the first cache's entry |
| InterceptorProperties.FindCachedItemFirstHit | src/main/java/com/youmu/maven/springframework/cache/interceptor/CustomableCacheInterceptor.java:322-340 | a miss iff every context's probe misses (a false condition probes as a miss); otherwise the hit or error of the first context, in order, whose probe is not a miss |
| InterceptorProperties.NullHandlerFindsNothing | src/main/java/com/youmu/maven/springframework/cache/interceptor/CustomableCacheInterceptor.java:239-241 | a null handler with a logging error handler never finds an entry |
| InterceptorProperties.NullHandlerNeverHits | src/main/java/com/youmu/maven/springframework/cache/interceptor/CustomableCacheInterceptor.java:322-340 | the Cacheable lookup then never reports a hit |
| InterceptorProperties.ExcludedCount | src/main/java/com/youmu/maven/springframework/cache/interceptor/CustomableCacheInterceptor.java:263-273 | the exclusion loop succeeds iff every condition evaluates, and then collects exactly the excluded contexts |
| InterceptorProperties.HasCachePutIff | src/main/java/com/youmu/maven/springframework/cache/interceptor/CustomableCacheInterceptor.java:258-276 | hasCachePut is true iff some CachePut is not excluded |
| InterceptorProperties.ResultUnavailableKeepsPut | src/main/java/com/youmu/maven/springframework/cache/interceptor/CustomableCacheInterceptor.java:269-272 | a condition failing with the project's VariableNotAvailableException does not exclude the put |
| InterceptorProperties.SpringUnavailableEscapes | src/main/java/com/youmu/maven/springframework/cache/interceptor/CustomableCacheInterceptor.java:264-272 | a condition failing with Spring's VariableNotAvailableException is not caught: the exclusion and `hasCachePut` fail with it |
| InterceptorProperties.HitWithResultConditionThrows | src/main/java/com/youmu/maven/springframework/cache/interceptor/CustomableCacheInterceptor.java:201-216 | on a hit with nothing staged, a first CachePut condition that reads the result makes the call throw Spring's exception, without invoking and without touching the caches |
| InterceptorProperties.ExecuteThrowsOnResultCondition | src/main/java/com/youmu/maven/springframework/cache/interceptor/CustomableCacheInterceptor.java:198-216 | the same for a whole enabled call after successful early evictions |
| CacheInvocation.IsExcludedIntended | src/main/java/com/youmu/maven/springframework/cache/interceptor/CustomableCacheInterceptor.java:264-272 | the corrected exclusion: a false condition excludes, a condition needing the result (either exception) keeps the put, any other error propagates |
| InterceptorProperties.ResultUnavailableKeepsPutIntended | src/main/java/com/youmu/maven/springframework/cache/interceptor/CustomableCacheInterceptor.java:269-272 | the intended exclusion keeps the put for either exception, and agrees with the written one in every other case |
| InterceptorProperties.CacheWideEvictClears | src/main/java/com/youmu/maven/springframework/cache/interceptor/CustomableCacheInterceptor.java:292-294 | a cache-wide eviction empties every listed cache, leaves the others and computes no key |
| InterceptorProperties.EvictKnownKey | src/main/java/com/youmu/maven/springframework/cache/interceptor/CustomableCacheInterceptor.java:295-301 | a known key is removed from every listed cache and nothing else changes |
| InterceptorProperties.EvictComputesKeyOnce | src/main/java/com/youmu/maven/springframework/cache/interceptor/CustomableCacheInterceptor.java:295-301 | a non-null key is computed once and removed from every cache |
| InterceptorProperties.NullKeyRecomputedPerCache | src/main/java/com/youmu/maven/springframework/cache/interceptor/CustomableCacheInterceptor.java:295-301 | a key that computes to null is recomputed for every cache |
| InterceptorProperties.EvictionOnlyRemoves | src/main/java/com/youmu/maven/springframework/cache/interceptor/CustomableCacheInterceptor.java:289-304 | an eviction never adds or changes an entry |
| InterceptorProperties.EvictPhaseOnlyRemoves | src/main/java/com/youmu/maven/springframework/cache/interceptor/CustomableCacheInterceptor.java:278-287 | an eviction phase never adds or changes an entry |
| InterceptorProperties.EvictPhaseClears | src/main/java/com/youmu/maven/springframework/cache/interceptor/CustomableCacheInterceptor.java:278-287 | after a successful phase, every cache of a passing cache-wide eviction of that phase is empty |
| InterceptorProperties.CacheWideEvictIdempotent | src/main/java/com/youmu/maven/springframework/cache/interceptor/CustomableCacheInterceptor.java:292-294 | clearing twice leaves the same entries as clearing once |
| InterceptorProperties.PutWritesEveryCache | src/main/java/com/youmu/maven/springframework/cache/interceptor/CustomableCacheInterceptor.java:529-531 | with working caches the value is stored in every cache, and other entries are kept |
| InterceptorProperties.ApplyPutIff | src/main/java/com/youmu/maven/springframework/cache/interceptor/CustomableCacheInterceptor.java:527-533 | a request writes iff unless allows it |
| InterceptorProperties.CollectPutRequestsCharacterisation | src/main/java/com/youmu/maven/springframework/cache/interceptor/CustomableCacheInterceptor.java:349-358 | succeeds iff every condition and every needed key evaluates; then appends exactly the passing contexts' requests in order; otherwise fails with the first context's error |
| InterceptorProperties.CollectPutRequestsAllPassing | src/main/java/com/youmu/maven/springframework/cache/interceptor/CustomableCacheInterceptor.java:349-358 | with every condition true, one request per context with its key, in order |
| InterceptorProperties.ApplyAllStores | src/main/java/com/youmu/maven/springframework/cache/interceptor/CustomableCacheInterceptor.java:229-231 | with working caches and evaluable unless, succeeds, and a cache then holds the value under a key iff some allowed request wrote it there; every other entry is unchanged |
| InterceptorProperties.ApplyAllStopsAtFailure | src/main/java/com/youmu/maven/springframework/cache/interceptor/CustomableCacheInterceptor.java:229-231 | an unless that fails stops there: the earlier requests are applied and its error is returned |
| InterceptorProperties.NullHandlerNeverStores | src/main/java/com/youmu/maven/springframework/cache/interceptor/CustomableCacheInterceptor.java:229-231 | a null handler with a logging error handler never stores anything |
| InterceptorProperties.NullHandlerNeverStoresOne | src/main/java/com/youmu/maven/springframework/cache/interceptor/CustomableCacheInterceptor.java:536-542 | one request with a null handler succeeds without storing |
| InterceptorProperties.PlainCacheableRegisteredTwice | src/main/java/com/youmu/maven/springframework/cache/interceptor/CustomableCacheInterceptor.java:413-424 | a plain Cacheable's context is stored twice under CacheableOperation |
| InterceptorProperties.ExpireableCacheableRegisteredUnderBoth | src/main/java/com/youmu/maven/springframework/cache/interceptor/CustomableCacheInterceptor.java:413-424 | an expireable Cacheable is stored once under its base class and once under its own class |
| InterceptorProperties.EvictRegisteredOnce | src/main/java/com/youmu/maven/springframework/cache/interceptor/CustomableCacheInterceptor.java:413-424 | an eviction is stored once under CacheEvictOperation |
| InterceptorProperties.RegisterOneGuarded | src/main/java/com/youmu/maven/springframework/cache/interceptor/CustomableCacheInterceptor.java:413-424 | registering keeps every sync Cacheable doubly present in the map |
| InterceptorProperties.RegisterFromGuarded | src/main/java/com/youmu/maven/springframework/cache/interceptor/CustomableCacheInterceptor.java:413-424 | registering a whole list keeps that guard |
| InterceptorProperties.SyncNeverEnabled | src/main/java/com/youmu/maven/springframework/cache/interceptor/CustomableCacheInterceptor.java:439-480 | contexts built by the constructor are never synchronized |
| InterceptorProperties.RegisterFromKeepsSync | src/main/java/com/youmu/maven/springframework/cache/interceptor/CustomableCacheInterceptor.java:413-424 | a sync operation in the list leaves a sync context under CacheableOperation |
| InterceptorProperties.SyncOperationRejected | src/main/java/com/youmu/maven/springframework/cache/interceptor/CustomableCacheInterceptor.java:439-480 | any sync operation makes the constructor throw IllegalStateException, for other operations or for several entries |
| InterceptorProperties.ExecuteTakesStandardPath | src/main/java/com/youmu/maven/springframework/cache/interceptor/CustomableCacheInterceptor.java:169-199 | an initialised interception with operations always takes the standard path |
| InterceptorProperties.WrapThenUnwrap | src/main/java/com/youmu/maven/springframework/cache/interceptor/CustomableCacheInterceptor.java:243-256 | unwrapping a wrapped cache value gives the value back |
| InterceptorProperties.UnwrapThenWrap | src/main/java/com/youmu/maven/springframework/cache/interceptor/CustomableCacheInterceptor.java:243-256 | for an Optional-returning method, wrapping the unwrapped result gives the result back |
| InterceptorProperties.NestedOptionalRefused | src/main/java/com/youmu/maven/springframework/cache/interceptor/CustomableCacheInterceptor.java:594-606 | an Optional inside an Optional is IllegalArgumentException |
| InterceptorProperties.CompareKeysAntisymmetric | src/main/java/com/youmu/maven/springframework/cache/interceptor/CustomableCacheInterceptor.java:581-587 | key comparison is antisymmetric |
| InterceptorProperties.CompareKeysZeroIff | src/main/java/com/youmu/maven/springframework/cache/interceptor/CustomableCacheInterceptor.java:558-587 | comparison is zero iff names, method texts and class names all agree |
| InterceptorProperties.SinglePlainCacheableContexts | src/main/java/com/youmu/maven/springframework/cache/interceptor/CustomableCacheInterceptor.java:413-427 | a single non-sync plain Cacheable gives its context twice and no sync |
| InterceptorProperties.OnlyCacheables | src/main/java/com/youmu/maven/springframework/cache/interceptor/CustomableCacheInterceptor.java:198-199 | with only Cacheables there are no evictions and no explicit puts |
| InterceptorProperties.ReadThroughMiss | src/main/java/com/youmu/maven/springframework/cache/interceptor/CustomableCacheInterceptor.java:202-231 | on a miss the method runs once and its value is stored in every cache |
| InterceptorProperties.ReadThroughHit | src/main/java/com/youmu/maven/springframework/cache/interceptor/CustomableCacheInterceptor.java:202-217 | on a hit the cached value is returned without invoking the method |
| InterceptorProperties.ReadThroughThenHit | src/main/java/com/youmu/maven/springframework/cache/interceptor/CustomableCacheInterceptor.java:144-237 | a first call invokes once and caches; a second call answers from the cache whatever the method would do |
| InterceptorProperties.InactiveInvokesOnce | src/main/java/com/youmu/maven/springframework/cache/interceptor/CustomableCacheInterceptor.java:148-158 | before initialisation or with no operations, the method runs once and the caches are untouched |
| InterceptorProperties.StandardAtMostOnce | src/main/java/com/youmu/maven/springframework/cache/interceptor/CustomableCacheInterceptor.java:198-236 | the standard path invokes at most once, and an invoked throwable propagates |
| InterceptorProperties.InvokedAtMostOnce | src/main/java/com/youmu/maven/springframework/cache/interceptor/CustomableCacheInterceptor.java:144-237 | an interception invokes the method at most once, and an invoked throwable propagates |
| InterceptorProperties.HitSkipsInvocation | src/main/java/com/youmu/maven/springframework/cache/interceptor/CustomableCacheInterceptor.java:214-217 | a hit with no put pending does not depend on the method, invokes nothing and returns the wrapped hit |
| InterceptorProperties.CachePutForcesInvocation | src/main/java/com/youmu/maven/springframework/cache/interceptor/CustomableCacheInterceptor.java:214-221 | a pending CachePut invokes the method even on a hit |
| InterceptorProperties.MissInvokesOnce | src/main/java/com/youmu/maven/springframework/cache/interceptor/CustomableCacheInterceptor.java:206-221 | a miss invokes the method once; a throwable leaves the caches untouched |
| InterceptorProperties.SyncHit | src/main/java/com/youmu/maven/springframework/cache/interceptor/CustomableCacheInterceptor.java:172-185 | a synchronized hit returns the wrapped entry without invoking |
| InterceptorProperties.SyncMissLoads | src/main/java/com/youmu/maven/springframework/cache/interceptor/CustomableCacheInterceptor.java:172-191 | a synchronized miss invokes once and stores the unwrapped value, or rethrows the throwable |
| InterceptorProperties.SyncNullHandlerThrows | src/main/java/com/youmu/maven/springframework/cache/interceptor/CustomableCacheInterceptor.java:180 | with a null handler the synchronized path throws NullPointerException unhandled |
| InterceptorProperties.SyncMissThenHit | src/main/java/com/youmu/maven/springframework/cache/interceptor/CustomableCacheInterceptor.java:172-191 | a synchronized miss followed by a second call answers that call from the cache |

## Left out

- SpEL parsing and evaluation are parameters: the `parse`, `value` and `truth` functions of the evaluator's `spel` record, and the `condition`, `key` and `unless` functions of an interception. An expression is an opaque parse result; the parser's own grammar is not modelled.
- SpEL's reading of method parameters is not modelled; only the `result` variable and its availability are.
- Key generators are not modelled. A key generator bean is folded into the interception's `key` function.
- Cache resolution is a parameter of the interception. The interceptor resolves once per operation. The Java code resolves twice for Cacheable and CachePut operations, but with a deterministic resolver both calls give the same caches.
- The Redis resolver's side effect on the manager's `expires` table is proved separately. It is not threaded into the interceptor model.
- The reflective lookup of the `expires` field cannot fail in the model, so `UnsupportedOperationException` is left out.
- The `CacheHandler` implementations (`DefaultCacheHandler`) and the `Cache` backends are outside the core. A delegating handler reads and writes the cache map directly. A `broken` cache stands for a backend that throws on every access.
- The null `getCacheHandler()` is modelled as `NullHandler`.
- The error handler is either the logging one or the rethrowing one; other implementations are left out.
- Concurrency is left out. The concurrent maps are sequential maps, and the synchronized cache loader runs without locking.
- Logging and trace messages are left out, including `logInvalidating`.
- Exception message texts are left out; exceptions carry only their kind.
- CacheInterceptor.CustomableCacheInterceptor.Execute: `getTargetClass` through `AopProxyUtils` is not modelled; the target class is part of the interception.
- CacheInterceptor.CustomableCacheInterceptor.Execute: the check whether `java.util.Optional` is present is not modelled; `MethodRef.returnsOptional` stands for "this method returns `Optional`".
- `CacheOperationCacheKey.hashCode` and `toString` are left out; only its equality and ordering are modelled.
- The `caches` oracle of an interception may yield an empty list. Spring's `getCaches` refuses that with `IllegalStateException`, so `SyncPath`'s branch for a context without caches cannot be reached in the program.
- ExpireableCacheableOperations.Builder.SetCacheNames and ExpireableCachePutOperations.Builder.SetCacheNames: Spring's setter rejects a blank name with `IllegalArgumentException` (`Assert.hasText`); the model keeps blank names, so a blank name in `cacheNames` is accepted at parse time.
- Annotation merging (`AnnotatedElementUtils.getAllMergedAnnotations`) is an input: an annotated element carries its merged annotations in order.
- The annotation source of `@ExpireableCacheable` is not part of this model. Its attributes are taken from the parser's getters.
- The default cache configuration is a parameter. Its `applyDefault` supplies the cache names, key generator, cache manager and resolver.

## Findings

| source | as written | input that shows it | evidently intended | confidence | as-written member | corrected member |
|---|---|---|---|---|---|---|
| src/main/java/com/youmu/maven/springframework/cache/interceptor/CustomableCacheInterceptor.java:264-272 | `hasCachePut` catches `com.youmu.maven.springframework.cache.exception.VariableNotAvailableException` (imported at line 49), but the condition is evaluated by Spring's evaluator, which throws Spring's own `VariableNotAvailableException` | a method with a `@Cacheable` whose entry is present and a `@CachePut` whose condition reads `#result`: the call throws instead of invoking the method and putting | a condition that needs the missing result keeps the put, as the comment at lines 270-271 says, so the method runs | not executed | InterceptorProperties.ExecuteThrowsOnResultCondition | InterceptorProperties.ResultUnavailableKeepsPutIntended |

The rest of the model follows the code as written: `hasCachePut` uses `CacheInvocation.IsExcluded`.
`CacheInvocation.IsExcludedIntended` is the corrected exclusion, which catches either exception.

