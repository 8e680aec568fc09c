/**
 * `ExpireableCacheAnnotationParser`: turns the `@ExpireableCacheable`,
 * `@ExpireableCachePut` and `@ExpireableCaching` annotations found on an
 * element into cache operation descriptors, appended to the collection the
 * generic annotation parser has already built. Annotations are plain records.
 */
module AnnotationParser {
  import opened Wrappers
  import opened Lang
  import opened Operations
  import EC = ExpireableCacheableOperations

  /** `@ExpireableCacheable` (attribute defaults: empty text, no sync, expire 0, seconds). */
  datatype CacheableAnnotation = CacheableAnnotation(
    cacheNames: seq<string>, key: string, keyGenerator: string, cacheManager: string,
    cacheResolver: string, condition: string, unless: string, sync: bool,
    expire: Long, timeUnit: TimeUnit)

  /** `@ExpireableCachePut`. */
  datatype CachePutAnnotation = CachePutAnnotation(
    cacheNames: seq<string>, key: string, keyGenerator: string, cacheManager: string,
    cacheResolver: string, condition: string, unless: string,
    expire: Long, timeUnit: TimeUnit)

  /** `@ExpireableCaching`: groups of the two annotations above. */
  datatype CachingAnnotation = CachingAnnotation(cacheable: seq<CacheableAnnotation>, put: seq<CachePutAnnotation>)

  /** An annotated method or class: its `toString()` and its merged annotations, in order. */
  datatype AnnotatedElement = AnnotatedElement(
    text: string,
    cacheables: seq<CacheableAnnotation>,
    puts: seq<CachePutAnnotation>,
    cachings: seq<CachingAnnotation>)

  /**
   * The class-level defaults. `applyDefault` may fill in the cache names,
   * the key generator, the cache manager and the cache resolver; it leaves
   * the other attributes alone.
   */
  datatype DefaultCacheConfig = DefaultCacheConfig(applyDefault: CommonAttributes -> CommonAttributes)

  /** The builder's common attributes after `applyDefault`. */
  function WithDefaults(cfg: DefaultCacheConfig, c: CommonAttributes): (r: CommonAttributes)
    ensures r.name == c.name && r.key == c.key && r.condition == c.condition
  {
    var d := cfg.applyDefault(c);
    c.(cacheNames := d.cacheNames, keyGenerator := d.keyGenerator, cacheManager := d.cacheManager, cacheResolver := d.cacheResolver)
  }

  /** `validateCacheOperation`: `key`/`keyGenerator` and `cacheManager`/`cacheResolver` are mutually exclusive. */
  function ValidateCacheOperation(op: CacheOperation): (r: Result<(), Exception>)
    ensures r.Success? <==>
      !(HasText(op.common.key) && HasText(op.common.keyGenerator))
      && !(HasText(op.common.cacheManager) && HasText(op.common.cacheResolver))
    ensures HasText(op.common.key) && HasText(op.common.keyGenerator) ==> r == Failure(IllegalState(KeyAndKeyGenerator))
    ensures !(HasText(op.common.key) && HasText(op.common.keyGenerator))
            && HasText(op.common.cacheManager) && HasText(op.common.cacheResolver)
            ==> r == Failure(IllegalState(ManagerAndResolver))
  {
    if HasText(op.common.key) && HasText(op.common.keyGenerator) then Failure(IllegalState(KeyAndKeyGenerator))
    else if HasText(op.common.cacheManager) && HasText(op.common.cacheResolver) then Failure(IllegalState(ManagerAndResolver))
    else Success(())
  }

  /** The common attributes an annotation sets on the builder, before defaults. */
  function AnnotationAttributes(ae: AnnotatedElement, cacheNames: seq<string>, key: string, keyGenerator: string,
                                cacheManager: string, cacheResolver: string, condition: string): CommonAttributes
  {
    CommonAttributes(ae.text, Dedup(cacheNames), key, keyGenerator, cacheManager, cacheResolver, condition)
  }

  /** The operation `parseExpireableCacheableAnnotation` builds: every attribute copied, then defaults applied. */
  function CacheableOperationOf(ae: AnnotatedElement, cfg: DefaultCacheConfig, a: CacheableAnnotation): CacheOperation {
    Cacheable(
      WithDefaults(cfg, AnnotationAttributes(ae, a.cacheNames, a.key, a.keyGenerator, a.cacheManager, a.cacheResolver, a.condition)),
      a.unless, a.sync, Some(Ttl(a.expire, Some(a.timeUnit))))
  }

  /**
   * The operation `parseExpireableCacheablePutAnnotation` builds: an
   * `ExpireableCacheableOperation` whose sync, expire and time unit are left
   * at the builder's defaults, so the annotation's expire and unit are lost.
   */
  function PutOperationOf(ae: AnnotatedElement, cfg: DefaultCacheConfig, a: CachePutAnnotation): CacheOperation {
    Cacheable(
      WithDefaults(cfg, AnnotationAttributes(ae, a.cacheNames, a.key, a.keyGenerator, a.cacheManager, a.cacheResolver, a.condition)),
      a.unless, false, Some(Ttl(0, None)))
  }

  /** Ops parsed in order, up to the first annotation that fails validation. */
  datatype Parsed = Parsed(ops: seq<CacheOperation>, failure: Option<Exception>)

  /** `CacheableOperationOf` for a fixed element and config, as a function value. */
  function CacheableBuilder(ae: AnnotatedElement, cfg: DefaultCacheConfig): CacheableAnnotation -> CacheOperation {
    a => CacheableOperationOf(ae, cfg, a)
  }

  /** `PutOperationOf` for a fixed element and config, as a function value. */
  function PutBuilder(ae: AnnotatedElement, cfg: DefaultCacheConfig): CachePutAnnotation -> CacheOperation {
    a => PutOperationOf(ae, cfg, a)
  }

  /** Builds and validates annotations one by one, stopping at the first that fails validation. */
  function ParseEach<A>(build: A -> CacheOperation, anns: seq<A>): Parsed
  {
    if |anns| == 0 then Parsed([], None)
    else
      var p := ParseEach(build, anns[..|anns| - 1]);
      if p.failure.Some? then p
      else
        var op := build(anns[|anns| - 1]);
        var v := ValidateCacheOperation(op);
        if v.Failure? then Parsed(p.ops, Some(v.error)) else Parsed(p.ops + [op], None)
  }

  /**
   * `parseExpireableCachingAnnotation`: a group's cacheables, then its puts;
   * `None` (a null collection) when the group holds neither.
   */
  function ParseCaching(ae: AnnotatedElement, cfg: DefaultCacheConfig, g: CachingAnnotation): Result<Option<seq<CacheOperation>>, Exception>
  {
    if |g.cacheable| == 0 && |g.put| == 0 then Success(None)
    else
      var c := ParseEach(CacheableBuilder(ae, cfg), g.cacheable);
      if c.failure.Some? then Failure(c.failure.value)
      else
        var p := ParseEach(PutBuilder(ae, cfg), g.put);
        if p.failure.Some? then Failure(p.failure.value)
        else Success(Some(c.ops + p.ops))
  }

  /** The groups' operations, each group added whole, a null group skipped. */
  function ParseCachings(ae: AnnotatedElement, cfg: DefaultCacheConfig, gs: seq<CachingAnnotation>): Parsed
  {
    if |gs| == 0 then Parsed([], None)
    else
      var p := ParseCachings(ae, cfg, gs[..|gs| - 1]);
      if p.failure.Some? then p
      else
        var g := ParseCaching(ae, cfg, gs[|gs| - 1]);
        if g.Failure? then Parsed(p.ops, Some(g.error))
        else if g.value.None? then p
        else Parsed(p.ops + g.value.value, None)
  }

  /** What `customCache` appends: direct cacheables, then direct puts, then every group. */
  function CustomCacheOps(ae: AnnotatedElement, cfg: DefaultCacheConfig): Parsed
  {
    var c := ParseEach(CacheableBuilder(ae, cfg), ae.cacheables);
    if c.failure.Some? then c
    else
      var p := ParseEach(PutBuilder(ae, cfg), ae.puts);
      if p.failure.Some? then Parsed(c.ops + p.ops, p.failure)
      else
        var g := ParseCachings(ae, cfg, ae.cachings);
        Parsed(c.ops + p.ops + g.ops, g.failure)
  }

  /** A `Collection<CacheOperation>` that the parser grows in place. */
  class OperationCollection {
    var items: seq<CacheOperation>

    constructor()
      ensures items == []
    {
      items := [];
    }

    method Add(op: CacheOperation)
      modifies this
      ensures items == old(items) + [op]
    {
      items := items + [op];
    }

    method AddAll(ops: seq<CacheOperation>)
      modifies this
      ensures items == old(items) + ops
    {
      items := items + ops;
    }
  }

  /** `lazyInit`: the given collection, or a fresh empty one for null. */
  method LazyInit(ops: OperationCollection?) returns (r: OperationCollection)
    ensures ops != null ==> r == ops
    ensures ops == null ==> fresh(r) && r.items == []
  {
    if ops == null {
      r := new OperationCollection();
    } else {
      r := ops;
    }
  }

  /** Defaults are applied to the builder's common attributes, and to nothing else. */
  method ApplyDefault(cfg: DefaultCacheConfig, b: EC.Builder)
    modifies b
    ensures b.common == WithDefaults(cfg, old(b.common))
    ensures b.unless == old(b.unless) && b.sync == old(b.sync) && b.expire == old(b.expire) && b.timeUnit == old(b.timeUnit)
  {
    b.common := WithDefaults(cfg, b.common);
  }

  /** `parseExpireableCacheableAnnotation`. */
  method ParseExpireableCacheableAnnotation(ae: AnnotatedElement, cfg: DefaultCacheConfig, a: CacheableAnnotation)
    returns (r: Result<CacheOperation, Exception>)
    ensures r.Success? <==> ValidateCacheOperation(CacheableOperationOf(ae, cfg, a)).Success?
    ensures r.Success? ==> r.value == CacheableOperationOf(ae, cfg, a)
    ensures r.Failure? ==> r.error == ValidateCacheOperation(CacheableOperationOf(ae, cfg, a)).error
  {
    var builder := new EC.Builder();
    builder.SetName(ae.text);
    builder.SetCacheNames(a.cacheNames);
    builder.SetCondition(a.condition);
    builder.SetUnless(a.unless);
    builder.SetKey(a.key);
    builder.SetKeyGenerator(a.keyGenerator);
    builder.SetCacheManager(a.cacheManager);
    builder.SetCacheResolver(a.cacheResolver);
    builder.SetSync(a.sync);
    builder.SetExpire(a.expire);
    builder.SetTimeUnit(Some(a.timeUnit));
    ApplyDefault(cfg, builder);
    var op := builder.Build();
    var v := ValidateCacheOperation(op);
    if v.Failure? {
      return Failure(v.error);
    }
    r := Success(op);
  }

  /** `parseExpireableCacheablePutAnnotation`: builds with the cacheable builder and never sets sync, expire or unit. */
  method ParseExpireableCachePutAnnotation(ae: AnnotatedElement, cfg: DefaultCacheConfig, a: CachePutAnnotation)
    returns (r: Result<CacheOperation, Exception>)
    ensures r.Success? <==> ValidateCacheOperation(PutOperationOf(ae, cfg, a)).Success?
    ensures r.Success? ==> r.value == PutOperationOf(ae, cfg, a)
    ensures r.Failure? ==> r.error == ValidateCacheOperation(PutOperationOf(ae, cfg, a)).error
  {
    var builder := new EC.Builder();
    builder.SetName(ae.text);
    builder.SetCacheNames(a.cacheNames);
    builder.SetCondition(a.condition);
    builder.SetUnless(a.unless);
    builder.SetKey(a.key);
    builder.SetKeyGenerator(a.keyGenerator);
    builder.SetCacheManager(a.cacheManager);
    builder.SetCacheResolver(a.cacheResolver);
    ApplyDefault(cfg, builder);
    var op := builder.Build();
    var v := ValidateCacheOperation(op);
    if v.Failure? {
      return Failure(v.error);
    }
    r := Success(op);
  }

  /** Adds the parsed cacheables to `ops` one at a time; a failure leaves the ones added so far. */
  method AddCacheables(ops: OperationCollection, ae: AnnotatedElement, cfg: DefaultCacheConfig, anns: seq<CacheableAnnotation>)
    returns (failure: Option<Exception>)
    modifies ops
    ensures ops.items == old(ops.items) + ParseEach(CacheableBuilder(ae, cfg), anns).ops
    ensures failure == ParseEach(CacheableBuilder(ae, cfg), anns).failure
  {
    var i := 0;
    while i < |anns|
      invariant 0 <= i <= |anns|
      invariant ParseEach(CacheableBuilder(ae, cfg), anns[..i]).failure.None?
      invariant ops.items == old(ops.items) + ParseEach(CacheableBuilder(ae, cfg), anns[..i]).ops
    {
      assert anns[..i + 1][..i] == anns[..i];
      var r := ParseExpireableCacheableAnnotation(ae, cfg, anns[i]);
      if r.Failure? {
        ParseEachStopsAtFailure(CacheableBuilder(ae, cfg), anns, i + 1);
        return Some(r.error);
      }
      ops.Add(r.value);
      i := i + 1;
    }
    assert anns[..i] == anns;
    failure := None;
  }

  /** Adds the parsed puts to `ops` one at a time; a failure leaves the ones added so far. */
  method AddPuts(ops: OperationCollection, ae: AnnotatedElement, cfg: DefaultCacheConfig, anns: seq<CachePutAnnotation>)
    returns (failure: Option<Exception>)
    modifies ops
    ensures ops.items == old(ops.items) + ParseEach(PutBuilder(ae, cfg), anns).ops
    ensures failure == ParseEach(PutBuilder(ae, cfg), anns).failure
  {
    var i := 0;
    while i < |anns|
      invariant 0 <= i <= |anns|
      invariant ParseEach(PutBuilder(ae, cfg), anns[..i]).failure.None?
      invariant ops.items == old(ops.items) + ParseEach(PutBuilder(ae, cfg), anns[..i]).ops
    {
      assert anns[..i + 1][..i] == anns[..i];
      var r := ParseExpireableCachePutAnnotation(ae, cfg, anns[i]);
      if r.Failure? {
        ParseEachStopsAtFailure(PutBuilder(ae, cfg), anns, i + 1);
        return Some(r.error);
      }
      ops.Add(r.value);
      i := i + 1;
    }
    assert anns[..i] == anns;
    failure := None;
  }

  /** Once a prefix has failed, every longer prefix reports the same ops and failure. */
  lemma {:induction false} ParseEachStopsAtFailure<A>(build: A -> CacheOperation, anns: seq<A>, k: nat)
    requires k <= |anns| && ParseEach(build, anns[..k]).failure.Some?
    ensures ParseEach(build, anns) == ParseEach(build, anns[..k])
    decreases |anns| - k
  {
    if k == |anns| {
      assert anns[..k] == anns;
    } else {
      assert anns[..k + 1][..k] == anns[..k];
      ParseEachStopsAtFailure(build, anns, k + 1);
    }
  }

  lemma {:induction false} ParseCachingsStopsAtFailure(ae: AnnotatedElement, cfg: DefaultCacheConfig, gs: seq<CachingAnnotation>, k: nat)
    requires k <= |gs| && ParseCachings(ae, cfg, gs[..k]).failure.Some?
    ensures ParseCachings(ae, cfg, gs) == ParseCachings(ae, cfg, gs[..k])
    decreases |gs| - k
  {
    if k == |gs| {
      assert gs[..k] == gs;
    } else {
      assert gs[..k + 1][..k] == gs[..k];
      ParseCachingsStopsAtFailure(ae, cfg, gs, k + 1);
    }
  }

  /** `parseExpireableCachingAnnotation`: cacheables first, then puts, into a lazily created collection. */
  method ParseExpireableCachingAnnotation(ae: AnnotatedElement, cfg: DefaultCacheConfig, g: CachingAnnotation)
    returns (r: Result<OperationCollection?, Exception>)
    ensures ParseCaching(ae, cfg, g).Failure? <==> r.Failure?
    ensures r.Failure? ==> r.error == ParseCaching(ae, cfg, g).error
    ensures r.Success? && ParseCaching(ae, cfg, g).value.None? ==> r.value == null
    ensures r.Success? && ParseCaching(ae, cfg, g).value.Some? ==>
      r.value != null && fresh(r.value) && r.value.items == ParseCaching(ae, cfg, g).value.value
  {
    var ops: OperationCollection? := null;
    if |g.cacheable| > 0 {
      var created := LazyInit(ops);
      ops := created;
      var failure := AddCacheables(created, ae, cfg, g.cacheable);
      if failure.Some? {
        return Failure(failure.value);
      }
    }
    if |g.put| > 0 {
      var created := LazyInit(ops);
      ops := created;
      var failure := AddPuts(created, ae, cfg, g.put);
      if failure.Some? {
        return Failure(failure.value);
      }
    }
    r := Success(ops);
  }

  /** Adds each caching group's operations to `ops`, a whole group at a time; null groups are skipped. */
  method AddCachings(ops: OperationCollection, ae: AnnotatedElement, cfg: DefaultCacheConfig, gs: seq<CachingAnnotation>)
    returns (failure: Option<Exception>)
    modifies ops
    ensures ops.items == old(ops.items) + ParseCachings(ae, cfg, gs).ops
    ensures failure == ParseCachings(ae, cfg, gs).failure
  {
    var i := 0;
    while i < |gs|
      invariant 0 <= i <= |gs|
      invariant ParseCachings(ae, cfg, gs[..i]).failure.None?
      invariant ops.items == old(ops.items) + ParseCachings(ae, cfg, gs[..i]).ops
    {
      assert gs[..i + 1][..i] == gs[..i];
      var group := ParseExpireableCachingAnnotation(ae, cfg, gs[i]);
      if group.Failure? {
        ParseCachingsStopsAtFailure(ae, cfg, gs, i + 1);
        return Some(group.error);
      }
      if group.value != null {
        ops.AddAll(group.value.items);
      }
      i := i + 1;
    }
    assert gs[..i] == gs;
    failure := None;
  }

  /** The incoming collection is returned as is when no annotation of the three kinds is present. */
  predicate NonePresent(ae: AnnotatedElement) {
    |ae.cacheables| == 0 && |ae.puts| == 0 && |ae.cachings| == 0
  }

  /**
   * `customCache`: appends to the incoming collection (created lazily when it
   * is null and something is to be added) the direct cacheables, then the
   * direct puts, then each caching group's operations. A parse failure stops
   * the walk, the operations already added staying in the collection.
   */
  method CustomCache(ops: OperationCollection?, cfg: DefaultCacheConfig, ae: AnnotatedElement)
    returns (r: Result<OperationCollection?, Exception>)
    modifies ops
    ensures ops != null ==> ops.items == old(ops.items) + CustomCacheOps(ae, cfg).ops
    ensures r.Failure? <==> CustomCacheOps(ae, cfg).failure.Some?
    ensures r.Failure? ==> r.error == CustomCacheOps(ae, cfg).failure.value
    ensures r.Success? && ops != null ==> r.value == ops
    ensures r.Success? && ops == null && NonePresent(ae) ==> r.value == null
    ensures NonePresent(ae) ==> r == Success(ops) && (ops != null ==> ops.items == old(ops.items))
    ensures r.Success? && ops == null && !NonePresent(ae) ==>
      r.value != null && fresh(r.value) && r.value.items == CustomCacheOps(ae, cfg).ops
  {
    ghost var c := ParseEach(CacheableBuilder(ae, cfg), ae.cacheables);
    ghost var p := ParseEach(PutBuilder(ae, cfg), ae.puts);
    ghost var g := ParseCachings(ae, cfg, ae.cachings);
    ghost var before: seq<CacheOperation> := if ops == null then [] else ops.items;
    var operations := ops;
    if |ae.cacheables| > 0 {
      var created := LazyInit(operations);
      operations := created;
      var failure := AddCacheables(created, ae, cfg, ae.cacheables);
      if failure.Some? {
        return Failure(failure.value);
      }
    }
    assert c.failure.None? && (operations != null ==> operations.items == before + c.ops);
    assert operations == null ==> c.ops == [];
    if |ae.puts| > 0 {
      var created := LazyInit(operations);
      operations := created;
      var failure := AddPuts(created, ae, cfg, ae.puts);
      if failure.Some? {
        OpsAppend(before, c.ops, p.ops, []);
        return Failure(failure.value);
      }
    }
    assert p.failure.None? && (operations != null ==> operations.items == before + c.ops + p.ops);
    assert operations == null ==> c.ops + p.ops == [];
    if |ae.cachings| > 0 {
      var created := LazyInit(operations);
      operations := created;
      var failure := AddCachings(created, ae, cfg, ae.cachings);
      OpsAppend(before, c.ops, p.ops, g.ops);
      if failure.Some? {
        return Failure(failure.value);
      }
    }
    OpsAppend(before, c.ops, p.ops, g.ops);
    if NonePresent(ae) {
      NothingPresentNothingAdded(ae, cfg);
    }
    r := Success(operations);
  }

  /** Helper: regroups the concatenations that build the operation list. */
  lemma OpsAppend(before: seq<CacheOperation>, c: seq<CacheOperation>, p: seq<CacheOperation>, g: seq<CacheOperation>)
    ensures before + c + p + g == before + (c + p + g)
    ensures before + c + p == before + (c + p)
  {
  }

  /**
   * `ParseEach` keeps the operations built from a prefix of the annotations,
   * in order and all valid; it fails iff some annotation is invalid, and then
   * with the validation error of the first invalid one.
   */
  lemma {:induction false} ParseEachCharacterisation<A>(build: A -> CacheOperation, anns: seq<A>)
    ensures ParseEach(build, anns).failure.None? <==>
      forall i :: 0 <= i < |anns| ==> ValidateCacheOperation(build(anns[i])).Success?
    ensures |ParseEach(build, anns).ops| <= |anns|
    ensures forall i :: 0 <= i < |ParseEach(build, anns).ops| ==>
      ParseEach(build, anns).ops[i] == build(anns[i]) && ValidateCacheOperation(build(anns[i])).Success?
    ensures ParseEach(build, anns).failure.None? ==> |ParseEach(build, anns).ops| == |anns|
    ensures ParseEach(build, anns).failure.Some? ==>
      |ParseEach(build, anns).ops| < |anns|
      && ValidateCacheOperation(build(anns[|ParseEach(build, anns).ops|])) == Failure(ParseEach(build, anns).failure.value)
  {
    if |anns| > 0 {
      var init := anns[..|anns| - 1];
      ParseEachCharacterisation(build, init);
      assert forall i :: 0 <= i < |init| ==> init[i] == anns[i];
    }
  }

  /** A caching group is null iff it is empty; otherwise its cacheables come before its puts. */
  lemma CachingGroupOrder(ae: AnnotatedElement, cfg: DefaultCacheConfig, g: CachingAnnotation)
    ensures ParseCaching(ae, cfg, g) == Success(None) <==> |g.cacheable| == 0 && |g.put| == 0
    ensures ParseCaching(ae, cfg, g).Success? && ParseCaching(ae, cfg, g).value.Some? ==>
      var xs := ParseCaching(ae, cfg, g).value.value;
      && |xs| == |g.cacheable| + |g.put|
      && (forall i :: 0 <= i < |g.cacheable| ==> xs[i] == CacheableOperationOf(ae, cfg, g.cacheable[i]))
      && (forall j :: 0 <= j < |g.put| ==> xs[|g.cacheable| + j] == PutOperationOf(ae, cfg, g.put[j]))
  {
    ParseEachCharacterisation(CacheableBuilder(ae, cfg), g.cacheable);
    ParseEachCharacterisation(PutBuilder(ae, cfg), g.put);
  }

  /**
   * On success `customCache` appends the direct cacheables, then the direct
   * puts, each in annotation order, then the groups' operations.
   */
  lemma CustomCacheOrder(ae: AnnotatedElement, cfg: DefaultCacheConfig)
    requires CustomCacheOps(ae, cfg).failure.None?
    ensures var ops := CustomCacheOps(ae, cfg).ops;
      && |ae.cacheables| + |ae.puts| <= |ops|
      && (forall i :: 0 <= i < |ae.cacheables| ==> ops[i] == CacheableOperationOf(ae, cfg, ae.cacheables[i]))
      && (forall j :: 0 <= j < |ae.puts| ==> ops[|ae.cacheables| + j] == PutOperationOf(ae, cfg, ae.puts[j]))
      && ops[|ae.cacheables| + |ae.puts|..] == ParseCachings(ae, cfg, ae.cachings).ops
  {
    ParseEachCharacterisation(CacheableBuilder(ae, cfg), ae.cacheables);
    ParseEachCharacterisation(PutBuilder(ae, cfg), ae.puts);
    var c := ParseEach(CacheableBuilder(ae, cfg), ae.cacheables).ops;
    var p := ParseEach(PutBuilder(ae, cfg), ae.puts).ops;
    var g := ParseCachings(ae, cfg, ae.cachings).ops;
    assert CustomCacheOps(ae, cfg).ops == c + p + g;
    assert (c + p + g)[|c| + |p|..] == g;
  }

  /** With none of the three annotation kinds present nothing is added. */
  lemma NothingPresentNothingAdded(ae: AnnotatedElement, cfg: DefaultCacheConfig)
    requires NonePresent(ae)
    ensures CustomCacheOps(ae, cfg) == Parsed([], None)
  {
  }

  /**
   * A cacheable annotation's attributes all reach the operation: names (as an
   * ordered set), key, generator, manager, resolver and condition before
   * defaults, then unless, sync, expire and unit; the name is the element's text.
   */
  lemma CacheableAnnotationCopied(ae: AnnotatedElement, cfg: DefaultCacheConfig, a: CacheableAnnotation)
    ensures var op := CacheableOperationOf(ae, cfg, a);
      && ClassOf(op) == ExpireableCacheableOperationClass
      && op.common == WithDefaults(cfg, CommonAttributes(ae.text, Dedup(a.cacheNames), a.key, a.keyGenerator,
                                                         a.cacheManager, a.cacheResolver, a.condition))
      && op.common.name == ae.text && op.common.key == a.key && op.common.condition == a.condition
      && op.unless == a.unless && op.sync == a.sync
      && EC.GetExpire(op) == a.expire && EC.GetTimeUnit(op) == Some(a.timeUnit)
  {
  }

  /**
   * A put annotation becomes an `ExpireableCacheableOperation`, not a put:
   * sync is false, the expire is 0 and the unit is null whatever the annotation says.
   */
  lemma PutAnnotationBecomesCacheable(ae: AnnotatedElement, cfg: DefaultCacheConfig, a: CachePutAnnotation)
    ensures var op := PutOperationOf(ae, cfg, a);
      && op.Cacheable? && ClassOf(op) == ExpireableCacheableOperationClass && op.IsExpireable()
      && !op.sync && EC.GetExpire(op) == 0 && EC.GetTimeUnit(op) == None
      && op.unless == a.unless && op.common.name == ae.text && op.common.key == a.key
  {
  }
}
