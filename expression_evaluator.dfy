/**
 * `CacheOperationExpressionEvaluator`: builds the evaluation context that
 * `key`, `condition` and `unless` expressions are evaluated against, and
 * memoises parsed expressions and target methods. The expression language
 * itself is an oracle (`SpEL`): parsing is a function of the source text
 * that may fail, and evaluation a function of the parsed expression and a
 * snapshot of the context. Only successful parses are memoised.
 */
module ExpressionEvaluation {
  import opened Wrappers
  import opened Lang

  /** The name of the variable that holds the method's result. */
  const RESULT_VARIABLE: string := "result"

  /**
   * The `result` argument of `createEvaluationContext`: the `NO_RESULT`
   * sentinel, the `RESULT_UNAVAILABLE` sentinel, or a real value (possibly null).
   */
  datatype ResultArg = NoResult | ResultUnavailable | Result(value: Value)

  /** A `java.lang.reflect.Method`, by its text; `returnsOptional` is `getReturnType() == Optional.class`. */
  datatype MethodRef = MethodRef(text: string, returnsOptional: bool)

  /** A `java.lang.Class`, by its name. */
  datatype ClassRef = ClassRef(name: string)

  /** `AnnotatedElementKey`: a method together with the class it is invoked on. */
  datatype ElementKey = ElementKey(element: MethodRef, targetClass: ClassRef)

  /** The key of the per-element expression memo tables. */
  datatype ExpressionKey = ExpressionKey(element: ElementKey, expression: string)

  /** A parsed expression, as the expression language's parser produced it. */
  datatype Expression = Parsed(source: string)

  /** A `BeanFactory`, by identity. */
  type BeanFactory = int

  /** `CacheExpressionRootObject`: what `#root` exposes to expressions. */
  datatype RootObject = RootObject(
    caches: seq<CacheId>,
    methodRef: MethodRef,
    args: seq<Value>,
    target: Value,
    targetClass: ClassRef)

  /** The root object's constructor; a null method or target class is rejected. */
  function NewRootObject(caches: seq<CacheId>, methodRef: Option<MethodRef>, args: seq<Value>,
                         target: Value, targetClass: Option<ClassRef>): (r: Result<RootObject, Exception>)
    ensures r.Success? <==> methodRef.Some? && targetClass.Some?
    ensures methodRef.None? ==> r == Failure(IllegalArgument(NullMethod))
    ensures methodRef.Some? && targetClass.None? ==> r == Failure(IllegalArgument(NullTargetClass))
    ensures r.Success? ==> r.value.methodRef == methodRef.value && r.value.targetClass == targetClass.value
    ensures r.Success? ==> r.value.caches == caches && r.value.args == args && r.value.target == target
  {
    if methodRef.None? then Failure(IllegalArgument(NullMethod))
    else if targetClass.None? then Failure(IllegalArgument(NullTargetClass))
    else Success(RootObject(caches, methodRef.value, args, target, targetClass.value))
  }

  /** What an evaluation can observe of a context. */
  datatype ContextView = ContextView(
    root: RootObject,
    methodRef: MethodRef,
    variables: map<string, Value>,
    unavailableVariables: set<string>,
    beanResolver: Option<BeanFactory>)

  /**
   * The expression language: parsing (which may throw a parse exception),
   * evaluation to a value, and evaluation to a boolean.
   */
  datatype SpEL = SpEL(
    parse: string -> Result<Expression, Exception>,
    value: (Expression, ContextView) -> Result<Value, Exception>,
    truth: (Expression, ContextView) -> Result<bool, Exception>)

  /** `CacheEvaluationContext`: a method-based context with a set of unavailable variables. */
  class CacheEvaluationContext {
    const root: RootObject
    const methodRef: MethodRef
    var variables: map<string, Value>
    var unavailableVariables: set<string>
    var beanResolver: Option<BeanFactory>

    constructor(root: RootObject, methodRef: MethodRef)
      ensures this.root == root && this.methodRef == methodRef
      ensures variables == map[] && unavailableVariables == {} && beanResolver == None
    {
      this.root := root;
      this.methodRef := methodRef;
      variables := map[];
      unavailableVariables := {};
      beanResolver := None;
    }

    function View(): ContextView
      reads this
    {
      ContextView(root, methodRef, variables, unavailableVariables, beanResolver)
    }

    /** Marks `name` unavailable: any later lookup of it fails. */
    method AddUnavailableVariable(name: string)
      modifies this
      ensures unavailableVariables == old(unavailableVariables) + {name}
      ensures variables == old(variables) && beanResolver == old(beanResolver)
      ensures LookupVariable(name) == Failure(VariableNotAvailable(name))
    {
      unavailableVariables := unavailableVariables + {name};
    }

    method SetVariable(name: string, value: Value)
      modifies this
      ensures variables == old(variables)[name := value]
      ensures unavailableVariables == old(unavailableVariables) && beanResolver == old(beanResolver)
    {
      variables := variables[name := value];
    }

    method SetBeanResolver(beanFactory: BeanFactory)
      modifies this
      ensures beanResolver == Some(beanFactory)
      ensures variables == old(variables) && unavailableVariables == old(unavailableVariables)
    {
      beanResolver := Some(beanFactory);
    }

    /**
     * `lookupVariable`: an unavailable name fails with `VariableNotAvailable`;
     * any other name is looked up as usual, an unbound one yielding null.
     */
    function LookupVariable(name: string): (r: Result<Value, Exception>)
      reads this
      ensures r.Failure? <==> name in unavailableVariables
      ensures r.Failure? ==> r.error == VariableNotAvailable(name)
      ensures r.Success? && name in variables ==> r.value == variables[name]
      ensures r.Success? && name !in variables ==> r.value == Null
    {
      if name in unavailableVariables then Failure(VariableNotAvailable(name))
      else if name in variables then Success(variables[name])
      else Success(Null)
    }
  }

  /** `getTargetMethod`'s value for a key: the most specific method, or the method itself. */
  function TargetMethodOf(mostSpecific: (MethodRef, ClassRef) -> Option<MethodRef>, k: ElementKey): (m: MethodRef)
    ensures mostSpecific(k.element, k.targetClass).None? ==> m == k.element
    ensures mostSpecific(k.element, k.targetClass).Some? ==> m == mostSpecific(k.element, k.targetClass).value
  {
    match mostSpecific(k.element, k.targetClass)
    case Some(m) => m
    case None => k.element
  }

  /** Every memoised expression is the successful parse of its key's text. */
  ghost predicate ParsedMemo(parse: string -> Result<Expression, Exception>, memo: map<ExpressionKey, Expression>) {
    forall k :: k in memo ==> parse(k.expression) == Success(memo[k])
  }

  /**
   * `getExpression`'s memo after looking up `k`: unchanged on a hit or a
   * failed parse, extended with the parsed expression otherwise.
   */
  function Memoised(parse: string -> Result<Expression, Exception>, memo: map<ExpressionKey, Expression>,
                    k: ExpressionKey): (m: map<ExpressionKey, Expression>)
    ensures k in memo ==> m == memo
    ensures k !in memo && parse(k.expression).Failure? ==> m == memo
    ensures k !in memo && parse(k.expression).Success? ==> m == memo[k := parse(k.expression).value]
    ensures ParsedMemo(parse, memo) ==> ParsedMemo(parse, m)
  {
    if k in memo || parse(k.expression).Failure? then memo else memo[k := parse(k.expression).value]
  }

  /**
   * Once `getExpression` has looked up `k`, the key is memoised exactly when
   * its text parses, with that parse; a second lookup changes nothing more.
   */
  lemma MemoisedOnce(parse: string -> Result<Expression, Exception>, memo: map<ExpressionKey, Expression>, k: ExpressionKey)
    requires ParsedMemo(parse, memo)
    ensures k in Memoised(parse, memo, k) <==> parse(k.expression).Success?
    ensures k in Memoised(parse, memo, k) ==> Success(Memoised(parse, memo, k)[k]) == parse(k.expression)
    ensures Memoised(parse, Memoised(parse, memo, k), k) == Memoised(parse, memo, k)
  {
  }

  class Evaluator {
    var keyCache: map<ExpressionKey, Expression>
    var conditionCache: map<ExpressionKey, Expression>
    var unlessCache: map<ExpressionKey, Expression>
    var targetMethodCache: map<ElementKey, MethodRef>
    /** `AopUtils.getMostSpecificMethod`, which may yield null. */
    const mostSpecific: (MethodRef, ClassRef) -> Option<MethodRef>
    const spel: SpEL

    /** The memo tables agree with what they memoise. */
    ghost predicate Valid()
      reads this
    {
      && ParsedMemo(spel.parse, keyCache) && ParsedMemo(spel.parse, conditionCache) && ParsedMemo(spel.parse, unlessCache)
      && forall k :: k in targetMethodCache ==> targetMethodCache[k] == TargetMethodOf(mostSpecific, k)
    }

    constructor(mostSpecific: (MethodRef, ClassRef) -> Option<MethodRef>, spel: SpEL)
      ensures Valid()
      ensures keyCache == map[] && conditionCache == map[] && unlessCache == map[] && targetMethodCache == map[]
      ensures this.mostSpecific == mostSpecific && this.spel == spel
    {
      keyCache := map[];
      conditionCache := map[];
      unlessCache := map[];
      targetMethodCache := map[];
      this.mostSpecific := mostSpecific;
      this.spel := spel;
    }

    /** `clear`: empties all four memo tables. */
    method Clear()
      modifies this
      ensures Valid()
      ensures keyCache == map[] && conditionCache == map[] && unlessCache == map[] && targetMethodCache == map[]
    {
      keyCache := map[];
      conditionCache := map[];
      unlessCache := map[];
      targetMethodCache := map[];
    }

    /** `getTargetMethod`: memoised per (method, target class). */
    method GetTargetMethod(targetClass: ClassRef, methodRef: MethodRef) returns (targetMethod: MethodRef)
      requires Valid()
      modifies this
      ensures Valid()
      ensures targetMethod == TargetMethodOf(mostSpecific, ElementKey(methodRef, targetClass))
      ensures targetMethodCache == old(targetMethodCache)[ElementKey(methodRef, targetClass) := targetMethod]
      ensures keyCache == old(keyCache) && conditionCache == old(conditionCache) && unlessCache == old(unlessCache)
    {
      var methodKey := ElementKey(methodRef, targetClass);
      if methodKey in targetMethodCache {
        targetMethod := targetMethodCache[methodKey];
      } else {
        var found := mostSpecific(methodRef, targetClass);
        if found.None? {
          targetMethod := methodRef;
        } else {
          targetMethod := found.value;
        }
        targetMethodCache := targetMethodCache[methodKey := targetMethod];
      }
    }

    /**
     * `createEvaluationContext` with a result argument. The root object is
     * checked first; the `result` variable is marked unavailable for
     * `RESULT_UNAVAILABLE`, bound for a real result and left alone for
     * `NO_RESULT`; a bean resolver is attached iff there is a bean factory.
     */
    method CreateEvaluationContext(caches: seq<CacheId>, methodRef: Option<MethodRef>, args: seq<Value>,
                                   target: Value, targetClass: Option<ClassRef>, result: ResultArg,
                                   beanFactory: Option<BeanFactory>)
      returns (r: Result<CacheEvaluationContext, Exception>)
      requires Valid()
      modifies this
      ensures Valid()
      ensures keyCache == old(keyCache) && conditionCache == old(conditionCache) && unlessCache == old(unlessCache)
      ensures r.Failure? <==> NewRootObject(caches, methodRef, args, target, targetClass).Failure?
      ensures r.Failure? ==> r.error == NewRootObject(caches, methodRef, args, target, targetClass).error
      ensures r.Failure? ==> targetMethodCache == old(targetMethodCache)
      ensures r.Success? ==> targetMethodCache == old(targetMethodCache)[ElementKey(methodRef.value, targetClass.value) := r.value.methodRef]
      ensures r.Success? ==> fresh(r.value)
      ensures r.Success? ==> r.value.root == NewRootObject(caches, methodRef, args, target, targetClass).value
      ensures r.Success? ==> r.value.methodRef == TargetMethodOf(mostSpecific, ElementKey(methodRef.value, targetClass.value))
      ensures r.Success? ==> r.value.beanResolver == beanFactory
      ensures r.Success? && result == ResultUnavailable ==>
        r.value.unavailableVariables == {RESULT_VARIABLE} && r.value.variables == map[]
        && r.value.LookupVariable(RESULT_VARIABLE) == Failure(VariableNotAvailable(RESULT_VARIABLE))
      ensures r.Success? && result.Result? ==>
        r.value.unavailableVariables == {} && r.value.variables == map[RESULT_VARIABLE := result.value]
        && r.value.LookupVariable(RESULT_VARIABLE) == Success(result.value)
      ensures r.Success? && result == NoResult ==>
        r.value.unavailableVariables == {} && r.value.variables == map[]
        && r.value.LookupVariable(RESULT_VARIABLE) == Success(Null)
    {
      var rootObject := NewRootObject(caches, methodRef, args, target, targetClass);
      if rootObject.Failure? {
        return Failure(rootObject.error);
      }
      var targetMethod := GetTargetMethod(targetClass.value, methodRef.value);
      var evaluationContext := new CacheEvaluationContext(rootObject.value, targetMethod);
      if result == ResultUnavailable {
        evaluationContext.AddUnavailableVariable(RESULT_VARIABLE);
      } else if result != NoResult {
        evaluationContext.SetVariable(RESULT_VARIABLE, result.value);
      }
      if beanFactory.Some? {
        evaluationContext.SetBeanResolver(beanFactory.value);
      }
      r := Success(evaluationContext);
    }

    /** `createEvaluationContext` without a result: the full version with `NO_RESULT`. */
    method CreateEvaluationContextWithoutResult(caches: seq<CacheId>, methodRef: Option<MethodRef>, args: seq<Value>,
                                                target: Value, targetClass: Option<ClassRef>,
                                                beanFactory: Option<BeanFactory>)
      returns (r: Result<CacheEvaluationContext, Exception>)
      requires Valid()
      modifies this
      ensures Valid()
      ensures keyCache == old(keyCache) && conditionCache == old(conditionCache) && unlessCache == old(unlessCache)
      ensures r.Failure? <==> NewRootObject(caches, methodRef, args, target, targetClass).Failure?
      ensures r.Failure? ==> targetMethodCache == old(targetMethodCache)
      ensures r.Success? ==> targetMethodCache == old(targetMethodCache)[ElementKey(methodRef.value, targetClass.value) := r.value.methodRef]
      ensures r.Success? ==> fresh(r.value)
      ensures r.Success? ==> r.value.root == NewRootObject(caches, methodRef, args, target, targetClass).value
      ensures r.Success? ==> r.value.methodRef == TargetMethodOf(mostSpecific, ElementKey(methodRef.value, targetClass.value))
      ensures r.Success? ==> r.value.beanResolver == beanFactory
      ensures r.Success? ==> r.value.unavailableVariables == {} && r.value.variables == map[]
      ensures r.Success? ==> r.value.LookupVariable(RESULT_VARIABLE) == Success(Null)
    {
      r := CreateEvaluationContext(caches, methodRef, args, target, targetClass, NoResult, beanFactory);
    }

    /**
     * `key`: evaluates the parse of `keyExpression`, taken from the
     * key memo when it is there. A parse failure propagates and memoises
     * nothing; a successful parse is memoised under (method, text).
     */
    method Key(keyExpression: string, methodKey: ElementKey, evalContext: CacheEvaluationContext)
      returns (r: Result<Value, Exception>)
      requires Valid()
      modifies this
      ensures Valid()
      ensures var k := ExpressionKey(methodKey, keyExpression);
        && (k in old(keyCache) ==> r == spel.value(old(keyCache)[k], evalContext.View()))
        && (spel.parse(keyExpression).Failure? ==> r == Failure(spel.parse(keyExpression).error))
        && (spel.parse(keyExpression).Success? ==> r == spel.value(spel.parse(keyExpression).value, evalContext.View()))
        && keyCache == Memoised(spel.parse, old(keyCache), k)
      ensures conditionCache == old(conditionCache) && unlessCache == old(unlessCache)
      ensures targetMethodCache == old(targetMethodCache)
    {
      var k := ExpressionKey(methodKey, keyExpression);
      if k in keyCache {
        r := spel.value(keyCache[k], evalContext.View());
      } else {
        var parsed := spel.parse(keyExpression);
        if parsed.Failure? {
          return Failure(parsed.error);
        }
        keyCache := keyCache[k := parsed.value];
        r := spel.value(parsed.value, evalContext.View());
      }
    }

    /**
     * `condition`: evaluates the parse of `conditionExpression`, taken from the
     * condition memo when it is there. A parse failure propagates and memoises
     * nothing; a successful parse is memoised under (method, text).
     */
    method Condition(conditionExpression: string, methodKey: ElementKey, evalContext: CacheEvaluationContext)
      returns (r: Result<bool, Exception>)
      requires Valid()
      modifies this
      ensures Valid()
      ensures var k := ExpressionKey(methodKey, conditionExpression);
        && (k in old(conditionCache) ==> r == spel.truth(old(conditionCache)[k], evalContext.View()))
        && (spel.parse(conditionExpression).Failure? ==> r == Failure(spel.parse(conditionExpression).error))
        && (spel.parse(conditionExpression).Success? ==> r == spel.truth(spel.parse(conditionExpression).value, evalContext.View()))
        && conditionCache == Memoised(spel.parse, old(conditionCache), k)
      ensures keyCache == old(keyCache) && unlessCache == old(unlessCache)
      ensures targetMethodCache == old(targetMethodCache)
    {
      var k := ExpressionKey(methodKey, conditionExpression);
      if k in conditionCache {
        r := spel.truth(conditionCache[k], evalContext.View());
      } else {
        var parsed := spel.parse(conditionExpression);
        if parsed.Failure? {
          return Failure(parsed.error);
        }
        conditionCache := conditionCache[k := parsed.value];
        r := spel.truth(parsed.value, evalContext.View());
      }
    }

    /**
     * `unless`: evaluates the parse of `unlessExpression`, taken from the
     * unless memo when it is there. A parse failure propagates and memoises
     * nothing; a successful parse is memoised under (method, text).
     */
    method Unless(unlessExpression: string, methodKey: ElementKey, evalContext: CacheEvaluationContext)
      returns (r: Result<bool, Exception>)
      requires Valid()
      modifies this
      ensures Valid()
      ensures var k := ExpressionKey(methodKey, unlessExpression);
        && (k in old(unlessCache) ==> r == spel.truth(old(unlessCache)[k], evalContext.View()))
        && (spel.parse(unlessExpression).Failure? ==> r == Failure(spel.parse(unlessExpression).error))
        && (spel.parse(unlessExpression).Success? ==> r == spel.truth(spel.parse(unlessExpression).value, evalContext.View()))
        && unlessCache == Memoised(spel.parse, old(unlessCache), k)
      ensures keyCache == old(keyCache) && conditionCache == old(conditionCache)
      ensures targetMethodCache == old(targetMethodCache)
    {
      var k := ExpressionKey(methodKey, unlessExpression);
      if k in unlessCache {
        r := spel.truth(unlessCache[k], evalContext.View());
      } else {
        var parsed := spel.parse(unlessExpression);
        if parsed.Failure? {
          return Failure(parsed.error);
        }
        unlessCache := unlessCache[k := parsed.value];
        r := spel.truth(parsed.value, evalContext.View());
      }
    }
  }

  /**
   * A result-unavailable context makes only the `result` variable fail:
   * every other name is looked up exactly as in a context without a result.
   */
  lemma UnavailableOnlyAffectsResult(withResult: CacheEvaluationContext, without: CacheEvaluationContext, name: string)
    requires withResult.unavailableVariables == {RESULT_VARIABLE} && without.unavailableVariables == {}
    requires withResult.variables == without.variables
    ensures name == RESULT_VARIABLE ==> withResult.LookupVariable(name).Failure? && without.LookupVariable(name).Success?
    ensures name != RESULT_VARIABLE ==> withResult.LookupVariable(name) == without.LookupVariable(name)
  {
  }
}
