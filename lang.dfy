/**
 * The pieces of the Java platform the caching core relies on, stated in
 * Dafny's terms: 64-bit longs with truncating division, `Character.isWhitespace`
 * and Spring's `StringUtils.hasText`, `String.compareTo`, `java.util.concurrent.TimeUnit`,
 * the insertion-ordered `LinkedHashSet`, and the objects and exceptions that flow
 * through the cache layer.
 */
module Lang {
  import opened Wrappers

  const LONG_MIN: int := -0x8000_0000_0000_0000
  const LONG_MAX: int := 0x7FFF_FFFF_FFFF_FFFF

  /** A Java `long`. */
  type Long = x: int | LONG_MIN <= x <= LONG_MAX

  /** Java's `/` on a positive divisor: the quotient is truncated toward zero. */
  function JavaDiv(a: int, b: int): (q: int)
    requires b > 0
    ensures a >= 0 ==> 0 <= q && q * b <= a < q * b + b
    ensures a < 0 ==> q <= 0 && q * b - b < a <= q * b
  {
    if a >= 0 then a / b else -((-a) / b)
  }

  // ---------------------------------------------------------------- text

  /**
   * `Character.isWhitespace` as of Java 8 (Unicode 6.2): the space, line and
   * paragraph separators other than the three non-breaking spaces, plus the
   * ASCII controls TAB, LF, VT, FF, CR and the four information separators.
   */
  predicate IsWhitespace(c: char) {
    var n := c as int;
    (9 <= n <= 13) || (28 <= n <= 31) || n == 0x20 || n == 0x1680 || n == 0x180E
    || (0x2000 <= n <= 0x200A && n != 0x2007) || n == 0x2028 || n == 0x2029
    || n == 0x205F || n == 0x3000
  }

  /** Spring's `StringUtils.hasText`: the string holds at least one non-whitespace character. */
  predicate HasText(s: string) {
    exists i :: 0 <= i < |s| && !IsWhitespace(s[i])
  }

  lemma EmptyHasNoText()
    ensures !HasText("")
  {
  }

  /**
   * A character's UTF-16 encoding, as a Java string stores it: one code unit
   * in the Basic Multilingual Plane, a surrogate pair above it.
   */
  function CharUnits(c: char): (u: seq<int>)
    ensures c as int < 0x10000 ==> u == [c as int]
    ensures c as int >= 0x10000 ==> |u| == 2 && 0xD800 <= u[0] < 0xDC00 && 0xDC00 <= u[1] < 0xE000
  {
    if c as int < 0x10000 then [c as int]
    else
      var v := c as int - 0x10000;
      [0xD800 + v / 0x400, 0xDC00 + v % 0x400]
  }

  /** A string's UTF-16 code units. */
  function CodeUnits(s: string): seq<int>
    decreases |s|
  {
    if s == [] then [] else CharUnits(s[0]) + CodeUnits(s[1..])
  }

  /** Lexicographic comparison of code units: the first difference, or else the difference of the lengths. */
  function CompareUnits(a: seq<int>, b: seq<int>): int
    decreases |a|
  {
    if a == [] || b == [] then |a| - |b|
    else if a[0] != b[0] then a[0] - b[0]
    else CompareUnits(a[1..], b[1..])
  }

  /** `String.compareTo`, which compares UTF-16 code units. */
  function CompareTo(a: string, b: string): int {
    CompareUnits(CodeUnits(a), CodeUnits(b))
  }

  lemma {:induction false} CompareUnitsAntisymmetric(a: seq<int>, b: seq<int>)
    ensures CompareUnits(a, b) == -CompareUnits(b, a)
    decreases |a|
  {
    if a != [] && b != [] && a[0] == b[0] {
      CompareUnitsAntisymmetric(a[1..], b[1..]);
    }
  }

  lemma {:induction false} CompareUnitsZeroIffEqual(a: seq<int>, b: seq<int>)
    ensures CompareUnits(a, b) == 0 <==> a == b
    decreases |a|
  {
    if a != [] && b != [] && a[0] == b[0] {
      CompareUnitsZeroIffEqual(a[1..], b[1..]);
      assert a == [a[0]] + a[1..] && b == [b[0]] + b[1..];
    } else if a != [] && b != [] {
      assert a[0] != b[0];
    }
  }

  /** Distinct characters have distinct encodings, and neither encoding is a prefix of the other. */
  lemma CharUnitsPrefixFree(c: char, d: char, rest: seq<int>, rest': seq<int>)
    requires CharUnits(c) + rest == CharUnits(d) + rest'
    ensures c == d && rest == rest'
  {
    var u, w := CharUnits(c), CharUnits(d);
    assert u[0] == (u + rest)[0] == (w + rest')[0] == w[0];
    if c as int < 0x10000 && d as int < 0x10000 {
      assert rest == (u + rest)[1..];
    } else if c as int >= 0x10000 && d as int >= 0x10000 {
      assert u[1] == (u + rest)[1] == (w + rest')[1] == w[1];
      var v, x := c as int - 0x10000, d as int - 0x10000;
      assert v == 0x400 * (v / 0x400) + v % 0x400;
      assert x == 0x400 * (x / 0x400) + x % 0x400;
      assert rest == (u + rest)[2..];
      assert rest' == (w + rest')[2..];
    }
  }

  /** The UTF-16 encoding loses nothing: equal code units come from equal strings. */
  lemma {:induction false} CodeUnitsInjective(a: string, b: string)
    requires CodeUnits(a) == CodeUnits(b)
    ensures a == b
    decreases |a|
  {
    if a != [] && b != [] {
      CharUnitsPrefixFree(a[0], b[0], CodeUnits(a[1..]), CodeUnits(b[1..]));
      CodeUnitsInjective(a[1..], b[1..]);
      assert a == [a[0]] + a[1..] && b == [b[0]] + b[1..];
    }
  }

  /** `compareTo` is antisymmetric ... */
  lemma CompareToAntisymmetric(a: string, b: string)
    ensures CompareTo(a, b) == -CompareTo(b, a)
  {
    CompareUnitsAntisymmetric(CodeUnits(a), CodeUnits(b));
  }

  /** ... and is zero exactly on equal strings. */
  lemma CompareToZeroIffEqual(a: string, b: string)
    ensures CompareTo(a, b) == 0 <==> a == b
  {
    CompareUnitsZeroIffEqual(CodeUnits(a), CodeUnits(b));
    if CodeUnits(a) == CodeUnits(b) {
      CodeUnitsInjective(a, b);
    }
  }

  /**
   * Code-unit order is not code-point order: U+FFFF sorts after U+1F600,
   * whose high surrogate 0xD83D is smaller than 0xFFFF.
   */
  lemma CompareToByCodeUnits()
    ensures CompareTo("\U{FFFF}", "\U{1F600}") == 0xFFFF - 0xD83D
    ensures CompareTo("\U{FFFF}", "\U{1F600}") > 0
  {
    assert CodeUnits("\U{1F600}") == [0xD83D, 0xDE00];
    assert CodeUnits("\U{FFFF}") == [0xFFFF];
  }

  // ---------------------------------------------------------------- collections

  /** Element-wise distinct. */
  predicate NoDuplicates<T(==)>(s: seq<T>) {
    forall i, j :: 0 <= i < j < |s| ==> s[i] != s[j]
  }

  /**
   * Adding the names of `s` one by one to a `LinkedHashSet`: the first
   * occurrence of each element keeps its place, later ones are dropped.
   */
  function Dedup(s: seq<string>): (r: seq<string>)
    ensures NoDuplicates(r)
    ensures forall x :: x in r <==> x in s
    ensures |r| <= |s|
    decreases |s|
  {
    if s == [] then []
    else
      var d := Dedup(s[..|s| - 1]);
      var last := s[|s| - 1];
      assert forall x :: x in s <==> x in s[..|s| - 1] || x == last by {
        assert s == s[..|s| - 1] + [last];
      }
      if last in d then d else d + [last]
  }

  /** Without repeated elements, the set keeps the sequence as it is. */
  lemma {:induction false} DedupOfDistinct(s: seq<string>)
    requires NoDuplicates(s)
    ensures Dedup(s) == s
    decreases |s|
  {
    if s != [] {
      var init := s[..|s| - 1];
      assert NoDuplicates(init);
      DedupOfDistinct(init);
      assert s[|s| - 1] !in init;
      assert s == init + [s[|s| - 1]];
    }
  }

  /**
   * The first occurrences of `s`, read from the front: an element is kept
   * unless it occurs in `before` or was already kept.
   */
  function FirstOccurrences(s: seq<string>, before: seq<string>): seq<string>
    decreases |s|
  {
    if s == [] then []
    else if s[0] in before then FirstOccurrences(s[1..], before)
    else [s[0]] + FirstOccurrences(s[1..], before + [s[0]])
  }

  /** Appending one name adds it exactly when neither `before` nor `s` has it. */
  lemma {:induction false} FirstOccurrencesSnoc(s: seq<string>, before: seq<string>, x: string)
    ensures FirstOccurrences(s + [x], before)
         == if x in before + s then FirstOccurrences(s, before) else FirstOccurrences(s, before) + [x]
    decreases |s|
  {
    if s == [] {
      assert before + s == before;
    } else {
      var y := s[0];
      assert (s + [x])[0] == y && (s + [x])[1..] == s[1..] + [x];
      assert x in before + s <==> x in before + [y] + s[1..] by {
        assert before + s == before + [y] + s[1..];
      }
      if y in before {
        FirstOccurrencesSnoc(s[1..], before, x);
        assert x in before + s <==> x in before + s[1..];
      } else {
        FirstOccurrencesSnoc(s[1..], before + [y], x);
      }
    }
  }

  /**
   * Hence the `LinkedHashSet` order: `Dedup` keeps exactly the first
   * occurrence of each element, in the order of those first occurrences.
   */
  lemma {:induction false} DedupKeepsFirstOccurrences(s: seq<string>)
    ensures Dedup(s) == FirstOccurrences(s, [])
    decreases |s|
  {
    if s != [] {
      var init := s[..|s| - 1];
      var last := s[|s| - 1];
      DedupKeepsFirstOccurrences(init);
      FirstOccurrencesSnoc(init, [], last);
      assert s == init + [last];
      assert [] + init == init;
    }
  }

  // ---------------------------------------------------------------- time units

  datatype TimeUnit = Nanoseconds | Microseconds | Milliseconds | Seconds | Minutes | Hours | Days

  /** `TimeUnit.toString()`: the enum constant's name. */
  function UnitName(u: TimeUnit): string {
    match u
    case Nanoseconds => "NANOSECONDS"
    case Microseconds => "MICROSECONDS"
    case Milliseconds => "MILLISECONDS"
    case Seconds => "SECONDS"
    case Minutes => "MINUTES"
    case Hours => "HOURS"
    case Days => "DAYS"
  }

  /** Java 8's overflow-checked `d * m`: saturates at `Long.MAX_VALUE` / `Long.MIN_VALUE`. */
  function SaturatingScale(d: Long, m: int): (r: Long)
    requires 0 < m
  {
    var over := LONG_MAX / m;
    if d > over then LONG_MAX
    else if d < -over then LONG_MIN
    else
      assert -over * m <= d * m <= over * m;
      d * m
  }

  /**
   * `TimeUnit.SECONDS.convert(d, unit)`: finer units are divided with
   * truncation, coarser units multiplied with saturation, and a null unit
   * raises a `NullPointerException`.
   */
  function ConvertToSeconds(d: Long, unit: Option<TimeUnit>): (r: Result<Long, Exception>)
    ensures unit.None? <==> r == Failure(NullPointer)
    ensures unit == Some(Seconds) ==> r == Success(d)
  {
    match unit
    case None => Failure(NullPointer)
    case Some(u) =>
      match u
      case Nanoseconds => Success(JavaDiv(d, 1_000_000_000))
      case Microseconds => Success(JavaDiv(d, 1_000_000))
      case Milliseconds => Success(JavaDiv(d, 1000))
      case Seconds => Success(d)
      case Minutes => Success(SaturatingScale(d, 60))
      case Hours => Success(SaturatingScale(d, 3600))
      case Days => Success(SaturatingScale(d, 86400))
  }

  /** Seconds per unit for the units coarser than a second, and the divisor for the finer ones. */
  function UnitRatio(u: TimeUnit): (m: int)
    ensures m > 0
  {
    match u
    case Nanoseconds => 1_000_000_000
    case Microseconds => 1_000_000
    case Milliseconds => 1000
    case Seconds => 1
    case Minutes => 60
    case Hours => 3600
    case Days => 86400
  }

  /** Coarser units scale exactly, negative durations included, while the product fits in a long. */
  lemma ConvertCoarseExact(d: Long, u: TimeUnit)
    requires u in {Minutes, Hours, Days}
    requires -(LONG_MAX / UnitRatio(u)) <= d <= LONG_MAX / UnitRatio(u)
    ensures ConvertToSeconds(d, Some(u)) == Success(d * UnitRatio(u))
  {
  }

  /** Beyond that range the conversion saturates at `Long.MAX_VALUE` or `Long.MIN_VALUE`. */
  lemma ConvertCoarseSaturates(d: Long, u: TimeUnit)
    requires u in {Minutes, Hours, Days}
    ensures d > LONG_MAX / UnitRatio(u) ==> ConvertToSeconds(d, Some(u)) == Success(LONG_MAX)
    ensures d < -(LONG_MAX / UnitRatio(u)) ==> ConvertToSeconds(d, Some(u)) == Success(LONG_MIN)
  {
  }

  /**
   * Finer units divide with truncation toward zero: the magnitude never
   * grows, the sign is kept, and the result is the quotient by the unit's ratio.
   */
  lemma ConvertFineShrinks(d: Long, u: TimeUnit)
    requires u in {Nanoseconds, Microseconds, Milliseconds}
    ensures ConvertToSeconds(d, Some(u)).Success?
    ensures var s := ConvertToSeconds(d, Some(u)).value; var m := UnitRatio(u);
      && (d >= 0 ==> 0 <= s <= d && s * m <= d < s * m + m)
      && (d < 0 ==> d <= s <= 0 && s * m - m < d <= s * m)
  {
  }

  // ---------------------------------------------------------------- objects and exceptions

  /** A cache name as the backend knows it. */
  type CacheId = string

  /**
   * A Java object as the cache layer sees it: `null`, an opaque reference, or
   * a `java.util.Optional`; `Optional(Null)` is `Optional.empty()`.
   */
  datatype Value = Null | Ref(id: int) | Optional(content: Value)

  /** The opaque identity of a throwable produced by the invoked method. */
  type Throwable = int

  datatype ArgumentProblem =
    | NullKey                 // a generated cache key was null
    | MissingCache(name: string)  // no cache of that name
    | NestedOptional          // Optional inside Optional
    | NullMethod              // root object without a method
    | NullTargetClass         // root object without a target class

  datatype StateProblem =
    | SyncCombined            // sync=true together with other operations
    | SyncMultipleEntries     // more than one sync Cacheable entry
    | SyncMultipleCaches      // sync=true on more than one cache
    | SyncWithUnless          // sync=true with an unless expression
    | KeyAndKeyGenerator      // both 'key' and 'keyGenerator' set
    | ManagerAndResolver      // both 'cacheManager' and 'cacheResolver' set

  datatype Exception =
    | IllegalArgument(argument: ArgumentProblem)
    | IllegalState(state: StateProblem)
    | NullPointer
    | NoSuchElement
    | ClassCast
    | VariableNotAvailable(name: string)            // this project's VariableNotAvailableException
    | SpringVariableNotAvailable(name: string)      // Spring's own, raised by Spring's evaluator
    | CacheFailure(cache: CacheId)        // a RuntimeException from a cache backend
    | Thrown(cause: Throwable)            // CacheOperationInvoker.ThrowableWrapper
}
