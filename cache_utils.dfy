/**
 * `CacheUtils.addExpireableDesc`: appends the expire/unit part of an operation
 * description to a `StringBuilder`, creating one when given null.
 */
module CacheUtils {
  import opened Wrappers
  import opened Lang

  /** `java.lang.StringBuilder`, reduced to its character content. */
  class StringBuilder {
    var content: string

    constructor (initial: string)
      ensures content == initial
    {
      content := initial;
    }

    method Append(s: string)
      modifies this
      ensures content == old(content) + s
    {
      content := content + s;
    }
  }

  // ---------------------------------------------------------------- decimal text of a long

  function DigitChar(d: int): (c: char)
    requires 0 <= d < 10
    ensures '0' <= c <= '9' && c as int - '0' as int == d
  {
    (d + '0' as int) as char
  }

  predicate IsDigits(s: string) {
    forall i :: 0 <= i < |s| ==> '0' <= s[i] <= '9'
  }

  /** Decimal digits of a natural number, most significant first, no leading zeros. */
  function NatText(n: nat): (s: string)
    ensures |s| > 0 && IsDigits(s)
    decreases n
  {
    if n < 10 then [DigitChar(n)] else NatText(n / 10) + [DigitChar(n % 10)]
  }

  /** `StringBuilder.append(long)`: a minus sign for negatives, then the digits. */
  function LongText(x: int): string {
    if x < 0 then "-" + NatText(-x) else NatText(x)
  }

  /** `StringBuilder.append(Object)` on a `TimeUnit`, which may be null. */
  function UnitText(u: Option<TimeUnit>): string {
    match u
    case None => "null"
    case Some(unit) => UnitName(unit)
  }

  /** The value of a string of decimal digits. */
  function DigitsValue(s: string): nat
    requires IsDigits(s)
    decreases |s|
  {
    if s == [] then 0 else DigitsValue(s[..|s| - 1]) * 10 + (s[|s| - 1] as int - '0' as int)
  }

  /** Reading the digits of `NatText(n)` gives `n` back. */
  lemma {:induction false} NatTextRoundTrip(n: nat)
    ensures DigitsValue(NatText(n)) == n
    decreases n
  {
    if n >= 10 {
      NatTextRoundTrip(n / 10);
      var s := NatText(n);
      assert s[..|s| - 1] == NatText(n / 10);
    }
  }

  /** `Long.parseLong` on the text this module produces. */
  function ParseLong(s: string): Option<int> {
    if |s| > 1 && s[0] == '-' && IsDigits(s[1..]) then
      var magnitude: int := DigitsValue(s[1..]);
      Some(-magnitude)
    else if |s| > 0 && IsDigits(s) then Some(DigitsValue(s))
    else None
  }

  lemma LongTextRoundTrip(x: int)
    ensures ParseLong(LongText(x)) == Some(x)
  {
    var s := LongText(x);
    if x < 0 {
      var digits := NatText(-x);
      NatTextRoundTrip(-x);
      assert s == "-" + digits;
      assert s[1..] == digits;
      assert |s| > 1 && s[0] == '-' && IsDigits(s[1..]);
      assert ParseLong(s) == Some(-(DigitsValue(digits) as int));
    } else {
      NatTextRoundTrip(x);
      assert s[0] != '-';
    }
  }

  function ParseUnit(s: string): Option<Option<TimeUnit>> {
    if s == "null" then Some(None)
    else if s == "NANOSECONDS" then Some(Some(Nanoseconds))
    else if s == "MICROSECONDS" then Some(Some(Microseconds))
    else if s == "MILLISECONDS" then Some(Some(Milliseconds))
    else if s == "SECONDS" then Some(Some(Seconds))
    else if s == "MINUTES" then Some(Some(Minutes))
    else if s == "HOURS" then Some(Some(Hours))
    else if s == "DAYS" then Some(Some(Days))
    else None
  }

  // ---------------------------------------------------------------- the description suffix

  const EXPIRE_OPEN: string := " | expire='"
  const UNIT_OPEN: string := "' | timeUnit='"

  /** Exactly the text `addExpireableDesc` appends. */
  function ExpireableDesc(expire: Long, unit: Option<TimeUnit>): string {
    " | expire='" + LongText(expire) + "'" + " | timeUnit='" + UnitText(unit) + "'"
  }

  /** Position of the first single quote, or the length when there is none. */
  function QuoteIndex(s: string): (k: nat)
    ensures k <= |s|
    ensures k < |s| ==> s[k] == '\''
    ensures forall i :: 0 <= i < k ==> s[i] != '\''
  {
    if s == [] then 0 else if s[0] == '\'' then 0 else 1 + QuoteIndex(s[1..])
  }

  /** Reads an expire/unit suffix back: the inverse of `ExpireableDesc`. */
  function DecodeExpireableDesc(s: string): Option<(int, Option<TimeUnit>)> {
    if |s| < |EXPIRE_OPEN| || s[..|EXPIRE_OPEN|] != EXPIRE_OPEN then None
    else
      var rest := s[|EXPIRE_OPEN|..];
      var q := QuoteIndex(rest);
      var tail := rest[q..];
      if |tail| < |UNIT_OPEN| + 1 || tail[..|UNIT_OPEN|] != UNIT_OPEN || tail[|tail| - 1] != '\'' then None
      else
        match (ParseLong(rest[..q]), ParseUnit(tail[|UNIT_OPEN|..|tail| - 1]))
        case (Some(e), Some(u)) => Some((e, u))
        case _ => None
  }

  lemma UnitTextRoundTrip(u: Option<TimeUnit>)
    ensures ParseUnit(UnitText(u)) == Some(u)
  {
  }

  lemma LongTextHasNoQuote(x: int)
    ensures forall i :: 0 <= i < |LongText(x)| ==> LongText(x)[i] != '\''
  {
    var t := LongText(x);
    if x < 0 {
      assert t == "-" + NatText(-x);
      forall i | 0 <= i < |t| ensures t[i] != '\'' {
        if i > 0 { assert t[i] == NatText(-x)[i - 1]; }
      }
    }
  }

  /** Helper: sequence arithmetic for splitting a text at a separator. */
  lemma SplitAt(p: string, r: string)
    ensures (p + r)[..|p|] == p && (p + r)[|p|..] == r
  {
  }

  /** The suffix regrouped as opening text, number, and the unit part. */
  lemma ExpireableDescShape(expire: Long, unit: Option<TimeUnit>)
    ensures ExpireableDesc(expire, unit) == EXPIRE_OPEN + (LongText(expire) + (UNIT_OPEN + UnitText(unit) + "'"))
  {
    var n, t := LongText(expire), UnitText(unit);
    var e, q, u := " | expire='", "'", " | timeUnit='";
    assert q + u == UNIT_OPEN;
    calc {
      ExpireableDesc(expire, unit);
      e + n + q + u + t + q;
      { Regroup(e + n, q, u); }
      (e + n) + (q + u) + t + q;
      { Regroup(e + n, q + u, t); }
      (e + n) + ((q + u) + t) + q;
      { Regroup(e + n, (q + u) + t, q); }
      (e + n) + ((q + u) + t + q);
      { Regroup(e, n, (q + u) + t + q); }
      EXPIRE_OPEN + (n + (UNIT_OPEN + t + q));
    }
  }

  /** Helper: associativity of concatenation, one step of a calculation. */
  lemma Regroup(a: string, b: string, c: string)
    ensures a + b + c == a + (b + c)
  {
  }

  /** The first quote after the number is the one that closes it. */
  lemma QuoteAfterNumber(n: string, tail: string)
    requires forall i :: 0 <= i < |n| ==> n[i] != '\''
    requires |tail| > 0 && tail[0] == '\''
    ensures QuoteIndex(n + tail) == |n|
    decreases |n|
  {
    if n != [] {
      assert (n + tail)[1..] == n[1..] + tail;
      QuoteAfterNumber(n[1..], tail);
    }
  }

  /** The suffix determines the expire value and the unit it was built from. */
  lemma DecodeExpireableDescRoundTrip(expire: Long, unit: Option<TimeUnit>)
    ensures DecodeExpireableDesc(ExpireableDesc(expire, unit)) == Some((expire as int, unit))
  {
    var n, t := LongText(expire), UnitText(unit);
    var tail := UNIT_OPEN + t + "'";
    var s := ExpireableDesc(expire, unit);
    ExpireableDescShape(expire, unit);
    SplitAt(EXPIRE_OPEN, n + tail);
    var rest := s[|EXPIRE_OPEN|..];
    LongTextHasNoQuote(expire);
    QuoteAfterNumber(n, tail);
    SplitAt(n, tail);
    assert rest[..QuoteIndex(rest)] == n && rest[QuoteIndex(rest)..] == tail;
    SplitAt(UNIT_OPEN, t + "'");
    assert tail == UNIT_OPEN + (t + "'");
    assert tail[|UNIT_OPEN|..|tail| - 1] == t;
    LongTextRoundTrip(expire);
    UnitTextRoundTrip(unit);
  }

  /**
   * Appends ` | expire='<expire>' | timeUnit='<unit>'` to `raw`, or to a
   * fresh builder when `raw` is null, and returns the builder appended to.
   */
  method AddExpireableDesc(raw: StringBuilder?, expire: Long, timeUnit: Option<TimeUnit>)
    returns (sb: StringBuilder)
    modifies raw
    ensures raw != null ==> sb == raw
    ensures raw == null ==> fresh(sb)
    ensures sb.content == (if raw == null then "" else old(raw.content)) + ExpireableDesc(expire, timeUnit)
  {
    if raw == null {
      sb := new StringBuilder("");
    } else {
      sb := raw;
    }
    ghost var before := sb.content;
    sb.Append(" | expire='");
    sb.Append(LongText(expire));
    sb.Append("'");
    sb.Append(" | timeUnit='");
    sb.Append(UnitText(timeUnit));
    sb.Append("'");
    AppendSix(before, " | expire='", LongText(expire), "'", " | timeUnit='", UnitText(timeUnit), "'");
  }

  /** Helper: regroups a six-part concatenation. */
  lemma AppendSix(b: string, s1: string, s2: string, s3: string, s4: string, s5: string, s6: string)
    ensures b + s1 + s2 + s3 + s4 + s5 + s6 == b + (s1 + s2 + s3 + s4 + s5 + s6)
  {
  }
}
