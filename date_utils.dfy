/**
 * Date helpers of the browser (date-utils.js). Parsing a timestamp, reading
 * the clock and locale formatting are inputs: the time value `new Date(...)`
 * gives (None when it is NaN), `Date.now()`, and the text toLocaleDateString
 * produces. JavaScript null/undefined are written as the empty string, which
 * every function here treats as falsy in the same way.
 */
module DateUtils {
  import opened Wrappers
  import opened Text

  /** An ISO string with a time part, no '+' offset and no 'Z' is read as UTC by adding 'Z'. */
  predicate NeedsUtcSuffix(isoString: string) {
    Contains(isoString, 'T') && !Contains(isoString, '+') && !EndsWith(isoString, 'Z')
  }

  function EnsureUtc(isoString: string): (r: string)
    ensures isoString == "" ==> r == isoString
    ensures r == isoString || r == isoString + "Z"
    ensures r != isoString <==> NeedsUtcSuffix(isoString)
  {
    if isoString == "" then isoString
    else if !EndsWith(isoString, 'Z') && !Contains(isoString, '+') && !Contains(isoString, 'T') then isoString
    else if !EndsWith(isoString, 'Z') && Contains(isoString, 'T') && !Contains(isoString, '+') then isoString + "Z"
    else isoString
  }

  lemma EnsureUtcIdempotent(isoString: string)
    ensures EnsureUtc(EnsureUtc(isoString)) == EnsureUtc(isoString)
  {
    var once := EnsureUtc(isoString);
    if once != isoString {
      assert once[|once| - 1] == 'Z';
      assert EndsWith(once, 'Z');
    }
  }

  /** What formatPostTime and formatDate give for a falsy input. */
  const PostTimeFallback: string := ""
  const DateFallback: string := "N/A"

  /**
   * formatPostTime (with PostTimeFallback and the short locale text) and
   * formatDate (with DateFallback and the long locale text): the fallback
   * for a falsy input, otherwise the locale text.
   */
  function FormatLocal(isoString: string, fallback: string, localized: string): (r: string)
    ensures isoString == "" ==> r == fallback
    ensures isoString != "" ==> r == localized
  {
    if isoString == "" then fallback else localized
  }

  /** The bucket formatRelativeTime picks for an elapsed time. */
  datatype Elapsed = JustNow | MinutesAgo(n: nat) | HoursAgo(n: nat) | DaysAgo(n: nat) | Older

  /**
   * Buckets a millisecond difference with successive Math.floor divisions.
   * Dafny's division by a positive constant rounds toward negative infinity,
   * as Math.floor of the quotient does.
   */
  function Classify(diffMs: int): (e: Elapsed)
    ensures e.MinutesAgo? ==> 1 <= e.n < 60
    ensures e.HoursAgo? ==> 1 <= e.n < 24
    ensures e.DaysAgo? ==> 1 <= e.n < 7
  {
    var diffSecs := diffMs / 1000;
    var diffMins := diffSecs / 60;
    var diffHours := diffMins / 60;
    var diffDays := diffHours / 24;
    if diffSecs < 60 then JustNow
    else if diffMins < 60 then MinutesAgo(diffMins)
    else if diffHours < 24 then HoursAgo(diffHours)
    else if diffDays < 7 then DaysAgo(diffDays)
    else Older
  }

  /** Euclidean division is determined by quotient and remainder. */
  lemma DivUnique(a: int, d: int, q: int, r: int)
    requires d > 0 && 0 <= r < d && a == d * q + r
    ensures a / d == q
  {
    var q', r' := a / d, a % d;
    var k := q - q';
    assert d * k == r' - r by { assert d * q - d * q' == d * (q - q'); }
    if k >= 1 {
      MulAtLeast(d, k);
    } else if k <= -1 {
      MulAtLeast(d, -k);
    }
  }

  lemma MulAtLeast(d: int, k: int)
    requires d > 0 && k >= 1
    ensures d * k >= d
  {
    assert d * k == d + d * (k - 1);
    assert d * (k - 1) >= 0;
  }

  /** Flooring twice is flooring once by the product. */
  lemma FloorDivNested(a: int, b: int, c: int)
    requires b > 0 && c > 0
    ensures (a / b) / c == a / (b * c)
  {
    var q1, r1 := a / b, a % b;
    var q2, r2 := q1 / c, q1 % c;
    Regroup(a, b, c, q1, r1, q2, r2);
    RemainderBelowProduct(b, c, r1, r2);
    DivUnique(a, b * c, q2, b * r2 + r1);
  }

  /** Substituting the inner division into the outer one. */
  lemma Regroup(a: int, b: int, c: int, q1: int, r1: int, q2: int, r2: int)
    requires a == b * q1 + r1 && q1 == c * q2 + r2
    ensures a == (b * c) * q2 + (b * r2 + r1)
  {
    assert b * q1 == b * (c * q2) + b * r2;
    assert b * (c * q2) == (b * c) * q2;
  }

  /** The combined remainder stays below the product. */
  lemma RemainderBelowProduct(b: int, c: int, r1: int, r2: int)
    requires b > 0 && 0 <= r1 < b && 0 <= r2 < c
    ensures 0 <= b * r2 + r1 < b * c
  {
    assert b * r2 <= b * (c - 1) by { assert b * (c - 1) - b * r2 == b * (c - 1 - r2); }
    assert b * (c - 1) == b * c - b;
  }

  /** The buckets as single floor divisions of the millisecond difference. */
  lemma ClassifyBuckets(diffMs: int)
    ensures diffMs < 60000 ==> Classify(diffMs) == JustNow
    ensures 60000 <= diffMs < 3600000 ==> Classify(diffMs) == MinutesAgo(diffMs / 60000)
    ensures 3600000 <= diffMs < 86400000 ==> Classify(diffMs) == HoursAgo(diffMs / 3600000)
    ensures 86400000 <= diffMs < 604800000 ==> Classify(diffMs) == DaysAgo(diffMs / 86400000)
    ensures 604800000 <= diffMs ==> Classify(diffMs) == Older
  {
    FloorDivNested(diffMs, 1000, 60);
    FloorDivNested(diffMs, 60000, 60);
    FloorDivNested(diffMs, 3600000, 24);
    var secs := diffMs / 1000;
    assert diffMs < 60000 <==> secs < 60;
    assert diffMs < 3600000 <==> diffMs / 60000 < 60;
    assert diffMs < 86400000 <==> diffMs / 3600000 < 24;
    assert diffMs < 604800000 <==> diffMs / 86400000 < 7;
  }

  function Digit(d: nat): (c: char)
    requires d < 10
    ensures c as int - '0' as int == d
  {
    "0123456789"[d]
  }

  /** Decimal text of a number, as a template literal writes it. */
  function NatToString(n: nat): (s: string)
    ensures |s| >= 1
    ensures forall i :: 0 <= i < |s| ==> '0' <= s[i] <= '9'
  {
    if n < 10 then [Digit(n)] else NatToString(n / 10) + [Digit(n % 10)]
  }

  /** Reads back decimal text. */
  function ParseNat(s: string): nat
    requires forall i :: 0 <= i < |s| ==> '0' <= s[i] <= '9'
  {
    if s == [] then 0 else 10 * ParseNat(s[..|s| - 1]) + (s[|s| - 1] as int - '0' as int)
  }

  lemma {:induction false} NatToStringRoundTrip(n: nat)
    ensures ParseNat(NatToString(n)) == n
  {
    var s := NatToString(n);
    if n >= 10 {
      var init := NatToString(n / 10);
      NatToStringRoundTrip(n / 10);
      assert s == init + [Digit(n % 10)];
      assert s[..|s| - 1] == init;
      assert ParseNat(s) == 10 * ParseNat(init) + n % 10;
    }
  }

  /** "<n> <unit> ago", singular when n is 1. */
  function Ago(n: nat, singular: string, plural: string): string {
    NatToString(n) + " " + (if n == 1 then singular else plural) + " ago"
  }

  function Render(e: Elapsed): string
    requires !e.Older?
  {
    match e
    case JustNow => "just now"
    case MinutesAgo(n) => Ago(n, "minute", "minutes")
    case HoursAgo(n) => Ago(n, "hour", "hours")
    case DaysAgo(n) => Ago(n, "day", "days")
  }

  /**
   * formatRelativeTime(isoString) at time nowMs, where dateMs is the time
   * value of new Date(ensureUtc(isoString)) and localized the text of the
   * absolute formatter. An unparsable date makes every comparison false and
   * falls through to the absolute formatter.
   */
  function FormatRelativeTime(isoString: string, nowMs: int, dateMs: Option<int>, localized: string): (r: string)
    ensures isoString == "" ==> r == ""
    ensures isoString != "" && dateMs.Some? && nowMs - dateMs.value < 60000 ==> r == "just now"
    ensures isoString != "" && (dateMs.None? || nowMs - dateMs.value >= 604800000) ==> r == localized
    ensures isoString != "" && dateMs.Some? && 60000 <= nowMs - dateMs.value < 3600000 ==>
      var n := (nowMs - dateMs.value) / 60000; r == Ago(n, "minute", "minutes")
  {
    if isoString == "" then ""
    else match dateMs
      case None => FormatLocal(isoString, PostTimeFallback, localized)
      case Some(dateValue) =>
        var e := Classify(nowMs - dateValue);
        ClassifyBuckets(nowMs - dateValue);
        if e.Older? then FormatLocal(isoString, PostTimeFallback, localized) else Render(e)
  }

  /** Hours and days render like minutes. */
  lemma FormatRelativeTimeHoursDays(isoString: string, nowMs: int, dateMs: int, localized: string)
    requires isoString != ""
    ensures var d := nowMs - dateMs;
      3600000 <= d < 86400000 ==> FormatRelativeTime(isoString, nowMs, Some(dateMs), localized) == Ago(d / 3600000, "hour", "hours")
    ensures var d := nowMs - dateMs;
      86400000 <= d < 604800000 ==> FormatRelativeTime(isoString, nowMs, Some(dateMs), localized) == Ago(d / 86400000, "day", "days")
  {
    ClassifyBuckets(nowMs - dateMs);
  }

  /** One minute reads "1 minute ago", two read "2 minutes ago". */
  lemma SingularUnit()
    ensures Ago(1, "minute", "minutes") == "1 minute ago"
    ensures Ago(2, "minute", "minutes") == "2 minutes ago"
  {
    assert NatToString(1) == "1";
    assert NatToString(2) == "2";
  }
}
