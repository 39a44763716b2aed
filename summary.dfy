/**
 * The watched-list summary of src/App.js: the number of entries, the mean
 * user rating and the mean runtime, where the runtime of an entry is the
 * number written before the first space of its `Runtime` text.
 */
module Summary {
  import opened Wrappers
  import opened Watched

  /** `s.split(" ")[0]`: the text before the first space, or all of it. */
  function LeadingToken(s: string): (t: string)
    ensures t <= s
    ensures ' ' !in t
    ensures |t| < |s| ==> s[|t|] == ' '
  {
    if s == [] || s[0] == ' ' then [] else [s[0]] + LeadingToken(s[1..])
  }

  predicate IsDigit(c: char)
  {
    '0' <= c <= '9'
  }

  predicate AllDigits(t: string)
  {
    forall i :: 0 <= i < |t| ==> IsDigit(t[i])
  }

  function DigitValue(c: char): nat
    requires IsDigit(c)
  {
    c as int - '0' as int
  }

  function DigitChar(d: nat): char
    requires d < 10
  {
    ('0' as int + d) as char
  }

  /** The value of a string of decimal digits, read left to right. */
  function DecimalValue(t: string): nat
    requires AllDigits(t)
  {
    if t == [] then 0 else DecimalValue(t[..|t| - 1]) * 10 + DigitValue(t[|t| - 1])
  }

  /**
   * `Number(token)` for the tokens this model covers: a run of decimal
   * digits (the empty token reads as 0).  None stands for every other
   * token, which the model does not evaluate.
   */
  function NumberOfToken(t: string): (n: Option<nat>)
    ensures n.Some? <==> AllDigits(t)
    ensures t == [] ==> n == Some(0)
  {
    if AllDigits(t) then Some(DecimalValue(t)) else None
  }

  /**
   * The minutes an entry's runtime text stands for, e.g. "142 min": the
   * number before the first space, where the empty text reads as 0.
   */
  function RuntimeMinutes(runtime: string): (minutes: Option<nat>)
    ensures minutes.Some? <==> AllDigits(LeadingToken(runtime))
    ensures ' ' !in runtime && AllDigits(runtime) ==> minutes == Some(DecimalValue(runtime))
    ensures runtime == [] ==> minutes == Some(0)
  {
    var token := LeadingToken(runtime);
    assert ' ' !in runtime ==> token == runtime;
    NumberOfToken(token)
  }

  /** The decimal writing of a number, as the catalogue writes runtimes. */
  function DecimalString(n: nat): (s: string)
    ensures |s| > 0 && AllDigits(s)
  {
    if n < 10 then [DigitChar(n)] else DecimalString(n / 10) + [DigitChar(n % 10)]
  }

  lemma {:induction false} DecimalRoundTrip(n: nat)
    ensures DecimalValue(DecimalString(n)) == n
  {
    var s := DecimalString(n);
    if n >= 10 {
      assert s[..|s| - 1] == DecimalString(n / 10);
      DecimalRoundTrip(n / 10);
    }
  }

  lemma {:induction false} LeadingTokenOfSpaced(t: string, rest: string)
    requires ' ' !in t
    ensures LeadingToken(t + " " + rest) == t
  {
    if t != [] {
      assert (t + " " + rest)[1..] == t[1..] + " " + rest;
      LeadingTokenOfSpaced(t[1..], rest);
      assert [t[0]] + t[1..] == t;
    }
  }

  /** A runtime written as "<n> <unit>" reads back as n minutes. */
  lemma RuntimeOfFormatted(n: nat, unit: string)
    ensures RuntimeMinutes(DecimalString(n) + " " + unit) == Some(n)
  {
    var s := DecimalString(n);
    LeadingTokenOfSpaced(s, unit);
    DecimalRoundTrip(n);
  }

  function Sum(xs: seq<real>): real
  {
    if xs == [] then 0.0 else xs[0] + Sum(xs[1..])
  }

  /**
   * `xs.reduce((acc, cur) => acc + cur / n, acc)`, with n the array's
   * length: the initial value plus the sum of the values over n.
   */
  function Accumulate(xs: seq<real>, n: real, acc: real): (r: real)
    requires n != 0.0
    ensures r == acc + Sum(xs) / n
  {
    if xs == [] then acc
    else
      var r := Accumulate(xs[1..], n, acc + xs[0] / n);
      assert xs[0] / n + Sum(xs[1..]) / n == (xs[0] + Sum(xs[1..])) / n;
      r
  }

  /**
   * `average` of src/App.js: a reduce from 0 that adds each value divided
   * by the length.  It is the arithmetic mean, and 0 for no values.
   */
  function Average(xs: seq<real>): (mean: real)
    ensures mean * |xs| as real == Sum(xs)
    ensures xs == [] ==> mean == 0.0
  {
    if xs == [] then 0.0 else Accumulate(xs, |xs| as real, 0.0)
  }

  function UserRatings(watched: seq<Entry>): (ratings: seq<real>)
    ensures |ratings| == |watched|
    ensures forall i :: 0 <= i < |watched| ==> ratings[i] == watched[i].userRating as real
  {
    seq(|watched|, i requires 0 <= i < |watched| => watched[i].userRating as real)
  }

  /** The runtimes in minutes, or None when some runtime is not a plain number of minutes. */
  function Runtimes(watched: seq<Entry>): (minutes: Option<seq<real>>)
    ensures minutes.Some? <==> forall i :: 0 <= i < |watched| ==> RuntimeMinutes(watched[i].Runtime).Some?
    ensures minutes.Some? ==> |minutes.value| == |watched|
    ensures minutes.Some? ==>
              forall i :: 0 <= i < |watched| ==> minutes.value[i] == RuntimeMinutes(watched[i].Runtime).value as real
  {
    if watched == [] then Some([])
    else
      match (RuntimeMinutes(watched[0].Runtime), Runtimes(watched[1..]))
      case (Some(m), Some(ms)) => Some([m as real] + ms)
      case (None, _) => None
      case (_, None) =>
        assert exists i :: 0 <= i < |watched[1..]| && RuntimeMinutes(watched[1..][i].Runtime).None?;
        None
  }

  /** The mean of the user ratings (`avgUserRating`). */
  function AverageUserRating(watched: seq<Entry>): (mean: real)
    ensures mean * |watched| as real == Sum(UserRatings(watched))
    ensures watched == [] ==> mean == 0.0
  {
    Average(UserRatings(watched))
  }

  /**
   * The mean runtime in minutes (`avgRuntime`), or None where the source
   * computes NaN or a value this model does not read.
   */
  function AverageRuntime(watched: seq<Entry>): (mean: Option<real>)
    ensures mean.Some? <==> Runtimes(watched).Some?
    ensures mean.Some? ==> mean.value * |watched| as real == Sum(Runtimes(watched).value)
    ensures watched == [] ==> mean == Some(0.0)
  {
    match Runtimes(watched)
    case None => None
    case Some(minutes) => MeanOf(minutes, |watched|)
  }

  /** The mean of `count` values, wrapped for `AverageRuntime`. */
  function MeanOf(xs: seq<real>, count: nat): (mean: Option<real>)
    requires |xs| == count
    ensures mean.Some? && mean.value * count as real == Sum(xs)
    ensures count == 0 ==> mean == Some(0.0)
  {
    Some(Average(xs))
  }

  /** What the summary box shows. */
  datatype SummaryView = SummaryView(count: nat, avgUserRating: real, avgRuntime: Option<real>)

  function Summarize(watched: seq<Entry>): (s: SummaryView)
    ensures s.count == |watched|
    ensures watched == [] ==> s == SummaryView(0, 0.0, Some(0.0))
  {
    SummaryView(|watched|, AverageUserRating(watched), AverageRuntime(watched))
  }

  /** A runtime text that spells "<n> min" character by character counts as n minutes. */
  lemma MinutesOfText(runtime: string, n: nat)
    requires runtime == DecimalString(n) + " min"
    ensures RuntimeMinutes(runtime) == Some(n)
  {
    RuntimeOfFormatted(n, "min");
    assert DecimalString(n) + " min" == DecimalString(n) + " " + "min";
  }

  /** Two movies of "136 min" and "148 min" average 142 minutes. */
  lemma MeanRuntimeExample(a: Entry, b: Entry)
    requires a.Runtime == "136 min" && b.Runtime == "148 min"
    ensures AverageRuntime([a, b]) == Some(142.0)
  {
    assert DecimalString(13) == "13";
    assert DecimalString(136) == "136";
    assert DecimalString(14) == "14";
    assert DecimalString(148) == "148";
    MinutesOfText(a.Runtime, 136);
    MinutesOfText(b.Runtime, 148);
    var w := [a, b];
    assert w[1..] == [b] && [b][1..] == [];
    var none: seq<Entry> := [];
    assert Runtimes(none) == Some([]);
    assert Runtimes([b]).value == [148.0];
    assert Runtimes(w).value == [136.0, 148.0];
    var xs := [136.0, 148.0];
    assert Sum(xs) == 284.0 by {
      assert xs[1..] == [148.0] && xs[1..][1..] == [];
    }
  }
}
