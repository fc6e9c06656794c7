/**
 * The SMA calculator: select the HIGH, LOW or CLOSE column of a bar series and
 * take its rolling mean with a window of `period` bars. Prices are exact reals;
 * a position without a full window holds `None` (pandas writes NaN there).
 */
module Sma {
  import opened Wrappers

  /** One price bar; only the columns the calculator can select are kept. */
  datatype Bar = Bar(high: real, low: real, close: real)

  /** The column a watch averages. */
  datatype PriceField = High | Low | Close

  /** Why no SMA column could be produced. */
  datatype SmaError = InvalidMethod | InvalidWindow

  /** The `calculation_method` names the calculator understands. */
  function ParseMethod(calcMethod: string): Option<PriceField>
  {
    if calcMethod == "HIGH" then Some(High)
    else if calcMethod == "LOW" then Some(Low)
    else if calcMethod == "CLOSE" then Some(Close)
    else None
  }

  function Select(b: Bar, field: PriceField): real
  {
    match field
    case High => b.high
    case Low => b.low
    case Close => b.close
  }

  /** The selected column of a bar series. */
  function Column(bars: seq<Bar>, field: PriceField): seq<real>
  {
    seq(|bars|, i requires 0 <= i < |bars| => Select(bars[i], field))
  }

  function Sum(s: seq<real>): real
  {
    if s == [] then 0.0 else Sum(s[..|s| - 1]) + s[|s| - 1]
  }

  /** The arithmetic mean of a non-empty window. */
  function Mean(s: seq<real>): real
    requires |s| > 0
  {
    Sum(s) / (|s| as real)
  }

  /** The SMA value at position `i`: the mean of the `period` values ending there, if there are that many. */
  function WindowMean(xs: seq<real>, i: int, period: int): Option<real>
    requires 0 <= i < |xs| && period >= 1
  {
    if i + 1 >= period then Some(Mean(xs[i + 1 - period..i + 1])) else None
  }

  /** A window lying inside a prefix is the same window of the whole series. */
  lemma PrefixWindows(xs: seq<real>, n: int, period: int)
    requires 0 <= n <= |xs| && period >= 1
    ensures forall i :: 0 <= i < n ==> WindowMean(xs[..n], i, period) == WindowMean(xs, i, period)
  {
    forall i | 0 <= i < n
      ensures WindowMean(xs[..n], i, period) == WindowMean(xs, i, period)
    {
      if i + 1 >= period {
        assert xs[..n][i + 1 - period..i + 1] == xs[i + 1 - period..i + 1];
      }
    }
  }

  /**
   * The rolling mean of `xs` with window `period`: position `i` holds the mean
   * of the `period` values ending at `i`, and nothing while fewer than `period`
   * values are available. Built left to right, one window per position.
   */
  function RollingMean(xs: seq<real>, period: int): (r: seq<Option<real>>)
    requires period >= 1
    ensures |r| == |xs|
    ensures forall i :: 0 <= i < |xs| ==> r[i] == WindowMean(xs, i, period)
    decreases |xs|
  {
    if xs == [] then []
    else
      var n := |xs| - 1;
      PrefixWindows(xs, n, period);
      RollingMean(xs[..n], period) + [WindowMean(xs, n, period)]
  }

  /** How many positions of an SMA column hold a value. */
  function CountDefined(s: seq<Option<real>>): nat
  {
    if s == [] then 0
    else CountDefined(s[..|s| - 1]) + (if s[|s| - 1].Some? then 1 else 0)
  }

  /** A series of `n` values has exactly max(0, n - period + 1) defined means. */
  lemma {:induction false} DefinedCount(xs: seq<real>, period: int)
    requires period >= 1
    ensures CountDefined(RollingMean(xs, period)) ==
            if |xs| >= period then |xs| - period + 1 else 0
  {
    if xs != [] {
      var n := |xs| - 1;
      var r := RollingMean(xs, period);
      DefinedCount(xs[..n], period);
      assert r[..n] == RollingMean(xs[..n], period);
    }
  }

  /**
   * `calculate_sma`: an unknown calculation method raises, and so does a
   * window pandas cannot use; otherwise the SMA column of the selected prices.
   */
  function CalculateSma(bars: seq<Bar>, calcMethod: string, period: int)
    : (r: Result<seq<Option<real>>, SmaError>)
    ensures r == Failure(InvalidMethod) <==> calcMethod !in {"HIGH", "LOW", "CLOSE"}
    ensures r.Failure? <==> calcMethod !in {"HIGH", "LOW", "CLOSE"} || period < 1
    ensures r.Success? ==> |r.value| == |bars|
    ensures r.Success? ==> forall i :: 0 <= i < |bars| ==> (r.value[i].Some? <==> i + 1 >= period)
    ensures r.Success? && period >= 1 && ParseMethod(calcMethod).Some? ==>
              forall i :: 0 <= i < |bars| && i + 1 >= period ==>
                r.value[i] == Some(Mean(Column(bars, ParseMethod(calcMethod).value)[i + 1 - period..i + 1]))
  {
    match ParseMethod(calcMethod)
    case None => Failure(InvalidMethod)
    case Some(field) =>
      if period < 1 then Failure(InvalidWindow)
      else Success(RollingMean(Column(bars, field), period))
  }
}
