/**
 * One watch and the test that decides whether it fires: the last close of the
 * fetched bars is compared, strictly, with the last value of the SMA column.
 */
module Evaluation {
  import opened Wrappers
  import opened Sma

  /**
   * A watch record, keyed by its symbol in the registry. The enumerated fields
   * are the strings the form offers ("1m".."1d", "HIGH"/"LOW"/"CLOSE",
   * "greater"/"less"); nothing checks them until they are used.
   */
  datatype Watch = Watch(
    interval: string,
    calcMethod: string,
    period: int,
    condition: string,
    webhookUrl: string,
    active: bool)

  /** What fetching a symbol's history gave: an exception, or the bars (possibly none). */
  datatype Fetch = Failed | Bars(bars: seq<Bar>)

  /** The direction of a crossing that fired. */
  datatype Direction = Above | Below

  /** `a > b` as pandas evaluates it: false when `b` is NaN. */
  predicate Exceeds(a: real, b: Option<real>)
  {
    match b
    case None => false
    case Some(v) => a > v
  }

  /** `a < b` as pandas evaluates it: false when `b` is NaN. */
  predicate FallsBelow(a: real, b: Option<real>)
  {
    match b
    case None => false
    case Some(v) => a < v
  }

  /**
   * The crossing test: a "greater" watch fires when the close is strictly above
   * the SMA, a "less" watch when it is strictly below; equality, an undefined
   * SMA or any other condition string fires neither.
   */
  function Cross(condition: string, close: real, sma: Option<real>): (r: Option<Direction>)
    ensures r == Some(Above) <==> condition == "greater" && sma.Some? && close > sma.value
    ensures r == Some(Below) <==> condition == "less" && sma.Some? && close < sma.value
    ensures sma.None? ==> r.None?
    ensures sma == Some(close) ==> r.None?
  {
    if condition == "greater" && Exceeds(close, sma) then Some(Above)
    else if condition == "less" && FallsBelow(close, sma) then Some(Below)
    else None
  }

  /** The mean of the last `period` values of the watch's column, when that is well defined. */
  predicate Computable(w: Watch, bars: seq<Bar>)
  {
    && w.calcMethod in {"HIGH", "LOW", "CLOSE"}
    && 1 <= w.period <= |bars|
  }

  function LastMean(w: Watch, bars: seq<Bar>): real
    requires Computable(w, bars)
  {
    var col := Column(bars, ParseMethod(w.calcMethod).value);
    Mean(col[|col| - w.period..|col|])
  }

  /**
   * Evaluating one active watch in a tick: a failed or empty fetch is skipped,
   * an exception from the calculator is skipped, otherwise the last bar's close
   * is tested against the last SMA value.
   */
  function Evaluate(w: Watch, f: Fetch): (r: Option<Direction>)
    ensures r.Some? ==> f.Bars? && Computable(w, f.bars)
    ensures r == Some(Above) <==>
              f.Bars? && Computable(w, f.bars) && w.condition == "greater" &&
              f.bars[|f.bars| - 1].close > LastMean(w, f.bars)
    ensures r == Some(Below) <==>
              f.Bars? && Computable(w, f.bars) && w.condition == "less" &&
              f.bars[|f.bars| - 1].close < LastMean(w, f.bars)
  {
    match f
    case Failed => None
    case Bars(bars) =>
      if bars == [] then None
      else
        match CalculateSma(bars, w.calcMethod, w.period)
        case Failure(_) => None
        case Success(sma) =>
          assert w.period <= |bars| ==> sma[|sma| - 1] == Some(LastMean(w, bars));
          Cross(w.condition, bars[|bars| - 1].close, sma[|sma| - 1])
  }

  /** The worked example: CLOSE, period 3, closes 10, 10, 10, 12; 12 > 32/3 fires. */
  lemma ExampleFiresAbove()
    ensures Evaluate(Watch("1d", "CLOSE", 3, "greater", "", true),
                     Bars([Bar(10.0, 10.0, 10.0), Bar(10.0, 10.0, 10.0),
                           Bar(10.0, 10.0, 10.0), Bar(12.0, 12.0, 12.0)])) == Some(Above)
  {
    var w := Watch("1d", "CLOSE", 3, "greater", "", true);
    var bars := [Bar(10.0, 10.0, 10.0), Bar(10.0, 10.0, 10.0),
                 Bar(10.0, 10.0, 10.0), Bar(12.0, 12.0, 12.0)];
    assert ParseMethod(w.calcMethod) == Some(Close);
    var window := Column(bars, Close)[1..4];
    assert window == [10.0, 10.0, 12.0];
    assert Sum([10.0]) == 10.0 by { assert [10.0][..0] == []; }
    assert Sum([10.0, 10.0]) == 20.0 by { assert [10.0, 10.0][..1] == [10.0]; }
    assert Sum(window) == 32.0 by { assert window[..2] == [10.0, 10.0]; }
    assert LastMean(w, bars) == 32.0 / 3.0;
  }
}
