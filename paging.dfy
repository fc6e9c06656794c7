/**
 * `fetch_historical_data`: page through a provider in chunks of at most seven
 * days over a look-back window of 7 days (minute intervals) or 365 days
 * (otherwise), stopping once more than `span` rows are collected. Days are
 * integers; the provider is a function from a chunk to its rows or an exception.
 */
module Paging {
  import opened Sma

  /** The longest chunk requested from the provider, in days. */
  const ChunkDays: int := 7

  /** A half-open range of days [from, until) requested in one download. */
  datatype Chunk = Chunk(from: int, until: int)

  /** What one download gave: its rows, or an exception. */
  datatype ChunkResult = Rows(bars: seq<Bar>) | Raised

  /** The look-back window in days: 7 for minute intervals, 365 otherwise. */
  function LookBackDays(interval: string): int
  {
    if interval == "1m" || interval == "5m" || interval == "15m" then 7 else 365
  }

  function Min(a: int, b: int): int
  {
    if a <= b then a else b
  }

  /** The chunks the loop walks through from `start` to `end` when nothing stops it. */
  function Plan(start: int, end: int): seq<Chunk>
    decreases end - start
  {
    if start >= end then []
    else
      var next := Min(end, start + ChunkDays);
      [Chunk(start, next)] + Plan(next, end)
  }

  /** The chunks for the look-back window ending on `endDay`. */
  function PlanFor(interval: string, endDay: int): seq<Chunk>
  {
    Plan(endDay - LookBackDays(interval), endDay)
  }

  /**
   * The plan covers [start, end) with contiguous chunks, each at least one and
   * at most seven days long, so every step moves the start date forward.
   */
  lemma {:induction false} PlanShape(start: int, end: int)
    ensures start >= end ==> Plan(start, end) == []
    ensures start < end ==> var p := Plan(start, end);
      && |p| == (end - start + ChunkDays - 1) / ChunkDays
      && p[0].from == start
      && p[|p| - 1].until == end
      && (forall k :: 0 <= k < |p| ==> 0 < p[k].until - p[k].from <= ChunkDays)
      && (forall k :: 0 <= k < |p| - 1 ==> p[k].until == p[k + 1].from)
    decreases end - start
  {
    if start < end {
      var next := Min(end, start + ChunkDays);
      PlanShape(next, end);
    }
  }

  /** The rows of a sequence of downloads, concatenated in order; an exception contributes none. */
  function Gathered(chunks: seq<Chunk>, provider: Chunk -> ChunkResult): seq<Bar>
  {
    if chunks == [] then []
    else
      var last := provider(chunks[|chunks| - 1]);
      Gathered(chunks[..|chunks| - 1], provider) + (if last.Rows? then last.bars else [])
  }

  /**
   * What paging through `plan` returns, given the rows `acc` gathered so far:
   * nothing once a download raises, and everything gathered as soon as it is
   * more than `span` rows or the plan is exhausted.
   */
  function Paged(plan: seq<Chunk>, provider: Chunk -> ChunkResult, span: int, acc: seq<Bar>): seq<Bar>
    decreases |plan|
  {
    if plan == [] then acc
    else
      match provider(plan[0])
      case Raised => []
      case Rows(rows) =>
        if |acc + rows| > span then acc + rows else Paged(plan[1..], provider, span, acc + rows)
  }

  /** Every download in `chunks` returned rows. */
  predicate AllSucceeded(chunks: seq<Chunk>, provider: Chunk -> ChunkResult)
  {
    forall k :: 0 <= k < |chunks| ==> provider(chunks[k]).Rows?
  }

  /** Rows only accumulate: a longer run of downloads has gathered at least as many. */
  lemma {:induction false} GatheredGrows(chunks: seq<Chunk>, provider: Chunk -> ChunkResult, j: int)
    requires 0 <= j <= |chunks|
    ensures |Gathered(chunks[..j], provider)| <= |Gathered(chunks, provider)|
    decreases |chunks|
  {
    if j < |chunks| {
      var n := |chunks| - 1;
      assert chunks[..n][..j] == chunks[..j];
      GatheredGrows(chunks[..n], provider, j);
    } else {
      assert chunks[..j] == chunks;
    }
  }

  /**
   * The pagination loop. Its result is `Paged` of the look-back plan, and
   * `requested`, the downloads made in order, satisfies `Finished` (written
   * out clause by clause in `FinishedMeans`): the first starts at the oldest
   * day of the window, they are a prefix of the plan, each one before the last
   * succeeded, and the rows gathered before the last one were not more than
   * `span` (so the loop did not stop earlier; by GatheredGrows no earlier
   * prefix had more either). If the last download raised, the result is empty;
   * otherwise it is everything downloaded, and the loop stopped before the end
   * of the plan only because more than `span` rows had been collected.
   */
  method FetchHistorical(interval: string, span: int, endDay: int, provider: Chunk -> ChunkResult)
    returns (data: seq<Bar>, ghost requested: seq<Chunk>)
    ensures data == Paged(PlanFor(interval, endDay), provider, span, [])
    ensures Finished(PlanFor(interval, endDay), provider, span,
                     endDay - (if interval in {"1m", "5m", "15m"} then 7 else 365), requested, data)
  {
    var startDay := endDay - LookBackDays(interval);
    ghost var plan := PlanFor(interval, endDay);
    ghost var firstDay := startDay;
    assert firstDay == endDay - (if interval in {"1m", "5m", "15m"} then 7 else 365);
    data, requested := [], [];
    PagesStart(plan, provider, span, startDay, endDay);
    while startDay < endDay
      invariant InProgress(plan, provider, span, firstDay, startDay, endDay, requested, data)
    {
      var chunkEnd := Min(endDay, startDay + ChunkDays);
      var chunk := Chunk(startDay, chunkEnd);
      var result := provider(chunk);
      if result.Raised? {
        PageRaised(plan, provider, span, firstDay, startDay, endDay, requested, data, chunk);
        requested := requested + [chunk];
        return [], requested;
      }
      var rows := result.bars;
      if |data + rows| > span {
        PageEnough(plan, provider, span, firstDay, startDay, endDay, requested, data, chunk, rows);
        data, requested := data + rows, requested + [chunk];
        return;
      }
      PageMore(plan, provider, span, firstDay, startDay, endDay, requested, data, chunk, rows);
      data, requested := data + rows, requested + [chunk];
      startDay := chunkEnd;
    }
    PagesExhausted(plan, provider, span, firstDay, startDay, endDay, requested, data);
  }

  /**
   * The state of the paging loop before downloading the chunk that starts at
   * `startDay`: the downloads so far and the rest of the plan make up the
   * plan, all downloads succeeded, `data` is their rows, and at most `span`
   * rows have been collected once anything was downloaded.
   */
  ghost predicate InProgress(plan: seq<Chunk>, provider: Chunk -> ChunkResult, span: int, firstDay: int,
                             startDay: int, endDay: int, requested: seq<Chunk>, data: seq<Bar>)
  {
    && plan == requested + Plan(startDay, endDay)
    && Paged(plan, provider, span, []) == Paged(Plan(startDay, endDay), provider, span, data)
    && AllSucceeded(requested, provider)
    && data == Gathered(requested, provider)
    && (requested == [] ==> startDay < endDay && startDay == firstDay)
    && (requested != [] ==> requested[0].from == firstDay && |data| <= span)
  }

  /**
   * The state when the paging loop has returned `data` after the downloads
   * `requested`: `data` is what paging through `plan` yields; at least one
   * download was made, the first from `firstDay`, and the downloads are a
   * prefix of `plan`; all but the last succeeded, and before the last at most
   * `span` rows were in hand; a raising last download means an empty result,
   * otherwise `data` is every row downloaded and paging ended before the end of
   * the plan only with more than `span` rows.
   */
  ghost predicate Finished(plan: seq<Chunk>, provider: Chunk -> ChunkResult, span: int, firstDay: int,
                           requested: seq<Chunk>, data: seq<Bar>)
  {
    && data == Paged(plan, provider, span, [])
    && |requested| >= 1
    && requested[0].from == firstDay
    && requested <= plan
    && AllSucceeded(requested[..|requested| - 1], provider)
    && (|requested| >= 2 ==> |Gathered(requested[..|requested| - 1], provider)| <= span)
    && (provider(requested[|requested| - 1]).Raised? ==> data == [])
    && (provider(requested[|requested| - 1]).Rows? ==>
          data == Gathered(requested, provider) && (|requested| < |plan| ==> |data| > span))
  }

  /** The final state, written out. */
  lemma FinishedMeans(plan: seq<Chunk>, provider: Chunk -> ChunkResult, span: int, firstDay: int,
                      requested: seq<Chunk>, data: seq<Bar>)
    requires Finished(plan, provider, span, firstDay, requested, data)
    ensures data == Paged(plan, provider, span, [])
    ensures |requested| >= 1 && requested[0].from == firstDay && requested <= plan
    ensures AllSucceeded(requested[..|requested| - 1], provider)
    ensures |requested| >= 2 ==> |Gathered(requested[..|requested| - 1], provider)| <= span
    ensures provider(requested[|requested| - 1]).Raised? ==> data == []
    ensures provider(requested[|requested| - 1]).Rows? ==>
              && data == Gathered(requested, provider)
              && (|requested| < |plan| ==> |data| > span)
  {
  }

  /** The first state of the paging loop. */
  lemma PagesStart(plan: seq<Chunk>, provider: Chunk -> ChunkResult, span: int, startDay: int, endDay: int)
    requires startDay < endDay && plan == Plan(startDay, endDay)
    ensures InProgress(plan, provider, span, startDay, startDay, endDay, [], [])
  {
  }

  /** A download that raises ends paging with an empty result. */
  lemma PageRaised(plan: seq<Chunk>, provider: Chunk -> ChunkResult, span: int, firstDay: int,
                   startDay: int, endDay: int, requested: seq<Chunk>, data: seq<Bar>, chunk: Chunk)
    requires startDay < endDay && chunk == Chunk(startDay, Min(endDay, startDay + ChunkDays))
    requires InProgress(plan, provider, span, firstDay, startDay, endDay, requested, data)
    requires provider(chunk).Raised?
    ensures Finished(plan, provider, span, firstDay, requested + [chunk], [])
  {
    PlanStep(plan, requested, startDay, endDay);
    assert Paged(Plan(startDay, endDay), provider, span, data) == [];
    Extend(requested, chunk, provider);
    PrefixOfConcat(requested + [chunk], Plan(chunk.until, endDay));
    assert (requested + [chunk])[0].from == firstDay;
  }

  /** A download that brings the rows past `span` ends paging with everything gathered. */
  lemma PageEnough(plan: seq<Chunk>, provider: Chunk -> ChunkResult, span: int, firstDay: int,
                   startDay: int, endDay: int, requested: seq<Chunk>, data: seq<Bar>,
                   chunk: Chunk, rows: seq<Bar>)
    requires startDay < endDay && chunk == Chunk(startDay, Min(endDay, startDay + ChunkDays))
    requires InProgress(plan, provider, span, firstDay, startDay, endDay, requested, data)
    requires provider(chunk) == Rows(rows) && |data + rows| > span
    ensures Finished(plan, provider, span, firstDay, requested + [chunk], data + rows)
  {
    PlanStep(plan, requested, startDay, endDay);
    assert Paged(Plan(startDay, endDay), provider, span, data) == data + rows;
    Extend(requested, chunk, provider);
    PrefixOfConcat(requested + [chunk], Plan(chunk.until, endDay));
    assert (requested + [chunk])[0].from == firstDay;
  }

  /** A download that leaves the rows at most `span` moves paging on to the next chunk. */
  lemma PageMore(plan: seq<Chunk>, provider: Chunk -> ChunkResult, span: int, firstDay: int,
                 startDay: int, endDay: int, requested: seq<Chunk>, data: seq<Bar>,
                 chunk: Chunk, rows: seq<Bar>)
    requires startDay < endDay && chunk == Chunk(startDay, Min(endDay, startDay + ChunkDays))
    requires InProgress(plan, provider, span, firstDay, startDay, endDay, requested, data)
    requires provider(chunk) == Rows(rows) && |data + rows| <= span
    ensures InProgress(plan, provider, span, firstDay, chunk.until, endDay, requested + [chunk], data + rows)
  {
    PlanStep(plan, requested, startDay, endDay);
    assert Paged(Plan(startDay, endDay), provider, span, data) ==
           Paged(Plan(chunk.until, endDay), provider, span, data + rows);
    Extend(requested, chunk, provider);
    assert (requested + [chunk])[0].from == firstDay;
  }

  /** The plan ran out: the last download succeeded and everything downloaded is returned. */
  lemma PagesExhausted(plan: seq<Chunk>, provider: Chunk -> ChunkResult, span: int, firstDay: int,
                       startDay: int, endDay: int, requested: seq<Chunk>, data: seq<Bar>)
    requires startDay >= endDay
    requires InProgress(plan, provider, span, firstDay, startDay, endDay, requested, data)
    ensures Finished(plan, provider, span, firstDay, requested, data)
  {
    var n := |requested|;
    assert Plan(startDay, endDay) == [];
    assert requested == requested[..n - 1] + [requested[n - 1]];
    assert AllSucceeded(requested[..n - 1], provider) && provider(requested[n - 1]).Rows?;
    GatheredGrows(requested, provider, n - 1);
    PrefixOfConcat(requested, []);
  }

  /** Taking the next chunk of the plan. */
  lemma PlanStep(plan: seq<Chunk>, done: seq<Chunk>, start: int, end: int)
    requires start < end && plan == done + Plan(start, end)
    ensures Plan(start, end)[0] == Chunk(start, Min(end, start + ChunkDays))
    ensures Plan(start, end)[1..] == Plan(Min(end, start + ChunkDays), end)
    ensures plan == (done + [Chunk(start, Min(end, start + ChunkDays))]) + Plan(Min(end, start + ChunkDays), end)
  {
  }

  /** One more download: the earlier ones are its prefix, and its rows (if any) are appended. */
  lemma Extend(before: seq<Chunk>, chunk: Chunk, provider: Chunk -> ChunkResult)
    ensures (before + [chunk])[..|before|] == before
    ensures provider(chunk).Rows? ==>
              Gathered(before + [chunk], provider) == Gathered(before, provider) + provider(chunk).bars
    ensures AllSucceeded(before, provider) && provider(chunk).Rows? ==> AllSucceeded(before + [chunk], provider)
  {
    assert (before + [chunk])[..|before|] == before;
  }

  lemma PrefixOfConcat(a: seq<Chunk>, b: seq<Chunk>)
    ensures a <= a + b
  {
    assert (a + b)[..|a|] == a;
  }

  /**
   * For any interval other than the minute ones paging starts 365 days back;
   * when the oldest chunk already holds more than `span` rows, those rows from
   * the oldest week are all that is returned, so the last bar is about a year
   * old. The later chunks are never downloaded.
   */
  lemma StaleDaily(iv: string, e: int, span: int, p: Chunk -> ChunkResult)
    requires iv !in {"1m", "5m", "15m"}
    requires p(Chunk(e - 365, e - 358)).Rows? && |p(Chunk(e - 365, e - 358)).bars| > span
    ensures Paged(PlanFor(iv, e), p, span, []) == p(Chunk(e - 365, e - 358)).bars
  {
    assert PlanFor(iv, e) == Plan(e - 365, e);
    assert Plan(e - 365, e)[0] == Chunk(e - 365, e - 358);
  }
}
