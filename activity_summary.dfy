/**
 * The row loop of `get_active_visitors`: each result row becomes one
 * period block of the report, while a running sum of `totalEvents` and a
 * running maximum of `uniqueVisitors` (starting from 0) give the summary.
 * A missing field counts as 0. The date text and the thousands separators
 * are rendering and are not modelled; a block keeps the timestamp instead.
 */
module ActivitySummary {
  import opened PyJson
  import opened AggregationPipeline

  /** One period of the report: when it starts and the row's two counts. */
  datatype PeriodBlock = PeriodBlock(when: When, uniqueVisitors: int, totalEvents: int)

  /** The period blocks in row order, then the two summary figures. */
  datatype Summary = Summary(periods: seq<PeriodBlock>, totalEvents: int, peakUniqueVisitors: int)

  /** Python's two-argument `max` on ints. */
  function Max(a: int, b: int): (m: int)
    ensures m >= a && m >= b && (m == a || m == b)
  {
    if b > a then b else a
  }

  /** True of a field whose value `max` and `+=` accept: absent, an int or a bool. */
  predicate CountField(items: seq<(string, Json)>, key: string) {
    var v := GetOr(items, key, Int(0));
    v.Int? || v.Bool?
  }

  /**
   * `row.get(key, 0)` as the number Python arithmetic takes it for: an int
   * is itself, a bool 0 or 1. A value that is not a number, or a row that is
   * not a dict, reads as 0 here; the loop itself raises on those.
   */
  function RowCount(row: Json, key: string): int {
    if !row.Dict? then 0
    else
      var v := GetOr(row.items, key, Int(0));
      if v.Int? then v.n else if v == Bool(true) then 1 else 0
  }

  /**
   * One pass of the loop body for `row`: read the period's timestamp and
   * the two counts with `row.get(..., 0)`. It raises when the row is not a
   * dict, when a count is not a number, or when a truthy timestamp is not
   * a number.
   */
  function RowBlock(g: Granularity, row: Json): (r: Eval<PeriodBlock>)
    ensures r.Returns? <==>
      && row.Dict? && CountField(row.items, "uniqueVisitors") && CountField(row.items, "totalEvents")
      && Timestamp(GetOr(row.items, FieldName(g), Int(0))).Returns?
    ensures r.Returns? ==>
      && r.value.uniqueVisitors == RowCount(row, "uniqueVisitors")
      && r.value.totalEvents == RowCount(row, "totalEvents")
    ensures row.Dict? && r.Returns? ==>
      var stamp := GetOr(row.items, FieldName(g), Int(0));
      && (!Truthy(stamp) ==> r.value.when == Unknown)
      && (stamp.Int? && stamp.n != 0 ==> r.value.when == At(stamp.n))
    ensures row.Dict? && !HasKey(row.items, "uniqueVisitors") && r.Returns? ==> r.value.uniqueVisitors == 0
    ensures row.Dict? && !HasKey(row.items, "totalEvents") && r.Returns? ==> r.value.totalEvents == 0
    ensures row.Dict? && !HasKey(row.items, FieldName(g)) && r.Returns? ==> r.value.when == Unknown
  {
    if !row.Dict? then Raises
    else
      var items := row.items;
      match (Timestamp(GetOr(items, FieldName(g), Int(0))),
             AsNumber(GetOr(items, "uniqueVisitors", Int(0))),
             AsNumber(GetOr(items, "totalEvents", Int(0))))
      case (Returns(when), Returns(visitors), Returns(events)) => Returns(PeriodBlock(when, visitors, events))
      case _ => Raises
  }

  /** A dict row whose values are all ints never makes the loop raise. */
  lemma IntRowNeverRaises(g: Granularity, row: Json)
    requires row.Dict? && forall i :: 0 <= i < |row.items| ==> row.items[i].1.Int?
    ensures RowBlock(g, row).Returns?
  {
    forall key | HasKey(row.items, key)
      ensures GetOr(row.items, key, Int(0)).Int?
    {
      GetOrFindsBinding(row.items, key, Int(0));
    }
  }

  /** The blocks of the rows in order, or `Raises` if any row raises. */
  function Blocks(g: Granularity, rows: seq<Json>): Eval<seq<PeriodBlock>> {
    MapAll((row: Json) => RowBlock(g, row), rows)
  }

  /** The sum of `totalEvents` over the blocks. */
  function SumEvents(bs: seq<PeriodBlock>): int {
    if bs == [] then 0 else SumEvents(bs[..|bs| - 1]) + bs[|bs| - 1].totalEvents
  }

  /** The running maximum of `uniqueVisitors`, started at 0. */
  function PeakVisitors(bs: seq<PeriodBlock>): int {
    if bs == [] then 0 else Max(PeakVisitors(bs[..|bs| - 1]), bs[|bs| - 1].uniqueVisitors)
  }

  /** The peak is at least 0 and at least every block's visitor count. */
  lemma {:induction false} PeakIsUpperBound(bs: seq<PeriodBlock>)
    ensures PeakVisitors(bs) >= 0
    ensures forall i :: 0 <= i < |bs| ==> bs[i].uniqueVisitors <= PeakVisitors(bs)
  {
    if bs != [] {
      var front := bs[..|bs| - 1];
      PeakIsUpperBound(front);
      assert forall i :: 0 <= i < |bs| - 1 ==> bs[i] == front[i];
    }
  }

  /** The peak is one block's count (or the starting 0): a maximum, not a sum. */
  lemma {:induction false} PeakIsAttained(bs: seq<PeriodBlock>)
    ensures PeakVisitors(bs) == 0 || exists i :: 0 <= i < |bs| && bs[i].uniqueVisitors == PeakVisitors(bs)
  {
    if bs != [] {
      var front := bs[..|bs| - 1];
      PeakIsAttained(front);
      if PeakVisitors(bs) != 0 && PeakVisitors(bs) != bs[|bs| - 1].uniqueVisitors {
        var i :| 0 <= i < |front| && front[i].uniqueVisitors == PeakVisitors(front);
        assert bs[i] == front[i];
      }
    }
  }

  /** The total over a concatenation is the sum of the totals. */
  lemma {:induction false} SumEventsAppend(a: seq<PeriodBlock>, b: seq<PeriodBlock>)
    ensures SumEvents(a + b) == SumEvents(a) + SumEvents(b)
  {
    if b != [] {
      var last := |b| - 1;
      assert (a + b)[..|a + b| - 1] == a + b[..last];
      SumEventsAppend(a, b[..last]);
    } else {
      assert a + b == a;
    }
  }

  /**
   * What the loop produces for `rows`: one block per row in order, the
   * total of `totalEvents` and the peak of `uniqueVisitors`.
   */
  function SummaryOf(g: Granularity, rows: seq<Json>): (r: Eval<Summary>)
    ensures r.Raises? <==> exists i :: 0 <= i < |rows| && RowBlock(g, rows[i]).Raises?
    ensures r.Returns? ==>
      && |r.value.periods| == |rows|
      && (forall i :: 0 <= i < |rows| ==> RowBlock(g, rows[i]) == Returns(r.value.periods[i]))
      && r.value.totalEvents == SumEvents(r.value.periods)
      && r.value.peakUniqueVisitors == PeakVisitors(r.value.periods)
      && r.value.peakUniqueVisitors >= 0
      && (forall i :: 0 <= i < |rows| ==> r.value.periods[i].uniqueVisitors <= r.value.peakUniqueVisitors)
  {
    MapAllPointwise((row: Json) => RowBlock(g, row), rows);
    match Blocks(g, rows)
    case Raises => Raises
    case Returns(bs) =>
      PeakIsUpperBound(bs);
      Returns(Summary(bs, SumEvents(bs), PeakVisitors(bs)))
  }

  /** The sum of `row.get(key, 0)` over the rows, read independently of the blocks. */
  function RowsTotal(rows: seq<Json>, key: string): int {
    if rows == [] then 0 else RowsTotal(rows[..|rows| - 1], key) + RowCount(rows[|rows| - 1], key)
  }

  /** The largest `row.get(key, 0)` over the rows, or 0 when none is larger. */
  function RowsPeak(rows: seq<Json>, key: string): int {
    if rows == [] then 0 else Max(RowsPeak(rows[..|rows| - 1], key), RowCount(rows[|rows| - 1], key))
  }

  /** Blocks that carry the rows' counts add up and peak as the rows do. */
  lemma {:induction false} BlocksFollowRows(bs: seq<PeriodBlock>, rows: seq<Json>)
    requires |bs| == |rows|
    requires forall i :: 0 <= i < |rows| ==>
      bs[i].totalEvents == RowCount(rows[i], "totalEvents") &&
      bs[i].uniqueVisitors == RowCount(rows[i], "uniqueVisitors")
    ensures SumEvents(bs) == RowsTotal(rows, "totalEvents")
    ensures PeakVisitors(bs) == RowsPeak(rows, "uniqueVisitors")
  {
    if rows != [] {
      var n := |rows| - 1;
      BlocksFollowRows(bs[..n], rows[..n]);
    }
  }

  /**
   * Total Events is the sum of every row's `get('totalEvents', 0)`, and Peak
   * Unique Visitors the largest `get('uniqueVisitors', 0)`, or 0.
   */
  lemma {:induction false} SummaryTotals(g: Granularity, rows: seq<Json>)
    requires SummaryOf(g, rows).Returns?
    ensures SummaryOf(g, rows).value.totalEvents == RowsTotal(rows, "totalEvents")
    ensures SummaryOf(g, rows).value.peakUniqueVisitors == RowsPeak(rows, "uniqueVisitors")
  {
    BlocksFollowRows(SummaryOf(g, rows).value.periods, rows);
  }

  /** The loop itself, with its two accumulators. */
  method Summarize(g: Granularity, rows: seq<Json>) returns (out: Eval<Summary>)
    ensures out == SummaryOf(g, rows)
  {
    var periods: seq<PeriodBlock> := [];
    var peak := 0;
    var total := 0;
    for i := 0 to |rows|
      invariant |periods| == i
      invariant Blocks(g, rows[..i]) == Returns(periods)
      invariant peak == PeakVisitors(periods) && total == SumEvents(periods)
    {
      var block := RowBlock(g, rows[i]);
      assert rows[..i + 1] == rows[..i] + [rows[i]];
      MapAllSnoc((row: Json) => RowBlock(g, row), rows[..i], rows[i]);
      if block.Raises? {
        MapAllPointwise((row: Json) => RowBlock(g, row), rows);
        return Raises;
      }
      peak := Max(peak, block.value.uniqueVisitors);
      total := total + block.value.totalEvents;
      ghost var before := periods;
      periods := periods + [block.value];
      assert periods[..|periods| - 1] == before;
    }
    assert rows[..|rows|] == rows;
    out := Returns(Summary(periods, total, peak));
  }
}
