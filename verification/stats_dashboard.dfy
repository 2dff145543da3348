/** The study page's statistics tab: three summary cards and the weekly chart rows. */
module StatsDashboard {
  import opened DummyData
  import ReviewComplete

  /** One chart row; `day` keeps the bucket's date key, which the page renders as a weekday label. */
  datatype ChartRow = ChartRow(day: DateKey, known: int, unknown: int, total: int)

  /** The chart rows: one per day bucket, in the same order, carrying the bucket's counts. */
  function WeeklyChartData(week: seq<DayStat>): (rows: seq<ChartRow>)
    ensures |rows| == |week|
    ensures forall i :: 0 <= i < |week| ==>
      rows[i].day == week[i].date && rows[i].known == week[i].known &&
      rows[i].unknown == week[i].unknown && rows[i].total == week[i].total
  {
    seq(|week|, i requires 0 <= i < |week| => ChartRow(week[i].date, week[i].known, week[i].unknown, week[i].total))
  }

  /** Rows built from balanced buckets are balanced: known plus unknown is the row total. */
  lemma ChartRowsBalanced(week: seq<DayStat>)
    requires AllBalanced(week)
    ensures forall i :: 0 <= i < |week| ==>
      WeeklyChartData(week)[i].total == WeeklyChartData(week)[i].known + WeeklyChartData(week)[i].unknown
  {
    var rows := WeeklyChartData(week);
    forall i | 0 <= i < |week|
      ensures rows[i].total == rows[i].known + rows[i].unknown
    {
      assert BucketBalanced(week[i]);
    }
  }

  /** What the dashboard's three cards display. */
  datatype Cards = Cards(totalToday: int, knownToday: int, unknownToday: int, successRate: int)

  /** The cards show the cumulative counters unchanged and the shared success ratio. */
  function SummaryCards(s: Stats): (c: Cards)
    ensures c.totalToday == s.todayTotal && c.knownToday == s.todayKnown && c.unknownToday == s.todayUnknown
    ensures s.todayTotal == 0 ==> c.successRate == 0
    ensures StatsValid(s) ==> 0 <= c.successRate <= 100
    ensures c.successRate == ReviewComplete.SummaryCard(s).ratio
  {
    Cards(s.todayTotal, s.todayKnown, s.todayUnknown, ReviewComplete.StatsRatio(s))
  }
}
