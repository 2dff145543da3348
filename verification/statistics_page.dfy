/** The standalone statistics page: chart rows, success ratio, the known/unknown pie and the streak grid. */
module StatisticsPage {
  import opened DummyData
  import ReviewComplete
  import StatsDashboard

  datatype Slice = Slice(name: string, value: int, color: string)

  /** The pie: a "Known" slice and an "Unknown" slice taken from the cumulative counters. */
  function PieData(s: Stats): (pie: seq<Slice>)
    ensures |pie| == 2
    ensures pie[0].name == "Known" && pie[0].value == s.todayKnown
    ensures pie[1].name == "Unknown" && pie[1].value == s.todayUnknown
  {
    [Slice("Known", s.todayKnown, "#22c55e"), Slice("Unknown", s.todayUnknown, "#ef4444")]
  }

  /** Under the record's invariant the two slices add up to the total count, so the pie is whole. */
  lemma PieCoversTotal(s: Stats)
    requires StatsValid(s)
    ensures PieData(s)[0].value + PieData(s)[1].value == s.todayTotal
    ensures 0 <= PieData(s)[0].value && 0 <= PieData(s)[1].value
  {
  }

  /** How one cell of the seven-day streak grid is drawn. */
  datatype StreakCell = Completed | Today | Plain

  /** Cell `i` (0 = Monday) of the fixed grid: "today" styling takes precedence over "completed". */
  function StreakCellAt(i: int): StreakCell {
    var isCompleted := i < 5;
    var isToday := i == 5;
    if isToday then Today else if isCompleted then Completed else Plain
  }

  /** The grid: Monday to Friday completed, Saturday marked as today, Sunday neither. */
  function StreakGrid(): (cells: seq<StreakCell>)
    ensures |cells| == 7
    ensures forall i :: 0 <= i < 5 ==> cells[i] == Completed
    ensures cells[5] == Today && cells[6] == Plain
  {
    seq(7, StreakCellAt)
  }

  /** Everything the page derives from the stored record. */
  datatype Figures = Figures(cards: StatsDashboard.Cards, rows: seq<StatsDashboard.ChartRow>, ratio: int,
                             pie: seq<Slice>, streak: seq<StreakCell>)

  /** The page's figures. The selected timeframe is a parameter the page only binds to its
      selector: nothing displayed depends on it. */
  function Display(s: Stats, timeframe: string): (f: Figures)
    ensures f.rows == StatsDashboard.WeeklyChartData(s.weeklyData)
    ensures |f.rows| == |s.weeklyData|
    ensures forall i :: 0 <= i < |f.rows| ==>
      f.rows[i].known == s.weeklyData[i].known && f.rows[i].unknown == s.weeklyData[i].unknown &&
      f.rows[i].total == s.weeklyData[i].total
    ensures f.cards == StatsDashboard.SummaryCards(s)
    ensures f.cards.totalToday == s.todayTotal && f.cards.knownToday == s.todayKnown &&
      f.cards.unknownToday == s.todayUnknown
    ensures f.ratio == ReviewComplete.SummaryCard(s).ratio
    ensures StatsValid(s) ==> 0 <= f.ratio <= 100
    ensures f.pie == PieData(s) && f.streak == StreakGrid()
  {
    Figures(StatsDashboard.SummaryCards(s), StatsDashboard.WeeklyChartData(s.weeklyData), ReviewComplete.StatsRatio(s), PieData(s), StreakGrid())
  }

  /** Switching the timeframe selector changes nothing the page shows. */
  lemma TimeframeIgnored(s: Stats, t1: string, t2: string)
    ensures Display(s, t1) == Display(s, t2)
  {
  }
}
