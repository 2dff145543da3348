/** The end-of-session summary card: the success ratio, the feedback tier and the summary figures. */
module ReviewComplete {
  import opened DummyData

  /** The success ratio in percent: 0 when nothing was reviewed, otherwise
      `known / total * 100` rounded to the nearest integer, halves rounded up
      (the app's rounding function rounds `x` to `floor(x + 1/2)`).
      The same expression appears on the summary card, on the study dashboard
      and on the statistics page; this is its single definition. */
  function KnowledgeRatio(known: int, total: int): (r: int)
    ensures total <= 0 ==> r == 0
    ensures total > 0 ==> 2 * total * r - total <= 200 * known < 2 * total * r + total
  {
    if total > 0 then (200 * known + total) / (2 * total) else 0
  }

  /** The ratio of a statistics record, from its cumulative counters. */
  function StatsRatio(s: Stats): (r: int)
    ensures s.todayTotal == 0 ==> r == 0
    ensures StatsValid(s) ==> 0 <= r <= 100
  {
    RatioBounds(s.todayKnown, s.todayTotal);
    KnowledgeRatio(s.todayKnown, s.todayTotal)
  }

  /** Multiplying by a positive number preserves order, and cancelling it does too. */
  lemma MulMonotone(n: int, a: int, b: int)
    requires n > 0
    ensures a <= b <==> n * a <= n * b
  {
    if a <= b {
      assert n * b == n * a + n * (b - a);
    } else {
      assert n * a == n * b + n * (a - b);
    }
  }

  /** A ratio of `known` out of `total` is a percentage when `0 <= known <= total`. */
  lemma RatioBounds(known: int, total: int)
    ensures 0 <= known <= total ==> 0 <= KnowledgeRatio(known, total) <= 100
  {
    if 0 <= known <= total && total > 0 {
      var r := KnowledgeRatio(known, total);
      MulMonotone(total, -1, 2 * r);
      MulMonotone(total, 2 * r - 1, 200);
    }
  }

  /** The ratio is the only integer within one half of `100 * known / total`. */
  lemma RatioUnique(known: int, total: int, q: int)
    requires total > 0
    requires 2 * total * q - total <= 200 * known < 2 * total * q + total
    ensures q == KnowledgeRatio(known, total)
  {
    var r := KnowledgeRatio(known, total);
    MulMonotone(total, 2 * q + 1, 2 * r - 1);
    MulMonotone(total, 2 * r + 1, 2 * q - 1);
  }

  /** Worked values: two of three is 67, fifteen of twenty is 75, a half rounds up. */
  lemma RatioExamples()
    ensures KnowledgeRatio(2, 3) == 67
    ensures KnowledgeRatio(15, 20) == 75
    ensures KnowledgeRatio(1, 8) == 13
    ensures KnowledgeRatio(0, 0) == 0
  {
  }

  datatype Tier = Excellent | GoodProgress | KeepPracticing

  /** The three-way feedback tier chosen from the ratio. */
  function FeedbackTier(ratio: int): (t: Tier)
    ensures t == Excellent <==> ratio >= 80
    ensures t == GoodProgress <==> 60 <= ratio < 80
    ensures t == KeepPracticing <==> ratio < 60
  {
    if ratio >= 80 then Excellent
    else if ratio >= 60 then GoodProgress
    else KeepPracticing
  }

  function Message(t: Tier): (m: string)
    ensures t == Excellent ==> m == "Excellent! Keep up the good work!"
    ensures t == GoodProgress ==> m == "Good progress! Review the cards you missed."
    ensures t == KeepPracticing ==> m == "Keep practicing! You'll improve with repetition."
  {
    match t
    case Excellent => "Excellent! Keep up the good work!"
    case GoodProgress => "Good progress! Review the cards you missed."
    case KeepPracticing => "Keep practicing! You'll improve with repetition."
  }

  /** What the summary card displays. */
  datatype Summary = Summary(total: int, known: int, unknown: int, ratio: int, message: string)

  /** The summary card: the three counters verbatim, the ratio and the tier's message. */
  function SummaryCard(s: Stats): (v: Summary)
    ensures v.total == s.todayTotal && v.known == s.todayKnown && v.unknown == s.todayUnknown
    ensures v.ratio == StatsRatio(s)
    ensures StatsValid(s) ==> 0 <= v.ratio <= 100
    ensures v.message == Message(FeedbackTier(v.ratio))
  {
    var ratio := StatsRatio(s);
    Summary(s.todayTotal, s.todayKnown, s.todayUnknown, ratio, Message(FeedbackTier(ratio)))
  }
}
