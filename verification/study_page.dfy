/** The study session: one review outcome bumps the cumulative counters, tallies the outcome
    in the bucket of the review's day (appending a bucket for a new day and evicting the
    oldest once there are more than seven), then moves the card cursor on or ends the session. */
module StudyPage {
  import opened DummyData
  import ReviewComplete
  import FlashcardViewer

  // ---------------------------------------------------------------------------
  // The weekly series

  /** The first bucket dated `date`, or -1 when there is none. */
  function FindIndex(week: seq<DayStat>, date: DateKey): (i: int)
    ensures -1 <= i < |week|
    ensures i >= 0 ==> week[i].date == date && forall k :: 0 <= k < i ==> week[k].date != date
    ensures i == -1 <==> forall k :: 0 <= k < |week| ==> week[k].date != date
  {
    if |week| == 0 then -1
    else if week[0].date == date then 0
    else
      var j := FindIndex(week[1..], date);
      if j < 0 then -1 else j + 1
  }

  /** A bucket with one more review of the given outcome. */
  function Tally(d: DayStat, known: bool): DayStat {
    if known then d.(total := d.total + 1, known := d.known + 1)
    else d.(total := d.total + 1, unknown := d.unknown + 1)
  }

  /** The bucket opened by the first review of a day. */
  function FreshBucket(today: DateKey, known: bool): DayStat {
    DayStat(today, 1, if known then 1 else 0, if known then 0 else 1)
  }

  /** The weekly series after one review on day `today`: the day's bucket is tallied when the
      series has one; otherwise a fresh bucket goes last, and the series never grows past seven
      buckets by it. */
  function RecordDay(week: seq<DayStat>, today: DateKey, known: bool): (r: seq<DayStat>)
    ensures var i := FindIndex(week, today);
      i >= 0 ==> (|r| == |week| && r[i] == Tally(week[i], known) &&
                  forall k :: 0 <= k < |week| && k != i ==> r[k] == week[k])
    ensures FindIndex(week, today) < 0 ==>
      |r| > 0 && r[|r| - 1] == FreshBucket(today, known) &&
      |r| == if |week| >= WeekLength then |week| else |week| + 1
  {
    var i := FindIndex(week, today);
    if i >= 0 then week[i := Tally(week[i], known)]
    else
      var grown := week + [FreshBucket(today, known)];
      if |grown| > WeekLength then grown[1..] else grown
  }

  /** A review of a day that already has a bucket changes that bucket alone: its total and the
      matching count go up by one; the length and every other bucket stay as they were. */
  lemma RecordExistingDay(week: seq<DayStat>, today: DateKey, known: bool, i: int)
    requires 0 <= i < |week| && week[i].date == today
    requires forall k :: 0 <= k < i ==> week[k].date != today
    ensures var r := RecordDay(week, today, known);
      |r| == |week| &&
      r[i].date == today && r[i].total == week[i].total + 1 &&
      r[i].known == week[i].known + (if known then 1 else 0) &&
      r[i].unknown == week[i].unknown + (if known then 0 else 1) &&
      forall k :: 0 <= k < |week| && k != i ==> r[k] == week[k]
  {
    assert FindIndex(week, today) == i;
  }

  /** The first review of a new day appends its bucket as the newest entry; the oldest bucket
      is dropped exactly when the series would otherwise exceed seven entries. */
  lemma RecordNewDay(week: seq<DayStat>, today: DateKey, known: bool)
    requires forall k :: 0 <= k < |week| ==> week[k].date != today
    ensures var r := RecordDay(week, today, known);
      |r| > 0 && r[|r| - 1] == DayStat(today, 1, if known then 1 else 0, if known then 0 else 1) &&
      (|week| < WeekLength ==> r == week + [r[|r| - 1]]) &&
      (|week| >= WeekLength ==> r == week[1..] + [r[|r| - 1]])
  {
    var newest := FreshBucket(today, known);
    if |week| >= WeekLength {
      assert (week + [newest])[1..] == week[1..] + [newest];
    }
  }

  /** A review keeps every bucket balanced and the series at most seven long. */
  lemma RecordKeepsInvariant(week: seq<DayStat>, today: DateKey, known: bool)
    requires AllBalanced(week) && |week| <= WeekLength
    ensures AllBalanced(RecordDay(week, today, known)) && |RecordDay(week, today, known)| <= WeekLength
  {
    var r := RecordDay(week, today, known);
    var i := FindIndex(week, today);
    if i < 0 {
      var grown := week + [FreshBucket(today, known)];
      assert forall k :: 0 <= k < |grown| ==> BucketBalanced(grown[k]) by {
        forall k | 0 <= k < |grown| ensures BucketBalanced(grown[k]) {
          if k < |week| { assert grown[k] == week[k]; }
        }
      }
    }
  }

  // ---------------------------------------------------------------------------
  // Many reviews: the series holds the latest seven distinct days

  /** One review as the page sees it: the day it happened and its outcome. */
  datatype Review = Review(day: DateKey, known: bool)

  function Days(rs: seq<Review>): (ds: seq<DateKey>)
    ensures |ds| == |rs| && forall i :: 0 <= i < |rs| ==> ds[i] == rs[i].day
  {
    seq(|rs|, i requires 0 <= i < |rs| => rs[i].day)
  }

  /** The weekly series after the reviews, oldest review first. */
  function Replay(week: seq<DayStat>, rs: seq<Review>): seq<DayStat>
    decreases |rs|
  {
    if rs == [] then week
    else
      var last := rs[|rs| - 1];
      RecordDay(Replay(week, rs[..|rs| - 1]), last.day, last.known)
  }

  predicate NonDecreasing(ds: seq<DateKey>) {
    forall i, j :: 0 <= i < j < |ds| ==> ds[i] <= ds[j]
  }

  /** The distinct days of a chronological list, collapsing runs of the same day. */
  function Distinct(ds: seq<DateKey>): seq<DateKey>
    decreases |ds|
  {
    if ds == [] then []
    else
      var prior := Distinct(ds[..|ds| - 1]);
      if prior != [] && prior[|prior| - 1] == ds[|ds| - 1] then prior else prior + [ds[|ds| - 1]]
  }

  /** The last `n` entries of a list (all of it when shorter). */
  function LastN(ds: seq<DateKey>, n: nat): (r: seq<DateKey>)
    ensures |r| <= n && |r| <= |ds|
  {
    if |ds| <= n then ds else ds[|ds| - n..]
  }

  /** Collapsing runs of a chronological list gives a strictly increasing list ending with the
      same last day. */
  lemma {:induction false} DistinctIncreasing(ds: seq<DateKey>)
    requires NonDecreasing(ds)
    ensures var d := Distinct(ds);
      StrictlyIncreasing(d) && (ds == [] <==> d == []) &&
      (ds != [] ==> d[|d| - 1] == ds[|ds| - 1])
    decreases |ds|
  {
    if ds != [] {
      var init := ds[..|ds| - 1];
      assert NonDecreasing(init);
      DistinctIncreasing(init);
      var prior := Distinct(init);
      if init != [] {
        assert prior[|prior| - 1] == init[|init| - 1] <= ds[|ds| - 1];
      }
    }
  }

  /** A strictly increasing list has no runs to collapse. */
  lemma {:induction false} DistinctOfIncreasing(ds: seq<DateKey>)
    requires StrictlyIncreasing(ds)
    ensures Distinct(ds) == ds
    decreases |ds|
  {
    if ds != [] {
      var init := ds[..|ds| - 1];
      assert StrictlyIncreasing(init);
      DistinctOfIncreasing(init);
      if init != [] {
        assert init[|init| - 1] < ds[|ds| - 1];
      }
      assert ds == init + [ds[|ds| - 1]];
    }
  }

  lemma DatesOfUpdate(week: seq<DayStat>, i: int, b: DayStat)
    requires 0 <= i < |week| && b.date == week[i].date
    ensures Dates(week[i := b]) == Dates(week)
  {
  }

  lemma DatesOfAppend(week: seq<DayStat>, b: DayStat)
    ensures Dates(week + [b]) == Dates(week) + [b.date]
    ensures |week + [b]| > 0 ==> Dates((week + [b])[1..]) == (Dates(week) + [b.date])[1..]
  {
  }

  /** Appending a day to the latest seven and dropping the oldest if there are eight gives the
      latest seven of the longer list. */
  lemma WindowSlides(ds: seq<DateKey>, t: DateKey)
    ensures var grown := LastN(ds, WeekLength) + [t];
      (if |grown| > WeekLength then grown[1..] else grown) == LastN(ds + [t], WeekLength)
  {
    if |ds| > WeekLength {
      assert (ds + [t])[|ds| + 1 - WeekLength..] == ds[|ds| - WeekLength..][1..] + [t];
    }
  }

  /** A review on the newest held day leaves the days of the series as they were. */
  lemma SameDayStep(w: seq<DayStat>, prior: seq<DateKey>, t: DateKey, known: bool)
    requires Dates(w) == LastN(prior, WeekLength) && prior != [] && prior[|prior| - 1] == t
    ensures Dates(RecordDay(w, t, known)) == LastN(prior, WeekLength)
  {
    assert Dates(w)[|Dates(w)| - 1] == t;
    var i := FindIndex(w, t);
    DatesOfUpdate(w, i, Tally(w[i], known));
  }

  /** A review on a day later than every held day slides the window by that day. */
  lemma NewDayStep(w: seq<DayStat>, prior: seq<DateKey>, t: DateKey, known: bool)
    requires Dates(w) == LastN(prior, WeekLength) && StrictlyIncreasing(prior)
    requires prior != [] ==> prior[|prior| - 1] < t
    ensures Dates(RecordDay(w, t, known)) == LastN(prior + [t], WeekLength)
  {
    assert forall k :: 0 <= k < |w| ==> w[k].date != t by {
      forall k | 0 <= k < |w| ensures w[k].date != t {
        assert Dates(w)[k] in prior;
      }
    }
    assert FindIndex(w, t) == -1;
    DatesOfAppend(w, FreshBucket(t, known));
    WindowSlides(prior, t);
  }

  /** The latest days of a strictly increasing list are strictly increasing. */
  lemma LastNIncreasing(ds: seq<DateKey>, n: nat)
    requires StrictlyIncreasing(ds)
    ensures StrictlyIncreasing(LastN(ds, n))
  {
  }

  /** One review at the end of a chronological run keeps the series equal to the latest seven
      distinct days seen so far. */
  lemma StepKeepsLatestDays(w: seq<DayStat>, before: seq<DateKey>, r: Review)
    requires NonDecreasing(before + [r.day])
    requires Dates(w) == LastN(Distinct(before), WeekLength)
    ensures Dates(RecordDay(w, r.day, r.known)) == LastN(Distinct(before + [r.day]), WeekLength)
  {
    var grown := before + [r.day];
    assert grown[..|grown| - 1] == before;
    assert NonDecreasing(before);
    DistinctIncreasing(before);
    var prior := Distinct(before);
    if prior != [] && prior[|prior| - 1] == r.day {
      assert Distinct(grown) == prior;
      SameDayStep(w, prior, r.day, r.known);
    } else {
      if before != [] {
        assert grown[|before| - 1] <= grown[|before|];
        assert prior[|prior| - 1] == before[|before| - 1] <= r.day;
      }
      assert Distinct(grown) == prior + [r.day];
      NewDayStep(w, prior, r.day, r.known);
    }
  }

  /** Starting from a series of at most seven buckets in strictly increasing day order, any run
      of reviews in chronological order leaves exactly the latest seven distinct days in the
      series, oldest first: once an eighth day is recorded the earliest one is gone. */
  lemma {:induction false} ReplayKeepsLatestDays(week: seq<DayStat>, rs: seq<Review>)
    requires StrictlyIncreasing(Dates(week)) && |week| <= WeekLength
    requires NonDecreasing(Dates(week) + Days(rs))
    ensures Dates(Replay(week, rs)) == LastN(Distinct(Dates(week) + Days(rs)), WeekLength)
    ensures StrictlyIncreasing(Dates(Replay(week, rs)))
    decreases |rs|
  {
    var all := Dates(week) + Days(rs);
    if rs == [] {
      assert all == Dates(week);
      DistinctOfIncreasing(Dates(week));
    } else {
      var init := rs[..|rs| - 1];
      var last := rs[|rs| - 1];
      var before := Dates(week) + Days(init);
      assert all == before + [last.day];
      assert NonDecreasing(before) by {
        assert all[..|all| - 1] == before;
      }
      ReplayKeepsLatestDays(week, init);
      StepKeepsLatestDays(Replay(week, init), before, last);
    }
    DistinctIncreasing(all);
    LastNIncreasing(Distinct(all), WeekLength);
  }

  // ---------------------------------------------------------------------------
  // The card cursor

  /** The cursor and completion flag after one review of a catalog of `n` cards: move on while
      not on the last card, otherwise stay and mark the session complete. */
  function NextCursor(index: int, complete: bool, n: int): (r: (int, bool))
    ensures r.0 == index + 1 || (r.0 == index && r.1)
    ensures r.1 <==> complete || index >= n - 1
    ensures 0 <= index < n ==> 0 <= r.0 < n
    ensures index < n - 1 ==> r == (index + 1, complete)
    ensures index >= n - 1 ==> r == (index, true)
  {
    if index < n - 1 then (index + 1, complete) else (index, true)
  }

  /** The cursor and flag after `k` reviews of a fresh session. */
  function AfterReviews(n: int, k: nat): (int, bool) {
    if k == 0 then (0, false)
    else
      var prev := AfterReviews(n, k - 1);
      NextCursor(prev.0, prev.1, n)
  }

  /** From a fresh session over `n >= 1` cards, review `k < n` shows card `k` and is not complete;
      the session completes exactly on review `n`, with the cursor left on the last card. */
  lemma {:induction false} CompletesOnLastReview(n: int, k: nat)
    requires n >= 1 && k <= n
    ensures k < n ==> AfterReviews(n, k) == (k, false)
    ensures k == n ==> AfterReviews(n, k) == (n - 1, true)
  {
    if k > 0 {
      CompletesOnLastReview(n, k - 1);
    }
  }

  // ---------------------------------------------------------------------------
  // The page

  /** What the review tab renders: the summary card once complete, otherwise the viewer for
      the current card with its 1-based progress. */
  datatype View =
    | Complete(summary: ReviewComplete.Summary)
    | Reviewing(card: Flashcard, current: int, total: int)

  class Session {
    const flashcards: seq<Flashcard>
    var currentCardIndex: int
    var reviewComplete: bool
    var stats: Stats

    ghost predicate Valid()
      reads this
    {
      StatsValid(stats) && 0 <= currentCardIndex < |flashcards|
    }

    /** A session over the built-in catalog, starting on the first card with the seed statistics. */
    constructor (seed: Stats)
      requires StatsValid(seed)
      ensures Valid()
      ensures flashcards == Flashcards() && stats == seed
      ensures currentCardIndex == 0 && !reviewComplete
    {
      flashcards := Flashcards();
      stats := seed;
      currentCardIndex := 0;
      reviewComplete := false;
    }

    /** One review outcome, performed step by step on the statistics record. The "today"
        counters are cumulative: they are never reset when the day changes. */
    method HandleCardReview(today: DateKey, known: bool)
      requires Valid()
      modifies this
      ensures Valid()
      ensures stats.todayTotal == old(stats.todayTotal) + 1
      ensures stats.todayKnown == old(stats.todayKnown) + (if known then 1 else 0)
      ensures stats.todayUnknown == old(stats.todayUnknown) + (if known then 0 else 1)
      ensures stats.weeklyData == RecordDay(old(stats.weeklyData), today, known)
      ensures (currentCardIndex, reviewComplete) == NextCursor(old(currentCardIndex), old(reviewComplete), |flashcards|)
    {
      var updated := stats;

      updated := updated.(todayTotal := updated.todayTotal + 1);
      if known {
        updated := updated.(todayKnown := updated.todayKnown + 1);
      } else {
        updated := updated.(todayUnknown := updated.todayUnknown + 1);
      }

      var dayIndex := FindIndex(updated.weeklyData, today);
      if dayIndex >= 0 {
        var day := updated.weeklyData[dayIndex];
        day := day.(total := day.total + 1);
        if known {
          day := day.(known := day.known + 1);
        } else {
          day := day.(unknown := day.unknown + 1);
        }
        updated := updated.(weeklyData := updated.weeklyData[dayIndex := day]);
      } else {
        updated := updated.(weeklyData := updated.weeklyData + [DayStat(today, 1, if known then 1 else 0, if known then 0 else 1)]);
        if |updated.weeklyData| > WeekLength {
          updated := updated.(weeklyData := updated.weeklyData[1..]);
        }
      }
      RecordKeepsInvariant(stats.weeklyData, today, known);
      stats := updated;

      if currentCardIndex < |flashcards| - 1 {
        currentCardIndex := currentCardIndex + 1;
      } else {
        reviewComplete := true;
      }
    }

    /** "Review Again": back to the first card, not complete; the statistics are kept. */
    method ResetReview()
      requires Valid()
      modifies this
      ensures Valid()
      ensures currentCardIndex == 0 && !reviewComplete && stats == old(stats)
    {
      currentCardIndex := 0;
      reviewComplete := false;
    }

    /** The review tab. */
    function Render(): (v: View)
      requires Valid()
      reads this
      ensures v.Complete? <==> reviewComplete
      ensures v.Complete? ==> v.summary == ReviewComplete.SummaryCard(stats)
      ensures v.Reviewing? ==>
        v.card == flashcards[currentCardIndex] && v.current == currentCardIndex + 1 && v.total == |flashcards|
      ensures v.Reviewing? ==> 1 <= v.current <= v.total
    {
      if reviewComplete then Complete(ReviewComplete.SummaryCard(stats))
      else Reviewing(flashcards[currentCardIndex], currentCardIndex + 1, |flashcards|)
    }

    /** A review button pressed in the viewer the page renders. The viewer exists only while the
        session is not complete, and it shows the current card. An outcome reaches the
        statistics and the cursor only when the answer side was showing. */
    method PressReviewButton(viewer: FlashcardViewer.Viewer, today: DateKey, known: bool)
      requires Valid() && !reviewComplete
      requires viewer.flashcard == flashcards[currentCardIndex]
      modifies this, viewer
      ensures Valid()
      ensures old(viewer.isFlipped) ==>
        stats.todayTotal == old(stats.todayTotal) + 1 &&
        stats.todayKnown == old(stats.todayKnown) + (if known then 1 else 0) &&
        stats.todayUnknown == old(stats.todayUnknown) + (if known then 0 else 1) &&
        !viewer.isFlipped &&
        stats.weeklyData == RecordDay(old(stats.weeklyData), today, known) &&
        (currentCardIndex, reviewComplete) == NextCursor(old(currentCardIndex), false, |flashcards|)
      ensures !old(viewer.isFlipped) ==>
        stats == old(stats) && currentCardIndex == old(currentCardIndex) && !reviewComplete && viewer.isFlipped
      ensures viewer.isAnimating == old(viewer.isAnimating)
    {
      var e := viewer.HandleReview(known);
      if e.Outcome? {
        HandleCardReview(today, e.known);
      }
    }
  }

  /** The worked session: three cards, outcomes known, unknown, known, all on one new day.
      The cursor reads 1, then 2, then the session is complete; the day's bucket holds 3 reviews,
      2 known and 1 unknown, and the success ratio is 67. */
  lemma ThreeCardScenario(today: DateKey)
    ensures AfterReviews(3, 1) == (1, false) && AfterReviews(3, 2) == (2, false)
    ensures AfterReviews(3, 3) == (2, true)
    ensures Replay([], [Review(today, true), Review(today, false), Review(today, true)]) == [DayStat(today, 3, 2, 1)]
    ensures ReviewComplete.KnowledgeRatio(2, 3) == 67
  {
    var rs := [Review(today, true), Review(today, false), Review(today, true)];
    assert rs[..2] == [Review(today, true), Review(today, false)];
    assert rs[..2][..1] == [Review(today, true)];
    assert Replay([], rs[..2][..1]) == [DayStat(today, 1, 1, 0)];
    assert Replay([], rs[..2]) == [DayStat(today, 2, 1, 1)];
  }
}
