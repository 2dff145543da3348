/** Shared record types, the static flashcard catalog and the seed statistics.
    Calendar days are modelled as day numbers: a larger number is a later day,
    and two reviews fall on the same day exactly when their numbers agree. */
module DummyData {

  /** A calendar-day key; stands for the "YYYY-MM-DD" string the app derives from the clock. */
  type DateKey = int

  datatype Flashcard = Flashcard(id: int, question: string, answer: string)

  /** One day bucket of the weekly series. */
  datatype DayStat = DayStat(date: DateKey, total: int, known: int, unknown: int)

  /** The statistics record shown by the dashboards and updated by a study session. */
  datatype Stats = Stats(todayTotal: int, todayKnown: int, todayUnknown: int, weeklyData: seq<DayStat>)

  /** The longest weekly series a review keeps. */
  const WeekLength: nat := 7

  predicate BucketBalanced(d: DayStat) {
    0 <= d.known && 0 <= d.unknown && d.total == d.known + d.unknown
  }

  predicate AllBalanced(week: seq<DayStat>) {
    forall i :: 0 <= i < |week| ==> BucketBalanced(week[i])
  }

  /** The invariant every reachable statistics record satisfies. */
  predicate StatsValid(s: Stats) {
    0 <= s.todayKnown && 0 <= s.todayUnknown &&
    s.todayTotal == s.todayKnown + s.todayUnknown &&
    AllBalanced(s.weeklyData) && |s.weeklyData| <= WeekLength
  }

  function Dates(week: seq<DayStat>): (ds: seq<DateKey>)
    ensures |ds| == |week|
    ensures forall i :: 0 <= i < |week| ==> ds[i] == week[i].date
  {
    seq(|week|, i requires 0 <= i < |week| => week[i].date)
  }

  predicate StrictlyIncreasing(ds: seq<DateKey>) {
    forall i, j :: 0 <= i < j < |ds| ==> ds[i] < ds[j]
  }

  /** The last `days` calendar days, oldest first and ending with `today`. */
  function PastDates(today: DateKey, days: int): (ds: seq<DateKey>)
    ensures |ds| == if days < 0 then 0 else days
    ensures StrictlyIncreasing(ds)
    ensures days > 0 ==> ds[days - 1] == today && ds[0] == today - (days - 1)
  {
    if days <= 0 then [] else seq(days, k requires 0 <= k < days => today - (days - 1 - k))
  }

  /** Counts down from `days - 1` to 0, pushing the date `i` days before today each time. */
  method GeneratePastDates(today: DateKey, days: int) returns (dates: seq<DateKey>)
    ensures dates == PastDates(today, days)
  {
    dates := [];
    var i := days - 1;
    while i >= 0
      invariant days > 0 ==> -1 <= i <= days - 1
      invariant days <= 0 ==> i == days - 1 && dates == []
      invariant days > 0 ==> |dates| == days - 1 - i
      invariant forall k :: 0 <= k < |dates| ==> dates[k] == today - (days - 1 - k)
    {
      dates := dates + [today - i];
      i := i - 1;
    }
  }

  /** The fifteen built-in cards, in review order, numbered 1..15. */
  function Flashcards(): (cards: seq<Flashcard>)
    ensures |cards| == 15
  {
    seq(15, k requires 0 <= k < 15 => Flashcard(k + 1, Question(k + 1), Answer(k + 1)))
  }

  /** The question text of the built-in card with the given id (1..15). */
  function Question(id: int): string {
    match id
    case 1 => "What is React?"
    case 2 => "What is JSX?"
    case 3 => "What is a React component?"
    case 4 => "What are props in React?"
    case 5 => "What is state in React?"
    case 6 => "What is the virtual DOM?"
    case 7 => "What are React hooks?"
    case 8 => "What is the useEffect hook used for?"
    case 9 => "What is the difference between controlled and uncontrolled components?"
    case 10 => "What is the Context API in React?"
    case 11 => "What is Redux?"
    case 12 => "What is the purpose of keys in React lists?"
    case 13 => "What is React Router?"
    case 14 => "What is the difference between state and props?"
    case _ => "What is a Higher-Order Component (HOC)?"
  }

  /** The answer text of the built-in card with the given id (1..15). */
  function Answer(id: int): string {
    match id
    case 1 => "A JavaScript library for building user interfaces, particularly single-page applications."
    case 2 => "A syntax extension for JavaScript that looks similar to HTML and allows us to write HTML in React."
    case 3 => "An independent, reusable piece of code that returns React elements describing what should appear on the screen."
    case 4 => "Props (short for properties) are read-only inputs to components that allow passing data from parent to child components."
    case 5 => "State is a built-in object that stores property values that belong to a component and determines how it renders and behaves."
    case 6 => "A lightweight copy of the real DOM that React uses to improve performance by minimizing direct manipulation of the DOM."
    case 7 => "Functions that let you use state and other React features in functional components without writing a class."
    case 8 => "To perform side effects in functional components, such as data fetching, subscriptions, or manually changing the DOM."
    case 9 => "Controlled components have their state controlled by React, while uncontrolled components store their state in the DOM."
    case 10 => "A way to share values like themes or user data between components without explicitly passing props through every level."
    case 11 => "A predictable state container for JavaScript apps, often used with React for managing application state."
    case 12 => "Keys help React identify which items have changed, are added, or are removed, improving performance when rendering lists."
    case 13 => "A standard library for routing in React that enables navigation among views in a React application."
    case 14 => "Props are passed to a component and are immutable, while state is managed within a component and can be updated."
    case _ => "A pattern where a function takes a component and returns a new component with additional props or behavior."
  }

  /** The catalog numbers its cards 1..15 in order, so ids are distinct. */
  lemma FlashcardIds()
    ensures forall k :: 0 <= k < 15 ==> Flashcards()[k].id == k + 1
    ensures forall i, j :: 0 <= i < j < 15 ==> Flashcards()[i].id != Flashcards()[j].id
  {
    var cards := Flashcards();
    assert forall k :: 0 <= k < 15 ==> cards[k].id == k + 1;
  }

  /** A pair of uniform draws in [0, 1) standing for two calls of the random source. */
  datatype Draw = Draw(forTotal: real, forKnown: real)

  predicate DrawInRange(d: Draw) {
    0.0 <= d.forTotal < 1.0 && 0.0 <= d.forKnown < 1.0
  }

  /** One seed bucket: `total = floor(r * 15) + 5`, `known = floor(r' * (total - 2)) + 2`. */
  function SeedBucket(date: DateKey, d: Draw): (b: DayStat)
    requires DrawInRange(d)
    ensures b.date == date
    ensures 5 <= b.total <= 19
    ensures 2 <= b.known <= b.total - 1
    ensures 1 <= b.unknown && BucketBalanced(b)
  {
    var total := (d.forTotal * 15.0).Floor + 5;
    FloorBelow(d.forTotal, 15);
    var known := (d.forKnown * (total - 2) as real).Floor + 2;
    FloorBelow(d.forKnown, total - 2);
    DayStat(date, total, known, total - known)
  }

  /** `floor(r * n)` lies in `0 .. n - 1` for a draw `r` in [0, 1). */
  lemma FloorBelow(r: real, n: int)
    requires 0.0 <= r < 1.0 && n > 0
    ensures 0 <= (r * n as real).Floor < n
  {
    assert r * n as real < n as real by {
      assert (1.0 - r) * n as real > 0.0;
    }
  }

  /** The seed series: one bucket per date, in the dates' order. */
  function GenerateRandomStats(dates: seq<DateKey>, draws: seq<Draw>): (week: seq<DayStat>)
    requires |draws| == |dates|
    requires forall i :: 0 <= i < |draws| ==> DrawInRange(draws[i])
    ensures |week| == |dates| && Dates(week) == dates
    ensures forall i :: 0 <= i < |week| ==> 5 <= week[i].total <= 19 && 2 <= week[i].known < week[i].total
    ensures AllBalanced(week)
  {
    seq(|dates|, i requires 0 <= i < |dates| => SeedBucket(dates[i], draws[i]))
  }

  /** The statistics a fresh session starts from. */
  function InitialStats(today: DateKey, draws: seq<Draw>): (s: Stats)
    requires |draws| == WeekLength
    requires forall i :: 0 <= i < |draws| ==> DrawInRange(draws[i])
    ensures s.todayTotal == 0 && s.todayKnown == 0 && s.todayUnknown == 0
    ensures |s.weeklyData| == WeekLength && s.weeklyData[WeekLength - 1].date == today
    ensures StrictlyIncreasing(Dates(s.weeklyData))
    ensures StatsValid(s)
  {
    Stats(0, 0, 0, GenerateRandomStats(PastDates(today, WeekLength as int), draws))
  }
}
