# Rewise flashcards: a Dafny model of the study session and its figures

Rewise is a flashcard demo app. Most of it is marketing pages and chart widgets. This project models the logic under them:

- **Study session** (`StudyPage`). Each review outcome does three things. It bumps three cumulative counters (total, known, unknown). It tallies the outcome in the weekly series, which holds one bucket per calendar day: a new day's bucket is appended, and the oldest is dropped once there are more than seven. Then it moves the card cursor on, or marks the session complete on the last card.
  - "Review Again" rewinds the cursor.
  - The "today" counters are cumulative: the app never resets them at a day boundary, and the model keeps that.
  - The page is a class `Session` whose `stats` record is updated step by step. The weekly update is specified by the function `RecordDay`.
- **Card viewer** (`FlashcardViewer`). A class with two flags, `isFlipped` and `isAnimating`. A review button only reports an outcome when the answer side is showing; otherwise it reveals the answer.
- **Derived figures** (`ReviewComplete`, `StatsDashboard`, `StatisticsPage`):
  - the success ratio;
  - the three feedback tiers;
  - the chart rows;
  - the known/unknown pie;
  - the fixed streak grid.
- **Seed data** (`DummyData`): the 15-card catalog, the seven past dates and the random seed buckets. The random draws are parameters.
- **Community deck browser** (`CommunityDecks`):
  - three conjunctive filters (search, category, difficulty);
  - an in-place descending sort by the chosen key;
  - the difficulty toggle;
  - the category colour lookup;
  - the "Reset filters" action.
- **Header** (`Header`): the path-prefix test for the active navigation link, the theme switch and the mobile menu.

Modelling choices:

- Calendar days are day numbers. A deck's creation date `YYYY-MM-DD` becomes the number `YYYYMMDD`, which sorts the same way.
- Deck ratings are integer tenths (4.8 becomes 48), and deck ids are their numbers.
- The success ratio is exact: `round(100 * known / total)` with halves rounded up, or 0 when nothing was reviewed.

Two facts about the app shape the model:

- The review handler does not refuse an outcome after completion. The page stops rendering the viewer once the session is complete, so no outcome reaches the handler (`Session.PressReviewButton` requires `!reviewComplete`).
- The app saves its state to local storage and restores it without validating anything it restores.

## Model

| member | source | states |
|---|---|---|
| DummyData.PastDates | data/dummy-data.ts:22-30 | `n` dates, strictly increasing (oldest first), the last one today and the first `n - 1` days earlier |
| DummyData.GeneratePastDates | data/dummy-data.ts:22-30 | the count-down loop that pushes one date per step yields exactly `PastDates(today, n)` |
| DummyData.Flashcards | data/dummy-data.ts:33-120 | the catalog has 15 cards |
| DummyData.FlashcardIds | data/dummy-data.ts:33-120 | card `k` has id `k + 1`, so the ids 1..15 are distinct |
| DummyData.SeedBucket | data/dummy-data.ts:125-133 | for draws in [0, 1): total in 5..19 (the source comment's "5-20" overstates by one), known in 2..total-1, unknown = total - known >= 1, bucket balanced |
| DummyData.GenerateRandomStats | data/dummy-data.ts:124-135 | one balanced bucket per date, same dates in the same order, totals 5..19 and known 2..total-1 |
| DummyData.InitialStats | data/dummy-data.ts:123-143 | counters start at 0; exactly 7 buckets with strictly increasing dates ending today; the record satisfies the statistics invariant |
| ReviewComplete.KnowledgeRatio | components/review-complete.tsx:15 | 0 when nothing was reviewed (no division by zero); otherwise the integer within one half of `100 * known / total`, halves rounding up |
| ReviewComplete.StatsRatio | components/review-complete.tsx:15 | ratio of a record is 0 when its total is 0 and lies in 0..100 whenever `total == known + unknown` with non-negative counts |
| ReviewComplete.RatioBounds | components/review-complete.tsx:15 | with `0 <= known <= total` the ratio is a percentage in 0..100 |
| ReviewComplete.RatioUnique | components/review-complete.tsx:15 | any integer within one half of `100 * known / total` (halves up) is the ratio, so the ratio is exactly round-half-up |
| ReviewComplete.RatioExamples | components/review-complete.tsx:15 | 2 of 3 gives 67, 15 of 20 gives 75, 1 of 8 gives 13, 0 of 0 gives 0 |
| ReviewComplete.FeedbackTier | components/review-complete.tsx:55-59 | "Excellent" iff ratio >= 80, "Good progress" iff 60 <= ratio < 80, "Keep practicing" iff ratio < 60; the tiers partition the range |
| ReviewComplete.Message | components/review-complete.tsx:55-59 | each tier's feedback sentence, word for word |
| ReviewComplete.SummaryCard | components/review-complete.tsx:14-60 | shows the three counters verbatim, the shared ratio (0..100 for a valid record) and the tier's message |
| StatsDashboard.WeeklyChartData | components/stats-dashboard.tsx:26-31 | one row per bucket, same length and order, each row's known/unknown/total equal to its bucket's |
| StatsDashboard.ChartRowsBalanced | components/stats-dashboard.tsx:26-31 | rows from balanced buckets have total = known + unknown |
| StatsDashboard.SummaryCards | components/stats-dashboard.tsx:33-66 | the cards show the counters unchanged; the success rate is the same ratio as the summary card's, 0 with no reviews, 0..100 for a valid record |
| StatisticsPage.PieData | app/statistics/page.tsx:58-61 | exactly two slices, Known = known counter and Unknown = unknown counter |
| StatisticsPage.PieCoversTotal | app/statistics/page.tsx:58-61 | for a valid record the two slices are non-negative and add up to the total counter |
| StatisticsPage.StreakGrid | app/statistics/page.tsx:233-245 | seven cells: cells 0-4 completed, cell 5 today, cell 6 neither |
| StatisticsPage.Display | app/statistics/page.tsx:47-136 | the three counter cards show the counters; chart rows are `WeeklyChartData` of the series (date key and counts, in order); the ratio is the shared one (0..100 for a valid record); the pie and grid as above; the timeframe argument is used by none of them |
| StatisticsPage.TimeframeIgnored | app/statistics/page.tsx:95-104 | changing the selected timeframe changes nothing displayed |
| FlashcardViewer.Viewer.constructor | components/flashcard-viewer.tsx:17-18 | a viewer opens on the question side, not animating |
| FlashcardViewer.Viewer.HandleFlip | components/flashcard-viewer.tsx:20-25 | ignored while animating; otherwise toggles the face and starts the animation |
| FlashcardViewer.Viewer.HandleReview | components/flashcard-viewer.tsx:27-36 | an outcome is emitted iff the answer was showing, and it is the pressed one; on the question side the press only reveals the answer; the animation flag is not consulted or changed |
| FlashcardViewer.Viewer.OnAnimationComplete | components/flashcard-viewer.tsx:60 | clears the animation flag and keeps the face |
| FlashcardViewer.Viewer.FaceText | components/flashcard-viewer.tsx:65-67 | the answer when flipped, the question otherwise |
| FlashcardViewer.TwoPresses | components/flashcard-viewer.tsx:27-36 | from a fresh viewer, a first press emits nothing and a second emits exactly its own outcome |
| StudyPage.FindIndex | app/study/page.tsx:63 | -1 iff no bucket has the date; otherwise the first bucket with that date |
| StudyPage.RecordDay | app/study/page.tsx:62-83 | a day already in the series: same length, its first bucket tallied (`Tally`: total and the pressed side +1), every other bucket unchanged; a new day: a fresh bucket `{today, 1, known?1:0, known?0:1}` goes last, and the length grows by one unless the series already held 7 or more, when it stays the same |
| StudyPage.RecordExistingDay | app/study/page.tsx:63-70 | a review of a day already in the series changes only that bucket (total +1 and the matching count +1); length and all other buckets unchanged |
| StudyPage.RecordNewDay | app/study/page.tsx:71-83 | a review of a new day appends `{today, 1, known?1:0, known?0:1}` as the last bucket; with 7 or more buckets the oldest (index 0) is dropped, otherwise nothing is |
| StudyPage.RecordKeepsInvariant | app/study/page.tsx:55-83 | a review keeps every bucket balanced and the series at most 7 long |
| StudyPage.ReplayKeepsLatestDays | app/study/page.tsx:62-83 | after any chronological run of reviews, the series' dates are exactly the latest 7 distinct days, oldest first, strictly increasing (so after an 8th day the earliest is gone) |
| StudyPage.NextCursor | app/study/page.tsx:87-92 | below the last card the cursor moves on by one and the flag is kept, whether or not the session is already complete; on or past the last card it stays and the session is complete; complete iff it already was or the cursor was on the last card; a cursor on a card stays on a card |
| StudyPage.CompletesOnLastReview | app/study/page.tsx:87-92 | from cursor 0 over `n >= 1` cards: after `k < n` reviews the cursor is `k` and the session is not complete; it completes exactly on review `n`, cursor on the last card |
| StudyPage.ThreeCardScenario | app/study/page.tsx:49-92 | three cards, outcomes known/unknown/known on one day: cursor 1, 2, then complete; the day's bucket is total 3, known 2, unknown 1; ratio 67 |
| StudyPage.Session.constructor | app/study/page.tsx:13-15 | a session starts on card 0, not complete, with the seed statistics and the 15-card catalog |
| StudyPage.Session.HandleCardReview | app/study/page.tsx:49-93 | total +1 and exactly one of known/unknown +1 (no day-boundary reset); series becomes `RecordDay(old, today, known)`; cursor +1 while not on the last card, else stays and the session completes; the statistics invariant and cursor bound are kept |
| StudyPage.Session.ResetReview | app/study/page.tsx:95-98 | cursor 0, not complete, statistics untouched |
| StudyPage.Session.Render | app/study/page.tsx:128-136 | the summary iff complete; otherwise the card at the cursor, with progress `index + 1` of the catalog length |
| StudyPage.Session.PressReviewButton | app/study/page.tsx:131-135 | a press in the rendered viewer (session not complete) reaches the statistics and the cursor iff the answer was showing: then total +1, the pressed side's count +1, the series updated, the cursor moved and the viewer back on the question; otherwise only the face turns to the answer; the animation flag is untouched either way |
| CommunityDecks.DummyDecks | components/community-decks.tsx:51-232 | twelve catalog decks, deck `k` with id `k + 1` |
| CommunityDecks.DeckAt | components/community-decks.tsx:51-232 | catalog deck `k` carries id `k + 1` and the catalog's fields |
| CommunityDecks.CatalogIdsDistinct | components/community-decks.tsx:51-232 | no two catalog decks share an id |
| CommunityDecks.Contains | components/community-decks.tsx:352-354 | `includes`: the empty needle and any prefix occur; an occurring needle is no longer than the text |
| CommunityDecks.MatchesQuery | components/community-decks.tsx:350-355 | the empty query matches every deck; a match needs the title, description or creator name to be at least as long as the query |
| CommunityDecks.Passes | components/community-decks.tsx:347-366 | a deck passes iff it passes each active filter: the search when the query is non-empty, the category unless "All", the difficulty list when non-empty; with no active filter every deck passes |
| CommunityDecks.Lower | components/community-decks.tsx:349-354 | case folding keeps the length, leaves no ASCII capital, maps each capital to its own lower-case letter and leaves every other character unchanged |
| CommunityDecks.LowerIdempotent | components/community-decks.tsx:349-354 | folding case twice is folding it once |
| CommunityDecks.SearchIgnoresCase | components/community-decks.tsx:348-356 | two queries with the same case folding let exactly the same decks through |
| CommunityDecks.Filter | components/community-decks.tsx:350-366 | a deck is kept iff it is in the input and meets the criterion; never longer than the input |
| CommunityDecks.FilterCounts | components/community-decks.tsx:350-366 | a deck meeting the criterion is kept as many times as the input holds it; any other deck is dropped entirely |
| CommunityDecks.FilterTwice | components/community-decks.tsx:345-366 | two successive filters equal one filter by the conjunction |
| CommunityDecks.FilterDistinctIds | components/community-decks.tsx:345-366 | filtering a list with distinct ids yields distinct ids |
| CommunityDecks.ShownHasNoDuplicates | components/community-decks.tsx:345-366 | the filtered catalog never shows a deck twice |
| CommunityDecks.Shown | components/community-decks.tsx:345-366 | a deck is shown iff it is in the catalog and passes the search (non-empty query: lower-cased title, description or creator contains it), the category (unless "All") and the difficulty list (unless empty) |
| CommunityDecks.FilterAndSort | components/community-decks.tsx:344-387 | result = exactly the decks passing all active filters, each as often as in the input (a permutation of the filtered list); non-increasing by usedBy/rating/createdAt/cardCount for "popular"/"rating"/"newest"/"cards"; any other key leaves the filter order unchanged |
| CommunityDecks.SortByKey | components/community-decks.tsx:369-384 | the sorted copy is a permutation of its input, ordered non-increasing by the key |
| CommunityDecks.ParseSortKey | components/community-decks.tsx:369-384 | "popular", "rating", "newest" and "cards" select their comparator; any other value (the `default` branch) leaves the order alone |
| CommunityDecks.Key | components/community-decks.tsx:370-381 | the quantity each comparator subtracts: uses, rating, creation date or card count |
| CommunityDecks.SortDescending | components/community-decks.tsx:369-384 | in-place sort: the array ends non-increasing by the key and a permutation of its old contents |
| CommunityDecks.ToggleDifficulty | components/community-decks.tsx:401-405 | the toggled difficulty's membership flips; every other difficulty's is unchanged |
| CommunityDecks.ToggleTwice | components/community-decks.tsx:401-405 | toggling one difficulty twice restores the selected set |
| CommunityDecks.FindCategory | components/community-decks.tsx:237 | the first category of that name (no earlier one has it), or none iff no category has it |
| CommunityDecks.CategoryColor | components/community-decks.tsx:237 | the listed category's colour, falling back to "bg-primary" for an unknown category; never empty |
| CommunityDecks.Browser.constructor | components/community-decks.tsx:326-330 | opens with query "", category "All", no difficulties, sort "popular", the whole catalog shown |
| CommunityDecks.Browser.Refresh | components/community-decks.tsx:343-387 | the shown decks become the filtered and sorted catalog for the current filters; the filters are unchanged |
| CommunityDecks.Browser.HandleDifficultyChange | components/community-decks.tsx:401-405 | the difficulty list is toggled; nothing else changes |
| CommunityDecks.Browser.HandleCategoryChange | components/community-decks.tsx:397-399 | the category is set; nothing else changes |
| CommunityDecks.Browser.ResetFilters | components/community-decks.tsx:520-528 | query "", category "All", difficulties empty, sort "popular" |
| Header.IsActive | components/header.tsx:40-44 | the root link is active iff the path is exactly "/"; any other link iff its path is a prefix of the current path |
| Header.LinkActiveOnOwnPath | components/header.tsx:32-44 | every navigation link is active on its own path |
| Header.OnlyHomeActiveAtRoot | components/header.tsx:32-44 | at "/" exactly the Home link is active |
| Header.PrefixNotSegmentAware | components/header.tsx:42 | "/study" is active at "/studyx" and at every path that extends it |
| Header.NextTheme | components/header.tsx:101 | "dark" becomes "light", anything else becomes "dark"; the theme always changes |
| Header.MobileMenu.constructor | components/header.tsx:13 | the mobile menu starts closed |
| Header.MobileMenu.Toggle | components/header.tsx:116 | the menu button negates the open flag |
| Header.MobileMenu.FollowLink | components/header.tsx:142-148 | following a mobile link closes the menu |

## Left out

- Local storage (app/study/page.tsx:20-47, app/statistics/page.tsx:31-37) is browser I/O with unchecked `JSON.parse` and `parseInt`. The model treats restored statistics as satisfying the invariant. The source never bounds-checks a restored cursor; the model's `Session` invariant assumes it is in range.
- Saving (`JSON.stringify`, app/study/page.tsx:41-47) and restoring (`JSON.parse`, `Number.parseInt`, app/study/page.tsx:20-38, app/statistics/page.tsx:31-37) are left out with the rest of local storage. The restore validates nothing and recovers from nothing: malformed JSON throws inside the load effect, a record of the wrong shape is taken as is, and a non-numeric saved index becomes `NaN`.
- The clock is a parameter. The review's day is `today`, and the seed dates count back from a given `today`. Date arithmetic, ISO formatting and the weekday chart labels (`toLocaleDateString`) are not modelled; a chart row keeps the bucket's date key instead. Because the seed dates are day numbers, they strictly increase. The app steps back with local-time `setDate` and keys each date with UTC `toISOString` (data/dummy-data.ts:25-27), so near local midnight in a week with a daylight-saving change its seed dates can repeat a day or skip one.
- `Math.random` is replaced by draws passed in as reals in [0, 1).
- Floating point is not modelled:
  - `progressPercentage` in the viewer is left out.
  - Deck ratings are integer tenths.
- ReviewComplete.KnowledgeRatio: exact rational rounding. The app's float product can land just below a half and round down: 29 of 200 shows 14 in the app but is 15 here.
- Lower: ASCII case folding only, not Unicode `toLowerCase`.
- Session.HandleCardReview: React semantics are not modelled. That covers batched `setState`, the functional cursor update and the shallow `{ ...stats }` copy, which shares (and mutates) the old record's weekly array. Each handler is one sequential step on the page's state.
- FilterAndSort: proved sorted and a permutation of the filtered list, but not stable. JavaScript's sort keeps the filter order among decks with equal keys, and the model does not state that.
- SortByKey: as above, stability is not stated.
- SortDescending: as above, stability is not stated.
- Session.PressReviewButton: the page renders the viewer without a `key` (app/study/page.tsx:131-135), so React reuses one viewer across cards and an unfinished flip animation (`isAnimating`) can carry over to the next card. The model gives each card its own viewer (`Viewer.flashcard` is fixed, and the press requires the viewer to show the current card), so that carry-over is not captured.
- Animations, toasts ("Add to Library"), the simulated loading timer, the scroll listener, the theme provider, skeletons, avatars and chart rendering are presentation only.
- The marketing pages, footer, navbar and community page wrapper contain no logic worth modelling.
- The labelled statement in the streak grid's first `map` (app/statistics/page.tsx:228-232) has no effect on what is shown and is not modelled.
