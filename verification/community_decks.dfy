/** The community deck browser: a search/category/difficulty filter over the deck catalog,
    a descending sort by the chosen key, the difficulty toggles and the category colours. */
module CommunityDecks {

  datatype Option<T> = None | Some(value: T)

  datatype Difficulty = Beginner | Intermediate | Advanced

  /** A deck. The catalog's id strings "1".."12" are kept as their numbers, ratings such as 4.8 as
      integer tenths (48), and the "YYYY-MM-DD" creation date as the number YYYYMMDD, which orders
      dates the same way the date strings do. */
  datatype Deck = Deck(
    id: nat, title: string, description: string, creatorName: string,
    cardCount: int, category: string, rating: int, difficulty: Difficulty,
    createdAt: int, usedBy: int)

  /** The twelve catalog decks, in catalog order. */
  function DummyDecks(): (decks: seq<Deck>)
    ensures |decks| == 12
    ensures forall k :: 0 <= k < 12 ==> decks[k].id == k + 1
  {
    seq(12, k requires 0 <= k < 12 => DeckAt(k))
  }

  /** The title of the catalog deck with the given id (1..12). */
  function Title(id: int): string {
    match id
    case 1 => "Spanish Vocabulary Essentials"
    case 2 => "JavaScript Fundamentals"
    case 3 => "Human Anatomy Basics"
    case 4 => "World History: Ancient Civilizations"
    case 5 => "Calculus I Concepts"
    case 6 => "French for Beginners"
    case 7 => "React Hooks Explained"
    case 8 => "Basic Music Theory"
    case 9 => "Marketing Fundamentals"
    case 10 => "Physics: Mechanics"
    case 11 => "Italian Cuisine Vocabulary"
    case _ => "Data Structures & Algorithms"
  }

  /** The description of the catalog deck with the given id (1..12). */
  function Description(id: int): string {
    match id
    case 1 => "Learn the most common Spanish words for everyday conversations."
    case 2 => "Master the core concepts of JavaScript programming language."
    case 3 => "Learn about the major systems and organs in the human body."
    case 4 => "Explore the major ancient civilizations and their contributions."
    case 5 => "Review key concepts from Calculus I including limits, derivatives, and integrals."
    case 6 => "Start your journey learning French with these essential phrases and vocabulary."
    case 7 => "Comprehensive guide to all React hooks with practical examples."
    case 8 => "Learn the fundamentals of music theory including notes, scales, and chords."
    case 9 => "Essential marketing concepts every business professional should know."
    case 10 => "Comprehensive review of classical mechanics principles and problem-solving."
    case 11 => "Learn the Italian names for ingredients, dishes, and cooking techniques."
    case _ => "Master the essential data structures and algorithms for coding interviews."
  }

  /** The creator name of the catalog deck with the given id (1..12). */
  function CreatorName(id: int): string {
    match id
    case 1 => "Maria Garcia"
    case 2 => "Alex Chen"
    case 3 => "Dr. Sarah Johnson"
    case 4 => "Prof. Michael Brown"
    case 5 => "Emma Wilson"
    case 6 => "Pierre Dubois"
    case 7 => "David Kim"
    case 8 => "Sophia Martinez"
    case 9 => "James Wilson"
    case 10 => "Dr. Robert Chen"
    case 11 => "Giulia Romano"
    case _ => "Priya Patel"
  }

  /** The category of the catalog deck with the given id (1..12). */
  function CategoryOf(id: int): string {
    match id
    case 1 => "Languages"
    case 2 => "Programming"
    case 3 => "Science"
    case 4 => "History"
    case 5 => "Mathematics"
    case 6 => "Languages"
    case 7 => "Programming"
    case 8 => "Arts"
    case 9 => "Business"
    case 10 => "Science"
    case 11 => "Languages"
    case _ => "Programming"
  }

  /** Catalog deck `k` (0-based): its id is `k + 1`. */
  function DeckAt(k: nat): (d: Deck)
    requires k < 12
    ensures d.id == k + 1
  {
    var id := k + 1;
    Deck(id, Title(id), Description(id), CreatorName(id),
      [120, 85, 150, 95, 75, 100, 65, 80, 90, 110, 70, 130][k],
      CategoryOf(id),
      [48, 49, 47, 46, 49, 45, 49, 47, 46, 48, 45, 49][k],
      [Beginner, Intermediate, Intermediate, Intermediate, Advanced, Beginner, Advanced, Beginner, Intermediate, Advanced, Beginner, Advanced][k],
      [20230915, 20231022, 20230805, 20231110, 20230728, 20231203, 20231015, 20230920, 20231128, 20230815, 20231210, 20230705][k],
      [1245, 3782, 2156, 1876, 4231, 1543, 2876, 1932, 2145, 3254, 1432, 5421][k])
  }

  /** No two catalog decks share an id, so no deck appears twice. */
  lemma CatalogIdsDistinct()
    ensures forall i, j :: 0 <= i < j < |DummyDecks()| ==> DummyDecks()[i].id != DummyDecks()[j].id
  {
  }

  // ---------------------------------------------------------------------------
  // Filtering

  /** ASCII lower-casing: capitals move to their lower-case letters, everything else stays. */
  function Lower(s: string): (r: string)
    ensures |r| == |s|
    ensures forall i :: 0 <= i < |r| ==> !('A' <= r[i] <= 'Z')
    ensures forall i :: 0 <= i < |s| && !('A' <= s[i] <= 'Z') ==> r[i] == s[i]
    ensures forall i :: 0 <= i < |s| && 'A' <= s[i] <= 'Z' ==> 'a' <= r[i] <= 'z' && r[i] as int - 'a' as int == s[i] as int - 'A' as int
  {
    seq(|s|, i requires 0 <= i < |s| => if 'A' <= s[i] <= 'Z' then (s[i] as int + 32) as char else s[i])
  }

  /** `needle` occurs in `hay` as a contiguous piece. */
  predicate Contains(hay: string, needle: string): (b: bool)
    ensures needle == [] ==> b
    ensures needle <= hay ==> b
    ensures b ==> |needle| <= |hay|
  {
    assert hay[0..] == hay;
    exists i :: 0 <= i <= |hay| && needle <= hay[i..]
  }

  /** The search test for an already lower-cased query: title, description or creator name. */
  predicate MatchesQuery(d: Deck, q: string): (b: bool)
    ensures q == [] ==> b
    ensures b ==> |q| <= |d.title| || |q| <= |d.description| || |q| <= |d.creatorName|
  {
    Contains(Lower(d.title), q) || Contains(Lower(d.description), q) || Contains(Lower(d.creatorName), q)
  }

  /** A deck passes the active filters: the search (when the query is non-empty), the category
      (when it is not "All") and the difficulty list (when it is non-empty). */
  predicate Passes(d: Deck, query: string, category: string, difficulties: seq<Difficulty>): (b: bool)
    ensures query == [] && category == "All" && |difficulties| == 0 ==> b
    ensures b && category != "All" ==> d.category == category
    ensures b && |difficulties| > 0 ==> d.difficulty in difficulties
    ensures b && query != [] ==> MatchesQuery(d, Lower(query))
    ensures ((query == [] || MatchesQuery(d, Lower(query))) && (category == "All" || d.category == category) &&
             (|difficulties| == 0 || d.difficulty in difficulties)) ==> b
  {
    (query == [] || MatchesQuery(d, Lower(query))) &&
    (category == "All" || d.category == category) &&
    (|difficulties| == 0 || d.difficulty in difficulties)
  }

  /** Folding case twice is folding it once. */
  lemma LowerIdempotent(s: string)
    ensures Lower(Lower(s)) == Lower(s)
  {
  }

  /** The search ignores the case of the query: two queries that fold to the same text let the
      same decks through. */
  lemma SearchIgnoresCase(d: Deck, q1: string, q2: string, category: string, difficulties: seq<Difficulty>)
    requires Lower(q1) == Lower(q2)
    ensures Passes(d, q1, category, difficulties) == Passes(d, q2, category, difficulties)
  {
    assert |q1| == |q2|;
  }

  /** The conditions the page filters by: one filter call each, or all of them at once. */
  datatype Criterion =
    | Search(lowered: string)
    | InCategory(category: string)
    | WithDifficulty(difficulties: seq<Difficulty>)
    | Active(query: string, category: string, difficulties: seq<Difficulty>)

  predicate Holds(c: Criterion, d: Deck) {
    match c
    case Search(q) => MatchesQuery(d, q)
    case InCategory(category) => d.category == category
    case WithDifficulty(ds) => d.difficulty in ds
    case Active(query, category, ds) => Passes(d, query, category, ds)
  }

  /** The decks that meet the criterion, in their original order. */
  function Filter(s: seq<Deck>, c: Criterion): (r: seq<Deck>)
    ensures |r| <= |s|
    ensures forall d :: d in r <==> d in s && Holds(c, d)
  {
    if s == [] then []
    else if Holds(c, s[0]) then [s[0]] + Filter(s[1..], c)
    else Filter(s[1..], c)
  }

  /** Filtering keeps every deck that meets the criterion as many times as the input holds it,
      and drops every other deck entirely. */
  lemma {:induction false} FilterCounts(s: seq<Deck>, c: Criterion)
    ensures forall d :: multiset(Filter(s, c))[d] == if Holds(c, d) then multiset(s)[d] else 0
  {
    if s != [] {
      FilterCounts(s[1..], c);
      assert s == [s[0]] + s[1..];
    }
  }

  /** Filtering by one criterion and then another is filtering once by a criterion that holds
      exactly when both do; with `second` always true, criteria that agree filter alike. */
  lemma {:induction false} FilterTwice(s: seq<Deck>, first: Criterion, second: Criterion, both: Criterion)
    requires forall d :: Holds(both, d) == (Holds(first, d) && Holds(second, d))
    ensures Filter(Filter(s, first), second) == Filter(s, both)
  {
    if s != [] {
      FilterTwice(s[1..], first, second, both);
      var rest := Filter(s[1..], first);
      if Holds(first, s[0]) {
        assert ([s[0]] + rest)[0] == s[0];
        assert ([s[0]] + rest)[1..] == rest;
      }
    }
  }

  lemma {:induction false} FilterSame(s: seq<Deck>, c1: Criterion, c2: Criterion)
    requires forall d :: Holds(c1, d) == Holds(c2, d)
    ensures Filter(s, c1) == Filter(s, c2)
  {
    if s != [] {
      FilterSame(s[1..], c1, c2);
    }
  }

  /** A criterion every deck meets filters nothing out. */
  lemma {:induction false} FilterAll(s: seq<Deck>, c: Criterion)
    requires forall d :: d in s ==> Holds(c, d)
    ensures Filter(s, c) == s
  {
    if s != [] {
      FilterAll(s[1..], c);
      assert s == [s[0]] + s[1..];
    }
  }

  /** Filtering keeps ids distinct: nothing is duplicated. */
  lemma {:induction false} FilterDistinctIds(s: seq<Deck>, c: Criterion)
    requires forall i, j :: 0 <= i < j < |s| ==> s[i].id != s[j].id
    ensures forall i, j :: 0 <= i < j < |Filter(s, c)| ==> Filter(s, c)[i].id != Filter(s, c)[j].id
  {
    if s != [] {
      var t := s[1..];
      assert forall i, j :: 0 <= i < j < |t| ==> t[i].id != t[j].id by {
        forall i, j | 0 <= i < j < |t| ensures t[i].id != t[j].id {
          assert t[i] == s[i + 1] && t[j] == s[j + 1];
        }
      }
      FilterDistinctIds(t, c);
      var rest := Filter(t, c);
      assert forall d :: d in rest ==> d.id != s[0].id by {
        forall d | d in rest ensures d.id != s[0].id {
          assert d in t;
          var k :| 0 <= k < |t| && t[k] == d;
          assert s[k + 1] == d;
        }
      }
      if Holds(c, s[0]) {
        var r := [s[0]] + rest;
        forall i, j | 0 <= i < j < |r| ensures r[i].id != r[j].id {
          if i == 0 {
            assert r[j] == rest[j - 1];
            assert rest[j - 1] in rest;
          } else {
            assert r[i] == rest[i - 1] && r[j] == rest[j - 1];
          }
        }
      }
    }
  }

  /** The catalog query never shows a deck twice. */
  lemma ShownHasNoDuplicates(query: string, category: string, difficulties: seq<Difficulty>)
    ensures var shown := Shown(DummyDecks(), query, category, difficulties);
      forall i, j :: 0 <= i < j < |shown| ==> shown[i].id != shown[j].id
  {
    FilterDistinctIds(DummyDecks(), Active(query, category, difficulties));
  }

  // ---------------------------------------------------------------------------
  // Sorting

  datatype SortKey = Popular | TopRated | Newest | MostCards | Unsorted

  /** The sort tab's value; any value other than the four known ones leaves the order alone. */
  function ParseSortKey(sortBy: string): (k: SortKey)
    ensures k == Popular <==> sortBy == "popular"
    ensures k == TopRated <==> sortBy == "rating"
    ensures k == Newest <==> sortBy == "newest"
    ensures k == MostCards <==> sortBy == "cards"
    ensures k == Unsorted <==> sortBy !in {"popular", "rating", "newest", "cards"}
  {
    if sortBy == "popular" then Popular
    else if sortBy == "rating" then TopRated
    else if sortBy == "newest" then Newest
    else if sortBy == "cards" then MostCards
    else Unsorted
  }

  /** The number each comparator subtracts: uses, rating, creation date or card count. */
  function Key(d: Deck, k: SortKey): (v: int)
    ensures k == Popular ==> v == d.usedBy
    ensures k == TopRated ==> v == d.rating
    ensures k == Newest ==> v == d.createdAt
    ensures k == MostCards ==> v == d.cardCount
    ensures k == Unsorted ==> v == 0
  {
    match k
    case Popular => d.usedBy
    case TopRated => d.rating
    case Newest => d.createdAt
    case MostCards => d.cardCount
    case Unsorted => 0
  }

  /** Non-increasing by the key. */
  predicate SortedDesc(s: seq<Deck>, k: SortKey) {
    forall i, j :: 0 <= i < j < |s| ==> Key(s[i], k) >= Key(s[j], k)
  }

  method Swap(a: array<Deck>, i: int, j: int)
    requires 0 <= i < a.Length && 0 <= j < a.Length
    modifies a
    ensures a[..] == old(a[..])[i := old(a[j])][j := old(a[i])]
    ensures multiset(a[..]) == multiset(old(a[..]))
  {
    a[i], a[j] := a[j], a[i];
  }

  /** Sorts the array in place, largest key first (an insertion sort by adjacent swaps). */
  method SortDescending(a: array<Deck>, k: SortKey)
    modifies a
    ensures SortedDesc(a[..], k)
    ensures multiset(a[..]) == multiset(old(a[..]))
  {
    if a.Length == 0 { return; }
    var i := 1;
    while i < a.Length
      invariant 1 <= i <= a.Length
      invariant forall p, q :: 0 <= p < q < i ==> Key(a[p], k) >= Key(a[q], k)
      invariant multiset(a[..]) == multiset(old(a[..]))
    {
      var j := i;
      while j > 0 && Key(a[j - 1], k) < Key(a[j], k)
        invariant 0 <= j <= i
        invariant forall p, q :: 0 <= p < q <= i && p != j && q != j ==> Key(a[p], k) >= Key(a[q], k)
        invariant forall q :: j < q <= i ==> Key(a[j], k) > Key(a[q], k)
        invariant multiset(a[..]) == multiset(old(a[..]))
      {
        Swap(a, j - 1, j);
        j := j - 1;
      }
      forall p, q | 0 <= p < q <= i
        ensures Key(a[p], k) >= Key(a[q], k)
      {
        if q == j && p < j - 1 {
          assert Key(a[p], k) >= Key(a[j - 1], k);
        }
      }
      i := i + 1;
    }
  }

  // ---------------------------------------------------------------------------
  // The query

  /** The decks shown for the given filters, before sorting: those passing every active filter,
      in catalog order. */
  function Shown(decks: seq<Deck>, query: string, category: string, difficulties: seq<Difficulty>): (r: seq<Deck>)
    ensures forall d :: d in r <==> d in decks && Passes(d, query, category, difficulties)
  {
    Filter(decks, Active(query, category, difficulties))
  }

  /** The effect that recomputes the shown decks: up to three successive filters, then a sort by
      the chosen key. The result holds exactly the decks that pass every active filter, each as
      often as in the input, in non-increasing key order; with an unknown key it keeps the
      input order. */
  method FilterAndSort(decks: seq<Deck>, query: string, category: string, difficulties: seq<Difficulty>, sortBy: string)
    returns (result: seq<Deck>)
    ensures forall d :: d in result <==> d in decks && Passes(d, query, category, difficulties)
    ensures multiset(result) == multiset(Shown(decks, query, category, difficulties))
    ensures forall d ::
      multiset(result)[d] == if Passes(d, query, category, difficulties) then multiset(decks)[d] else 0
    ensures ParseSortKey(sortBy) != Unsorted ==> SortedDesc(result, ParseSortKey(sortBy))
    ensures ParseSortKey(sortBy) == Unsorted ==> result == Shown(decks, query, category, difficulties)
  {
    // r is always Filter(decks, Active(...)) for the filters applied so far
    var r := decks;

    if query != [] {
      r := Filter(r, Search(Lower(query)));
      FilterSame(decks, Search(Lower(query)), Active(query, "All", []));
    } else {
      FilterAll(decks, Active(query, "All", []));
    }

    if category != "All" {
      r := Filter(r, InCategory(category));
      FilterTwice(decks, Active(query, "All", []), InCategory(category), Active(query, category, []));
    }

    if |difficulties| > 0 {
      r := Filter(r, WithDifficulty(difficulties));
      FilterTwice(decks, Active(query, category, []), WithDifficulty(difficulties), Active(query, category, difficulties));
    } else {
      assert difficulties == [];
    }
    assert r == Shown(decks, query, category, difficulties);
    FilterCounts(decks, Active(query, category, difficulties));

    var key := ParseSortKey(sortBy);
    if key != Unsorted {
      result := SortByKey(r, key);
    } else {
      result := r;
    }
  }

  /** `result.sort(...)` on the filtered list: the same decks, largest key first. */
  method SortByKey(decks: seq<Deck>, key: SortKey) returns (result: seq<Deck>)
    ensures multiset(result) == multiset(decks)
    ensures forall d :: d in result <==> d in decks
    ensures SortedDesc(result, key)
  {
    var a := new Deck[|decks|](i requires 0 <= i < |decks| => decks[i]);
    assert a[..] == decks;
    SortDescending(a, key);
    result := a[..];
    forall d | true ensures d in result <==> d in decks {
      assert d in result <==> d in multiset(result);
      assert d in decks <==> d in multiset(decks);
    }
  }

  // ---------------------------------------------------------------------------
  // Difficulty toggles and category colours

  /** The list without any occurrence of `d`, order kept. */
  function Without(ds: seq<Difficulty>, d: Difficulty): (r: seq<Difficulty>)
    ensures forall e :: e in r <==> e in ds && e != d
  {
    if ds == [] then []
    else if ds[0] != d then [ds[0]] + Without(ds[1..], d)
    else Without(ds[1..], d)
  }

  /** A difficulty checkbox: removes the difficulty when listed, otherwise appends it. */
  function ToggleDifficulty(prev: seq<Difficulty>, d: Difficulty): (r: seq<Difficulty>)
    ensures d in r <==> d !in prev
    ensures forall e :: e != d ==> (e in r <==> e in prev)
  {
    if d in prev then Without(prev, d) else prev + [d]
  }

  /** Toggling the same difficulty twice restores the selected set. */
  lemma ToggleTwice(prev: seq<Difficulty>, d: Difficulty)
    ensures forall e :: e in ToggleDifficulty(ToggleDifficulty(prev, d), d) <==> e in prev
  {
  }

  datatype Category = Category(name: string, color: string)

  function Categories(): seq<Category> {
    [ Category("All", "bg-primary"), Category("Languages", "bg-blue-500"),
      Category("Science", "bg-green-500"), Category("Mathematics", "bg-purple-500"),
      Category("History", "bg-amber-500"), Category("Programming", "bg-rose-500"),
      Category("Arts", "bg-indigo-500"), Category("Business", "bg-emerald-500") ]
  }

  /** The first category with the given name. */
  function FindCategory(cs: seq<Category>, name: string): (r: Option<Category>)
    ensures r.Some? ==> r.value in cs && r.value.name == name
    ensures r.Some? ==> exists i :: 0 <= i < |cs| && cs[i] == r.value && forall k :: 0 <= k < i ==> cs[k].name != name
    ensures r.None? <==> forall c :: c in cs ==> c.name != name
  {
    if cs == [] then None
    else if cs[0].name == name then Some(cs[0])
    else FindCategory(cs[1..], name)
  }

  /** A deck badge's colour: the first listed category's colour, or "bg-primary" when the
      category is not listed (or its colour is empty). */
  function CategoryColor(category: string): (color: string)
    ensures FindCategory(Categories(), category).None? ==> color == "bg-primary"
    ensures FindCategory(Categories(), category).Some? && FindCategory(Categories(), category).value.color != "" ==>
      color == FindCategory(Categories(), category).value.color
    ensures color != ""
  {
    match FindCategory(Categories(), category)
    case None => "bg-primary"
    case Some(c) => if c.color != "" then c.color else "bg-primary"
  }

  // ---------------------------------------------------------------------------
  // The page's filter state

  class Browser {
    const catalog: seq<Deck>
    var searchQuery: string
    var selectedCategory: string
    var selectedDifficulty: seq<Difficulty>
    var sortBy: string
    var filteredDecks: seq<Deck>

    /** The page opens with no filters, sorted by popularity, showing the whole catalog. */
    constructor ()
      ensures catalog == DummyDecks()
      ensures searchQuery == [] && selectedCategory == "All" && selectedDifficulty == [] && sortBy == "popular"
      ensures filteredDecks == catalog
    {
      catalog := DummyDecks();
      searchQuery, selectedCategory, selectedDifficulty, sortBy := [], "All", [], "popular";
      filteredDecks := catalog;
    }

    /** Recomputes the shown decks from the catalog and the current filters. */
    method Refresh()
      modifies this
      ensures searchQuery == old(searchQuery) && selectedCategory == old(selectedCategory)
      ensures selectedDifficulty == old(selectedDifficulty) && sortBy == old(sortBy)
      ensures multiset(filteredDecks) == multiset(Shown(catalog, searchQuery, selectedCategory, selectedDifficulty))
      ensures ParseSortKey(sortBy) != Unsorted ==> SortedDesc(filteredDecks, ParseSortKey(sortBy))
      ensures ParseSortKey(sortBy) == Unsorted ==> filteredDecks == Shown(catalog, searchQuery, selectedCategory, selectedDifficulty)
    {
      filteredDecks := FilterAndSort(catalog, searchQuery, selectedCategory, selectedDifficulty, sortBy);
    }

    method HandleDifficultyChange(d: Difficulty)
      modifies this
      ensures selectedDifficulty == ToggleDifficulty(old(selectedDifficulty), d)
      ensures searchQuery == old(searchQuery) && selectedCategory == old(selectedCategory)
      ensures sortBy == old(sortBy) && filteredDecks == old(filteredDecks)
    {
      selectedDifficulty := ToggleDifficulty(selectedDifficulty, d);
    }

    method HandleCategoryChange(category: string)
      modifies this
      ensures selectedCategory == category
      ensures searchQuery == old(searchQuery) && selectedDifficulty == old(selectedDifficulty)
      ensures sortBy == old(sortBy) && filteredDecks == old(filteredDecks)
    {
      selectedCategory := category;
    }

    /** "Reset filters": empty query, category "All", no difficulties, sorted by popularity. */
    method ResetFilters()
      modifies this
      ensures searchQuery == [] && selectedCategory == "All" && selectedDifficulty == [] && sortBy == "popular"
      ensures filteredDecks == old(filteredDecks)
    {
      searchQuery := [];
      selectedCategory := "All";
      selectedDifficulty := [];
      sortBy := "popular";
    }
  }
}
