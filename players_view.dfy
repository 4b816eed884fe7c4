/**
  * The players list page (Frontend/src/pages/Players.tsx): the school and position option
  * lists, the search and filter chain, the descending sort by draft score, the page clamp and
  * slice, the page-number window, and the page's state with its setters.
  */
module PlayersView {
  import opened Wrappers
  import opened Text
  import opened Seqs
  import opened PlayerData

  const PerPage: nat := 10

  // ---------------------------------------------------------------------------
  // Option lists: `[...new Set(xs)].sort()`
  // ---------------------------------------------------------------------------

  /** The default `Array.prototype.sort` order on strings: by character code, a prefix first. */
  predicate LexLess(a: string, b: string) {
    if a == [] then b != []
    else if b == [] then false
    else if a[0] != b[0] then a[0] < b[0]
    else LexLess(a[1..], b[1..])
  }

  lemma {:induction false} LexLessIrreflexive(a: string)
    ensures !LexLess(a, a)
  {
    if a != [] {
      LexLessIrreflexive(a[1..]);
    }
  }

  lemma {:induction false} LexLessTotal(a: string, b: string)
    ensures a == b || LexLess(a, b) || LexLess(b, a)
  {
    if a != [] && b != [] && a[0] == b[0] {
      LexLessTotal(a[1..], b[1..]);
      if a[1..] == b[1..] {
        assert a == [a[0]] + a[1..] && b == [b[0]] + b[1..];
      }
    }
  }

  lemma {:induction false} LexLessTransitive(a: string, b: string, c: string)
    requires LexLess(a, b) && LexLess(b, c)
    ensures LexLess(a, c)
  {
    if a != [] && a[0] == b[0] && b[0] == c[0] {
      LexLessTransitive(a[1..], b[1..], c[1..]);
    }
  }

  lemma LexLessAsymmetric(a: string, b: string)
    requires LexLess(a, b)
    ensures !LexLess(b, a)
  {
    if LexLess(b, a) {
      LexLessTransitive(a, b, a);
      LexLessIrreflexive(a);
    }
  }

  /** `[...new Set(xs)]`: the first occurrence of each value, in order. */
  function Dedupe(xs: seq<string>): (r: seq<string>)
    ensures Elems(r) == Elems(xs)
    ensures forall i, j :: 0 <= i < j < |r| ==> r[i] != r[j]
  {
    if xs == [] then []
    else
      var r := Dedupe(xs[..|xs| - 1]);
      assert xs == xs[..|xs| - 1] + [xs[|xs| - 1]];
      if xs[|xs| - 1] in r then r else r + [xs[|xs| - 1]]
  }

  predicate StrictlySorted(s: seq<string>) {
    forall i, j :: 0 <= i < j < |s| ==> LexLess(s[i], s[j])
  }

  function InsertString(x: string, s: seq<string>): seq<string> {
    if s == [] || !LexLess(s[0], x) then [x] + s else [s[0]] + InsertString(x, s[1..])
  }

  function SortStrings(s: seq<string>): seq<string> {
    if s == [] then [] else InsertString(s[0], SortStrings(s[1..]))
  }

  lemma {:induction false} InsertStringFacts(x: string, s: seq<string>)
    requires StrictlySorted(s) && x !in s
    ensures StrictlySorted(InsertString(x, s))
    ensures Elems(InsertString(x, s)) == {x} + Elems(s)
  {
    if s == [] {
    } else if !LexLess(s[0], x) {
      LexLessTotal(s[0], x);
      forall j | 0 < j < |[x] + s| ensures LexLess(([x] + s)[0], ([x] + s)[j]) {
        if j > 1 { LexLessTransitive(x, s[0], s[j - 1]); }
      }
    } else {
      InsertStringFacts(x, s[1..]);
      var r := InsertString(x, s);
      assert r == [s[0]] + InsertString(x, s[1..]);
      assert s == [s[0]] + s[1..];
      forall j | 0 < j < |r| ensures LexLess(r[0], r[j]) {
        assert r[j] in Elems(InsertString(x, s[1..]));
        if r[j] != x {
          assert r[j] in s[1..];
          var k :| 0 <= k < |s[1..]| && s[1..][k] == r[j];
          assert LexLess(s[0], s[k + 1]);
        }
      }
    }
  }

  /** Sorting a duplicate-free list gives the same values in strictly increasing order. */
  lemma {:induction false} SortStringsFacts(s: seq<string>)
    requires forall i, j :: 0 <= i < j < |s| ==> s[i] != s[j]
    ensures StrictlySorted(SortStrings(s))
    ensures Elems(SortStrings(s)) == Elems(s)
  {
    if s != [] {
      SortStringsFacts(s[1..]);
      assert s == [s[0]] + s[1..];
      assert s[0] !in s[1..];
      assert s[0] !in Elems(SortStrings(s[1..]));
      InsertStringFacts(s[0], SortStrings(s[1..]));
    }
  }

  function Schools(db: seq<Player>): seq<string> {
    Map(db, (p: Player) => p.school)
  }

  function Positions(db: seq<Player>): seq<string> {
    Map(db, (p: Player) => p.position)
  }

  /** The `colleges` memo: every school once, sorted. */
  function Colleges(db: seq<Player>): seq<string> {
    SortStrings(Dedupe(Schools(db)))
  }

  /** The `positions` memo: every position once, sorted. */
  function PositionOptions(db: seq<Player>): seq<string> {
    SortStrings(Dedupe(Positions(db)))
  }

  lemma OptionsFacts(db: seq<Player>)
    ensures StrictlySorted(Colleges(db)) && StrictlySorted(PositionOptions(db))
    ensures forall c :: c in Colleges(db) <==> exists p :: p in db && p.school == c
    ensures forall c :: c in PositionOptions(db) <==> exists p :: p in db && p.position == c
  {
    SortStringsFacts(Dedupe(Schools(db)));
    SortStringsFacts(Dedupe(Positions(db)));
    assert Elems(Colleges(db)) == Elems(Schools(db));
    assert Elems(PositionOptions(db)) == Elems(Positions(db));
    forall c ensures c in Colleges(db) <==> exists p :: p in db && p.school == c {
      if c in Colleges(db) {
        assert c in Elems(Schools(db));
        var i :| 0 <= i < |db| && Schools(db)[i] == c;
        assert db[i] in db;
      }
      if exists p :: p in db && p.school == c {
        var p :| p in db && p.school == c;
        var i :| 0 <= i < |db| && db[i] == p;
        assert Schools(db)[i] == c;
        assert c in Elems(Schools(db));
      }
    }
    forall c ensures c in PositionOptions(db) <==> exists p :: p in db && p.position == c {
      if c in PositionOptions(db) {
        assert c in Elems(Positions(db));
        var i :| 0 <= i < |db| && Positions(db)[i] == c;
        assert db[i] in db;
      }
      if exists p :: p in db && p.position == c {
        var p :| p in db && p.position == c;
        var i :| 0 <= i < |db| && db[i] == p;
        assert Positions(db)[i] == c;
        assert c in Elems(Positions(db));
      }
    }
  }

  /** Strictly sorted option lists are the duplicate-free ones. */
  lemma StrictlySortedDistinct(s: seq<string>)
    requires StrictlySorted(s)
    ensures forall i, j :: 0 <= i < j < |s| ==> s[i] != s[j]
  {
    forall i, j | 0 <= i < j < |s| ensures s[i] != s[j] {
      if s[i] == s[j] {
        LexLessIrreflexive(s[i]);
      }
    }
  }

  // ---------------------------------------------------------------------------
  // filteredAndSortedPlayers
  // ---------------------------------------------------------------------------

  /** The search test: the lower-cased query (not trimmed) occurs in one of four lower-cased fields. */
  predicate SearchMatch(p: Player, query: string) {
    var q := Lower(query);
    Contains(Lower(p.name), q) || Contains(Lower(p.school), q)
      || Contains(Lower(p.position), q) || Contains(Lower(p.archetype), q)
  }

  /** The search step: a query that is blank after trimming keeps everyone. */
  function SearchStep(list: seq<Player>, query: string): seq<Player> {
    if Strip(query) == "" then list else Select(list, (p: Player) => SearchMatch(p, query))
  }

  /** The school filter; the value "all" keeps everyone. */
  function SchoolStep(list: seq<Player>, college: string): seq<Player> {
    if college == "all" then list else Select(list, (p: Player) => p.school == college)
  }

  /** The position filter; the value "all" keeps everyone. */
  function PositionStep(list: seq<Player>, position: string): seq<Player> {
    if position == "all" then list else Select(list, (p: Player) => p.position == position)
  }

  function Filtered(db: seq<Player>, query: string, college: string, position: string): seq<Player> {
    PositionStep(SchoolStep(SearchStep(db, query), college), position)
  }

  /** The sort key of `(a, b) => b.draftabilityScore - a.draftabilityScore` as an ascending key. */
  function NegScore(p: Player): real {
    -p.draftabilityScore
  }

  /** `list.sort((a, b) => b.draftabilityScore - a.draftabilityScore)`: descending, stable. */
  function ByScoreDescending(list: seq<Player>): seq<Player> {
    SortBy(list, NegScore)
  }

  function FilteredAndSorted(db: seq<Player>, query: string, college: string, position: string): seq<Player> {
    ByScoreDescending(Filtered(db, query, college, position))
  }

  predicate PassesSearch(p: Player, query: string) {
    Strip(query) == "" || SearchMatch(p, query)
  }

  predicate PassesSchool(p: Player, college: string) {
    college == "all" || p.school == college
  }

  predicate PassesPosition(p: Player, position: string) {
    position == "all" || p.position == position
  }

  /** The conjunction the filter chain applies. */
  predicate Keeps(p: Player, query: string, college: string, position: string) {
    PassesSearch(p, query) && PassesSchool(p, college) && PassesPosition(p, position)
  }

  function SearchFilter(query: string): Player -> bool {
    (p: Player) => PassesSearch(p, query)
  }

  function SchoolFilter(college: string): Player -> bool {
    (p: Player) => PassesSchool(p, college)
  }

  function PositionFilter(position: string): Player -> bool {
    (p: Player) => PassesPosition(p, position)
  }

  function KeepsFilter(query: string, college: string, position: string): Player -> bool {
    (p: Player) => Keeps(p, query, college, position)
  }

  lemma SearchStepIsSelect(list: seq<Player>, query: string)
    ensures SearchStep(list, query) == Select(list, SearchFilter(query))
  {
    if Strip(query) == "" {
      SelectAll(list, SearchFilter(query));
    } else {
      SelectSame(list, (p: Player) => SearchMatch(p, query), SearchFilter(query));
    }
  }

  lemma SchoolStepIsSelect(list: seq<Player>, college: string)
    ensures SchoolStep(list, college) == Select(list, SchoolFilter(college))
  {
    if college == "all" {
      SelectAll(list, SchoolFilter(college));
    } else {
      SelectSame(list, (p: Player) => p.school == college, SchoolFilter(college));
    }
  }

  lemma PositionStepIsSelect(list: seq<Player>, position: string)
    ensures PositionStep(list, position) == Select(list, PositionFilter(position))
  {
    if position == "all" {
      SelectAll(list, PositionFilter(position));
    } else {
      SelectSame(list, (p: Player) => p.position == position, PositionFilter(position));
    }
  }

  /**
    * The filter chain is one conjunctive filter of the collection: the result is the
    * subsequence of `db` of exactly the players that pass the search and both filters.
    */
  lemma FilteredIsSelect(db: seq<Player>, query: string, college: string, position: string)
    ensures Filtered(db, query, college, position) == Select(db, KeepsFilter(query, college, position))
  {
    var l1 := SearchStep(db, query);
    var l2 := SchoolStep(l1, college);
    SearchStepIsSelect(db, query);
    SchoolStepIsSelect(l1, college);
    PositionStepIsSelect(l2, position);
    SelectChain(db, SearchFilter(query), SchoolFilter(college), PositionFilter(position),
                KeepsFilter(query, college, position));
  }

  /** A blank query filters nothing: with both filters at "all" the whole collection is listed. */
  lemma BlankQueryKeepsAll(db: seq<Player>, query: string)
    requires Strip(query) == ""
    ensures Filtered(db, query, "all", "all") == db
  {
  }

  /** Sorting by score orders by non-increasing score and permutes the list. */
  lemma ByScoreDescendingFacts(list: seq<Player>)
    ensures var r := ByScoreDescending(list);
      && (forall i, j :: 0 <= i < j < |r| ==> r[i].draftabilityScore >= r[j].draftabilityScore)
      && multiset(r) == multiset(list)
      && (forall p :: p in r <==> p in list)
  {
    SortByFacts(list, NegScore);
    var r := ByScoreDescending(list);
    forall i, j | 0 <= i < j < |r| ensures r[i].draftabilityScore >= r[j].draftabilityScore {
      assert NegScore(r[i]) <= NegScore(r[j]);
    }
    forall p ensures p in r <==> p in list {
      assert p in r <==> p in multiset(r);
      assert p in list <==> p in multiset(list);
    }
  }

  /**
    * The listed players are the collection's players that pass the filters, sorted by
    * non-increasing score, as a permutation of the filtered list.
    */
  lemma FilteredAndSortedFacts(db: seq<Player>, query: string, college: string, position: string)
    ensures var r := FilteredAndSorted(db, query, college, position);
      && (forall i, j :: 0 <= i < j < |r| ==> r[i].draftabilityScore >= r[j].draftabilityScore)
      && multiset(r) == multiset(Filtered(db, query, college, position))
      && (forall p :: p in r <==> p in db && Keeps(p, query, college, position))
  {
    ByScoreDescendingFacts(Filtered(db, query, college, position));
    FilteredIsSelect(db, query, college, position);
    SelectMembers(db, KeepsFilter(query, college, position));
  }

  function ScoreIs(score: real): Player -> bool {
    (p: Player) => p.draftabilityScore == score
  }

  /** Stability of the sort: the players sharing one score appear in filtered order. */
  lemma FilteredAndSortedTies(db: seq<Player>, query: string, college: string, position: string, score: real)
    ensures Select(FilteredAndSorted(db, query, college, position), ScoreIs(score))
         == Select(Filtered(db, query, college, position), ScoreIs(score))
  {
    SortByStable(Filtered(db, query, college, position), NegScore, -score, ScoreIs(score));
  }

  // ---------------------------------------------------------------------------
  // Page arithmetic
  // ---------------------------------------------------------------------------

  /** `Math.ceil(n / PER_PAGE) || 1`. */
  function TotalPages(n: nat): (r: nat)
    ensures r >= 1
    ensures n > 0 ==> (r - 1) * PerPage < n <= r * PerPage
    ensures n == 0 ==> r == 1
  {
    if n == 0 then 1 else (n + PerPage - 1) / PerPage
  }

  /** `Math.min(Math.max(1, page), totalPages)`. */
  function CurrentPage(page: int, totalPages: nat): (r: int)
    requires totalPages >= 1
    ensures 1 <= r <= totalPages
    ensures 1 <= page <= totalPages ==> r == page
    ensures page < 1 ==> r == 1
    ensures page > totalPages ==> r == totalPages
  {
    if page < 1 then 1 else if page > totalPages then totalPages else page
  }

  function Start(currentPage: int): int {
    (currentPage - 1) * PerPage
  }

  /** `list.slice(start, start + PER_PAGE)` for 0 <= start, the only starts the page computes; the end is clamped to the length. */
  function Slice<T>(list: seq<T>, start: int, end: int): (r: seq<T>)
    ensures 0 <= start <= end <= |list| ==> r == list[start..end]
  {
    var a := if start < 0 then 0 else if start > |list| then |list| else start;
    var b := if end < a then a else if end > |list| then |list| else end;
    list[a..b]
  }

  /** The players shown for a stored page value. */
  function PageOf<T>(list: seq<T>, page: int): seq<T> {
    var cur := CurrentPage(page, TotalPages(|list|));
    Slice(list, Start(cur), Start(cur) + PerPage)
  }

  /** `start + index + 1` for each shown player. */
  function RankLabels(start: int, count: nat): (r: seq<int>)
    ensures |r| == count
    ensures forall i :: 0 <= i < count ==> r[i] == start + i + 1
  {
    seq(count, i requires 0 <= i < count => start + i + 1)
  }

  /**
    * Whatever the stored page, the shown slice starts at `(currentPage - 1) * 10`, ends at
    * `min(n, currentPage * 10)`, holds at most ten players, is non-empty for a non-empty list,
    * and the player with rank label `k` is the list's `k`-th entry.
    */
  lemma PageFacts<T>(list: seq<T>, page: int)
    ensures var cur := CurrentPage(page, TotalPages(|list|));
      var start := Start(cur);
      var shown := PageOf(list, page);
      var end := if cur * PerPage < |list| then cur * PerPage else |list|;
      && 0 <= start <= |list|
      && (|list| > 0 ==> start < |list| && |shown| > 0)
      && shown == list[start..end]
      && |shown| <= PerPage
      && (forall i :: 0 <= i < |shown| ==> shown[i] == list[RankLabels(start, |shown|)[i] - 1])
  {
  }

  /** Stepping through every page shows every player exactly once, in list order. */
  function AllPages<T>(list: seq<T>, from: nat): seq<T>
    decreases TotalPages(|list|) - from
  {
    if from >= TotalPages(|list|) then [] else PageOf(list, from + 1) + AllPages(list, from + 1)
  }

  lemma {:induction false} AllPagesFrom<T>(list: seq<T>, from: nat)
    requires from <= TotalPages(|list|)
    ensures AllPages(list, from) == list[if from * PerPage < |list| then from * PerPage else |list|..]
    decreases TotalPages(|list|) - from
  {
    if from < TotalPages(|list|) {
      AllPagesFrom(list, from + 1);
      PageFacts(list, from + 1);
    } else if |list| > 0 {
      assert from * PerPage >= |list|;
    }
  }

  lemma AllPagesCover<T>(list: seq<T>)
    ensures AllPages(list, 0) == list
  {
    AllPagesFrom(list, 0);
  }

  // ---------------------------------------------------------------------------
  // getPageNumbers
  // ---------------------------------------------------------------------------

  datatype PageItem = Num(n: int) | Ellipsis

  /** `[a, a + 1, ..., b]` as page items; empty when b < a. */
  function Range(a: int, b: int): (r: seq<PageItem>)
    ensures |r| == if b < a then 0 else b - a + 1
    ensures forall i :: 0 <= i < |r| ==> r[i] == Num(a + i)
  {
    if b < a then [] else seq(b - a + 1, i requires 0 <= i < b - a + 1 => Num(a + i))
  }

  function Max(a: int, b: int): int { if a >= b then a else b }
  function Min(a: int, b: int): int { if a <= b then a else b }

  /** The page-number window: all pages up to seven, else 1, the neighbours of the current page and the last. */
  function PageNumbers(totalPages: int, currentPage: int): seq<PageItem> {
    if totalPages <= 7 then Range(1, totalPages)
    else
      var low := WindowLow(currentPage);
      var high := WindowHigh(totalPages, currentPage);
      [Num(1)] + (if low > 2 then [Ellipsis] else []) + Range(low, high)
        + (if high < totalPages - 1 then [Ellipsis] else [])
        + (if totalPages > 1 then [Num(totalPages)] else [])
  }

  /** `getPageNumbers`, building the window with the source's pushes. */
  method GetPageNumbers(totalPages: int, currentPage: int) returns (result: seq<PageItem>)
    ensures result == PageNumbers(totalPages, currentPage)
  {
    if totalPages <= 7 {
      return Range(1, totalPages);
    }
    result := [Num(1)];
    var low := Max(2, currentPage - 1);
    var high := Min(totalPages - 1, currentPage + 1);
    if low > 2 {
      result := result + [Ellipsis];
    }
    ghost var prefix := result;
    var i := low;
    while i <= high
      invariant low <= i && (i <= high + 1 || high < low)
      invariant high < low ==> i == low
      invariant result == prefix + Range(low, i - 1)
    {
      result := result + [Num(i)];
      i := i + 1;
    }
    assert high < low ==> Range(low, i - 1) == Range(low, high);
    assert high >= low ==> i == high + 1;
    if high < totalPages - 1 {
      result := result + [Ellipsis];
    }
    if totalPages > 1 {
      result := result + [Num(totalPages)];
    }
  }

  function NumOf(x: PageItem): Option<int> {
    if x.Num? then Some(x.n) else None
  }

  /** The page numbers of a window, dropping the ellipses. */
  function Numbers(items: seq<PageItem>): (r: seq<int>)
    ensures |r| <= |items|
  {
    FilterMap(items, NumOf)
  }

  /** `[a, a + 1, ..., b]`; empty when b < a. */
  function Ints(a: int, b: int): (r: seq<int>)
    ensures |r| == if b < a then 0 else b - a + 1
    ensures forall i :: 0 <= i < |r| ==> r[i] == a + i
  {
    if b < a then [] else seq(b - a + 1, i requires 0 <= i < b - a + 1 => a + i)
  }

  lemma {:induction false} NumbersRange(a: int, b: int)
    ensures Numbers(Range(a, b)) == Ints(a, b)
    decreases if b < a then 0 else b - a + 1
  {
    if a <= b {
      NumbersRange(a + 1, b);
      assert Range(a, b) == [Num(a)] + Range(a + 1, b);
      FilterMapAppend([Num(a)], Range(a + 1, b), NumOf);
      FilterMapSingle(Num(a), NumOf);
      assert Ints(a, b) == [a] + Ints(a + 1, b);
    }
  }

  predicate StrictlyIncreasing(s: seq<int>) {
    forall i, j :: 0 <= i < j < |s| ==> s[i] < s[j]
  }

  /** With at most seven pages the window is exactly 1..totalPages. */
  lemma PageNumbersSmall(totalPages: int, currentPage: int)
    requires 1 <= totalPages <= 7
    ensures Numbers(PageNumbers(totalPages, currentPage)) == Ints(1, totalPages)
    ensures Ellipsis !in PageNumbers(totalPages, currentPage)
  {
    NumbersRange(1, totalPages);
  }

  function WindowLow(currentPage: int): int { Max(2, currentPage - 1) }
  function WindowHigh(totalPages: int, currentPage: int): int { Min(totalPages - 1, currentPage + 1) }

  /** With more than seven pages the numbers shown are 1, the neighbourhood of the current page, and the last. */
  lemma PageWindowNumbers(totalPages: int, currentPage: int)
    requires totalPages > 7
    ensures Numbers(PageNumbers(totalPages, currentPage))
         == [1] + Ints(WindowLow(currentPage), WindowHigh(totalPages, currentPage)) + [totalPages]
  {
    var low := WindowLow(currentPage);
    var high := WindowHigh(totalPages, currentPage);
    var e1: seq<PageItem> := if low > 2 then [Ellipsis] else [];
    var e2: seq<PageItem> := if high < totalPages - 1 then [Ellipsis] else [];
    assert PageNumbers(totalPages, currentPage) == [Num(1)] + e1 + Range(low, high) + e2 + [Num(totalPages)];
    FilterMapAppend([Num(1)] + e1 + Range(low, high) + e2, [Num(totalPages)], NumOf);
    FilterMapAppend([Num(1)] + e1 + Range(low, high), e2, NumOf);
    FilterMapAppend([Num(1)] + e1, Range(low, high), NumOf);
    FilterMapAppend([Num(1)], e1, NumOf);
    FilterMapSingle(Num(1), NumOf);
    FilterMapSingle(Num(totalPages), NumOf);
    if low > 2 { FilterMapSingle(Ellipsis, NumOf); }
    if high < totalPages - 1 { FilterMapSingle(Ellipsis, NumOf); }
    NumbersRange(low, high);
  }

  /** With more than seven pages the window has 1, the last page, and at most two ellipses. */
  lemma PageWindowShape(totalPages: int, currentPage: int)
    requires totalPages > 7 && 1 <= currentPage <= totalPages
    ensures var items := PageNumbers(totalPages, currentPage);
      && items[0] == Num(1) && items[|items| - 1] == Num(totalPages)
      && |items| <= 7
  {
  }

  /**
    * With more than seven pages the window starts at 1 and ends at the last page, lists the
    * current page, strictly increases, and has at most seven entries.
    */
  lemma PageNumbersLarge(totalPages: int, currentPage: int)
    requires totalPages > 7 && 1 <= currentPage <= totalPages
    ensures var items := PageNumbers(totalPages, currentPage);
      && items[0] == Num(1) && items[|items| - 1] == Num(totalPages)
      && currentPage in Numbers(items)
      && StrictlyIncreasing(Numbers(items))
      && |items| <= 7
  {
    PageWindowShape(totalPages, currentPage);
    PageWindowNumbers(totalPages, currentPage);
    var low := WindowLow(currentPage);
    var high := WindowHigh(totalPages, currentPage);
    var ns := Numbers(PageNumbers(totalPages, currentPage));
    var mid := Ints(low, high);
    if 1 < currentPage < totalPages {
      assert mid[currentPage - low] == currentPage;
      assert ns[1 + currentPage - low] == currentPage;
    } else if currentPage == 1 {
      assert ns[0] == 1;
    } else {
      assert ns[|ns| - 1] == totalPages;
    }
    forall i, j | 0 <= i < j < |ns| ensures ns[i] < ns[j] {
      if 0 < i && j < |ns| - 1 {
        assert ns[i] == mid[i - 1] && ns[j] == mid[j - 1];
      } else if i == 0 && j < |ns| - 1 {
        assert ns[j] == mid[j - 1];
      } else if 0 < i {
        assert ns[i] == mid[i - 1];
      }
    }
  }

  // ---------------------------------------------------------------------------
  // activeFilterCount and the page state
  // ---------------------------------------------------------------------------

  /** `[collegeFilter !== "all", positionFilter !== "all"].filter(Boolean).length`. */
  function ActiveFilterCount(college: string, position: string): (r: nat)
    ensures r <= 2
    ensures r == 0 <==> college == "all" && position == "all"
    ensures r == 2 <==> college != "all" && position != "all"
  {
    (if college != "all" then 1 else 0) + (if position != "all" then 1 else 0)
  }

  /**
    * The page's state: the stored page, the search text and the two filters, over the
    * bundled collection it lists (`playerDatabase`).
    */
  class PlayersPage {
    const db: seq<Player>
    var page: int
    var searchQuery: string
    var collegeFilter: string
    var positionFilter: string

    function Listed(): seq<Player>
      reads this`searchQuery, this`collegeFilter, this`positionFilter
    {
      FilteredAndSorted(db, searchQuery, collegeFilter, positionFilter)
    }

    function Total(): nat
      reads this`searchQuery, this`collegeFilter, this`positionFilter
    {
      TotalPages(|Listed()|)
    }

    function Current(): int
      reads this
    {
      CurrentPage(page, Total())
    }

    /** Every setter that changes the list resets the page, so the stored page stays in range. */
    predicate Valid()
      reads this
    {
      1 <= page <= Total()
    }

    constructor(db: seq<Player>)
      requires db == PlayerDatabase
      ensures Valid()
      ensures this.db == db && page == 1 && searchQuery == "" && collegeFilter == "all" && positionFilter == "all"
    {
      this.db := db;
      page := 1;
      searchQuery := "";
      collegeFilter := "all";
      positionFilter := "all";
    }

    /** Typing in the search box (and its clear button, with ""). */
    method SetSearch(q: string)
      modifies this
      ensures searchQuery == q && page == 1 && Valid()
      ensures collegeFilter == old(collegeFilter) && positionFilter == old(positionFilter)
    {
      searchQuery := q;
      page := 1;
    }

    method SetCollegeFilter(v: string)
      modifies this
      ensures collegeFilter == v && page == 1 && Valid()
      ensures searchQuery == old(searchQuery) && positionFilter == old(positionFilter)
    {
      collegeFilter := v;
      page := 1;
    }

    method SetPositionFilter(v: string)
      modifies this
      ensures positionFilter == v && page == 1 && Valid()
      ensures searchQuery == old(searchQuery) && collegeFilter == old(collegeFilter)
    {
      positionFilter := v;
      page := 1;
    }

    /** `clearFilters`: both filters "all", an empty query, page 1; no filter is then active. */
    method ClearFilters()
      modifies this
      ensures collegeFilter == "all" && positionFilter == "all" && searchQuery == "" && page == 1
      ensures Valid() && ActiveFilterCount(collegeFilter, positionFilter) == 0
      ensures Listed() == ByScoreDescending(db)
    {
      collegeFilter := "all";
      positionFilter := "all";
      searchQuery := "";
      page := 1;
      BlankQueryKeepsAll(db, "");
    }

    /** Prev: `if (currentPage > 1) setPage((p) => p - 1)`; only the page changes. */
    method Prev()
      requires Valid()
      modifies this`page
      ensures Valid()
      ensures old(Current()) > 1 ==> page == old(page) - 1
      ensures old(Current()) == 1 ==> page == old(page)
    {
      var total := Total();
      if CurrentPage(page, total) > 1 {
        page := page - 1;
      }
      assert Total() == total;
    }

    /** Next: `if (currentPage < totalPages) setPage((p) => p + 1)`; only the page changes. */
    method Next()
      requires Valid()
      modifies this`page
      ensures Valid()
      ensures old(Current()) < old(Total()) ==> page == old(page) + 1
      ensures old(Current()) == old(Total()) ==> page == old(page)
    {
      var total := Total();
      if CurrentPage(page, total) < total {
        page := page + 1;
      }
      assert Total() == total;
    }

    /** Clicking a number of the page window jumps to that page; only the page changes. */
    method GoToPage(num: int)
      requires Valid() && Num(num) in PageNumbers(Total(), Current())
      modifies this`page
      ensures Valid() && page == num
    {
      var total := Total();
      PageNumbersInRange(total, Current(), num);
      page := num;
      assert Total() == total;
    }
  }

  /** Every number the window offers is a page that exists. */
  lemma PageNumbersInRange(totalPages: int, currentPage: int, num: int)
    requires 1 <= currentPage <= totalPages
    requires Num(num) in PageNumbers(totalPages, currentPage)
    ensures 1 <= num <= totalPages
  {
    var items := PageNumbers(totalPages, currentPage);
    var k :| 0 <= k < |items| && items[k] == Num(num);
    if totalPages > 7 {
      var low := WindowLow(currentPage);
      var high := WindowHigh(totalPages, currentPage);
      var e1: seq<PageItem> := if low > 2 then [Ellipsis] else [];
      var e2: seq<PageItem> := if high < totalPages - 1 then [Ellipsis] else [];
      assert items == [Num(1)] + e1 + Range(low, high) + e2 + [Num(totalPages)];
    }
  }
}
