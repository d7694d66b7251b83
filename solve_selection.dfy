/** Problem selection on the Solve page: the difficulty bands, the query sent
    to the problem store, the built-in demo pool used as a fallback, the
    uniform draw and the difficulty label shown with a problem. */
module SolveSelection {
  import opened Common

  /** A row of the `problems` table (the demo pool has the same shape). */
  datatype Problem = Problem(
    id: string,
    source: Option<string>,
    category: string,
    difficulty: int,
    statementLatex: string,
    questionText: string,
    solutionLatex: string,
    finalAnswer: string)

  // The display texts of the demo problems, named so that a proof about the
  // pool does not have to look inside them.
  const Demo1Statement: string := @"\int_0^{\infty} \frac{\sin(x)}{x}\, dx"
  const Demo1Question: string := "Evaluate the Dirichlet integral above."
  const Demo1Solution: string := @"Using the Laplace transform or Feynman's technique, we find: \int_0^{\infty} \frac{\sin(x)}{x}\, dx = \frac{\pi}{2}"
  const Demo2Statement: string := @"\text{Find the last two digits of } 7^{2022}"
  const Demo2Question: string := "Find the last two digits of 7²⁰²²."
  const Demo2Solution: string := @"7^{2022} \pmod{100}: \text{ The order of 7 mod 100 is 20. } 2022 = 20 \times 101 + 2, \text{ so } 7^{2022} \equiv 7^2 = 49."
  const Demo3Statement: string := @"\text{How many ways can you arrange 8 non-attacking rooks on a standard 8×8 chessboard?}"
  const Demo3Question: string := "Count the number of ways to place 8 non-attacking rooks on a standard 8×8 chessboard."
  const Demo3Solution: string := "Each row must contain exactly one rook, and no two rooks can share a column. This is equivalent to counting permutations of 8 columns: 8! = 40320."
  const Demo4Statement: string := @"\text{Two fair dice are rolled. What is the probability that the sum is a prime?}"
  const Demo4Question: string := "Two fair dice are rolled. What is the probability that the sum is a prime number? Express as a fraction."
  const Demo4Solution: string := "Primes possible: 2,3,5,7,11. Count favorable: (1,1)=2✓, (1,2),(2,1)=3✓, (1,4),(2,3),(3,2),(4,1)=5✓, (1,6),(2,5),(3,4),(4,3),(5,2),(6,1)=7✓, (5,6),(6,5)=11✓. Total=15, P=15/36=5/12."
  const Demo5Statement: string := @"\text{A circle of radius } r \text{ is inscribed in a right triangle with legs 9 and 40. Find } r."
  const Demo5Question: string := "A circle is inscribed in a right triangle with legs 9 and 40. Find the radius of the inscribed circle."
  const Demo5Solution: string := @"Hypotenuse = \sqrt{81+1600} = 41. For inscribed circle: r = (a+b-c)/2 = (9+40-41)/2 = 8/2 = 4."

  /** The built-in problems drawn from when the store gives nothing. */
  const DemoProblems: seq<Problem> := [
    Problem("demo-1", Some("Classic Calculus"), "CALCULUS", 4, Demo1Statement, Demo1Question, Demo1Solution, "pi/2"),
    Problem("demo-2", Some("AMC 2022"), "NUMBER THEORY", 5, Demo2Statement, Demo2Question, Demo2Solution, "49"),
    Problem("demo-3", Some("IMO 1972"), "COMBINATORICS", 6, Demo3Statement, Demo3Question, Demo3Solution, "40320"),
    Problem("demo-4", Some("Putnam 2019"), "PROBABILITY", 5, Demo4Statement, Demo4Question, Demo4Solution, "5/12"),
    Problem("demo-5", Some("AIME 2021 I"), "GEOMETRY", 7, Demo5Statement, Demo5Question, Demo5Solution, "4")
  ]

  /** The category filter pills; "ALL" puts no restriction on the category. */
  const Categories: seq<string> := ["ALL", "CALCULUS", "NUMBER THEORY", "COMBINATORICS", "PROBABILITY", "GEOMETRY"]

  /** The difficulty filter pills; "ALL" puts no restriction on the difficulty. */
  const Difficulties: seq<string> := ["ALL", "1-3", "4-6", "7-10"]

  /** An inclusive range of difficulties, `gte(lo)` and `lte(hi)`. */
  datatype Range = Range(lo: int, hi: int) {
    predicate Contains(d: int) {
      lo <= d <= hi
    }
  }

  /** The range a difficulty filter selects; any other value is unrestricted. */
  function BandOf(difficulty: string): Option<Range> {
    if difficulty == "1-3" then Some(Range(1, 3))
    else if difficulty == "4-6" then Some(Range(4, 6))
    else if difficulty == "7-10" then Some(Range(7, 10))
    else None
  }

  /** The query sent to the `problems` table: an optional equality filter on
      the category and an optional range filter on the difficulty. */
  datatype ProblemQuery = ProblemQuery(category: Option<string>, band: Option<Range>)

  function QueryFor(category: string, difficulty: string): (q: ProblemQuery)
    ensures q.category.None? <==> category == "ALL"
    ensures q.category.Some? ==> q.category.value == category
    ensures q.band == BandOf(difficulty)
  {
    ProblemQuery(if category != "ALL" then Some(category) else None, BandOf(difficulty))
  }

  /** A problem satisfies every filter of a query. */
  predicate Matches(p: Problem, q: ProblemQuery) {
    && (q.category.Some? ==> p.category == q.category.value)
    && (q.band.Some? ==> q.band.value.Contains(p.difficulty))
  }

  /** `pool.filter(p => p.category === category)`. */
  function FilterCategory(pool: seq<Problem>, category: string): (r: seq<Problem>)
    ensures forall p :: p in r <==> p in pool && p.category == category
    ensures |r| <= |pool|
  {
    if pool == [] then []
    else (if pool[0].category == category then [pool[0]] else []) + FilterCategory(pool[1..], category)
  }

  /** The fallback pool: the demo problems, filtered by category only. */
  function FallbackPool(category: string): (pool: seq<Problem>)
    ensures forall p :: p in pool <==> p in DemoProblems && (category != "ALL" ==> p.category == category)
  {
    if category != "ALL" then FilterCategory(DemoProblems, category) else DemoProblems
  }

  /** `Math.floor(r * n)` for the value `r` of `Math.random()`. */
  function RandomIndex(r: real, n: nat): (i: int)
    requires 0.0 <= r < 1.0
    ensures n > 0 ==> 0 <= i < n
    ensures n == 0 ==> i == 0
  {
    assert 0.0 <= r * n as real;
    assert n > 0 ==> r * n as real < n as real;
    (r * n as real).Floor
  }

  /** `pool[Math.floor(Math.random() * pool.length)]`; the index is out of
      range only on an empty pool, where JavaScript yields `undefined`. */
  function Draw(pool: seq<Problem>, r: real): (p: Option<Problem>)
    requires 0.0 <= r < 1.0
    ensures p.Some? <==> |pool| > 0
    ensures p.Some? ==> p.value in pool
  {
    var i := RandomIndex(r, |pool|);
    if i < |pool| then Some(pool[i]) else None
  }

  /** Each position `i` of a pool of `n` problems is drawn for exactly the
      values of `r` in an interval of width `1/n`, namely `[i/n, (i+1)/n)`. */
  lemma RandomIndexInterval(r: real, n: nat, i: nat)
    requires 0.0 <= r < 1.0
    requires i < n
    ensures RandomIndex(r, n) == i <==> i as real <= r * n as real < i as real + 1.0
  {
    var k := RandomIndex(r, n);
    if i as real <= r * n as real < i as real + 1.0 {
      assert k as real <= r * n as real < k as real + 1.0;
      assert k < i + 1 && i < k + 1;
    }
  }

  lemma DrawInterval(pool: seq<Problem>, r: real, i: nat)
    requires 0.0 <= r < 1.0
    requires i < |pool|
    ensures i as real <= r * |pool| as real < i as real + 1.0 ==> Draw(pool, r) == Some(pool[i])
  {
    RandomIndexInterval(r, |pool|, i);
  }

  /** The store's reply leads to the fallback pool. */
  predicate FallsBack(outcome: Outcome<seq<Problem>>) {
    outcome.Replied? && (outcome.error.Some? || outcome.data.None? || |outcome.data.value| == 0)
  }

  /** The problem `fetchProblem` settles on, given the store's reply to the
      query and the value of `Math.random()`. */
  function SelectProblem(category: string, outcome: Outcome<seq<Problem>>, r: real): (p: Option<Problem>)
    requires 0.0 <= r < 1.0
    ensures outcome.Threw? ==> p.Some? && p.value in DemoProblems
    ensures FallsBack(outcome) ==> p == Draw(FallbackPool(category), r)
    ensures outcome.Replied? && !FallsBack(outcome) ==> p.Some? && p.value in outcome.data.value
  {
    match outcome
    case Threw => Draw(DemoProblems, r)
    case Replied(error, data) =>
      if error.Some? || data.None? || |data.value| == 0 then Draw(FallbackPool(category), r)
      else Draw(data.value, r)
  }

  // ---------------------------------------------------------------------
  // Properties

  /** The three bands are disjoint inclusive ranges that together cover the
      difficulties 1 to 10, and "ALL" is unrestricted. */
  lemma BandsPartition(d: int)
    ensures forall f :: f in Difficulties ==> (BandOf(f).None? <==> f == "ALL")
    ensures 1 <= d <= 10 <==>
      (BandOf("1-3").value.Contains(d) || BandOf("4-6").value.Contains(d) || BandOf("7-10").value.Contains(d))
    ensures !(BandOf("1-3").value.Contains(d) && BandOf("4-6").value.Contains(d))
    ensures !(BandOf("4-6").value.Contains(d) && BandOf("7-10").value.Contains(d))
    ensures !(BandOf("1-3").value.Contains(d) && BandOf("7-10").value.Contains(d))
  {
  }

  /** Every problem of the demo pool has an id that starts with "demo". */
  lemma DemoIdsAreDemo()
    ensures forall p :: p in DemoProblems ==> StartsWith(p.id, "demo")
  {
    forall p | p in DemoProblems
      ensures StartsWith(p.id, "demo")
    {
      assert p.id[..4] == "demo";
    }
  }

  /** Every category of the filter list other than "ALL" has a demo problem,
      so the fallback pool is never empty for a category the page offers. */
  lemma FallbackPoolNonEmpty(category: string)
    requires category in Categories
    ensures |FallbackPool(category)| > 0
  {
    if category != "ALL" {
      var i :| 1 <= i < |Categories| && Categories[i] == category;
      assert DemoProblems[i - 1].category == category;
      assert DemoProblems[i - 1] in FallbackPool(category);
    }
  }

  /** For a category the page offers, a problem is always selected. */
  lemma SelectionNeverEmpty(category: string, outcome: Outcome<seq<Problem>>, r: real)
    requires category in Categories
    requires 0.0 <= r < 1.0
    ensures SelectProblem(category, outcome, r).Some?
  {
    FallbackPoolNonEmpty(category);
  }

  /** In the fallback, the selected problem is a demo problem of the chosen
      category; when the call threw, it is any demo problem, whatever the
      category. */
  lemma FallbackFiltersCategoryOnly(category: string, difficulty: string, outcome: Outcome<seq<Problem>>, r: real)
    requires 0.0 <= r < 1.0
    requires outcome.Threw? || FallsBack(outcome)
    ensures var p := SelectProblem(category, outcome, r);
      p.Some? ==> p.value in DemoProblems && (FallsBack(outcome) ==> QueryFor(category, difficulty).category.Some? ==> p.value.category == category)
    ensures outcome.Threw? ==> SelectProblem(category, outcome, r) == SelectProblem("ALL", outcome, r)
  {
  }

  /** The fallback ignores the difficulty band: with band "1-3" the fallback
      never yields a problem of that band, since no demo problem is that easy. */
  lemma FallbackIgnoresBand(category: string, outcome: Outcome<seq<Problem>>, r: real)
    requires 0.0 <= r < 1.0
    requires outcome.Threw? || FallsBack(outcome)
    ensures var p := SelectProblem(category, outcome, r);
      p.Some? ==> !Matches(p.value, QueryFor(category, "1-3"))
  {
  }

  /** If the store honours the query, the problem drawn from its rows
      satisfies every filter. */
  lemma RemoteSelectionMatches(category: string, difficulty: string, rows: seq<Problem>, r: real)
    requires 0.0 <= r < 1.0
    requires |rows| > 0
    requires forall p :: p in rows ==> Matches(p, QueryFor(category, difficulty))
    ensures var p := SelectProblem(category, Replied(None, Some(rows)), r);
      p.Some? && p.value in rows && Matches(p.value, QueryFor(category, difficulty))
  {
  }

  // ---------------------------------------------------------------------
  // The difficulty label

  datatype Label = Label(text: string, color: string)

  /** `difficultyLabel`: Easy up to 3, Medium up to 6, Hard above. */
  function DifficultyLabel(d: int): Label {
    if d <= 3 then Label("Easy", "#16a34a")
    else if d <= 6 then Label("Medium", "#d97706")
    else Label("Hard", "#dc2626")
  }

  /** Every difficulty of a band gets that band's label. */
  lemma LabelsAgreeWithBands(d: int)
    ensures BandOf("1-3").value.Contains(d) ==> DifficultyLabel(d).text == "Easy"
    ensures BandOf("4-6").value.Contains(d) ==> DifficultyLabel(d).text == "Medium"
    ensures BandOf("7-10").value.Contains(d) ==> DifficultyLabel(d).text == "Hard"
    ensures DifficultyLabel(d).text == "Easy" <==> d <= 3
    ensures DifficultyLabel(d).text == "Hard" <==> d > 6
  {
  }

  // ---------------------------------------------------------------------
  // The quote of the day

  const Quotes: seq<string> := [
    "\"Pure mathematics is, in its way, the poetry of logical ideas.\" — Albert Einstein",
    "\"Mathematics is not about numbers, equations, computations, or algorithms: it is about understanding.\" — William Paul Thurston",
    "\"The only way to learn mathematics is to do mathematics.\" — Paul Halmos"
  ]

  /** The quote shown on day `Math.floor(now / 86400000)` of the epoch. */
  function QuoteOfDay(nowMillis: nat): (q: string)
    ensures q in Quotes
  {
    Quotes[(nowMillis / 86400000) % 3]
  }
}
