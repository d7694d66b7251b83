/** The leaderboard: the score-to-tier classifier, the tier colours, the demo
    list shown when the store gives nothing, and the position labels. */
module Leaderboard {
  import opened Common

  datatype Rank = Bronze | Silver | Gold | Platinum | Diamond {
    /** The tier name the page shows and looks colours up by. */
    function Name(): string {
      match this
      case Bronze => "Bronze"
      case Silver => "Silver"
      case Gold => "Gold"
      case Platinum => "Platinum"
      case Diamond => "Diamond"
    }

    /** The position of the tier, lowest first. */
    function Tier(): nat {
      match this
      case Bronze => 0
      case Silver => 1
      case Gold => 2
      case Platinum => 3
      case Diamond => 4
    }
  }

  const RankColors: map<string, string> := map[
    "Bronze" := "#b45309", "Silver" := "#6b7280", "Gold" := "#f59e0b",
    "Platinum" := "#7c3aed", "Diamond" := "#2563eb"]

  /** `getRank`: the highest tier whose inclusive lower bound the score reaches. */
  function GetRank(score: int): Rank {
    if score >= 5000 then Diamond
    else if score >= 2500 then Platinum
    else if score >= 1000 then Gold
    else if score >= 400 then Silver
    else Bronze
  }

  /** The thresholds, both ways: each tier is exactly a half-open score band;
      every score below 400, negative ones included, is Bronze. */
  lemma RankBands(score: int)
    ensures GetRank(score) == Diamond <==> score >= 5000
    ensures GetRank(score) == Platinum <==> 2500 <= score < 5000
    ensures GetRank(score) == Gold <==> 1000 <= score < 2500
    ensures GetRank(score) == Silver <==> 400 <= score < 1000
    ensures GetRank(score) == Bronze <==> score < 400
  {
  }

  lemma RankBoundaries()
    ensures GetRank(0) == Bronze && GetRank(-1) == Bronze
    ensures GetRank(399) == Bronze && GetRank(400) == Silver
    ensures GetRank(999) == Silver && GetRank(1000) == Gold
    ensures GetRank(2499) == Gold && GetRank(2500) == Platinum
    ensures GetRank(4999) == Platinum && GetRank(5000) == Diamond
  {
  }

  /** A higher score never yields a lower tier. */
  lemma RankMonotone(a: int, b: int)
    requires a <= b
    ensures GetRank(a).Tier() <= GetRank(b).Tier()
  {
  }

  /** Every tier `getRank` returns has a colour. */
  lemma RankHasColor(score: int)
    ensures GetRank(score).Name() in RankColors
  {
  }

  /** A row of the `profiles` table as the leaderboard selects it. */
  datatype LeaderRow = LeaderRow(username: string, totalScore: int, eloRating: int)

  const DemoLeaders: seq<LeaderRow> := [
    LeaderRow("euler_reborn", 6820, 2180),
    LeaderRow("primeHunter", 5410, 2050),
    LeaderRow("calculus_god", 4900, 1980),
    LeaderRow("infinite_series", 3750, 1870),
    LeaderRow("ramanujan_fan", 3100, 1800),
    LeaderRow("vectorspace", 2550, 1730),
    LeaderRow("modular_mage", 2100, 1650),
    LeaderRow("dirichlet99", 1680, 1560),
    LeaderRow("proofbycontrad", 1250, 1500),
    LeaderRow("topoloPher", 820, 1420)
  ]

  /** The leaderboard's request: ordered by `total_score`, descending, at most 50. */
  const MaxLeaders: nat := 50

  /** Rows as the request asks for them: by score, highest first, within the limit. */
  predicate ConformsToRequest(rows: seq<LeaderRow>) {
    && |rows| <= MaxLeaders
    && forall i, j :: 0 <= i < j < |rows| ==> rows[i].totalScore >= rows[j].totalScore
  }

  /** The demo list is strictly descending by score and fits the request. */
  lemma DemoLeadersDescending()
    ensures forall i, j :: 0 <= i < j < |DemoLeaders| ==> DemoLeaders[i].totalScore > DemoLeaders[j].totalScore
    ensures ConformsToRequest(DemoLeaders)
  {
    assert forall i :: 0 <= i < |DemoLeaders| - 1 ==> DemoLeaders[i].totalScore > DemoLeaders[i + 1].totalScore;
    StrictlyDescendingByNeighbours(DemoLeaders);
  }

  lemma {:induction false} StrictlyDescendingByNeighbours(rows: seq<LeaderRow>)
    requires forall i :: 0 <= i < |rows| - 1 ==> rows[i].totalScore > rows[i + 1].totalScore
    ensures forall i, j :: 0 <= i < j < |rows| ==> rows[i].totalScore > rows[j].totalScore
  {
    if |rows| > 1 {
      StrictlyDescendingByNeighbours(rows[1..]);
      forall j | 1 <= j < |rows|
        ensures rows[0].totalScore > rows[j].totalScore
      {
        assert rows[1..][0] == rows[1];
        if j > 1 {
          assert rows[1..][j - 1] == rows[j];
        }
      }
    }
  }

  /** The store's reply leads to the demo list. */
  predicate UsesDemo(outcome: Outcome<seq<LeaderRow>>) {
    outcome.Threw? || outcome.error.Some? || outcome.data.None? || |outcome.data.value| == 0
  }

  /** `fetchLeaders`: the rows returned, or the demo list on an error, on no
      data, on an empty result and when the call throws. */
  function LeadersShown(outcome: Outcome<seq<LeaderRow>>): (rows: seq<LeaderRow>)
    ensures UsesDemo(outcome) ==> rows == DemoLeaders
    ensures !UsesDemo(outcome) ==> rows == outcome.data.value
  {
    match outcome
    case Threw => DemoLeaders
    case Replied(error, data) =>
      if error.Some? || data.None? || |data.value| == 0 then DemoLeaders else data.value
  }

  /** The board is never empty, and it is ordered whenever the store honours the request. */
  lemma LeadersShownOrdered(outcome: Outcome<seq<LeaderRow>>)
    requires outcome.Replied? && outcome.data.Some? ==> ConformsToRequest(outcome.data.value)
    ensures |LeadersShown(outcome)| > 0
    ensures ConformsToRequest(LeadersShown(outcome))
  {
    DemoLeadersDescending();
  }

  // ---------------------------------------------------------------------
  // Position labels

  /** The decimal digits of a natural number, as `${n}` prints it. */
  function Decimal(n: nat): (s: string)
    ensures |s| > 0
  {
    if n < 10 then [DigitChar(n)] else Decimal(n / 10) + [DigitChar(n % 10)]
  }

  function DigitChar(d: nat): (c: char)
    requires d < 10
    ensures '0' <= c <= '9'
  {
    ('0' as int + d) as char
  }

  /** Reads decimal digits back. */
  function DecimalValue(s: string): int {
    if s == [] then 0 else DecimalValue(s[..|s| - 1]) * 10 + (s[|s| - 1] as int - '0' as int)
  }

  lemma {:induction false} DecimalRoundTrip(n: nat)
    ensures DecimalValue(Decimal(n)) == n
  {
    var s := Decimal(n);
    if n >= 10 {
      DecimalRoundTrip(n / 10);
      assert s[..|s| - 1] == Decimal(n / 10);
    } else {
      assert s[..|s| - 1] == [];
    }
  }

  const FirstMedal: string := "🥇"
  const SecondMedal: string := "🥈"
  const ThirdMedal: string := "🥉"

  /** The label of the row at position `i`: medals for the first three,
      `#` and the one-based position after them. */
  function PositionLabel(i: nat): string {
    if i == 0 then FirstMedal else if i == 1 then SecondMedal else if i == 2 then ThirdMedal else "#" + Decimal(i + 1)
  }

  /** Labels `#a` and `#b` are equal only when `a` and `b` are. */
  lemma HashLabelInjective(a: string, b: string)
    ensures "#" + a == "#" + b ==> a == b
  {
    if "#" + a == "#" + b {
      assert a == ("#" + a)[1..] && b == ("#" + b)[1..];
    }
  }

  /** Different numbers give different `#n` labels. */
  lemma HashDecimalDistinct(m: nat, n: nat)
    ensures m != n ==> "#" + Decimal(m) != "#" + Decimal(n)
  {
    DecimalRoundTrip(m);
    DecimalRoundTrip(n);
    HashLabelInjective(Decimal(m), Decimal(n));
  }

  /** Medals go to the first three positions and `#n` to the rest, and no
      two positions share a label. */
  lemma PositionLabelsDistinct(i: nat, j: nat)
    ensures PositionLabel(i) in {FirstMedal, SecondMedal, ThirdMedal} <==> i < 3
    ensures i >= 3 ==> PositionLabel(i) == "#" + Decimal(i + 1)
    ensures i != j ==> PositionLabel(i) != PositionLabel(j)
  {
    if i >= 3 && j >= 3 {
      HashDecimalDistinct(i + 1, j + 1);
    }
    if i >= 3 {
      assert |PositionLabel(i)| >= 2;
    }
    if j >= 3 {
      assert |PositionLabel(j)| >= 2;
    }
  }
}
