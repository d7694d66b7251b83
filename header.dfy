/** The page header: the signed-in user's points, tier and tier colour. The
    header keeps its own copy of the tier thresholds and colours. */
module Header {
  import opened Common
  import opened Records
  import Leaderboard

  const RankColors: map<string, string> := map[
    "Bronze" := "#b45309", "Silver" := "#6b7280", "Gold" := "#f59e0b",
    "Platinum" := "#7c3aed", "Diamond" := "#2563eb"]

  /** The header's own `getRank`. */
  function GetRank(score: int): Leaderboard.Rank {
    if score >= 5000 then Leaderboard.Diamond
    else if score >= 2500 then Leaderboard.Platinum
    else if score >= 1000 then Leaderboard.Gold
    else if score >= 400 then Leaderboard.Silver
    else Leaderboard.Bronze
  }

  /** The two copies of `getRank` agree on every score, and so do the two colour tables. */
  lemma SameRankAsLeaderboard(score: int)
    ensures GetRank(score) == Leaderboard.GetRank(score)
    ensures RankColors == Leaderboard.RankColors
  {
  }

  /** The tier shown: that of the profile's score, Bronze with no profile. */
  function ProfileRank(profile: Option<ProfileRow>): (rank: Leaderboard.Rank)
    ensures profile.None? ==> rank == Leaderboard.Bronze
    ensures profile.Some? ==> rank == Leaderboard.GetRank(profile.value.totalScore)
  {
    if profile.Some? then GetRank(profile.value.totalScore) else Leaderboard.Bronze
  }

  /** `RANK_COLORS[rank]`, which is always defined. */
  function RankColor(profile: Option<ProfileRow>): (color: string)
    ensures color in RankColors.Values
    ensures color == Leaderboard.RankColors[ProfileRank(profile).Name()]
  {
    var name := ProfileRank(profile).Name();
    assert name in RankColors;
    RankColors[name]
  }

  /** The points and tier block of the header. */
  datatype Stats = Stats(points: int, rank: Leaderboard.Rank, color: string)

  /** The block is shown only when both a user and a profile are present. */
  function ShownStats(user: Option<Session>, profile: Option<ProfileRow>): (s: Option<Stats>)
    ensures s.Some? <==> user.Some? && profile.Some?
    ensures s.Some? ==>
      && s.value.points == profile.value.totalScore
      && s.value.rank == Leaderboard.GetRank(profile.value.totalScore)
      && s.value.color == Leaderboard.RankColors[s.value.rank.Name()]
  {
    if user.Some? && profile.Some? then Some(Stats(profile.value.totalScore, ProfileRank(profile), RankColor(profile)))
    else None
  }
}
