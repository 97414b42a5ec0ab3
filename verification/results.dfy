/**
 * The aggregation loops of `ResultsController`: rank numbering and the
 * summary statistics of `getResults`, and the per-team counters of
 * `getTeamsStats`. The votes are the snapshot `getAllVotes` returns; the
 * ranking is the one `calculateRanking` or `getTeamRanking` computes on it.
 */
module Results {
  import opened Wrappers
  import opened Config
  import opened Document
  import opened Sorting
  import opened Ranking
  import opened VoteStore

  /** A ranking row with its 1-based position. */
  datatype RankedEntry = RankedEntry(entry: RankEntry, rank: nat)

  /** The `stats` object of the response. */
  datatype Stats = Stats(totalVotes: nat, totalPerformances: nat, highestScore: real, lowestScore: real, totalVoters: nat)

  /** One element of the `teams` array of `getTeamsStats`. */
  datatype TeamStat = TeamStat(name: string, totalVoters: nat, totalVotes: nat)

  // ----- getResults -----

  /** The filter `getResults` ranks with: the requested team unless it is absent or PHP-empty. */
  function EffectiveFilter(team: Option<string>): (r: Option<string>)
    ensures r.Some? <==> team.Some? && !IsEmptyString(team.value)
    ensures r.Some? ==> r == team
  {
    if team.Some? && !IsEmptyString(team.value) then team else None
  }

  /** The numbering loop: the row at position `k` gets rank `k + 1`. */
  method AssignRanks(ranking: seq<RankEntry>) returns (ranked: seq<RankedEntry>)
    ensures |ranked| == |ranking|
    ensures forall k :: 0 <= k < |ranking| ==> ranked[k].entry == ranking[k] && ranked[k].rank == k + 1
  {
    ranked := [];
    var rank := 1;
    var k := 0;
    while k < |ranking|
      invariant 0 <= k <= |ranking|
      invariant rank == k + 1
      invariant |ranked| == k
      invariant forall m :: 0 <= m < k ==> ranked[m].entry == ranking[m] && ranked[m].rank == m + 1
    {
      ranked := ranked + [RankedEntry(ranking[k], rank)];
      rank := rank + 1;
      k := k + 1;
    }
  }

  /** Sum of the `totalVotes` of the rows. */
  function TotalVotes(ranking: seq<RankEntry>): nat
  {
    if ranking == [] then 0 else ranking[0].totalVotes + TotalVotes(ranking[1..])
  }

  /**
   * The statistics loop. `highestScore` starts at 0 and is raised by any
   * larger mean; `lowestScore` starts at 10 and is lowered only by the mean
   * of a row that received at least one vote.
   */
  method AggregateStats(ranking: seq<RankEntry>, totalVoters: nat) returns (stats: Stats)
    ensures stats.totalPerformances == |ranking| && stats.totalVoters == totalVoters
    ensures stats.totalVotes == TotalVotes(ranking)
    ensures stats.highestScore >= 0.0
    ensures forall k :: 0 <= k < |ranking| ==> ranking[k].averageScore <= stats.highestScore
    ensures stats.highestScore == 0.0 || exists k :: 0 <= k < |ranking| && ranking[k].averageScore == stats.highestScore
    ensures stats.lowestScore <= 10.0
    ensures forall k :: 0 <= k < |ranking| && ranking[k].totalVotes > 0 ==> stats.lowestScore <= ranking[k].averageScore
    ensures stats.lowestScore == 10.0
            || exists k :: 0 <= k < |ranking| && ranking[k].totalVotes > 0 && ranking[k].averageScore == stats.lowestScore
  {
    var total: nat := 0;
    var highest := 0.0;
    var lowest := 10.0;
    var k := 0;
    while k < |ranking|
      invariant 0 <= k <= |ranking|
      invariant total + TotalVotes(ranking[k..]) == TotalVotes(ranking)
      invariant highest >= 0.0
      invariant forall m :: 0 <= m < k ==> ranking[m].averageScore <= highest
      invariant highest == 0.0 || exists m :: 0 <= m < k && ranking[m].averageScore == highest
      invariant lowest <= 10.0
      invariant forall m :: 0 <= m < k && ranking[m].totalVotes > 0 ==> lowest <= ranking[m].averageScore
      invariant lowest == 10.0 || exists m :: 0 <= m < k && ranking[m].totalVotes > 0 && ranking[m].averageScore == lowest
    {
      var row := ranking[k];
      assert ranking[k..][1..] == ranking[k + 1..];
      total := total + row.totalVotes;
      if row.averageScore > highest {
        highest := row.averageScore;
      }
      if row.averageScore < lowest && row.totalVotes > 0 {
        lowest := row.averageScore;
      }
      k := k + 1;
    }
    stats := Stats(total, |ranking|, highest, lowest, totalVoters);
  }

  /**
   * `getResults`: the ranking for the requested team (or for everyone),
   * numbered from 1, and its statistics. `totalVoters` counts every ballot
   * whatever the filter; `totalVotes` counts every stored score of a ballot
   * that takes part for a configured country.
   */
  method GetResults(votes: Doc, perfs: seq<Performance>, team: Option<string>)
    returns (ranked: seq<RankedEntry>, stats: Stats)
    requires DistinctCodes(perfs)
    ensures var ranking := SortBy(Entries(votes, perfs, EffectiveFilter(team)), AverageOf, Descending);
            && |ranked| == |perfs| == |ranking|
            && (forall k :: 0 <= k < |ranked| ==> ranked[k].entry == ranking[k] && ranked[k].rank == k + 1)
            && (forall i, j :: 0 <= i < j < |ranked| ==> ranked[i].entry.averageScore >= ranked[j].entry.averageScore)
    ensures stats.totalPerformances == |perfs|
    ensures stats.totalVoters == |votes|
    ensures stats.totalVotes == ConfiguredScores(votes, Codes(perfs), EffectiveFilter(team))
    ensures stats.highestScore >= 0.0
    ensures forall k :: 0 <= k < |ranked| ==> ranked[k].entry.averageScore <= stats.highestScore
    ensures stats.highestScore == 0.0 || exists k :: 0 <= k < |ranked| && ranked[k].entry.averageScore == stats.highestScore
    ensures stats.lowestScore <= 10.0
    ensures forall k :: 0 <= k < |ranked| && ranked[k].entry.totalVotes > 0 ==> stats.lowestScore <= ranked[k].entry.averageScore
    ensures stats.lowestScore == 10.0
            || exists k :: 0 <= k < |ranked| && ranked[k].entry.totalVotes > 0 && ranked[k].entry.averageScore == stats.lowestScore
  {
    var ranking;
    if team.Some? && !IsEmptyString(team.value) {
      ranking := GetTeamRanking(votes, perfs, team.value);
    } else {
      ranking := CalculateRanking(votes, perfs);
    }
    var filter := EffectiveFilter(team);
    SortByPermutes(Entries(votes, perfs, filter), AverageOf, Descending);
    SortBySorted(Entries(votes, perfs, filter), AverageOf, Descending);
    ranked := AssignRanks(ranking);
    stats := AggregateStats(ranking, |votes|);
    TotalVotesSorted(Entries(votes, perfs, filter));
    RankedVotesCount(votes, perfs, filter);
  }

  lemma {:induction false} TotalVotesInsert(x: RankEntry, t: seq<RankEntry>)
    ensures TotalVotes(Insert(x, t, AverageOf, Descending)) == x.totalVotes + TotalVotes(t)
  {
    if t != [] && Precedes(Descending, AverageOf(t[0]), AverageOf(x)) {
      TotalVotesInsert(x, t[1..]);
      assert Insert(x, t, AverageOf, Descending)[1..] == Insert(x, t[1..], AverageOf, Descending);
    } else {
      assert ([x] + t)[1..] == t;
    }
  }

  /** Sorting the rows does not change the total of their vote counts. */
  lemma {:induction false} TotalVotesSorted(s: seq<RankEntry>)
    ensures TotalVotes(SortBy(s, AverageOf, Descending)) == TotalVotes(s)
  {
    if s != [] {
      TotalVotesSorted(s[1..]);
      TotalVotesInsert(s[0], SortBy(s[1..], AverageOf, Descending));
    }
  }

  /** The number of scores for the countries `codes` among the ballots that take part. */
  function ConfiguredScores(votes: Doc, codes: set<string>, filter: Option<string>): nat
  {
    if votes == [] then 0
    else
      var u := votes[|votes| - 1].votes;
      ConfiguredScores(votes[..|votes| - 1], codes, filter) + (if Matches(u, filter) then |u.scores.Keys * codes| else 0)
  }

  /** Number of scores each performance received, added up over the performances. */
  function ScoreCounts(votes: Doc, perfs: seq<Performance>, filter: Option<string>): nat
  {
    if perfs == [] then 0
    else |ScoresFor(votes, perfs[0].code, filter)| + ScoreCounts(votes, perfs[1..], filter)
  }

  lemma {:induction false} TotalVotesOfEntries(votes: Doc, perfs: seq<Performance>, filter: Option<string>)
    ensures TotalVotes(Entries(votes, perfs, filter)) == ScoreCounts(votes, perfs, filter)
  {
    if perfs != [] {
      TotalVotesOfEntries(votes, perfs[1..], filter);
      assert Entries(votes, perfs, filter)[1..] == Entries(votes, perfs[1..], filter);
    }
  }

  /** The codes of a non-empty configuration: the first one and those of the rest, which do not repeat it. */
  lemma CodesCons(perfs: seq<Performance>)
    requires perfs != [] && DistinctCodes(perfs)
    ensures Codes(perfs) == {perfs[0].code} + Codes(perfs[1..])
    ensures perfs[0].code !in Codes(perfs[1..])
  {
  }

  lemma CountWithOneMore(k: set<string>, a: set<string>, x: string)
    requires x !in a
    ensures |k * ({x} + a)| == |k * a| + (if x in k then 1 else 0)
  {
    if x in k {
      assert k * ({x} + a) == {x} + (k * a);
    } else {
      assert k * ({x} + a) == k * a;
    }
  }

  /** What one ballot adds to the counts: one per configured country it scored. */
  lemma {:induction false} BallotCounts(u: UserVotes, perfs: seq<Performance>, filter: Option<string>)
    requires DistinctCodes(perfs)
    ensures Contributions(u, perfs, filter) == if Matches(u, filter) then |u.scores.Keys * Codes(perfs)| else 0
  {
    if perfs != [] {
      assert DistinctCodes(perfs[1..]) by {
        assert forall j :: 0 <= j < |perfs[1..]| ==> perfs[1..][j] == perfs[j + 1];
      }
      BallotCounts(u, perfs[1..], filter);
      CodesCons(perfs);
      CountWithOneMore(u.scores.Keys, Codes(perfs[1..]), perfs[0].code);
    } else {
      assert Codes(perfs) == {};
      assert u.scores.Keys * {} == {};
    }
  }

  /** Number of scores ballot `u` gives to the performances, added up. */
  function Contributions(u: UserVotes, perfs: seq<Performance>, filter: Option<string>): nat
  {
    if perfs == [] then 0
    else |Contribution(u, perfs[0].code, filter)| + Contributions(u, perfs[1..], filter)
  }

  lemma {:induction false} ScoreCountsSnoc(votes: Doc, i: nat, perfs: seq<Performance>, filter: Option<string>)
    requires i < |votes|
    ensures ScoreCounts(votes[..i + 1], perfs, filter) == ScoreCounts(votes[..i], perfs, filter) + Contributions(votes[i].votes, perfs, filter)
  {
    if perfs != [] {
      ScoreCountsSnoc(votes, i, perfs[1..], filter);
      ScoresForSnoc(votes, i, perfs[0].code, filter);
    }
  }

  /**
   * `totalVotes` counts every stored score of a ballot that takes part for a
   * configured country exactly once; scores for other countries are not counted.
   */
  lemma {:induction false} RankedVotesCount(votes: Doc, perfs: seq<Performance>, filter: Option<string>)
    requires DistinctCodes(perfs)
    ensures TotalVotes(Entries(votes, perfs, filter)) == ConfiguredScores(votes, Codes(perfs), filter)
  {
    TotalVotesOfEntries(votes, perfs, filter);
    CountsOfPrefix(votes, |votes|, perfs, filter);
    assert votes[..|votes|] == votes;
  }

  lemma {:induction false} CountsOfPrefix(votes: Doc, i: nat, perfs: seq<Performance>, filter: Option<string>)
    requires DistinctCodes(perfs) && i <= |votes|
    ensures ScoreCounts(votes[..i], perfs, filter) == ConfiguredScores(votes[..i], Codes(perfs), filter)
  {
    if i > 0 {
      CountsOfPrefix(votes, i - 1, perfs, filter);
      ScoreCountsSnoc(votes, i - 1, perfs, filter);
      BallotCounts(votes[i - 1].votes, perfs, filter);
      assert votes[..i][..i - 1] == votes[..i - 1];
    } else {
      EmptyCounts(votes[..0], perfs, filter);
    }
  }

  lemma {:induction false} EmptyCounts(votes: Doc, perfs: seq<Performance>, filter: Option<string>)
    requires votes == []
    ensures ScoreCounts(votes, perfs, filter) == 0
  {
    if perfs != [] {
      EmptyCounts(votes, perfs[1..], filter);
    }
  }

  // ----- getTeamsStats -----

  /** The keys of `$teamStats` in order: each configured team once, where it first appears. */
  function Dedup(teams: seq<string>): (r: seq<string>)
    ensures forall t :: t in r <==> t in teams
    ensures forall i, j :: 0 <= i < j < |r| ==> r[i] != r[j]
  {
    if teams == [] then []
    else
      var init := Dedup(teams[..|teams| - 1]);
      var last := teams[|teams| - 1];
      assert forall t :: t in teams <==> t in teams[..|teams| - 1] || t == last;
      if last in init then init else init + [last]
  }

  /** Number of ballots whose team is `team`. */
  function TeamVoters(votes: Doc, team: string): nat
  {
    if votes == [] then 0
    else TeamVoters(votes[..|votes| - 1], team) + (if votes[|votes| - 1].votes.team == Some(team) then 1 else 0)
  }

  /** Number of scores, for any country, in the ballots whose team is `team`. */
  function TeamVotes(votes: Doc, team: string): nat
  {
    if votes == [] then 0
    else
      var u := votes[|votes| - 1].votes;
      TeamVotes(votes[..|votes| - 1], team) + (if u.team == Some(team) then |u.scores| else 0)
  }

  /** Counters per team, keyed by name. */
  ghost predicate CountersHold(rows: map<string, TeamStat>, names: seq<string>, votes: Doc)
  {
    && (forall t :: t in rows <==> t in names)
    && forall t :: t in rows ==> rows[t] == TeamStat(t, TeamVoters(votes, t), TeamVotes(votes, t))
  }

  /**
   * `getTeamsStats`: one row per configured team, in configuration order,
   * counting the ballots of that team and the scores they hold. Ballots
   * without a team or with an unconfigured one are counted nowhere.
   */
  method GetTeamsStats(teams: seq<string>, votes: Doc) returns (stats: seq<TeamStat>)
    ensures |stats| == |Dedup(teams)|
    ensures forall k :: 0 <= k < |stats| ==>
              stats[k] == TeamStat(Dedup(teams)[k], TeamVoters(votes, Dedup(teams)[k]), TeamVotes(votes, Dedup(teams)[k]))
  {
    var rows: map<string, TeamStat> := map[];
    var names: seq<string> := [];
    var k := 0;
    while k < |teams|
      invariant 0 <= k <= |teams|
      invariant names == Dedup(teams[..k])
      invariant CountersHold(rows, names, [])
    {
      var t := teams[k];
      assert teams[..k + 1][..k] == teams[..k];
      if t !in rows {
        names := names + [t];
      }
      rows := rows[t := TeamStat(t, 0, 0)];
      k := k + 1;
    }
    assert teams[..k] == teams;

    var i := 0;
    while i < |votes|
      invariant 0 <= i <= |votes|
      invariant CountersHold(rows, names, votes[..i])
    {
      var u := votes[i].votes;
      assert votes[..i + 1][..i] == votes[..i];
      if u.team.Some? && u.team.value in rows {
        var t := u.team.value;
        var row := rows[t];
        rows := rows[t := row.(totalVoters := row.totalVoters + 1, totalVotes := row.totalVotes + |u.scores|)];
      }
      i := i + 1;
    }
    assert votes[..i] == votes;
    stats := seq(|names|, k requires 0 <= k < |names| => rows[names[k]]);
  }

  /**
   * When every stored score is for a configured country, the scores a team's
   * ranking counts are exactly the team's `totalVotes` in the team statistics.
   */
  lemma TeamRankingAgreesWithTeamStats(votes: Doc, perfs: seq<Performance>, team: string)
    requires DistinctCodes(perfs)
    requires forall i :: 0 <= i < |votes| ==> votes[i].votes.scores.Keys <= Codes(perfs)
    ensures TotalVotes(Entries(votes, perfs, Some(team))) == TeamVotes(votes, team)
  {
    RankedVotesCount(votes, perfs, Some(team));
    ConfiguredTeamScores(votes, Codes(perfs), team);
  }

  lemma {:induction false} ConfiguredTeamScores(votes: Doc, codes: set<string>, team: string)
    requires forall i :: 0 <= i < |votes| ==> votes[i].votes.scores.Keys <= codes
    ensures ConfiguredScores(votes, codes, Some(team)) == TeamVotes(votes, team)
  {
    if votes != [] {
      var init := votes[..|votes| - 1];
      var u := votes[|votes| - 1].votes;
      assert forall i :: 0 <= i < |init| ==> init[i] == votes[i];
      ConfiguredTeamScores(init, codes, team);
      assert u.scores.Keys * codes == u.scores.Keys;
    }
  }
}
