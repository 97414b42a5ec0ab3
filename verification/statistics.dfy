/**
 * The superlatives of `VoteService`: the harshest and the most generous
 * voter (lowest and highest mean of their own scores) and the most divisive
 * and most consensual country (largest and smallest spread of the scores it
 * received). Each builds a list in document or configuration order, sorts
 * it stably and returns its first element, so ties go to whoever comes first.
 * Spread is the population variance; the source reports its square root,
 * which orders countries identically.
 */
module Statistics {
  import opened Wrappers
  import opened Config
  import opened Document
  import opened Scores
  import opened Sorting
  import opened Ranking

  /** What `getHarshestVoter` and `getGenerousVoter` return. */
  datatype VoterStat = VoterStat(pseudo: string, team: string, averageScore: real)

  /** What `getMostDivisiveCountry` and `getMostConsensualCountry` return, with the variance in place of its root. */
  datatype CountryStat = CountryStat(code: string, name: string, flag: string, variance: real)

  function VoterAverage(v: VoterStat): real
  {
    v.averageScore
  }

  function CountryVariance(c: CountryStat): real
  {
    c.variance
  }

  /** `reset` on a sorted array: its first element, or nothing when it is empty. */
  function Head<T>(s: seq<T>): (r: Option<T>)
    ensures r.None? <==> s == []
    ensures r.Some? ==> r.value == s[0]
  {
    if s == [] then None else Some(s[0])
  }

  // ----- Voters -----

  /** A ballot is ranked when it passes the team filter and holds at least one score. */
  predicate Eligible(u: UserVotes, filter: Option<string>)
  {
    Matches(u, filter) && |u.scores| > 0
  }

  /** The mean of the scores of one ballot, in whatever order they are stored. */
  ghost function BallotMean(u: UserVotes): real
  {
    if |u.scores| == 0 then 0.0 else SumOver(u.scores, u.scores.Keys) as real / |u.scores| as real
  }

  /** The row of a voter; a ballot without a team is reported under "Inconnue". */
  ghost function StatOf(e: Entry): VoterStat
  {
    VoterStat(e.pseudo, e.votes.team.GetOr("Inconnue"), BallotMean(e.votes))
  }

  /** `$voterScores` before sorting: one row per eligible ballot, in document order. */
  ghost function VoterStats(votes: Doc, filter: Option<string>): seq<VoterStat>
  {
    if votes == [] then []
    else
      var last := votes[|votes| - 1];
      VoterStats(votes[..|votes| - 1], filter) + (if Eligible(last.votes, filter) then [StatOf(last)] else [])
  }

  /** The inner loop summing one ballot's scores. */
  method BallotTotal(scores: map<string, int>) returns (total: int)
    ensures total == SumOver(scores, scores.Keys)
  {
    total := 0;
    var pending := scores.Keys;
    while pending != {}
      invariant pending <= scores.Keys
      invariant total + SumOver(scores, pending) == SumOver(scores, scores.Keys)
      decreases pending
    {
      var c :| c in pending;
      SumOverRemove(scores, pending, c);
      total := total + scores[c];
      pending := pending - {c};
    }
  }

  /** The loop building `$voterScores`. */
  method CollectVoterStats(votes: Doc, filter: Option<string>) returns (stats: seq<VoterStat>)
    ensures stats == VoterStats(votes, filter)
  {
    stats := [];
    var i := 0;
    while i < |votes|
      invariant 0 <= i <= |votes|
      invariant stats == VoterStats(votes[..i], filter)
    {
      assert votes[..i + 1][..i] == votes[..i];
      var e := votes[i];
      if Matches(e.votes, filter) && |e.votes.scores| > 0 {
        var total := BallotTotal(e.votes.scores);
        var count := |e.votes.scores|;
        stats := stats + [VoterStat(e.pseudo, e.votes.team.GetOr("Inconnue"), total as real / count as real)];
      }
      i := i + 1;
    }
    assert votes[..i] == votes;
  }

  /** Every eligible ballot, and only those, has its row, in document order. */
  lemma {:induction false} VoterStatsComplete(votes: Doc, filter: Option<string>)
    ensures |VoterStats(votes, filter)| <= |votes|
    ensures VoterStats(votes, filter) == [] <==> forall i :: 0 <= i < |votes| ==> !Eligible(votes[i].votes, filter)
    ensures forall k :: 0 <= k < |VoterStats(votes, filter)| ==>
              exists i :: 0 <= i < |votes| && Eligible(votes[i].votes, filter) && VoterStats(votes, filter)[k] == StatOf(votes[i])
    ensures forall i :: 0 <= i < |votes| && Eligible(votes[i].votes, filter) ==> StatOf(votes[i]) in VoterStats(votes, filter)
  {
    if votes != [] {
      var init := votes[..|votes| - 1];
      VoterStatsComplete(init, filter);
      assert forall i :: 0 <= i < |init| ==> init[i] == votes[i];
    }
  }

  /**
   * Harshest (ascending) and most generous (descending) voter: nothing when
   * there are no votes, otherwise the first row of the stably sorted rows.
   */
  method ExtremeVoter(votes: Doc, filter: Option<string>, dir: Direction) returns (r: Option<VoterStat>)
    ensures r == if |votes| == 0 then None else Head(SortBy(VoterStats(votes, filter), VoterAverage, dir))
    ensures r.None? <==> forall i :: 0 <= i < |votes| ==> !Eligible(votes[i].votes, filter)
    ensures r.Some? ==>
              var stats := VoterStats(votes, filter);
              exists j :: 0 <= j < |stats| && r.value == stats[j]
                && (forall i :: 0 <= i < |stats| ==> !Precedes(dir, stats[i].averageScore, stats[j].averageScore))
                && (forall i :: 0 <= i < j ==> Precedes(dir, stats[j].averageScore, stats[i].averageScore))
  {
    VoterStatsEmpty(votes, filter);
    if |votes| == 0 {
      return None;
    }
    var stats := CollectVoterStats(votes, filter);
    if |stats| == 0 {
      return None;
    }
    SortByHead(stats, VoterAverage, dir);
    ghost var j :| FirstExtremeAt(stats, VoterAverage, dir, j) && SortBy(stats, VoterAverage, dir)[0] == stats[j];
    r := Head(SortBy(stats, VoterAverage, dir));
    assert r.value == stats[j];
  }

  /** There are no rows exactly when no ballot is eligible. */
  lemma VoterStatsEmpty(votes: Doc, filter: Option<string>)
    ensures VoterStats(votes, filter) == [] <==> forall i :: 0 <= i < |votes| ==> !Eligible(votes[i].votes, filter)
  {
    VoterStatsComplete(votes, filter);
  }

  /** `getHarshestVoter`: the first voter with the lowest mean. */
  method GetHarshestVoter(votes: Doc, team: Option<string>) returns (r: Option<VoterStat>)
    ensures r.None? <==> forall i :: 0 <= i < |votes| ==> !Eligible(votes[i].votes, team)
    ensures r.Some? ==>
              var stats := VoterStats(votes, team);
              exists j :: 0 <= j < |stats| && r.value == stats[j]
                && (forall i :: 0 <= i < |stats| ==> stats[j].averageScore <= stats[i].averageScore)
                && (forall i :: 0 <= i < j ==> stats[j].averageScore < stats[i].averageScore)
    ensures r.Some? ==>
              forall i :: 0 <= i < |votes| && Eligible(votes[i].votes, team) ==> r.value.averageScore <= BallotMean(votes[i].votes)
  {
    r := ExtremeVoter(votes, team, Ascending);
    VoterStatsComplete(votes, team);
  }

  /** `getGenerousVoter`: the first voter with the highest mean. */
  method GetGenerousVoter(votes: Doc, team: Option<string>) returns (r: Option<VoterStat>)
    ensures r.None? <==> forall i :: 0 <= i < |votes| ==> !Eligible(votes[i].votes, team)
    ensures r.Some? ==>
              var stats := VoterStats(votes, team);
              exists j :: 0 <= j < |stats| && r.value == stats[j]
                && (forall i :: 0 <= i < |stats| ==> stats[j].averageScore >= stats[i].averageScore)
                && (forall i :: 0 <= i < j ==> stats[j].averageScore > stats[i].averageScore)
    ensures r.Some? ==>
              forall i :: 0 <= i < |votes| && Eligible(votes[i].votes, team) ==> r.value.averageScore >= BallotMean(votes[i].votes)
  {
    r := ExtremeVoter(votes, team, Descending);
    VoterStatsComplete(votes, team);
  }

  // ----- Countries -----

  /** `$divisiveCountries` / `$consensualCountries` before sorting: countries with at least two scores, in configuration order. */
  function CountryStats(votes: Doc, perfs: seq<Performance>, filter: Option<string>): seq<CountryStat>
  {
    if perfs == [] then []
    else
      var p := perfs[|perfs| - 1];
      var s := ScoresFor(votes, p.code, filter);
      CountryStats(votes, perfs[..|perfs| - 1], filter)
        + (if |s| >= 2 then [CountryStat(p.code, p.name, p.flag, Variance(s))] else [])
  }

  /** Every configured country has its list, holding what `votes` gave it plus what ballot `u` gave it so far. */
  ghost predicate ListsHold(lists: map<string, seq<int>>, perfs: seq<Performance>, votes: Doc,
                            filter: Option<string>, u: UserVotes, pending: set<string>)
  {
    && lists.Keys == Codes(perfs)
    && forall j :: 0 <= j < |perfs| ==>
         lists[perfs[j].code] == ScoresFor(votes, perfs[j].code, filter) + Folded(u, perfs[j].code, pending)
  }

  /** The initialisation loop: an empty score list per country. */
  method EmptyLists(perfs: seq<Performance>) returns (lists: map<string, seq<int>>)
    ensures lists.Keys == Codes(perfs)
    ensures forall c :: c in lists ==> lists[c] == []
  {
    lists := map[];
    var k := 0;
    while k < |perfs|
      invariant 0 <= k <= |perfs|
      invariant lists.Keys == Codes(perfs[..k])
      invariant forall c :: c in lists ==> lists[c] == []
    {
      lists := lists[perfs[k].code := []];
      assert Codes(perfs[..k + 1]) == Codes(perfs[..k]) + {perfs[k].code} by {
        assert forall j :: 0 <= j < k ==> perfs[..k + 1][j] == perfs[..k][j];
      }
      k := k + 1;
    }
    assert perfs[..k] == perfs;
  }

  /** The inner loop appending one ballot's scores to the lists of configured countries. */
  method CollectBallot(lists0: map<string, seq<int>>, perfs: seq<Performance>, u: UserVotes,
                       ghost votes: Doc, ghost filter: Option<string>)
    returns (lists: map<string, seq<int>>)
    requires ListsHold(lists0, perfs, votes, filter, u, u.scores.Keys)
    ensures ListsHold(lists, perfs, votes, filter, u, {})
  {
    lists := lists0;
    var pending := u.scores.Keys;
    while pending != {}
      invariant pending <= u.scores.Keys
      invariant ListsHold(lists, perfs, votes, filter, u, pending)
      decreases pending
    {
      var c :| c in pending;
      var rest := pending - {c};
      if c in lists {
        var next := lists[c := lists[c] + [u.scores[c]]];
        forall j | 0 <= j < |perfs|
          ensures next[perfs[j].code] == ScoresFor(votes, perfs[j].code, filter) + Folded(u, perfs[j].code, rest)
        {
          var cj := perfs[j].code;
          if cj == c {
            assert Folded(u, cj, pending) == [] && Folded(u, cj, rest) == [u.scores[c]];
            assert ScoresFor(votes, cj, filter) + Folded(u, cj, pending) == ScoresFor(votes, cj, filter);
          } else {
            assert Folded(u, cj, rest) == Folded(u, cj, pending);
          }
        }
        lists := next;
      } else {
        forall j | 0 <= j < |perfs|
          ensures lists[perfs[j].code] == ScoresFor(votes, perfs[j].code, filter) + Folded(u, perfs[j].code, rest)
        {
          assert perfs[j].code in Codes(perfs);
          assert Folded(u, perfs[j].code, rest) == Folded(u, perfs[j].code, pending);
        }
      }
      pending := rest;
    }
  }

  /** One turn of the collecting loop: ballot `i` is skipped or appended. */
  method CollectStep(lists0: map<string, seq<int>>, perfs: seq<Performance>, votes: Doc, i: nat, filter: Option<string>)
    returns (lists: map<string, seq<int>>)
    requires i < |votes|
    requires lists0.Keys == Codes(perfs)
    requires forall j :: 0 <= j < |perfs| ==> lists0[perfs[j].code] == ScoresFor(votes[..i], perfs[j].code, filter)
    ensures lists.Keys == Codes(perfs)
    ensures forall j :: 0 <= j < |perfs| ==> lists[perfs[j].code] == ScoresFor(votes[..i + 1], perfs[j].code, filter)
  {
    var u := votes[i].votes;
    lists := lists0;
    if Matches(u, filter) {
      assert ListsHold(lists, perfs, votes[..i], filter, u, u.scores.Keys) by {
        forall j | 0 <= j < |perfs|
          ensures ScoresFor(votes[..i], perfs[j].code, filter) + Folded(u, perfs[j].code, u.scores.Keys)
                  == ScoresFor(votes[..i], perfs[j].code, filter)
        {
        }
      }
      lists := CollectBallot(lists, perfs, u, votes[..i], filter);
    }
    forall j | 0 <= j < |perfs|
      ensures lists[perfs[j].code] == ScoresFor(votes[..i + 1], perfs[j].code, filter)
    {
      var cj := perfs[j].code;
      ScoresForSnoc(votes, i, cj, filter);
      if Matches(u, filter) {
        assert Contribution(u, cj, filter) == Folded(u, cj, {});
      } else {
        assert Contribution(u, cj, filter) == [];
        assert ScoresFor(votes[..i], cj, filter) + [] == ScoresFor(votes[..i], cj, filter);
      }
    }
  }

  /** The loop collecting, per configured country, the scores of the ballots that pass the filter. */
  method CollectCountryScores(votes: Doc, perfs: seq<Performance>, filter: Option<string>)
    returns (lists: map<string, seq<int>>)
    ensures lists.Keys == Codes(perfs)
    ensures forall j :: 0 <= j < |perfs| ==> lists[perfs[j].code] == ScoresFor(votes, perfs[j].code, filter)
  {
    lists := EmptyLists(perfs);
    var i := 0;
    while i < |votes|
      invariant 0 <= i <= |votes|
      invariant lists.Keys == Codes(perfs)
      invariant forall j :: 0 <= j < |perfs| ==> lists[perfs[j].code] == ScoresFor(votes[..i], perfs[j].code, filter)
    {
      lists := CollectStep(lists, perfs, votes, i, filter);
      i := i + 1;
    }
    assert votes[..i] == votes;
  }

  /** The variance loop: the mean from `array_sum / count`, then the squared deviations summed and divided by the count. */
  method VarianceOf(s: seq<int>) returns (v: real)
    requires |s| > 0
    ensures v == Variance(s)
    ensures v >= 0.0
  {
    var mean := Sum(s) as real / |s| as real;
    v := 0.0;
    var i := 0;
    while i < |s|
      invariant 0 <= i <= |s|
      invariant v == SqDev(s[..i], mean)
    {
      assert s[..i + 1][..i] == s[..i];
      v := v + (s[i] as real - mean) * (s[i] as real - mean);
      i := i + 1;
    }
    assert s[..i] == s;
    v := v / |s| as real;
    VarianceNonNegative(s);
  }

  /** The loop computing each country's spread, skipping countries with fewer than two scores. */
  method ComputeCountryStats(votes: Doc, perfs: seq<Performance>, filter: Option<string>)
    returns (stats: seq<CountryStat>)
    ensures stats == CountryStats(votes, perfs, filter)
  {
    var lists := CollectCountryScores(votes, perfs, filter);
    stats := [];
    var k := 0;
    while k < |perfs|
      invariant 0 <= k <= |perfs|
      invariant stats == CountryStats(votes, perfs[..k], filter)
    {
      assert perfs[..k + 1][..k] == perfs[..k];
      var p := perfs[k];
      var s := lists[p.code];
      if |s| >= 2 {
        var v := VarianceOf(s);
        stats := stats + [CountryStat(p.code, p.name, p.flag, v)];
      }
      k := k + 1;
    }
    assert perfs[..k] == perfs;
  }

  /**
   * Most divisive (descending) and most consensual (ascending) country:
   * nothing when there are no votes or no performances, otherwise the first
   * row of the stably sorted rows.
   */
  method ExtremeCountry(votes: Doc, perfs: seq<Performance>, filter: Option<string>, dir: Direction)
    returns (r: Option<CountryStat>)
    ensures r == if |votes| == 0 || |perfs| == 0 then None
                 else Head(SortBy(CountryStats(votes, perfs, filter), CountryVariance, dir))
    ensures r.Some? ==>
              var stats := CountryStats(votes, perfs, filter);
              exists j :: 0 <= j < |stats| && r.value == stats[j]
                && (forall i :: 0 <= i < |stats| ==> !Precedes(dir, stats[i].variance, stats[j].variance))
                && (forall i :: 0 <= i < j ==> Precedes(dir, stats[j].variance, stats[i].variance))
  {
    if |votes| == 0 || |perfs| == 0 {
      return None;
    }
    var stats := ComputeCountryStats(votes, perfs, filter);
    if |stats| == 0 {
      return None;
    }
    SortByHead(stats, CountryVariance, dir);
    r := Head(SortBy(stats, CountryVariance, dir));
  }

  /** `getMostDivisiveCountry`: the first country with the largest spread. */
  method GetMostDivisiveCountry(votes: Doc, perfs: seq<Performance>, team: Option<string>)
    returns (r: Option<CountryStat>)
    ensures r.None? <==> |votes| == 0 || CountryStats(votes, perfs, team) == []
    ensures r.Some? ==>
              var stats := CountryStats(votes, perfs, team);
              exists j :: 0 <= j < |stats| && r.value == stats[j]
                && (forall i :: 0 <= i < |stats| ==> stats[j].variance >= stats[i].variance)
                && (forall i :: 0 <= i < j ==> stats[j].variance > stats[i].variance)
  {
    assert perfs == [] ==> CountryStats(votes, perfs, team) == [];
    r := ExtremeCountry(votes, perfs, team, Descending);
  }

  /** `getMostConsensualCountry`: the first country with the smallest spread. */
  method GetMostConsensualCountry(votes: Doc, perfs: seq<Performance>, team: Option<string>)
    returns (r: Option<CountryStat>)
    ensures r.None? <==> |votes| == 0 || CountryStats(votes, perfs, team) == []
    ensures r.Some? ==>
              var stats := CountryStats(votes, perfs, team);
              exists j :: 0 <= j < |stats| && r.value == stats[j]
                && (forall i :: 0 <= i < |stats| ==> stats[j].variance <= stats[i].variance)
                && (forall i :: 0 <= i < j ==> stats[j].variance < stats[i].variance)
  {
    assert perfs == [] ==> CountryStats(votes, perfs, team) == [];
    r := ExtremeCountry(votes, perfs, team, Ascending);
  }

  /** `c` is the row of a configured country with at least two scores, and carries their spread. */
  ghost predicate Reported(c: CountryStat, votes: Doc, perfs: seq<Performance>, filter: Option<string>)
  {
    && (exists j :: 0 <= j < |perfs| && c.code == perfs[j].code)
    && |ScoresFor(votes, c.code, filter)| >= 2
    && c.variance == Variance(ScoresFor(votes, c.code, filter))
    && c.variance >= 0.0
  }

  /**
   * A country is reported exactly when it received at least two scores,
   * and what is reported is the spread of exactly those scores.
   */
  lemma {:induction false} CountryStatsComplete(votes: Doc, perfs: seq<Performance>, filter: Option<string>)
    ensures forall k :: 0 <= k < |CountryStats(votes, perfs, filter)| ==>
              Reported(CountryStats(votes, perfs, filter)[k], votes, perfs, filter)
    ensures forall j :: 0 <= j < |perfs| && |ScoresFor(votes, perfs[j].code, filter)| >= 2 ==>
              exists k :: 0 <= k < |CountryStats(votes, perfs, filter)| && CountryStats(votes, perfs, filter)[k].code == perfs[j].code
  {
    if perfs != [] {
      var init := perfs[..|perfs| - 1];
      CountryStatsComplete(votes, init, filter);
      assert forall j :: 0 <= j < |init| ==> init[j] == perfs[j];
      var p := perfs[|perfs| - 1];
      VarianceNonNegative(ScoresFor(votes, p.code, filter));
      var rest := CountryStats(votes, init, filter);
      var all := CountryStats(votes, perfs, filter);
      assert forall k :: 0 <= k < |rest| ==> all[k] == rest[k];
      forall k | 0 <= k < |all|
        ensures Reported(all[k], votes, perfs, filter)
      {
        if k == |rest| {
          assert all[k].code == perfs[|perfs| - 1].code;
        } else {
          assert Reported(rest[k], votes, init, filter);
          var j :| 0 <= j < |init| && rest[k].code == init[j].code;
          assert all[k] == rest[k] && perfs[j] == init[j];
        }
      }
      forall j | 0 <= j < |perfs| && |ScoresFor(votes, perfs[j].code, filter)| >= 2
        ensures exists k :: 0 <= k < |all| && all[k].code == perfs[j].code
      {
        if j == |perfs| - 1 {
          assert all[|rest|].code == p.code;
        } else {
          assert perfs[j] == init[j];
          var k :| 0 <= k < |rest| && rest[k].code == init[j].code;
          assert all[k].code == perfs[j].code;
        }
      }
    }
  }
}
