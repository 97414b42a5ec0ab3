/**
 * `calculateRanking` and `getTeamRanking`: one entry per configured
 * performance with the number of scores it received and their running
 * mean, then a stable sort on the mean, highest first. The two PHP methods
 * are copies of one loop that differ only in the team test; here the test is
 * a filter, `None` for the global ranking and `Some(team)` for a team's.
 */
module Ranking {
  import opened Wrappers
  import opened Config
  import opened Document
  import opened Scores
  import opened Sorting

  /** One row of the ranking. */
  datatype RankEntry = RankEntry(code: string, name: string, artist: string, song: string, flag: string,
                                 averageScore: real, totalVotes: nat)

  function AverageOf(e: RankEntry): real
  {
    e.averageScore
  }

  /**
   * Whether a ballot takes part: every ballot without a filter, and with a
   * team filter only a ballot whose team is set and equal to it.
   */
  predicate Matches(u: UserVotes, filter: Option<string>)
  {
    filter.None? || u.team == filter
  }

  /** The score a ballot gives to country `code`, if it takes part and scored it. */
  function Contribution(u: UserVotes, code: string, filter: Option<string>): seq<int>
  {
    if Matches(u, filter) && code in u.scores then [u.scores[code]] else []
  }

  /** All scores country `code` received, in the order of the ballots. */
  function ScoresFor(votes: Doc, code: string, filter: Option<string>): seq<int>
  {
    if votes == [] then []
    else ScoresFor(votes[..|votes| - 1], code, filter) + Contribution(votes[|votes| - 1].votes, code, filter)
  }

  /** The ranking row of a performance that received the scores `s`. */
  function EntryFor(p: Performance, s: seq<int>): RankEntry
  {
    RankEntry(p.code, p.name, p.artist, p.song, p.flag, Mean(s), |s|)
  }

  /** The rows before sorting, in configuration order. */
  function Entries(votes: Doc, perfs: seq<Performance>, filter: Option<string>): seq<RankEntry>
  {
    seq(|perfs|, k requires 0 <= k < |perfs| => EntryFor(perfs[k], ScoresFor(votes, perfs[k].code, filter)))
  }

  /** The score ballot `u` gave to `code`, once `code` has left the `pending` keys of the inner loop. */
  function Folded(u: UserVotes, code: string, pending: set<string>): seq<int>
  {
    if code in u.scores && code !in pending then [u.scores[code]] else []
  }

  /** Every configured performance has its row, holding the mean and count of `s(code)`. */
  ghost predicate RowsHold(ranking: map<string, RankEntry>, perfs: seq<Performance>, votes: Doc,
                           filter: Option<string>, u: UserVotes, pending: set<string>)
  {
    && ranking.Keys == Codes(perfs)
    && forall j :: 0 <= j < |perfs| ==>
         ranking[perfs[j].code] == EntryFor(perfs[j], ScoresFor(votes, perfs[j].code, filter) + Folded(u, perfs[j].code, pending))
  }

  /** The initialisation loop: a zeroed row per performance. */
  method ZeroRows(perfs: seq<Performance>) returns (ranking: map<string, RankEntry>)
    requires DistinctCodes(perfs)
    ensures ranking.Keys == Codes(perfs)
    ensures forall j :: 0 <= j < |perfs| ==> ranking[perfs[j].code] == EntryFor(perfs[j], [])
  {
    ranking := map[];
    var k := 0;
    while k < |perfs|
      invariant 0 <= k <= |perfs|
      invariant ranking.Keys == Codes(perfs[..k])
      invariant forall j :: 0 <= j < k ==> ranking[perfs[j].code] == EntryFor(perfs[j], [])
    {
      var p := perfs[k];
      ranking := ranking[p.code := RankEntry(p.code, p.name, p.artist, p.song, p.flag, 0.0, 0)];
      assert Codes(perfs[..k + 1]) == Codes(perfs[..k]) + {p.code} by {
        assert forall j :: 0 <= j < k ==> perfs[..k + 1][j] == perfs[..k][j];
      }
      k := k + 1;
    }
    assert perfs[..k] == perfs;
  }

  /**
   * One step of the running mean: the count goes up by one and the mean
   * becomes `(avg * (n - 1) + score) / n` for the new count `n`.
   */
  function Bump(e: RankEntry, score: int): (r: RankEntry)
    ensures r.totalVotes == e.totalVotes + 1
    ensures r.averageScore * r.totalVotes as real == e.averageScore * e.totalVotes as real + score as real
    ensures r.(averageScore := e.averageScore, totalVotes := e.totalVotes) == e
  {
    var n := e.totalVotes + 1;
    e.(totalVotes := n, averageScore := (e.averageScore * (n - 1) as real + score as real) / n as real)
  }

  /** The running mean never drifts: bumping the row of `s` by `x` gives the row of `s + [x]`. */
  lemma BumpIsExact(p: Performance, s: seq<int>, x: int)
    ensures Bump(EntryFor(p, s), x) == EntryFor(p, s + [x])
  {
    MeanStep(s, x);
  }

  /** One more ballot adds its contribution at the end of every country's scores. */
  lemma ScoresForSnoc(votes: Doc, i: nat, code: string, filter: Option<string>)
    requires i < |votes|
    ensures ScoresFor(votes[..i + 1], code, filter) == ScoresFor(votes[..i], code, filter) + Contribution(votes[i].votes, code, filter)
  {
    assert votes[..i + 1][..i] == votes[..i];
  }

  /** Folding in the score of a configured country `c` bumps its row and keeps every row exact. */
  lemma BumpStep(ranking: map<string, RankEntry>, perfs: seq<Performance>, votes: Doc, filter: Option<string>,
                 u: UserVotes, pending: set<string>, c: string)
    requires RowsHold(ranking, perfs, votes, filter, u, pending)
    requires pending <= u.scores.Keys && c in pending && c in ranking
    ensures RowsHold(ranking[c := Bump(ranking[c], u.scores[c])], perfs, votes, filter, u, pending - {c})
  {
    var next := ranking[c := Bump(ranking[c], u.scores[c])];
    var rest := pending - {c};
    forall j | 0 <= j < |perfs|
      ensures next[perfs[j].code] == EntryFor(perfs[j], ScoresFor(votes, perfs[j].code, filter) + Folded(u, perfs[j].code, rest))
    {
      var cj := perfs[j].code;
      var s := ScoresFor(votes, cj, filter);
      if cj == c {
        assert Folded(u, cj, pending) == [] && Folded(u, cj, rest) == [u.scores[c]];
        assert s + [] == s;
        BumpIsExact(perfs[j], s, u.scores[c]);
      } else {
        assert next[cj] == ranking[cj];
        assert Folded(u, cj, rest) == Folded(u, cj, pending);
      }
    }
  }

  /** Skipping the score of an unconfigured country keeps every row exact. */
  lemma SkipStep(ranking: map<string, RankEntry>, perfs: seq<Performance>, votes: Doc, filter: Option<string>,
                 u: UserVotes, pending: set<string>, c: string)
    requires RowsHold(ranking, perfs, votes, filter, u, pending)
    requires c in pending && c !in ranking
    ensures RowsHold(ranking, perfs, votes, filter, u, pending - {c})
  {
    forall j | 0 <= j < |perfs|
      ensures ranking[perfs[j].code] == EntryFor(perfs[j], ScoresFor(votes, perfs[j].code, filter) + Folded(u, perfs[j].code, pending - {c}))
    {
      assert perfs[j].code in Codes(perfs);
      assert Folded(u, perfs[j].code, pending - {c}) == Folded(u, perfs[j].code, pending);
    }
  }

  /**
   * The inner loop over one ballot's scores: each score for a configured
   * country bumps that row; scores for other countries are skipped.
   */
  method FoldBallot(ranking0: map<string, RankEntry>, perfs: seq<Performance>, u: UserVotes,
                    ghost votes: Doc, ghost filter: Option<string>)
    returns (ranking: map<string, RankEntry>)
    requires RowsHold(ranking0, perfs, votes, filter, u, u.scores.Keys)
    ensures RowsHold(ranking, perfs, votes, filter, u, {})
  {
    ranking := ranking0;
    var pending := u.scores.Keys;
    while pending != {}
      invariant pending <= u.scores.Keys
      invariant RowsHold(ranking, perfs, votes, filter, u, pending)
      decreases pending
    {
      var c :| c in pending;
      if c in ranking {
        BumpStep(ranking, perfs, votes, filter, u, pending, c);
        ranking := ranking[c := Bump(ranking[c], u.scores[c])];
      } else {
        SkipStep(ranking, perfs, votes, filter, u, pending, c);
      }
      pending := pending - {c};
    }
  }

  /** Every configured performance has its row, holding the count and mean of what `votes` gave it. */
  ghost predicate Tallied(ranking: map<string, RankEntry>, perfs: seq<Performance>, votes: Doc, filter: Option<string>)
  {
    && ranking.Keys == Codes(perfs)
    && forall j :: 0 <= j < |perfs| ==>
         ranking[perfs[j].code] == EntryFor(perfs[j], ScoresFor(votes, perfs[j].code, filter))
  }

  /** One turn of the outer loop: ballot `i` is skipped or folded in. */
  method TallyBallot(ranking0: map<string, RankEntry>, perfs: seq<Performance>, votes: Doc, i: nat, filter: Option<string>)
    returns (ranking: map<string, RankEntry>)
    requires DistinctCodes(perfs) && i < |votes|
    requires Tallied(ranking0, perfs, votes[..i], filter)
    ensures Tallied(ranking, perfs, votes[..i + 1], filter)
  {
    var u := votes[i].votes;
    ranking := ranking0;
    if Matches(u, filter) {
      assert RowsHold(ranking, perfs, votes[..i], filter, u, u.scores.Keys) by {
        forall j | 0 <= j < |perfs|
          ensures ScoresFor(votes[..i], perfs[j].code, filter) + Folded(u, perfs[j].code, u.scores.Keys)
                  == ScoresFor(votes[..i], perfs[j].code, filter)
        {
        }
      }
      ranking := FoldBallot(ranking, perfs, u, votes[..i], filter);
    }
    forall j | 0 <= j < |perfs|
      ensures ranking[perfs[j].code] == EntryFor(perfs[j], ScoresFor(votes[..i + 1], perfs[j].code, filter))
    {
      var cj := perfs[j].code;
      ScoresForSnoc(votes, i, cj, filter);
      if Matches(u, filter) {
        assert Contribution(u, cj, filter) == Folded(u, cj, {});
      } else {
        assert Contribution(u, cj, filter) == [];
        assert ScoresFor(votes[..i], cj, filter) + [] == ScoresFor(votes[..i], cj, filter);
      }
    }
  }

  /**
   * The tallying loops of both ranking methods: the rows in configuration
   * order, each holding the count and the mean of the scores its country
   * received from the ballots that take part.
   */
  method Tally(votes: Doc, perfs: seq<Performance>, filter: Option<string>) returns (entries: seq<RankEntry>)
    requires DistinctCodes(perfs)
    ensures entries == Entries(votes, perfs, filter)
  {
    var ranking := ZeroRows(perfs);
    var i := 0;
    while i < |votes|
      invariant 0 <= i <= |votes|
      invariant Tallied(ranking, perfs, votes[..i], filter)
    {
      ranking := TallyBallot(ranking, perfs, votes, i, filter);
      i := i + 1;
    }
    assert votes[..i] == votes;
    entries := seq(|perfs|, k requires 0 <= k < |perfs| => ranking[perfs[k].code]);
    assert forall k :: 0 <= k < |perfs| ==> entries[k] == Entries(votes, perfs, filter)[k];
  }

  /**
   * A full ranking: the tallied rows sorted by mean, highest first, rows
   * with equal means in configuration order. Every configured performance
   * appears exactly once, unvoted ones with mean 0 and no votes.
   */
  method Rank(votes: Doc, perfs: seq<Performance>, filter: Option<string>) returns (ranking: seq<RankEntry>)
    requires DistinctCodes(perfs)
    ensures ranking == SortBy(Entries(votes, perfs, filter), AverageOf, Descending)
    ensures |ranking| == |perfs|
    ensures multiset(ranking) == multiset(Entries(votes, perfs, filter))
    ensures forall i, j :: 0 <= i < j < |ranking| ==> ranking[i].averageScore >= ranking[j].averageScore
    ensures forall v :: Ties(ranking, AverageOf, v) == Ties(Entries(votes, perfs, filter), AverageOf, v)
  {
    var entries := Tally(votes, perfs, filter);
    ranking := SortBy(entries, AverageOf, Descending);
    SortByPermutes(entries, AverageOf, Descending);
    SortBySorted(entries, AverageOf, Descending);
    forall v ensures Ties(ranking, AverageOf, v) == Ties(entries, AverageOf, v) {
      SortByStable(entries, AverageOf, Descending, v);
    }
  }

  /** `calculateRanking`: every ballot counts. */
  method CalculateRanking(votes: Doc, perfs: seq<Performance>) returns (ranking: seq<RankEntry>)
    requires DistinctCodes(perfs)
    ensures ranking == SortBy(Entries(votes, perfs, None), AverageOf, Descending)
  {
    ranking := Rank(votes, perfs, None);
  }

  /** `getTeamRanking`: only the ballots of `team` count. */
  method GetTeamRanking(votes: Doc, perfs: seq<Performance>, team: string) returns (ranking: seq<RankEntry>)
    requires DistinctCodes(perfs)
    ensures ranking == SortBy(Entries(votes, perfs, Some(team)), AverageOf, Descending)
  {
    ranking := Rank(votes, perfs, Some(team));
  }

  /** Stored scores that all lie in [0, 10], which `saveUserVotes` guarantees for what it writes. */
  ghost predicate ScoresInRange(votes: Doc)
  {
    forall i, c :: 0 <= i < |votes| && c in votes[i].votes.scores ==> 0 <= votes[i].votes.scores[c] <= 10
  }

  lemma {:induction false} ScoresForInRange(votes: Doc, code: string, filter: Option<string>)
    requires ScoresInRange(votes)
    ensures forall k :: 0 <= k < |ScoresFor(votes, code, filter)| ==> 0 <= ScoresFor(votes, code, filter)[k] <= 10
  {
    if votes != [] {
      var init := votes[..|votes| - 1];
      assert forall i :: 0 <= i < |init| ==> init[i] == votes[i];
      ScoresForInRange(init, code, filter);
    }
  }

  /** With scores in [0, 10] every mean in the ranking lies in [0, 10] as well. */
  lemma AveragesInRange(votes: Doc, perfs: seq<Performance>, filter: Option<string>)
    requires ScoresInRange(votes)
    ensures forall k :: 0 <= k < |perfs| ==>
              0.0 <= Entries(votes, perfs, filter)[k].averageScore <= 10.0
  {
    forall k | 0 <= k < |perfs|
      ensures 0.0 <= Entries(votes, perfs, filter)[k].averageScore <= 10.0
    {
      var s := ScoresFor(votes, perfs[k].code, filter);
      ScoresForInRange(votes, perfs[k].code, filter);
      if |s| > 0 {
        MeanBounds(s, 0, 10);
      }
    }
  }

  /**
   * A row counts exactly the taking-part ballots that scored the country:
   * `totalVotes` is at most the number of ballots, and a team's count never
   * exceeds the global one.
   */
  lemma {:induction false} TeamCountAtMostGlobal(votes: Doc, code: string, team: string)
    ensures |ScoresFor(votes, code, Some(team))| <= |ScoresFor(votes, code, None)| <= |votes|
  {
    if votes != [] {
      TeamCountAtMostGlobal(votes[..|votes| - 1], code, team);
    }
  }

  /** A country that nobody scored keeps the zeroed row it started with. */
  lemma {:induction false} UnscoredKeepsZero(votes: Doc, code: string, filter: Option<string>)
    requires forall i :: 0 <= i < |votes| ==> code !in votes[i].votes.scores
    ensures ScoresFor(votes, code, filter) == []
  {
    if votes != [] {
      UnscoredKeepsZero(votes[..|votes| - 1], code, filter);
    }
  }
}
