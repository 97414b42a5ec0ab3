/**
 * The vote store of `VoteService`: the lazily loaded copy of `votes.json`,
 * reading a ballot, and validating, merging and persisting a submitted one.
 */
module VoteStore {
  import opened Wrappers
  import opened Config
  import opened Document
  import opened Sorting
  import Ranking
  import Statistics

  /** A submitted score as it arrives from the request body: an integer or any other JSON value. */
  datatype ScoreValue = Int(n: int) | NotInt

  /** One `country code => score` pair of the submitted `scores` array, in request order. */
  datatype ScoreItem = ScoreItem(code: string, value: ScoreValue)

  /** The `InvalidArgumentException`s `saveUserVotes` throws, one per message. */
  datatype VoteError =
    | MissingField               // empty pseudo or team
    | UnknownTeam(team: string)  // team not among the configured teams
    | UnknownCountry(code: string)
    | InvalidScore(code: string) // not an integer in [0, 10]

  /** PHP's `empty()` on a string: true for "" and for "0". */
  predicate IsEmptyString(s: string)
  {
    s == "" || s == "0"
  }

  /** `is_int($score) && 0 <= $score <= 10`. */
  predicate ValidScore(v: ScoreValue)
  {
    v.Int? && 0 <= v.n <= 10
  }

  /** The check one score goes through: the country first, then the value. */
  function ItemError(item: ScoreItem, codes: set<string>): (r: Option<VoteError>)
    ensures r == None <==> item.code in codes && ValidScore(item.value)
    ensures r == Some(UnknownCountry(item.code)) <==> item.code !in codes
    ensures r == Some(InvalidScore(item.code)) <==> item.code in codes && !ValidScore(item.value)
  {
    if item.code !in codes then Some(UnknownCountry(item.code))
    else if !ValidScore(item.value) then Some(InvalidScore(item.code))
    else None
  }

  /** PHP array keys are unique: a submitted array names each country once. */
  ghost predicate DistinctItemCodes(items: seq<ScoreItem>)
  {
    forall i, j :: 0 <= i < j < |items| ==> items[i].code != items[j].code
  }

  /** The exception the score loop throws: the one for the first offending pair. */
  function FirstItemError(items: seq<ScoreItem>, codes: set<string>): (r: Option<VoteError>)
    ensures r.None? <==> forall i :: 0 <= i < |items| ==> ItemError(items[i], codes).None?
    ensures r.Some? ==>
              exists i :: 0 <= i < |items| && r == ItemError(items[i], codes)
                && forall j :: 0 <= j < i ==> ItemError(items[j], codes).None?
  {
    if items == [] then None
    else if ItemError(items[0], codes).Some? then ItemError(items[0], codes)
    else
      var r := FirstItemError(items[1..], codes);
      assert forall i :: 0 <= i < |items[1..]| ==> items[1..][i] == items[i + 1];
      if r.Some? then
        var i :| 0 <= i < |items[1..]| && r == ItemError(items[1..][i], codes)
                 && forall j :: 0 <= j < i ==> ItemError(items[1..][j], codes).None?;
        assert forall j :: 0 <= j < i + 1 ==> ItemError(items[j], codes).None? by {
          forall j | 0 <= j < i + 1 ensures ItemError(items[j], codes).None? {
            if j > 0 { assert items[j] == items[1..][j - 1]; }
          }
        }
        r
      else r
  }

  /** Every exception `saveUserVotes` can throw before touching the store, in the order it checks. */
  function ValidationError(pseudo: string, team: string, items: seq<ScoreItem>,
                           teams: seq<string>, codes: set<string>): (r: Option<VoteError>)
    ensures r == Some(MissingField) <==> IsEmptyString(pseudo) || IsEmptyString(team)
    ensures r == Some(UnknownTeam(team)) <==>
              !IsEmptyString(pseudo) && !IsEmptyString(team) && team !in teams
    ensures r.None? <==>
              !IsEmptyString(pseudo) && !IsEmptyString(team) && team in teams
              && forall i :: 0 <= i < |items| ==> items[i].code in codes && ValidScore(items[i].value)
    ensures !IsEmptyString(pseudo) && !IsEmptyString(team) && team in teams ==> r == FirstItemError(items, codes)
  {
    if IsEmptyString(pseudo) || IsEmptyString(team) then Some(MissingField)
    else if team !in teams then Some(UnknownTeam(team))
    else FirstItemError(items, codes)
  }

  /** The score loop of `saveUserVotes`: stops at the first pair that fails its check. */
  method CheckScores(items: seq<ScoreItem>, codes: set<string>) returns (err: Option<VoteError>)
    ensures err == FirstItemError(items, codes)
  {
    var i := 0;
    while i < |items|
      invariant 0 <= i <= |items|
      invariant FirstItemError(items, codes) == FirstItemError(items[i..], codes)
    {
      assert items[i..][1..] == items[i + 1..];
      var e := ItemError(items[i], codes);
      if e.Some? {
        return e;
      }
      i := i + 1;
    }
    return None;
  }

  /** The submitted scores as an array of integers, once they have all passed validation. */
  function ToScores(items: seq<ScoreItem>): (r: map<string, int>)
    requires forall i :: 0 <= i < |items| ==> items[i].value.Int?
    requires DistinctItemCodes(items)
    ensures r.Keys == set i | 0 <= i < |items| :: items[i].code
    ensures forall i :: 0 <= i < |items| ==> r[items[i].code] == items[i].value.n
  {
    if items == [] then map[]
    else
      var init := items[..|items| - 1];
      var last := items[|items| - 1];
      var m := ToScores(init);
      assert forall i :: 0 <= i < |init| ==> init[i] == items[i];
      m[last.code := last.value.n]
  }

  /**
   * `array_merge($existingScores, $scores)` on string keys: every submitted
   * country takes its new score, every other stored country keeps its old one.
   */
  function Merge(existing: map<string, int>, incoming: map<string, int>): (r: map<string, int>)
    ensures r.Keys == existing.Keys + incoming.Keys
    ensures forall c :: c in incoming ==> r[c] == incoming[c]
    ensures forall c :: c in existing && c !in incoming ==> r[c] == existing[c]
  {
    existing + incoming
  }

  /** The ballot `saveUserVotes` writes for `pseudo`: the new team and the merged scores. */
  function Ballot(d: Doc, pseudo: string, team: string, items: seq<ScoreItem>): (r: UserVotes)
    requires forall i :: 0 <= i < |items| ==> items[i].value.Int?
    requires DistinctItemCodes(items)
    ensures r.team == Some(team)
    ensures forall i :: 0 <= i < |items| ==> items[i].code in r.scores && r.scores[items[i].code] == items[i].value.n
    ensures forall u, c :: Lookup(d, pseudo) == Some(u) && c in u.scores ==>
              c in r.scores && (r.scores[c] == u.scores[c] || exists i :: 0 <= i < |items| && items[i].code == c)
    ensures forall c :: c in r.scores ==>
              (exists i :: 0 <= i < |items| && items[i].code == c) || c in ExistingScores(d, pseudo)
  {
    UserVotes(Some(team), Merge(ExistingScores(d, pseudo), ToScores(items)))
  }

  /**
   * Submitting the same ballot twice leaves the same document as submitting
   * it once: a resubmission changes nothing.
   */
  lemma ResubmitIsIdempotent(d: Doc, pseudo: string, team: string, items: seq<ScoreItem>)
    requires forall i :: 0 <= i < |items| ==> items[i].value.Int?
    requires DistinctItemCodes(items)
    ensures var once := Store(d, pseudo, Ballot(d, pseudo, team, items));
            Store(once, pseudo, Ballot(once, pseudo, team, items)) == once
  {
    var b := Ballot(d, pseudo, team, items);
    var once := Store(d, pseudo, b);
    StoreLookup(d, pseudo, b, pseudo);
    assert Merge(b.scores, ToScores(items)) == b.scores;
    assert Ballot(once, pseudo, team, items) == b;
    StoreTwice(d, pseudo, b);
  }

  /** Every stored score is for a country among `codes`. */
  ghost predicate CodesConfigured(d: Doc, codes: set<string>)
  {
    forall i :: 0 <= i < |d| ==> d[i].votes.scores.Keys <= codes
  }

  /**
   * A score the accepted ballot holds was either submitted in this request or
   * already stored for the pseudo, and then it is the stored value.
   */
  lemma BallotScoreOrigin(d: Doc, pseudo: string, team: string, items: seq<ScoreItem>, c: string)
    requires forall i :: 0 <= i < |items| ==> items[i].value.Int?
    requires DistinctItemCodes(items)
    requires c in Ballot(d, pseudo, team, items).scores
    ensures || (exists i :: 0 <= i < |items| && items[i].code == c && Ballot(d, pseudo, team, items).scores[c] == items[i].value.n)
            || (exists j :: 0 <= j < |d| && d[j].pseudo == pseudo && c in d[j].votes.scores
                            && Ballot(d, pseudo, team, items).scores[c] == d[j].votes.scores[c])
  {
    var b := Ballot(d, pseudo, team, items);
    if !exists i :: 0 <= i < |items| && items[i].code == c {
      assert c in ExistingScores(d, pseudo);
      var u := Lookup(d, pseudo).value;
      var j :| 0 <= j < |d| && d[j] == Entry(pseudo, u);
      assert b.scores[c] == u.scores[c];
    }
  }

  /** Saving an accepted ballot keeps every stored score an integer in [0, 10]. */
  lemma SavePreservesRange(d: Doc, pseudo: string, team: string, items: seq<ScoreItem>,
                           teams: seq<string>, codes: set<string>)
    requires Ranking.ScoresInRange(d) && DistinctItemCodes(items)
    requires ValidationError(pseudo, team, items, teams, codes).None?
    ensures Ranking.ScoresInRange(Store(d, pseudo, Ballot(d, pseudo, team, items)))
  {
    var b := Ballot(d, pseudo, team, items);
    var r := Store(d, pseudo, b);
    forall i, c | 0 <= i < |r| && c in r[i].votes.scores
      ensures 0 <= r[i].votes.scores[c] <= 10
    {
      if i >= |d| || r[i] != d[i] {
        assert r[i].votes == b;
        BallotScoreOrigin(d, pseudo, team, items, c);
      }
    }
  }

  /** Saving an accepted ballot keeps every stored score for a configured country. */
  lemma SavePreservesConfigured(d: Doc, pseudo: string, team: string, items: seq<ScoreItem>,
                                teams: seq<string>, codes: set<string>)
    requires CodesConfigured(d, codes) && DistinctItemCodes(items)
    requires ValidationError(pseudo, team, items, teams, codes).None?
    ensures CodesConfigured(Store(d, pseudo, Ballot(d, pseudo, team, items)), codes)
  {
    var b := Ballot(d, pseudo, team, items);
    var r := Store(d, pseudo, b);
    forall i, c | 0 <= i < |r| && c in r[i].votes.scores
      ensures c in codes
    {
      if i >= |d| || r[i] != d[i] {
        assert r[i].votes == b;
        BallotScoreOrigin(d, pseudo, team, items, c);
      }
    }
  }

  /**
   * The vote service. `file` is what `votes.json` holds (a missing file
   * reads as no votes); `cache` is the in-memory copy, absent until the
   * first access loads it.
   */
  class VoteService {
    const teams: seq<string>
    const performances: seq<Performance>
    var file: Doc
    var cache: Option<Doc>

    ghost predicate Valid()
      reads this
    {
      && DistinctCodes(performances)
      && DistinctPseudos(file)
      && (cache.Some? ==> DistinctPseudos(cache.value))
    }

    /** The votes the next `getAllVotes` returns: the cached copy, or what loading the file gives. */
    function Current(): Doc
      reads this
    {
      if cache.Some? then cache.value else file
    }

    constructor (teams: seq<string>, performances: seq<Performance>, file: Doc)
      requires DistinctCodes(performances) && DistinctPseudos(file)
      ensures Valid()
      ensures this.teams == teams && this.performances == performances
      ensures this.file == file && cache == None
    {
      this.teams := teams;
      this.performances := performances;
      this.file := file;
      cache := None;
    }

    /** `loadVotes`: reads the file into the cache. */
    method LoadVotes()
      requires Valid()
      modifies this`cache
      ensures Valid()
      ensures cache == Some(file)
    {
      cache := Some(file);
    }

    /** `getAllVotes`: loads on first use, then answers from the cache. */
    method GetAllVotes() returns (votes: Doc)
      requires Valid()
      modifies this`cache
      ensures Valid()
      ensures votes == old(Current()) && cache == Some(votes)
    {
      if cache.None? {
        LoadVotes();
      }
      votes := cache.value;
    }

    /** `getUserVotes`: the stored ballot of `pseudo`, or none. */
    method GetUserVotes(pseudo: string) returns (r: Option<UserVotes>)
      requires Valid()
      modifies this`cache
      ensures Valid()
      ensures cache == Some(old(Current()))
      ensures r == Lookup(old(Current()), pseudo)
    {
      var votes := GetAllVotes();
      r := Lookup(votes, pseudo);
    }

    /**
     * `saveUserVotes`. A failed validation throws (here: `Err`) and leaves
     * both the cache and the file alone. Otherwise the merged ballot replaces
     * the user's entry in the cache, and the result is whether the file lock
     * was obtained; only then is the file rewritten. The cache keeps the new
     * ballot even when the lock was refused.
     */
    method SaveUserVotes(pseudo: string, team: string, items: seq<ScoreItem>, lockAcquired: bool)
      returns (r: Result<bool, VoteError>)
      requires Valid()
      requires DistinctItemCodes(items)
      modifies this
      ensures Valid()
      ensures var err := ValidationError(pseudo, team, items, teams, Codes(performances));
              err.Some? ==> r == Err(err.value) && cache == old(cache) && file == old(file)
      ensures var err := ValidationError(pseudo, team, items, teams, Codes(performances));
              err.None? ==>
                && r == Ok(lockAcquired)
                && cache == Some(Store(old(Current()), pseudo, Ballot(old(Current()), pseudo, team, items)))
                && file == (if lockAcquired then cache.value else old(file))
    ensures Ranking.ScoresInRange(old(Current())) ==> Ranking.ScoresInRange(Current())
    ensures CodesConfigured(old(Current()), Codes(performances)) ==> CodesConfigured(Current(), Codes(performances))
    {
      if IsEmptyString(pseudo) || IsEmptyString(team) {
        return Err(MissingField);
      }
      if team !in teams {
        return Err(UnknownTeam(team));
      }
      var err := CheckScores(items, Codes(performances));
      if err.Some? {
        return Err(err.value);
      }
      if cache.None? {
        LoadVotes();
      }
      var votes := cache.value;
      var ballot := Ballot(votes, pseudo, team, items);
      StoreKeepsDistinct(votes, pseudo, ballot);
      if Ranking.ScoresInRange(votes) {
        SavePreservesRange(votes, pseudo, team, items, teams, Codes(performances));
      }
      if CodesConfigured(votes, Codes(performances)) {
        SavePreservesConfigured(votes, pseudo, team, items, teams, Codes(performances));
      }
      cache := Some(Store(votes, pseudo, ballot));
      var ok := SaveVotes(lockAcquired);
      return Ok(ok);
    }

    /** `saveVotes`: writes the cache to the file when the lock is obtained. */
    method SaveVotes(lockAcquired: bool) returns (ok: bool)
      requires Valid() && cache.Some?
      modifies this`file
      ensures Valid()
      ensures ok == lockAcquired
      ensures file == if ok then cache.value else old(file)
    {
      if !lockAcquired {
        return false;
      }
      file := cache.value;
      return true;
    }

    /** `calculateRanking` on the current votes. */
    method CalculateRanking() returns (ranking: seq<Ranking.RankEntry>)
      requires Valid()
      modifies this`cache
      ensures Valid() && cache == Some(old(Current()))
      ensures ranking == SortBy(Ranking.Entries(old(Current()), performances, None), Ranking.AverageOf, Descending)
    {
      var votes := GetAllVotes();
      ranking := Ranking.CalculateRanking(votes, performances);
    }

    /** `getTeamRanking` on the current votes. */
    method GetTeamRanking(team: string) returns (ranking: seq<Ranking.RankEntry>)
      requires Valid()
      modifies this`cache
      ensures Valid() && cache == Some(old(Current()))
      ensures ranking == SortBy(Ranking.Entries(old(Current()), performances, Some(team)), Ranking.AverageOf, Descending)
    {
      var votes := GetAllVotes();
      ranking := Ranking.GetTeamRanking(votes, performances, team);
    }

    /** `getHarshestVoter` on the current votes. */
    method GetHarshestVoter(team: Option<string>) returns (r: Option<Statistics.VoterStat>)
      requires Valid()
      modifies this`cache
      ensures Valid() && cache == Some(old(Current()))
      ensures r == if |old(Current())| == 0 then None
                   else Statistics.Head(SortBy(Statistics.VoterStats(old(Current()), team), Statistics.VoterAverage, Ascending))
    {
      var votes := GetAllVotes();
      r := Statistics.ExtremeVoter(votes, team, Ascending);
    }

    /** `getGenerousVoter` on the current votes. */
    method GetGenerousVoter(team: Option<string>) returns (r: Option<Statistics.VoterStat>)
      requires Valid()
      modifies this`cache
      ensures Valid() && cache == Some(old(Current()))
      ensures r == if |old(Current())| == 0 then None
                   else Statistics.Head(SortBy(Statistics.VoterStats(old(Current()), team), Statistics.VoterAverage, Descending))
    {
      var votes := GetAllVotes();
      r := Statistics.ExtremeVoter(votes, team, Descending);
    }

    /** `getMostDivisiveCountry` on the current votes. */
    method GetMostDivisiveCountry(team: Option<string>) returns (r: Option<Statistics.CountryStat>)
      requires Valid()
      modifies this`cache
      ensures Valid() && cache == Some(old(Current()))
      ensures r == if |old(Current())| == 0 || |performances| == 0 then None
                   else Statistics.Head(SortBy(Statistics.CountryStats(old(Current()), performances, team),
                                               Statistics.CountryVariance, Descending))
    {
      var votes := GetAllVotes();
      r := Statistics.ExtremeCountry(votes, performances, team, Descending);
    }

    /** `getMostConsensualCountry` on the current votes. */
    method GetMostConsensualCountry(team: Option<string>) returns (r: Option<Statistics.CountryStat>)
      requires Valid()
      modifies this`cache
      ensures Valid() && cache == Some(old(Current()))
      ensures r == if |old(Current())| == 0 || |performances| == 0 then None
                   else Statistics.Head(SortBy(Statistics.CountryStats(old(Current()), performances, team),
                                               Statistics.CountryVariance, Ascending))
    {
      var votes := GetAllVotes();
      r := Statistics.ExtremeCountry(votes, performances, team, Ascending);
    }
  }
}
