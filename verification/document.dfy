/**
 * The vote document: the `votes` object of `votes.json`, a PHP ordered
 * array from pseudo to that user's ballot. It is kept as a sequence of
 * entries so that the insertion order PHP iterates in is part of the model;
 * distinct pseudos stand for the uniqueness of array keys.
 */
module Document {
  import opened Wrappers

  /**
   * One user's ballot. `team` is absent when the stored ballot has none; a
   * missing or non-array `scores` reads as the empty map, which every
   * consumer treats the same way.
   */
  datatype UserVotes = UserVotes(team: Option<string>, scores: map<string, int>)

  datatype Entry = Entry(pseudo: string, votes: UserVotes)

  type Doc = seq<Entry>

  predicate HasPseudo(d: Doc, pseudo: string)
  {
    exists i :: 0 <= i < |d| && d[i].pseudo == pseudo
  }

  ghost predicate DistinctPseudos(d: Doc)
  {
    forall i, j :: 0 <= i < j < |d| ==> d[i].pseudo != d[j].pseudo
  }

  /** `$votes[$pseudo] ?? null`. */
  function Lookup(d: Doc, pseudo: string): (r: Option<UserVotes>)
    ensures r.None? <==> !HasPseudo(d, pseudo)
    ensures r.Some? ==> exists i :: 0 <= i < |d| && d[i] == Entry(pseudo, r.value)
  {
    if d == [] then None
    else if d[0].pseudo == pseudo then Some(d[0].votes)
    else
      var r := Lookup(d[1..], pseudo);
      assert forall i :: 0 <= i < |d[1..]| ==> d[1..][i] == d[i + 1];
      r
  }

  /**
   * `$votes[$pseudo] = $votes`: an existing entry is overwritten where it
   * stands, a new pseudo is appended at the end.
   */
  function Store(d: Doc, pseudo: string, v: UserVotes): (r: Doc)
    ensures HasPseudo(d, pseudo) ==>
              |r| == |d| &&
              forall i :: 0 <= i < |d| ==> r[i].pseudo == d[i].pseudo && (r[i] == d[i] || r[i].votes == v)
    ensures |d| <= |r| && forall i :: 0 <= i < |d| && d[i].pseudo != pseudo ==> r[i] == d[i]
    ensures !HasPseudo(d, pseudo) ==> r == d + [Entry(pseudo, v)]
    ensures forall i :: 0 <= i < |d| && d[i].pseudo == pseudo && (forall j :: 0 <= j < i ==> d[j].pseudo != pseudo) ==>
              r[i] == Entry(pseudo, v)
  {
    if d == [] then [Entry(pseudo, v)]
    else if d[0].pseudo == pseudo then [Entry(pseudo, v)] + d[1..]
    else
      var rest := Store(d[1..], pseudo, v);
      assert HasPseudo(d, pseudo) ==> HasPseudo(d[1..], pseudo) by {
        if HasPseudo(d, pseudo) {
          var i :| 0 <= i < |d| && d[i].pseudo == pseudo;
          assert d[1..][i - 1].pseudo == pseudo;
        }
      }
      [d[0]] + rest
  }

  /** After the store, the pseudo reads back the stored ballot and every other pseudo reads as before. */
  lemma {:induction false} StoreLookup(d: Doc, pseudo: string, v: UserVotes, q: string)
    ensures Lookup(Store(d, pseudo, v), q) == if q == pseudo then Some(v) else Lookup(d, q)
  {
    if d != [] && d[0].pseudo != pseudo {
      StoreLookup(d[1..], pseudo, v, q);
      assert Store(d, pseudo, v)[1..] == Store(d[1..], pseudo, v);
    }
  }

  /** The store never introduces a second entry for a pseudo. */
  lemma {:induction false} StoreKeepsDistinct(d: Doc, pseudo: string, v: UserVotes)
    requires DistinctPseudos(d)
    ensures DistinctPseudos(Store(d, pseudo, v))
  {
  }

  /** The scores already stored for `pseudo`, or none. */
  function ExistingScores(d: Doc, pseudo: string): (r: map<string, int>)
    ensures !HasPseudo(d, pseudo) ==> r == map[]
    ensures forall u :: Lookup(d, pseudo) == Some(u) ==> r == u.scores
  {
    match Lookup(d, pseudo)
    case None => map[]
    case Some(u) => u.scores
  }

  /** Storing the same ballot twice leaves the document as storing it once. */
  lemma {:induction false} StoreTwice(d: Doc, pseudo: string, v: UserVotes)
    ensures Store(Store(d, pseudo, v), pseudo, v) == Store(d, pseudo, v)
  {
    if d != [] && d[0].pseudo != pseudo {
      StoreTwice(d[1..], pseudo, v);
      assert Store(d, pseudo, v)[1..] == Store(d[1..], pseudo, v);
    }
  }
}
