/** The configuration the core consumes: the ordered performance catalogue and the team list. */
module Config {

  /** One configured performance, keyed by its country code. */
  datatype Performance = Performance(code: string, name: string, artist: string, song: string, flag: string)

  /** The catalogue is a JSON object keyed by country code, so no code appears twice. */
  ghost predicate DistinctCodes(perfs: seq<Performance>) {
    forall i, j :: 0 <= i < j < |perfs| ==> perfs[i].code != perfs[j].code
  }

  /** The configured country codes (`array_keys` of the catalogue). */
  function Codes(perfs: seq<Performance>): set<string> {
    set i | 0 <= i < |perfs| :: perfs[i].code
  }
}
