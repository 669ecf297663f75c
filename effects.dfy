/** The calls the page handlers make into the two reward contexts. A handler is modelled as
    returning the calls it issues, in order, rather than as invoking the ledgers itself. */
module Effects {
  import opened Prelude
  import Gamification

  datatype Call =
    | AddXP(amount: int, reason: string)
    | EarnCoins(baseReward: int, sourceType: string, reason: string, postId: Option<string>)
    | MarkPostRead(readPostId: string)

  /** XP the calls ask for: every `addXP` amount, plus the 10 XP `markPostRead` adds itself. */
  function XPRequested(calls: seq<Call>): int {
    if calls == [] then 0
    else
      (match calls[0]
       case AddXP(a, _) => a
       case MarkPostRead(_) => Gamification.ReadXP
       case EarnCoins(_, _, _, _) => 0)
      + XPRequested(calls[1..])
  }

  /** The base rewards passed to `earnCoins`. */
  function CoinsRequested(calls: seq<Call>): int {
    if calls == [] then 0
    else (if calls[0].EarnCoins? then calls[0].baseReward else 0) + CoinsRequested(calls[1..])
  }

  /** How many times the read counter is bumped. */
  function ReadsMarked(calls: seq<Call>): nat {
    if calls == [] then 0 else (if calls[0].MarkPostRead? then 1 else 0) + ReadsMarked(calls[1..])
  }

  /** The three tallies of two calls in a row. */
  lemma TalliesOfPair(a: Call, b: Call)
    ensures XPRequested([a, b]) == XPRequested([a]) + XPRequested([b])
    ensures CoinsRequested([a, b]) == CoinsRequested([a]) + CoinsRequested([b])
    ensures ReadsMarked([a, b]) == ReadsMarked([a]) + ReadsMarked([b])
  {
    assert [a, b][1..] == [b];
    assert [a][1..] == [] && [b][1..] == [];
  }
}
