// Shared vocabulary of the tennis model: players, the match parameters and
// the scoring constants of `TennisMatch`.
module Tennis {

  datatype Player = A | B

  datatype Option<T> = None | Some(value: T)

  /** The player who is not `p`. */
  function Other(p: Player): (q: Player)
    ensures q != p
  {
    if p == A then B else A
  }

  /** The name the source uses for a player ("a" or "b"). */
  function PlayerName(p: Player): string
  {
    if p == A then "a" else "b"
  }

  /** The two point probabilities of a match, both from A's point of view. */
  datatype Params = Params(onServe: real, returning: real)

  predicate InUnit(x: real)
  {
    0.0 <= x <= 1.0
  }

  predicate ValidParams(p: Params)
  {
    InUnit(p.onServe) && InUnit(p.returning)
  }

  /** The probability that A wins a point when `server` serves. */
  function PointProb(p: Params, server: Player): (q: real)
    ensures ValidParams(p) ==> InUnit(q)
  {
    if server == A then p.onServe else p.returning
  }

  /** The same match seen from B's side: B's chances on and off serve. */
  function Mirror(p: Params): (m: Params)
    ensures ValidParams(p) ==> ValidParams(m)
  {
    Params(1.0 - p.returning, 1.0 - p.onServe)
  }

  /** The score fields of `TennisMatch`: points in the current game (or
      tiebreak), games in the current set, and sets. */
  datatype Score = Score(aPoints: nat, bPoints: nat, aGames: nat, bGames: nat, aSets: nat, bSets: nat)

  /** The six probability fields of `TennisMatch`: A's and B's chances of the
      current game, set and match. */
  datatype Probs = Probs(aGame: real, bGame: real, aSet: real, bSet: real, aMatch: real, bMatch: real)

  const NUMSETS: nat := 3
  const NUMGAMES: nat := 6
  const NUMPOINTS: nat := 4
  const NUMPOINTSTIEBREAK: nat := 7
  const RECURSIVECAP: nat := 20

  /** B's chance of winning a point in the mirrored match is A's chance of losing it. */
  lemma MirrorPointProb(p: Params, server: Player)
    ensures PointProb(Mirror(p), Other(server)) == 1.0 - PointProb(p, server)
    ensures Mirror(Mirror(p)) == p
  {
  }

  /** A convex combination of two values in [0,1] stays in [0,1]. */
  lemma ConvexInUnit(q: real, x: real, y: real)
    requires InUnit(q) && InUnit(x) && InUnit(y)
    ensures InUnit(q * x + (1.0 - q) * y)
  {
    assert 0.0 <= q * x <= q;
    assert 0.0 <= (1.0 - q) * y <= 1.0 - q;
  }
}
