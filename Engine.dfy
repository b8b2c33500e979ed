// The probability engine of `TennisMatch`: the four forward recurrences
// `predictGame`, `predictTiebreaker`, `predictSet` and `predictMatch`, as pure
// functions over `real`. Each gives the probability that A wins the unit that
// is in progress, from a score and the player about to serve.
//
// Each recurrence ends its `decreases` clause with `p`, which never changes:
// it stops the verifier from evaluating a recurrence outright whenever the
// score arguments are literals, which would unfold the whole game, set or
// tiebreak tree.
module Engine {
  import opened Tennis

  /** `x` has won a game against `y` under advantage scoring. */
  predicate LeadsGame(x: nat, y: nat)
  {
    x >= NUMPOINTS && x > y + 1
  }

  /** `x` has won a tiebreak against `y`: seven points and two clear. */
  predicate LeadsTiebreak(x: nat, y: nat)
  {
    x >= NUMPOINTSTIEBREAK && x > y + 1
  }

  /** `x` has won a set against `y` on games: six games and two clear. */
  predicate LeadsSet(x: nat, y: nat)
  {
    x >= NUMGAMES && x > y + 1
  }

  /** 1 when A is the server, 0 otherwise: the serves-next figure of a finished set. */
  function AServes(server: Player): (r: real)
    ensures r == 1.0 <==> server == A
  {
    if server == A then 1.0 else 0.0
  }

  /** The weighted sum of the two continuations after a point or a game that A
      wins with chance `q`. */
  function Mix(q: real, win: real, lose: real): real
  {
    q * win + (1.0 - q) * lose
  }

  /** `Mix` written out, with its factors in either order. */
  lemma MixExpand(q: real, win: real, lose: real)
    ensures q * win + (1.0 - q) * lose == Mix(q, win, lose)
    ensures win * q + lose * (1.0 - q) == Mix(q, win, lose)
  {
  }

  lemma MixInUnit(q: real, win: real, lose: real)
    requires InUnit(q) && InUnit(win) && InUnit(lose)
    ensures InUnit(Mix(q, win, lose))
  {
    ConvexInUnit(q, win, lose);
  }

  /** The chance that A wins the game from `a`-`b` with `server` serving.
      Past RECURSIVECAP points the player beyond the cap is given the game. */
  function GameProb(p: Params, server: Player, a: nat, b: nat): (r: real)
    ensures ValidParams(p) ==> InUnit(r)
    decreases 42 - a - b, p
  {
    if LeadsGame(a, b) || a > RECURSIVECAP then 1.0
    else if LeadsGame(b, a) || b > RECURSIVECAP then 0.0
    else
      var win := GameProb(p, server, a + 1, b);
      var lose := GameProb(p, server, a, b + 1);
      if ValidParams(p) then
        MixInUnit(PointProb(p, server), win, lose);
        Mix(PointProb(p, server), win, lose)
      else
        Mix(PointProb(p, server), win, lose)
  }

  /** The tiebreak serving rotation: the server changes after the first point
      and then after every second point. `firstServe` is true when the next
      point is the first of the current server's pair. */
  function TiebreakRotate(server: Player, firstServe: bool): (r: (Player, bool))
    ensures r.1 == !firstServe
    ensures r.0 == server <==> firstServe
  {
    if firstServe then (server, false) else (Other(server), true)
  }

  /** The server and first-serve flag before point `n` (counting from 0) of a
      tiebreak that `start` opens, stepping `TiebreakRotate` once per point. */
  function TiebreakTurn(start: Player, n: nat): (r: (Player, bool))
    ensures r.1 == (n % 2 == 1)
  {
    if n == 0 then (start, false) else
      var prev := TiebreakTurn(start, n - 1);
      TiebreakRotate(prev.0, prev.1)
  }

  /** The serving state before point `n` of a tiebreak that `start` opens,
      in closed form: the flag is set exactly before odd-numbered points, and
      the server has changed an odd number of times exactly when
      `(n + 1) / 2` is odd. */
  predicate TiebreakServing(start: Player, n: nat, server: Player, firstServe: bool)
  {
    firstServe == (n % 2 == 1) && server == (if ((n + 1) / 2) % 2 == 1 then Other(start) else start)
  }

  /** The midpoint the tiebreak recurrence uses once both sides are past seven. */
  function Midpoint(p: Params): (r: real)
    ensures ValidParams(p) ==> InUnit(r)
  {
    (p.onServe + p.returning) / 2.0
  }

  /** The chance that A wins the tiebreak from `a`-`b`. Every non-terminal
      position has `a + b <= 15`, which bounds the recursion. */
  function TiebreakProb(p: Params, server: Player, firstServe: bool, a: nat, b: nat): (r: real)
    ensures ValidParams(p) ==> InUnit(r)
    decreases 16 - a - b, p
  {
    if LeadsTiebreak(a, b) then 1.0
    else if LeadsTiebreak(b, a) then 0.0
    else if a > NUMPOINTSTIEBREAK && b > NUMPOINTSTIEBREAK then Midpoint(p)
    else
      var next := TiebreakRotate(server, firstServe);
      var win := TiebreakProb(p, next.0, next.1, a + 1, b);
      var lose := TiebreakProb(p, next.0, next.1, a, b + 1);
      if ValidParams(p) then
        MixInUnit(PointProb(p, server), win, lose);
        Mix(PointProb(p, server), win, lose)
      else
        Mix(PointProb(p, server), win, lose)
  }

  /** The pair (chance that A wins the set, chance that A serves the game after
      the set) from `a`-`b` games with `server` about to serve. Games are at most
      seven: from 8-8 the source recursion never reaches a terminal case. */
  function SetProb(p: Params, server: Player, a: nat, b: nat): (r: (real, real))
    requires a <= 7 && b <= 7
    ensures ValidParams(p) ==> InUnit(r.0) && InUnit(r.1)
    decreases 14 - a - b, p
  {
    if LeadsSet(a, b) then (1.0, AServes(server))
    else if LeadsSet(b, a) then (0.0, AServes(server))
    else if a == 7 then (1.0, AServes(server))
    else if b == 7 then (0.0, AServes(server))
    else if a == NUMGAMES && b == NUMGAMES then
      (TiebreakProb(p, server, false, 0, 0), AServes(server))
    else
      var g := GameProb(p, server, 0, 0);
      var win := SetProb(p, Other(server), a + 1, b);
      var lose := SetProb(p, Other(server), a, b + 1);
      if ValidParams(p) then
        MixInUnit(g, win.0, lose.0);
        MixInUnit(g, win.1, lose.1);
        (Mix(g, win.0, lose.0), Mix(g, win.1, lose.1))
      else
        (Mix(g, win.0, lose.0), Mix(g, win.1, lose.1))
  }

  /** The four-way split the match recurrence and the live forecast share: A
      wins or loses the set (chance `s`) and serves or receives next (chance
      `n`), and each branch continues with its own match probability. */
  function Blend(s: real, n: real, winServes: real, loseServes: real,
                 winReceives: real, loseReceives: real): (r: real)
    ensures (InUnit(s) && InUnit(n) && InUnit(winServes) && InUnit(loseServes)
             && InUnit(winReceives) && InUnit(loseReceives)) ==> InUnit(r)
  {
    if InUnit(s) && InUnit(n) && InUnit(winServes) && InUnit(loseServes)
       && InUnit(winReceives) && InUnit(loseReceives) then
      var serves := s * winServes + (1.0 - s) * loseServes;
      var receives := s * winReceives + (1.0 - s) * loseReceives;
      ConvexInUnit(s, winServes, loseServes);
      ConvexInUnit(s, winReceives, loseReceives);
      ConvexInUnit(n, serves, receives);
      assert n * serves == winServes * s * n + loseServes * (1.0 - s) * n;
      assert (1.0 - n) * receives == winReceives * s * (1.0 - n) + loseReceives * (1.0 - s) * (1.0 - n);
      winServes * s * n + loseServes * (1.0 - s) * n
        + winReceives * s * (1.0 - n) + loseReceives * (1.0 - s) * (1.0 - n)
    else
      winServes * s * n + loseServes * (1.0 - s) * n
        + winReceives * s * (1.0 - n) + loseReceives * (1.0 - s) * (1.0 - n)
  }

  /** The chance that A wins the match (first to NUMSETS sets) from `a`-`b`
      sets with `server` about to serve the first game of the next set. */
  function MatchProb(p: Params, server: Player, a: nat, b: nat): (r: real)
    ensures ValidParams(p) ==> InUnit(r)
    decreases 6 - a - b, p
  {
    if a >= NUMSETS then 1.0
    else if b >= NUMSETS then 0.0
    else
      var s := SetProb(p, server, 0, 0);
      Blend(s.0, s.1,
            MatchProb(p, A, a + 1, b), MatchProb(p, A, a, b + 1),
            MatchProb(p, B, a + 1, b), MatchProb(p, B, a, b + 1))
  }
}
