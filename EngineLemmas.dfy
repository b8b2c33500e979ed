// Properties of the four recurrences: decided positions, the complement
// (A's chance plus B's chance, computed from B's side, is 1), independence
// from the server when serving gives no edge, and two fixed scenarios.
module EngineLemmas {
  import opened Tennis
  import opened Engine

  // ---------------------------------------------------------------------------
  // Decided positions

  /** A won game is worth 1 to A and a lost game 0; the cap gives the game to
      whoever passed it, A first. */
  lemma GameProbDecided(p: Params, server: Player, a: nat, b: nat)
    ensures LeadsGame(a, b) || a > RECURSIVECAP ==> GameProb(p, server, a, b) == 1.0
    ensures LeadsGame(b, a) && a <= RECURSIVECAP ==> GameProb(p, server, a, b) == 0.0
    ensures b > RECURSIVECAP && a <= RECURSIVECAP ==> GameProb(p, server, a, b) == 0.0
  {
  }

  /** A decided tiebreak is worth 1 or 0; once both sides are past seven
      without a two-point lead its value is the midpoint of A's two point
      probabilities. */
  lemma TiebreakProbDecided(p: Params, server: Player, firstServe: bool, a: nat, b: nat)
    ensures LeadsTiebreak(a, b) ==> TiebreakProb(p, server, firstServe, a, b) == 1.0
    ensures LeadsTiebreak(b, a) ==> TiebreakProb(p, server, firstServe, a, b) == 0.0
    ensures (a > NUMPOINTSTIEBREAK && b > NUMPOINTSTIEBREAK && a <= b + 1 && b <= a + 1)
              ==> TiebreakProb(p, server, firstServe, a, b) == (p.onServe + p.returning) / 2.0
  {
  }

  /** At every terminal set position, and at 6-6, the serves-next figure is 1
      exactly when `server` is A; 6-6 is decided by a tiebreak that `server`
      opens with the first point of a pair. */
  lemma SetProbDecided(p: Params, server: Player, a: nat, b: nat)
    requires a <= 7 && b <= 7
    ensures (LeadsSet(a, b) || a == 7 || LeadsSet(b, a) || b == 7 || (a == 6 && b == 6))
              ==> (SetProb(p, server, a, b).1 == 1.0 <==> server == A)
    ensures LeadsSet(a, b) || (a == 7 && !LeadsSet(b, a)) ==> SetProb(p, server, a, b).0 == 1.0
    ensures LeadsSet(b, a) || (b == 7 && a < 7) ==> SetProb(p, server, a, b).0 == 0.0
    ensures a == 6 && b == 6 ==> SetProb(p, server, a, b).0 == TiebreakProb(p, server, false, 0, 0)
  {
  }

  /** A match is won at NUMSETS sets. */
  lemma MatchProbDecided(p: Params, server: Player, a: nat, b: nat)
    ensures a >= NUMSETS ==> MatchProb(p, server, a, b) == 1.0
    ensures b >= NUMSETS && a < NUMSETS ==> MatchProb(p, server, a, b) == 0.0
  {
  }

  // ---------------------------------------------------------------------------
  // Complements: the engine run for B, on the mirrored parameters, gives B the
  // chance that A does not win.

  /** A mix and its mirror image, with the complementary weight and the
      complemented continuations in swapped order, add up to 1. */
  lemma MixComplement(q: real, x: real, y: real)
    ensures Mix(q, x, y) + Mix(1.0 - q, 1.0 - y, 1.0 - x) == 1.0
  {
  }

  /** Except beyond the cap on both sides, where the source gives the game to
      A from either side, B's game probability is 1 minus A's. */
  lemma {:induction false} GameComplement(p: Params, server: Player, a: nat, b: nat)
    requires a <= RECURSIVECAP || b <= RECURSIVECAP
    ensures GameProb(p, server, a, b) + GameProb(Mirror(p), Other(server), b, a) == 1.0
    decreases 42 - a - b
  {
    if LeadsGame(a, b) || a > RECURSIVECAP || LeadsGame(b, a) || b > RECURSIVECAP {
    } else {
      GameComplement(p, server, a + 1, b);
      GameComplement(p, server, a, b + 1);
      MirrorPointProb(p, server);
      MixComplement(PointProb(p, server), GameProb(p, server, a + 1, b), GameProb(p, server, a, b + 1));
    }
  }

  /** B's tiebreak probability is 1 minus A's at every position. */
  lemma {:induction false} TiebreakComplement(p: Params, server: Player, firstServe: bool, a: nat, b: nat)
    ensures TiebreakProb(p, server, firstServe, a, b)
            + TiebreakProb(Mirror(p), Other(server), firstServe, b, a) == 1.0
    decreases 16 - a - b
  {
    if LeadsTiebreak(a, b) || LeadsTiebreak(b, a) {
    } else if a > NUMPOINTSTIEBREAK && b > NUMPOINTSTIEBREAK {
    } else {
      var next := TiebreakRotate(server, firstServe);
      assert TiebreakRotate(Other(server), firstServe) == (Other(next.0), next.1);
      TiebreakComplement(p, next.0, next.1, a + 1, b);
      TiebreakComplement(p, next.0, next.1, a, b + 1);
      MirrorPointProb(p, server);
      MixComplement(PointProb(p, server),
                    TiebreakProb(p, next.0, next.1, a + 1, b), TiebreakProb(p, next.0, next.1, a, b + 1));
    }
  }

  /** One unfolding of the set recurrence at an undecided position before 6-6. */
  lemma SetProbStep(p: Params, server: Player, a: nat, b: nat)
    requires a <= 6 && b <= 6 && !(a == 6 && b == 6) && !LeadsSet(a, b) && !LeadsSet(b, a)
    ensures SetProb(p, server, a, b)
            == (Mix(GameProb(p, server, 0, 0), SetProb(p, Other(server), a + 1, b).0, SetProb(p, Other(server), a, b + 1).0),
                Mix(GameProb(p, server, 0, 0), SetProb(p, Other(server), a + 1, b).1, SetProb(p, Other(server), a, b + 1).1))
  {
  }

  /** The complement at the positions where the set recurrence stops. */
  lemma SetComplementDecided(p: Params, server: Player, a: nat, b: nat)
    requires a <= 7 && b <= 7 && !(a == 7 && b == 7)
    requires LeadsSet(a, b) || LeadsSet(b, a) || a == 7 || b == 7 || (a == NUMGAMES && b == NUMGAMES)
    ensures SetProb(p, server, a, b).0 + SetProb(Mirror(p), Other(server), b, a).0 == 1.0
    ensures SetProb(p, server, a, b).1 + SetProb(Mirror(p), Other(server), b, a).1 == 1.0
  {
    if a == NUMGAMES && b == NUMGAMES {
      TiebreakComplement(p, server, false, 0, 0);
    }
  }

  /** Both set figures complement: B's chance of the set is 1 minus A's, and
      B's chance of serving next is 1 minus A's. 7-7 is excluded: the source
      gives that position to A from either side, and it is never reached. */
  lemma {:induction false} SetComplement(p: Params, server: Player, a: nat, b: nat)
    requires a <= 7 && b <= 7 && !(a == 7 && b == 7)
    ensures SetProb(p, server, a, b).0 + SetProb(Mirror(p), Other(server), b, a).0 == 1.0
    ensures SetProb(p, server, a, b).1 + SetProb(Mirror(p), Other(server), b, a).1 == 1.0
    decreases 14 - a - b
  {
    if LeadsSet(a, b) || LeadsSet(b, a) || a == 7 || b == 7 || (a == NUMGAMES && b == NUMGAMES) {
      SetComplementDecided(p, server, a, b);
    } else {
      assert Other(Other(server)) == server;
      var w := SetProb(p, Other(server), a + 1, b);
      var l := SetProb(p, Other(server), a, b + 1);
      var w' := SetProb(Mirror(p), server, b + 1, a);
      var l' := SetProb(Mirror(p), server, b, a + 1);
      assert w.0 + l'.0 == 1.0 && w.1 + l'.1 == 1.0 by { SetComplement(p, Other(server), a + 1, b); }
      assert l.0 + w'.0 == 1.0 && l.1 + w'.1 == 1.0 by { SetComplement(p, Other(server), a, b + 1); }
      var g := GameProb(p, server, 0, 0);
      var g' := GameProb(Mirror(p), Other(server), 0, 0);
      assert g + g' == 1.0 by { GameComplement(p, server, 0, 0); }
      MixComplement(g, w.0, l.0);
      MixComplement(g, w.1, l.1);
      SetProbStep(p, server, a, b);
      SetProbStep(Mirror(p), Other(server), b, a);
    }
  }

  /** The mirrored four-way split: the set and serve chances complement, and
      each continuation is paired with the complement of its mirror image. */
  lemma BlendMirror(s: real, n: real, m1: real, m2: real, m3: real, m4: real,
                    s': real, n': real, n1: real, n2: real, n3: real, n4: real)
    requires s' == 1.0 - s && n' == 1.0 - n
    requires n1 == 1.0 - m4 && n2 == 1.0 - m3 && n3 == 1.0 - m2 && n4 == 1.0 - m1
    ensures Blend(s, n, m1, m2, m3, m4) + Blend(s', n', n1, n2, n3, n4) == 1.0
  {
    var w1, w2, w3, w4 := s * n, (1.0 - s) * n, s * (1.0 - n), (1.0 - s) * (1.0 - n);
    assert w1 + w2 + w3 + w4 == 1.0;
    assert Blend(s, n, m1, m2, m3, m4) == m1 * w1 + m2 * w2 + m3 * w3 + m4 * w4;
    assert Blend(s', n', n1, n2, n3, n4) == n1 * w4 + n2 * w3 + n3 * w2 + n4 * w1;
  }

  /** One unfolding of the match recurrence at an undecided position. */
  lemma MatchProbStep(p: Params, server: Player, a: nat, b: nat)
    requires a < NUMSETS && b < NUMSETS
    ensures MatchProb(p, server, a, b)
            == Blend(SetProb(p, server, 0, 0).0, SetProb(p, server, 0, 0).1,
                     MatchProb(p, A, a + 1, b), MatchProb(p, A, a, b + 1),
                     MatchProb(p, B, a + 1, b), MatchProb(p, B, a, b + 1))
  {
  }

  /** The inductive step of `MatchComplement`, from the complements of the
      next set and of the four continuations. */
  lemma MatchComplementStep(p: Params, server: Player, a: nat, b: nat)
    requires a < NUMSETS && b < NUMSETS
    requires SetProb(Mirror(p), Other(server), 0, 0).0 == 1.0 - SetProb(p, server, 0, 0).0
    requires SetProb(Mirror(p), Other(server), 0, 0).1 == 1.0 - SetProb(p, server, 0, 0).1
    requires MatchProb(Mirror(p), A, b + 1, a) == 1.0 - MatchProb(p, B, a, b + 1)
    requires MatchProb(Mirror(p), A, b, a + 1) == 1.0 - MatchProb(p, B, a + 1, b)
    requires MatchProb(Mirror(p), B, b + 1, a) == 1.0 - MatchProb(p, A, a, b + 1)
    requires MatchProb(Mirror(p), B, b, a + 1) == 1.0 - MatchProb(p, A, a + 1, b)
    ensures MatchProb(p, server, a, b) + MatchProb(Mirror(p), Other(server), b, a) == 1.0
  {
    var s := SetProb(p, server, 0, 0);
    var s' := SetProb(Mirror(p), Other(server), 0, 0);
    BlendMirror(s.0, s.1, MatchProb(p, A, a + 1, b), MatchProb(p, A, a, b + 1),
                MatchProb(p, B, a + 1, b), MatchProb(p, B, a, b + 1),
                s'.0, s'.1, MatchProb(Mirror(p), A, b + 1, a), MatchProb(Mirror(p), A, b, a + 1),
                MatchProb(Mirror(p), B, b + 1, a), MatchProb(Mirror(p), B, b, a + 1));
    MatchProbStep(p, server, a, b);
    MatchProbStep(Mirror(p), Other(server), b, a);
  }

  /** The complement once one side has NUMSETS sets. */
  lemma MatchComplementDecided(p: Params, server: Player, a: nat, b: nat)
    requires (a < NUMSETS || b < NUMSETS) && !(a < NUMSETS && b < NUMSETS)
    ensures MatchProb(p, server, a, b) + MatchProb(Mirror(p), Other(server), b, a) == 1.0
  {
    MatchProbDecided(p, server, a, b);
    MatchProbDecided(Mirror(p), Other(server), b, a);
  }

  /** B's match probability is 1 minus A's whenever the match is not over for
      both players at once. */
  lemma {:induction false} MatchComplement(p: Params, server: Player, a: nat, b: nat)
    requires a < NUMSETS || b < NUMSETS
    ensures MatchProb(p, server, a, b) + MatchProb(Mirror(p), Other(server), b, a) == 1.0
    decreases NUMSETS - a, NUMSETS - b
  {
    if a < NUMSETS && b < NUMSETS {
      assert SetProb(Mirror(p), Other(server), 0, 0).0 == 1.0 - SetProb(p, server, 0, 0).0
          && SetProb(Mirror(p), Other(server), 0, 0).1 == 1.0 - SetProb(p, server, 0, 0).1
      by { SetComplement(p, server, 0, 0); }
      assert MatchProb(Mirror(p), A, b + 1, a) == 1.0 - MatchProb(p, B, a, b + 1)
      by { MatchComplement(p, B, a, b + 1); }
      assert MatchProb(Mirror(p), A, b, a + 1) == 1.0 - MatchProb(p, B, a + 1, b)
      by { MatchComplement(p, B, a + 1, b); }
      assert MatchProb(Mirror(p), B, b + 1, a) == 1.0 - MatchProb(p, A, a, b + 1)
      by { MatchComplement(p, A, a, b + 1); }
      assert MatchProb(Mirror(p), B, b, a + 1) == 1.0 - MatchProb(p, A, a + 1, b)
      by { MatchComplement(p, A, a + 1, b); }
      MatchComplementStep(p, server, a, b);
    } else {
      MatchComplementDecided(p, server, a, b);
    }
  }

  // ---------------------------------------------------------------------------
  // When A's point probability is the same on and off serve, who serves does
  // not matter for the game, the tiebreak, the set or the match.

  lemma {:induction false} GameServerFree(p: Params, s1: Player, s2: Player, a: nat, b: nat)
    requires p.onServe == p.returning
    ensures GameProb(p, s1, a, b) == GameProb(p, s2, a, b)
    decreases 42 - a - b
  {
    if LeadsGame(a, b) || a > RECURSIVECAP || LeadsGame(b, a) || b > RECURSIVECAP {
    } else {
      GameServerFree(p, s1, s2, a + 1, b);
      GameServerFree(p, s1, s2, a, b + 1);
    }
  }

  lemma {:induction false} TiebreakServerFree(p: Params, s1: Player, f1: bool, s2: Player, f2: bool, a: nat, b: nat)
    requires p.onServe == p.returning
    ensures TiebreakProb(p, s1, f1, a, b) == TiebreakProb(p, s2, f2, a, b)
    decreases 16 - a - b
  {
    if LeadsTiebreak(a, b) || LeadsTiebreak(b, a) || (a > NUMPOINTSTIEBREAK && b > NUMPOINTSTIEBREAK) {
    } else {
      var n1 := TiebreakRotate(s1, f1);
      var n2 := TiebreakRotate(s2, f2);
      TiebreakServerFree(p, n1.0, n1.1, n2.0, n2.1, a + 1, b);
      TiebreakServerFree(p, n1.0, n1.1, n2.0, n2.1, a, b + 1);
    }
  }

  lemma {:induction false} SetServerFree(p: Params, s1: Player, s2: Player, a: nat, b: nat)
    requires p.onServe == p.returning && a <= 7 && b <= 7
    ensures SetProb(p, s1, a, b).0 == SetProb(p, s2, a, b).0
    decreases 14 - a - b
  {
    if LeadsSet(a, b) || LeadsSet(b, a) || a == 7 || b == 7 {
    } else if a == NUMGAMES && b == NUMGAMES {
      TiebreakServerFree(p, s1, false, s2, false, 0, 0);
    } else {
      GameServerFree(p, s1, s2, 0, 0);
      SetServerFree(p, Other(s1), Other(s2), a + 1, b);
      SetServerFree(p, Other(s1), Other(s2), a, b + 1);
    }
  }

  /** A finished match has the same value whoever would serve. */
  lemma MatchDecidedServerFree(p: Params, s1: Player, s2: Player, a: nat, b: nat)
    requires !(a < NUMSETS && b < NUMSETS)
    ensures MatchProb(p, s1, a, b) == MatchProb(p, s2, a, b)
  {
  }

  /** When both continuations agree on who serves next, the serve split drops out. */
  lemma BlendIgnoresServe(s: real, n: real, x: real, y: real)
    ensures Blend(s, n, x, y, x, y) == Mix(s, x, y)
  {
  }

  /** The serve split drops out of two blends whose set chances agree and
      whose continuations do not depend on who serves. */
  lemma BlendServeFree(s1: real, n1: real, s2: real, n2: real, x: real, y: real)
    requires s1 == s2
    ensures Blend(s1, n1, x, y, x, y) == Blend(s2, n2, x, y, x, y)
  {
    BlendIgnoresServe(s1, n1, x, y);
    BlendIgnoresServe(s2, n2, x, y);
  }

  lemma {:induction false} MatchServerFree(p: Params, s1: Player, s2: Player, a: nat, b: nat)
    requires p.onServe == p.returning
    ensures MatchProb(p, s1, a, b) == MatchProb(p, s2, a, b)
    decreases NUMSETS - a, NUMSETS - b
  {
    if a < NUMSETS && b < NUMSETS {
      assert MatchProb(p, B, a + 1, b) == MatchProb(p, A, a + 1, b) by { MatchServerFree(p, B, A, a + 1, b); }
      assert MatchProb(p, B, a, b + 1) == MatchProb(p, A, a, b + 1) by { MatchServerFree(p, B, A, a, b + 1); }
      assert SetProb(p, s1, 0, 0).0 == SetProb(p, s2, 0, 0).0 by { SetServerFree(p, s1, s2, 0, 0); }
      BlendServeFree(SetProb(p, s1, 0, 0).0, SetProb(p, s1, 0, 0).1, SetProb(p, s2, 0, 0).0, SetProb(p, s2, 0, 0).1,
                     MatchProb(p, A, a + 1, b), MatchProb(p, A, a, b + 1));
      MatchProbStep(p, s1, a, b);
      MatchProbStep(p, s2, a, b);
    } else {
      MatchDecidedServerFree(p, s1, s2, a, b);
    }
  }

  // ---------------------------------------------------------------------------
  // Scenarios

  /** With even points (one half on and off serve) a level match is a coin toss,
      whoever serves first. */
  lemma FairMatchIsEven(server: Player, a: nat)
    requires a < NUMSETS
    ensures MatchProb(Params(0.5, 0.5), server, a, a) == 0.5
  {
    var p := Params(0.5, 0.5);
    assert Mirror(p) == p;
    MatchComplement(p, server, a, a);
    MatchServerFree(p, server, Other(server), a, a);
  }

  /** If A wins every point, A wins every game B has not already won. */
  lemma {:induction false} GameSure(server: Player, a: nat, b: nat)
    requires b <= RECURSIVECAP && !LeadsGame(b, a)
    ensures GameProb(Params(1.0, 1.0), server, a, b) == 1.0
    decreases 42 - a - b
  {
    if LeadsGame(a, b) || a > RECURSIVECAP {
    } else {
      GameSure(server, a + 1, b);
    }
  }

  /** Past RECURSIVECAP points a side takes the game outright, so deuce does
      not repeat itself: with a point chance of 0.6 the game from twenty all
      is just the next point, from nineteen all it is 0.648, and an endless
      deuce would give 0.36 / 0.52. */
  lemma DeuceCapped()
    ensures GameProb(Params(0.6, 0.6), A, 20, 20) == 0.6
    ensures GameProb(Params(0.6, 0.6), A, 19, 19) == 0.648
  {
    var p := Params(0.6, 0.6);
    assert GameProb(p, A, 20, 20) == Mix(0.6, GameProb(p, A, 21, 20), GameProb(p, A, 20, 21));
    assert GameProb(p, A, 20, 19) == Mix(0.6, GameProb(p, A, 21, 19), GameProb(p, A, 20, 20));
    assert GameProb(p, A, 19, 20) == Mix(0.6, GameProb(p, A, 20, 20), GameProb(p, A, 19, 21));
    assert GameProb(p, A, 19, 19) == Mix(0.6, GameProb(p, A, 20, 19), GameProb(p, A, 19, 20));
  }

  /** If A wins every point, A wins every tiebreak B has not already won. */
  lemma {:induction false} TiebreakSure(server: Player, firstServe: bool, a: nat, b: nat)
    requires !LeadsTiebreak(b, a)
    ensures TiebreakProb(Params(1.0, 1.0), server, firstServe, a, b) == 1.0
    decreases 16 - a - b
  {
    if LeadsTiebreak(a, b) || (a > NUMPOINTSTIEBREAK && b > NUMPOINTSTIEBREAK) {
    } else {
      var next := TiebreakRotate(server, firstServe);
      TiebreakSure(next.0, next.1, a + 1, b);
    }
  }

  /** The four-way split is a mix over the serve of two mixes over the set. */
  lemma BlendAsMix(s: real, n: real, winServes: real, loseServes: real,
                   winReceives: real, loseReceives: real)
    ensures Blend(s, n, winServes, loseServes, winReceives, loseReceives)
            == Mix(n, Mix(s, winServes, loseServes), Mix(s, winReceives, loseReceives))
  {
  }

  lemma MulNonneg(x: real, y: real)
    requires 0.0 <= x && 0.0 <= y
    ensures 0.0 <= x * y
  {
  }

  /** A certain game followed by a certain continuation is certain. */
  lemma MixSure(q: real, x: real, y: real)
    requires q == 1.0 && x == 1.0
    ensures Mix(q, x, y) == 1.0
  {
  }

  lemma SetSureDecided(p: Params, server: Player, a: nat, b: nat)
    requires a <= 7 && b < NUMGAMES && (LeadsSet(a, b) || a == 7)
    ensures SetProb(p, server, a, b).0 == 1.0
  {
  }

  /** The inductive step of `SetSure`: a certain game and a certain set after
      winning it make the set certain. */
  lemma SetSureStep(p: Params, server: Player, a: nat, b: nat)
    requires a <= 7 && b < NUMGAMES && !(LeadsSet(a, b) || a == 7)
    requires GameProb(p, server, 0, 0) == 1.0
    requires SetProb(p, Other(server), a + 1, b).0 == 1.0
    ensures SetProb(p, server, a, b).0 == 1.0
  {
    MixSure(GameProb(p, server, 0, 0), SetProb(p, Other(server), a + 1, b).0, SetProb(p, Other(server), a, b + 1).0);
    SetProbStep(p, server, a, b);
  }

  /** If A wins every point, A wins the set from any score where B has fewer
      than six games. */
  lemma {:induction false} SetSure(server: Player, a: nat, b: nat)
    requires a <= 7 && b < NUMGAMES
    ensures SetProb(Params(1.0, 1.0), server, a, b).0 == 1.0
    decreases 7 - a
  {
    var p := Params(1.0, 1.0);
    if LeadsSet(a, b) || a == 7 {
      SetSureDecided(p, server, a, b);
    } else {
      GameSure(server, 0, 0);
      SetSure(Other(server), a + 1, b);
      SetSureStep(p, server, a, b);
    }
  }

  /** Winning the set for certain, with certain continuations after a won
      set, gives certainty whatever the serve split. */
  lemma BlendSure(s: real, n: real, winServes: real, loseServes: real,
                  winReceives: real, loseReceives: real)
    requires s == 1.0 && winServes == 1.0 && winReceives == 1.0
    ensures Blend(s, n, winServes, loseServes, winReceives, loseReceives) == 1.0
  {
    BlendAsMix(s, n, winServes, loseServes, winReceives, loseReceives);
    MixSure(s, winServes, loseServes);
    MixSure(s, winReceives, loseReceives);
  }

  /** If A wins every point (1.0 on serve and 1.0 returning), A wins the match
      with probability 1 whoever serves first, from any score where B has not
      yet won. */
  lemma {:induction false} MatchSure(server: Player, a: nat, b: nat)
    requires b < NUMSETS
    ensures MatchProb(Params(1.0, 1.0), server, a, b) == 1.0
    decreases NUMSETS - a
  {
    var p := Params(1.0, 1.0);
    if a < NUMSETS {
      assert SetProb(p, server, 0, 0).0 == 1.0 by { SetSure(server, 0, 0); }
      assert MatchProb(p, A, a + 1, b) == 1.0 by { MatchSure(A, a + 1, b); }
      assert MatchProb(p, B, a + 1, b) == 1.0 by { MatchSure(B, a + 1, b); }
      BlendSure(SetProb(p, server, 0, 0).0, SetProb(p, server, 0, 0).1,
                MatchProb(p, A, a + 1, b), MatchProb(p, A, a, b + 1),
                MatchProb(p, B, a + 1, b), MatchProb(p, B, a, b + 1));
      MatchProbStep(p, server, a, b);
    } else {
      MatchProbDecided(p, server, a, b);
    }
  }

  // ---------------------------------------------------------------------------
  // The match recurrence weighs four continuations

  function Min4(w: real, x: real, y: real, z: real): real
  {
    var m1 := if w <= x then w else x;
    var m2 := if y <= z then y else z;
    if m1 <= m2 then m1 else m2
  }

  function Max4(w: real, x: real, y: real, z: real): real
  {
    var m1 := if w >= x then w else x;
    var m2 := if y >= z then y else z;
    if m1 >= m2 then m1 else m2
  }

  lemma MixBetween(q: real, x: real, y: real)
    requires InUnit(q)
    ensures (if x <= y then x else y) <= Mix(q, x, y) <= (if x >= y then x else y)
  {
    if x <= y {
      MulNonneg(q, y - x);
      MulNonneg(1.0 - q, y - x);
    } else {
      MulNonneg(q, x - y);
      MulNonneg(1.0 - q, x - y);
    }
  }

  lemma BlendBetween(s: real, n: real, m1: real, m2: real, m3: real, m4: real)
    requires InUnit(s) && InUnit(n)
    ensures Min4(m1, m2, m3, m4) <= Blend(s, n, m1, m2, m3, m4) <= Max4(m1, m2, m3, m4)
  {
    var serves := Mix(s, m1, m2);
    var receives := Mix(s, m3, m4);
    MixBetween(s, m1, m2);
    MixBetween(s, m3, m4);
    MixBetween(n, serves, receives);
    BlendAsMix(s, n, m1, m2, m3, m4);
  }

  /** An undecided match is a convex combination of the four continuations
      (win or lose the next set, serve or receive after it): its value lies
      between the smallest and the largest of them. */
  lemma MatchProbBetween(p: Params, server: Player, a: nat, b: nat)
    requires ValidParams(p) && a < NUMSETS && b < NUMSETS
    ensures var m1, m2, m3, m4 := MatchProb(p, A, a + 1, b), MatchProb(p, A, a, b + 1),
                                  MatchProb(p, B, a + 1, b), MatchProb(p, B, a, b + 1);
            Min4(m1, m2, m3, m4) <= MatchProb(p, server, a, b) <= Max4(m1, m2, m3, m4)
  {
    var s := SetProb(p, server, 0, 0);
    BlendBetween(s.0, s.1, MatchProb(p, A, a + 1, b), MatchProb(p, A, a, b + 1),
                 MatchProb(p, B, a + 1, b), MatchProb(p, B, a, b + 1));
  }

  // ---------------------------------------------------------------------------
  // Tiebreak serving order

  /** The opener serves point 0, the other player points 1 and 2, the opener 3
      and 4, and so on: the server has changed an odd number of times exactly
      when (n + 1) / 2 is odd, and the flag is set exactly after odd points. */
  lemma {:induction false} TiebreakTurnClosedForm(start: Player, n: nat)
    ensures TiebreakTurn(start, n).0 == (if ((n + 1) / 2) % 2 == 1 then Other(start) else start)
    ensures TiebreakTurn(start, n).1 == (n % 2 == 1)
  {
    if n > 0 {
      TiebreakTurnClosedForm(start, n - 1);
      var k := (n - 1) / 2;
      if (n - 1) % 2 == 0 {
        assert n - 1 == 2 * k && (n - 1 + 1) / 2 == k && (n + 1) / 2 == k + 1;
      } else {
        assert n - 1 == 2 * k + 1 && (n - 1 + 1) / 2 == k + 1 && (n + 1) / 2 == k + 1;
      }
    }
  }

  /** One step of the rotation moves the closed form on by one point. */
  lemma TiebreakServingStep(start: Player, n: nat, server: Player, firstServe: bool)
    requires TiebreakServing(start, n, server, firstServe)
    ensures TiebreakServing(start, n + 1, TiebreakRotate(server, firstServe).0, TiebreakRotate(server, firstServe).1)
  {
    var k := n / 2;
    if n % 2 == 0 {
      assert n == 2 * k && (n + 1) / 2 == k && (n + 2) / 2 == k + 1;
    } else {
      assert n == 2 * k + 1 && (n + 1) / 2 == k + 1 && (n + 2) / 2 == k + 1;
    }
  }

  /** The closed form holds of exactly the serving state that `TiebreakTurn`
      gives. */
  lemma TiebreakServingIsTurn(start: Player, n: nat, server: Player, firstServe: bool)
    ensures TiebreakServing(start, n, server, firstServe) <==> (server, firstServe) == TiebreakTurn(start, n)
  {
    TiebreakTurnClosedForm(start, n);
  }
}
