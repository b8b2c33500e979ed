// The live forecast `runPredictions`: from the score and the serving state
// of a match in progress, A's and B's chances of the current game, set and
// match, read off the engine's recurrences.
module Forecast {
  import opened Tennis
  import opened Engine
  import opened EngineLemmas

  /** The three B figures are the complements of the A figures. */
  predicate Complementary(r: Probs)
  {
    r.bGame == 1.0 - r.aGame && r.bSet == 1.0 - r.aSet && r.bMatch == 1.0 - r.aMatch
  }

  predicate ProbsInUnit(r: Probs)
  {
    InUnit(r.aGame) && InUnit(r.bGame) && InUnit(r.aSet) && InUnit(r.bSet)
    && InUnit(r.aMatch) && InUnit(r.bMatch)
  }

  /** True at 6-6 in games, where the point in progress belongs to a tiebreak. */
  predicate InTiebreak(s: Score)
  {
    s.aGames == NUMGAMES && s.bGames == NUMGAMES
  }

  /** An undecided set position before 6-6, with game counts at most six. */
  predicate OpenSetScore(aGames: nat, bGames: nat)
  {
    aGames <= NUMGAMES && bGames <= NUMGAMES && !(aGames == NUMGAMES && bGames == NUMGAMES)
    && !LeadsSet(aGames, bGames) && !LeadsSet(bGames, aGames)
  }

  /** The set half of the forecast outside a tiebreak: A's chance of the set
      and of serving after it, from the current game chance `game` and the set
      recurrence after the game is won or lost (the source writes each mix
      with its factors the other way round). */
  function SetForecast(p: Params, s: Score, server: Player, game: real): (real, real)
    requires s.aGames <= NUMGAMES && s.bGames <= NUMGAMES
  {
    var win := SetProb(p, Other(server), s.aGames + 1, s.bGames);
    var lose := SetProb(p, Other(server), s.aGames, s.bGames + 1);
    (Mix(game, win.0, lose.0), Mix(game, win.1, lose.1))
  }

  lemma SetForecastInUnit(p: Params, s: Score, server: Player, game: real)
    requires s.aGames <= NUMGAMES && s.bGames <= NUMGAMES
    requires ValidParams(p) && InUnit(game)
    ensures InUnit(SetForecast(p, s, server, game).0) && InUnit(SetForecast(p, s, server, game).1)
  {
    var win := SetProb(p, Other(server), s.aGames + 1, s.bGames);
    var lose := SetProb(p, Other(server), s.aGames, s.bGames + 1);
    MixInUnit(game, win.0, lose.0);
    MixInUnit(game, win.1, lose.1);
  }

  /** Before the first point of a game that does not finish the set on the
      spot, the set half of the forecast is the set recurrence at the current
      game score, so the live forecast and `predictSet` agree on game
      boundaries. */
  lemma SetForecastAtGameStart(p: Params, s: Score, server: Player)
    requires s.aPoints == 0 && s.bPoints == 0 && OpenSetScore(s.aGames, s.bGames)
    ensures SetForecast(p, s, server, GameProb(p, server, 0, 0)) == SetProb(p, server, s.aGames, s.bGames)
  {
    SetProbStep(p, server, s.aGames, s.bGames);
  }

  /** The match half of the forecast outside a tiebreak: the four-way split
      over winning or losing the set and serving or receiving after it. */
  function MatchForecast(p: Params, aSets: nat, bSets: nat, aSet: real, servesNext: real): real
  {
    Blend(aSet, servesNext,
          MatchProb(p, A, aSets + 1, bSets), MatchProb(p, A, aSets, bSets + 1),
          MatchProb(p, B, aSets + 1, bSets), MatchProb(p, B, aSets, bSets + 1))
  }

  /** The match half of the forecast in a tiebreak: the tiebreak decides the
      set, and `saved` serves the next set either way. */
  function TiebreakMatchForecast(p: Params, aSets: nat, bSets: nat, aSet: real, saved: Player): real
  {
    Mix(aSet, MatchProb(p, saved, aSets + 1, bSets), MatchProb(p, saved, aSets, bSets + 1))
  }

  /** The forecast before the next point is played. `server` and `firstServe`
      are the serving state of that point; `saved` is the player who opened
      the tiebreak and serves first in the next set. Outside a tiebreak the
      game counts are at most six, which keeps the set recurrence within its
      domain. */
  function Predictions(p: Params, s: Score, server: Player, firstServe: bool, saved: Player): (r: Probs)
    requires s.aGames <= NUMGAMES && s.bGames <= NUMGAMES
    ensures Complementary(r)
    ensures InTiebreak(s) ==> r.aSet == r.aGame
  {
    if InTiebreak(s) then
      var game := TiebreakProb(p, server, firstServe, s.aPoints, s.bPoints);
      var aMatch := TiebreakMatchForecast(p, s.aSets, s.bSets, game, saved);
      Probs(game, 1.0 - game, game, 1.0 - game, aMatch, 1.0 - aMatch)
    else
      var game := GameProb(p, server, s.aPoints, s.bPoints);
      var aSet := SetForecast(p, s, server, game);
      var aMatch := MatchForecast(p, s.aSets, s.bSets, aSet.0, aSet.1);
      Probs(game, 1.0 - game, aSet.0, 1.0 - aSet.0, aMatch, 1.0 - aMatch)
  }

  /** With valid point probabilities every figure of the forecast is a
      probability. */
  lemma PredictionsInUnit(p: Params, s: Score, server: Player, firstServe: bool, saved: Player)
    requires s.aGames <= NUMGAMES && s.bGames <= NUMGAMES && ValidParams(p)
    ensures ProbsInUnit(Predictions(p, s, server, firstServe, saved))
  {
    if InTiebreak(s) {
      var game := TiebreakProb(p, server, firstServe, s.aPoints, s.bPoints);
      MixInUnit(game, MatchProb(p, saved, s.aSets + 1, s.bSets), MatchProb(p, saved, s.aSets, s.bSets + 1));
    } else {
      var game := GameProb(p, server, s.aPoints, s.bPoints);
      SetForecastInUnit(p, s, server, game);
    }
  }

  /** The forecast a history entry can be checked against: its score and
      server fix the rest of the serving state. In a tiebreak the
      first-serve flag is set before odd-numbered points and the opener is
      read back from the server through the rotation's closed form; outside
      a tiebreak neither is used. Beyond six games either way no forecast is
      defined and the figures are zero. */
  function EntryForecast(p: Params, s: Score, server: Player): Probs
  {
    var n := s.aPoints + s.bPoints;
    if s.aGames <= NUMGAMES && s.bGames <= NUMGAMES then
      Predictions(p, s, server, n % 2 == 1, if ((n + 1) / 2) % 2 == 1 then Other(server) else server)
    else
      Probs(0.0, 0.0, 0.0, 0.0, 0.0, 0.0)
  }

  /** A forecast taken in a serving state that follows the tiebreak rotation
      from `saved` is the one the score and the server alone determine. */
  lemma PredictionsAtEntry(p: Params, s: Score, server: Player, firstServe: bool, saved: Player)
    requires s.aGames <= NUMGAMES && s.bGames <= NUMGAMES
    requires InTiebreak(s) ==> TiebreakServing(saved, s.aPoints + s.bPoints, server, firstServe)
    ensures Predictions(p, s, server, firstServe, saved) == EntryForecast(p, s, server)
  {
    var n := s.aPoints + s.bPoints;
    if InTiebreak(s) {
      assert saved == (if ((n + 1) / 2) % 2 == 1 then Other(server) else server);
    }
  }

  lemma PredictionsInTiebreak(p: Params, s: Score, server: Player, firstServe: bool, saved: Player,
                              game: real, winSet: real, loseSet: real)
    requires InTiebreak(s)
    requires game == TiebreakProb(p, server, firstServe, s.aPoints, s.bPoints)
    requires winSet == MatchProb(p, saved, s.aSets + 1, s.bSets)
    requires loseSet == MatchProb(p, saved, s.aSets, s.bSets + 1)
    ensures Predictions(p, s, server, firstServe, saved)
            == Probs(game, 1.0 - game, game, 1.0 - game,
                     Mix(game, winSet, loseSet), 1.0 - Mix(game, winSet, loseSet))
  {
  }

  /** The forecast outside a tiebreak, written out from the recurrences it
      reads: the game chance, the set recurrence after the game is won
      (`setIfWin`, `nextIfWin`) and lost (`setIfLose`, `nextIfLose`), and the
      match recurrence in the four branches after the set. */
  lemma PredictionsOutsideTiebreak(p: Params, s: Score, server: Player, firstServe: bool, saved: Player,
                                   game: real, setIfWin: real, nextIfWin: real,
                                   setIfLose: real, nextIfLose: real,
                                   winServes: real, loseServes: real, winReceives: real, loseReceives: real)
    requires s.aGames <= NUMGAMES && s.bGames <= NUMGAMES && !InTiebreak(s)
    requires game == GameProb(p, server, s.aPoints, s.bPoints)
    requires (setIfWin, nextIfWin) == SetProb(p, Other(server), s.aGames + 1, s.bGames)
    requires (setIfLose, nextIfLose) == SetProb(p, Other(server), s.aGames, s.bGames + 1)
    requires winServes == MatchProb(p, A, s.aSets + 1, s.bSets)
    requires loseServes == MatchProb(p, A, s.aSets, s.bSets + 1)
    requires winReceives == MatchProb(p, B, s.aSets + 1, s.bSets)
    requires loseReceives == MatchProb(p, B, s.aSets, s.bSets + 1)
    ensures Predictions(p, s, server, firstServe, saved)
            == Probs(game, 1.0 - game, Mix(game, setIfWin, setIfLose), 1.0 - Mix(game, setIfWin, setIfLose),
                     Blend(Mix(game, setIfWin, setIfLose), Mix(game, nextIfWin, nextIfLose),
                           winServes, loseServes, winReceives, loseReceives),
                     1.0 - Blend(Mix(game, setIfWin, setIfLose), Mix(game, nextIfWin, nextIfLose),
                                 winServes, loseServes, winReceives, loseReceives))
  {
  }

  /** Before the first point of a game that does not finish the set on the
      spot, the forecast's set figure is the set recurrence at the current
      game score. */
  lemma SetFigureAtGameStart(p: Params, s: Score, server: Player, firstServe: bool, saved: Player)
    requires s.aPoints == 0 && s.bPoints == 0 && OpenSetScore(s.aGames, s.bGames)
    ensures Predictions(p, s, server, firstServe, saved).aSet == SetProb(p, server, s.aGames, s.bGames).0
  {
    SetForecastAtGameStart(p, s, server);
  }

  /** Before the first point of a set, the forecast's match figure is the
      match recurrence at the current set score. */
  lemma MatchForecastAtSetStart(p: Params, s: Score, server: Player, firstServe: bool, saved: Player)
    requires s.aPoints == 0 && s.bPoints == 0 && s.aGames == 0 && s.bGames == 0
    requires s.aSets < NUMSETS && s.bSets < NUMSETS
    ensures Predictions(p, s, server, firstServe, saved).aMatch == MatchProb(p, server, s.aSets, s.bSets)
  {
    var st := SetForecast(p, s, server, GameProb(p, server, 0, 0));
    SetForecastAtGameStart(p, s, server);
    assert Predictions(p, s, server, firstServe, saved).aMatch == MatchForecast(p, s.aSets, s.bSets, st.0, st.1);
    MatchProbStep(p, server, s.aSets, s.bSets);
  }

  /** With the serve after the set already known (a serves-next figure of 0
      or 1), the four-way split reduces to two terms. */
  lemma BlendKnownServer(s: real, server: Player, m1: real, m2: real, m3: real, m4: real)
    ensures Blend(s, AServes(server), m1, m2, m3, m4)
            == (if server == A then Mix(s, m1, m2) else Mix(s, m3, m4))
  {
  }

  /** At the start of a tiebreak opened by `saved`, the tiebreak branch of the
      forecast agrees with the four-way split of the match recurrence applied
      to the set recurrence at 6-6. */
  lemma TiebreakForecastAgrees(p: Params, s: Score, saved: Player)
    requires s.aPoints == 0 && s.bPoints == 0 && InTiebreak(s)
    ensures Predictions(p, s, saved, false, saved).aSet == SetProb(p, saved, NUMGAMES, NUMGAMES).0
    ensures Predictions(p, s, saved, false, saved).aMatch
            == Blend(SetProb(p, saved, NUMGAMES, NUMGAMES).0, SetProb(p, saved, NUMGAMES, NUMGAMES).1,
                     MatchProb(p, A, s.aSets + 1, s.bSets), MatchProb(p, A, s.aSets, s.bSets + 1),
                     MatchProb(p, B, s.aSets + 1, s.bSets), MatchProb(p, B, s.aSets, s.bSets + 1))
  {
    var atSixAll := SetProb(p, saved, NUMGAMES, NUMGAMES);
    assert atSixAll == (TiebreakProb(p, saved, false, 0, 0), AServes(saved));
    BlendKnownServer(atSixAll.0, saved,
                     MatchProb(p, A, s.aSets + 1, s.bSets), MatchProb(p, A, s.aSets, s.bSets + 1),
                     MatchProb(p, B, s.aSets + 1, s.bSets), MatchProb(p, B, s.aSets, s.bSets + 1));
  }
}
