// The class `TennisMatch`: the mutable match state, the memoised recurrences,
// the live forecast and the point-by-point simulation.
module Simulator {
  import opened Tennis
  import opened Engine
  import opened Forecast
  import opened History
  import opened EngineLemmas

  /** The counter `increment` keeps for `player` and `metric`. */
  function Count(s: Score, player: Player, metric: Metric): nat
  {
    match (player, metric)
    case (A, Points) => s.aPoints
    case (A, Games) => s.aGames
    case (A, Sets) => s.aSets
    case (B, Points) => s.bPoints
    case (B, Games) => s.bGames
    case (B, Sets) => s.bSets
  }

  /** The score after `player` wins one unit of `metric`: that counter goes up
      by one and no other counter changes. */
  function Bump(s: Score, player: Player, metric: Metric): (r: Score)
    ensures Count(r, player, metric) == Count(s, player, metric) + 1
    ensures forall q: Player, m: Metric :: (q, m) != (player, metric) ==> Count(r, q, m) == Count(s, q, m)
  {
    match (player, metric)
    case (A, Points) => s.(aPoints := s.aPoints + 1)
    case (A, Games) => s.(aGames := s.aGames + 1)
    case (A, Sets) => s.(aSets := s.aSets + 1)
    case (B, Points) => s.(bPoints := s.bPoints + 1)
    case (B, Games) => s.(bGames := s.bGames + 1)
    case (B, Sets) => s.(bSets := s.bSets + 1)
  }

  function Dist(x: nat, y: nat): nat
  {
    if x >= y then x - y else y - x
  }

  /** How a game played by `playGame` ends for its winner `x` against `y`
      under advantage scoring: first to four with a two-point lead, or two
      clear after deuce. */
  predicate ClosesGame(x: nat, y: nat)
  {
    LeadsGame(x, y) && (x == NUMPOINTS || x == y + 2)
  }

  /** How a tiebreak ends for its winner `x` against `y`: seven with a lead of
      two or more, two clear beyond seven, or the cap reached one point ahead. */
  predicate ClosesTiebreak(x: nat, y: nat)
  {
    (x == NUMPOINTSTIEBREAK && y + 2 <= x)
    || (x > NUMPOINTSTIEBREAK && x == y + 2)
    || (x == RECURSIVECAP && y + 1 == x)
  }

  /** How a set ends on games for its winner `x` against `y`: six with a lead
      of two or more, or seven-five. */
  predicate ClosesSet(x: nat, y: nat)
  {
    (x == NUMGAMES && y + 2 <= x) || (x == NUMGAMES + 1 && y == NUMGAMES - 1)
  }

  /** How a game ends without advantage scoring: four points with a lead of
      two or more, or one deciding point played from four-three. */
  predicate NoAdEnd(x: nat, y: nat)
  {
    (x == NUMPOINTS && y + 2 <= x) || (y == NUMPOINTS && x + 2 <= y) || x + y == 2 * NUMPOINTS
  }

  /** The server after `n` games of a set that `start` opened. */
  function ServerAfter(start: Player, n: nat): Player
  {
    if n % 2 == 0 then start else Other(start)
  }

  // The four caches. A key holds the point probabilities as well as the
  // server and score: they are fixed for the lifetime of a match, and with
  // them in the key the type itself says that every cached value is the
  // value of its recurrence at its key.
  type GameCache = m: map<(Params, Player, nat, nat), real>
    | forall k :: k in m ==> m[k] == GameProb(k.0, k.1, k.2, k.3)
  type SetCache = m: map<(Params, Player, nat, nat), (real, real)>
    | forall k :: k in m ==> k.2 <= 7 && k.3 <= 7 && m[k] == SetProb(k.0, k.1, k.2, k.3)
  type TiebreakCache = m: map<(Params, Player, bool, nat, nat), real>
    | forall k :: k in m ==> m[k] == TiebreakProb(k.0, k.1, k.2, k.3, k.4)
  type MatchCache = m: map<(Params, Player, nat, nat), real>
    | forall k :: k in m ==> m[k] == MatchProb(k.0, k.1, k.2, k.3)

  class TennisMatch {
    // The point probabilities; the class never writes them after construction.
    const pAWinPointOnServe: real
    const pAWinPointReturningServe: real
    const ad: bool
    // The values `Math.random()` returns during the run, and how many are used.
    const draws: seq<real>
    var drawn: nat

    var aPoints: nat
    var bPoints: nat
    var aGames: nat
    var bGames: nat
    var aSets: nat
    var bSets: nat
    var pAWinGame: real
    var pBWinGame: real
    var pAWinSet: real
    var pBWinSet: real
    var pAWinMatch: real
    var pBWinMatch: real
    var server: Player
    var tiebrekerSaveNextServer: Player
    var tiebrekerFirstServe: bool
    var pointId: nat
    var winner: Option<Player>
    var matchHistory: seq<Entry>

    var gameCache: GameCache
    var setCache: SetCache
    var tiebrekerCache: TiebreakCache
    var matchCache: MatchCache

    function MatchParams(): Params
    {
      Params(pAWinPointOnServe, pAWinPointReturningServe)
    }

    function CurrentScore(): Score
      reads this`aPoints, this`bPoints, this`aGames, this`bGames, this`aSets, this`bSets
    {
      Score(aPoints, bPoints, aGames, bGames, aSets, bSets)
    }

    function CurrentProbs(): Probs
      reads this`pAWinGame, this`pBWinGame, this`pAWinSet, this`pBWinSet, this`pAWinMatch, this`pBWinMatch
    {
      Probs(pAWinGame, pBWinGame, pAWinSet, pBWinSet, pAWinMatch, pBWinMatch)
    }

    /** The history and the point counter are those of play that began
        `|matchHistory|` random values ago, with `w` recorded as the match
        winner in every entry. */
    predicate HistoryFollowsDraws(w: Option<Player>)
      reads this`matchHistory, this`pointId, this`drawn
    {
      pointId == |matchHistory| && |matchHistory| <= drawn
      && FollowsDraws(matchHistory, drawn - |matchHistory|, w, draws, MatchParams())
    }

    /** Every entry of the history holds the forecast at its own score and
        server. */
    predicate HistoryForecasts()
      reads this`matchHistory
    {
      RecordsForecasts(matchHistory, MatchParams())
    }

    /** The history holds its forecasts and `start` is the saved opener. */
    predicate TiebreakForecasts(start: Player)
      reads this`matchHistory, this`tiebrekerSaveNextServer
    {
      HistoryForecasts() && tiebrekerSaveNextServer == start
    }

    /** In a tiebreak the serving state is the rotation's closed form for the
        points played so far, from the opener kept in
        `tiebrekerSaveNextServer`. */
    predicate ServingConsistent()
      reads this`aPoints, this`bPoints, this`aGames, this`bGames, this`aSets, this`bSets, this`server
      reads this`tiebrekerFirstServe, this`tiebrekerSaveNextServer
    {
      InTiebreak(CurrentScore()) ==> (server, tiebrekerFirstServe) == TiebreakTurn(tiebrekerSaveNextServer, aPoints + bPoints)
    }

    /** Random values still unused. */
    function DrawsLeft(): nat
      reads this`drawn
    {
      if drawn < |draws| then |draws| - drawn else 0
    }

    /** `draws` stands for the values `Math.random()` returns in this run, and
        `ad` for the public scoring flag (true unless a caller clears it before
        play); the other arguments are those of the source constructor. */
    constructor (pAWinPointOnServe: real, pAWinPointReturningServe: real, startingServer: Player,
                 ad: bool, draws: seq<real>)
      ensures this.pAWinPointOnServe == pAWinPointOnServe
      ensures this.pAWinPointReturningServe == pAWinPointReturningServe
      ensures this.ad == ad && this.draws == draws && drawn == 0
      ensures server == startingServer && tiebrekerSaveNextServer == startingServer
      ensures !tiebrekerFirstServe && pointId == 0 && winner == None && matchHistory == []
      ensures CurrentScore() == Score(0, 0, 0, 0, 0, 0)
      ensures CurrentProbs() == Probs(0.0, 0.0, 0.0, 0.0, 0.0, 0.0)
      ensures gameCache == map[] && setCache == map[] && tiebrekerCache == map[] && matchCache == map[]
    {
      this.pAWinPointOnServe := pAWinPointOnServe;
      this.pAWinPointReturningServe := pAWinPointReturningServe;
      this.ad := ad;
      this.draws := draws;
      drawn := 0;
      aPoints, bPoints, aGames, bGames, aSets, bSets := 0, 0, 0, 0, 0, 0;
      pAWinGame, pBWinGame, pAWinSet, pBWinSet, pAWinMatch, pBWinMatch := 0.0, 0.0, 0.0, 0.0, 0.0, 0.0;
      server := startingServer;
      tiebrekerSaveNextServer := startingServer;
      tiebrekerFirstServe := false;
      pointId := 0;
      winner := None;
      matchHistory := [];
      gameCache, setCache, tiebrekerCache, matchCache := map[], map[], map[], map[];
    }

    method ResetPoints()
      modifies this`aPoints, this`bPoints
      ensures aPoints == 0 && bPoints == 0
    {
      aPoints := 0;
      bPoints := 0;
    }

    method ResetGames()
      modifies this`aPoints, this`bPoints, this`aGames, this`bGames
      ensures aGames == 0 && bGames == 0 && aPoints == 0 && bPoints == 0
    {
      aGames := 0;
      bGames := 0;
      ResetPoints();
    }

    /** Clears the score and empties the four caches, which makes them
        coherent again whatever they held. */
    method ResetSets()
      modifies this`aPoints, this`bPoints, this`aGames, this`bGames, this`aSets, this`bSets
      modifies this`gameCache, this`setCache, this`tiebrekerCache, this`matchCache
      ensures CurrentScore() == Score(0, 0, 0, 0, 0, 0)
      ensures gameCache == map[] && setCache == map[] && tiebrekerCache == map[] && matchCache == map[]
    {
      aSets := 0;
      bSets := 0;
      ResetGames();
      gameCache := map[];
      setCache := map[];
      tiebrekerCache := map[];
      matchCache := map[];
    }

    /** `predictGame` with its cache: the game recurrence, and every value it
        stores is that recurrence's. */
    method PredictGame(currentServer: Player, a: nat, b: nat) returns (r: real)
      modifies this`gameCache
      ensures r == GameProb(MatchParams(), currentServer, a, b)
      decreases 42 - a - b
    {
      var key := (MatchParams(), currentServer, a, b);
      if key in gameCache {
        return gameCache[key];
      }
      if (a >= NUMPOINTS && a > b + 1) || a > RECURSIVECAP {
        return 1.0;
      }
      if (b >= NUMPOINTS && b > a + 1) || b > RECURSIVECAP {
        return 0.0;
      }
      var pAWinPoint := if currentServer == A then pAWinPointOnServe else pAWinPointReturningServe;
      assert pAWinPoint == PointProb(MatchParams(), currentServer);
      var win := PredictGame(currentServer, a + 1, b);
      var lose := PredictGame(currentServer, a, b + 1);
      r := pAWinPoint * win + (1.0 - pAWinPoint) * lose;
      MixExpand(pAWinPoint, win, lose);
      gameCache := gameCache[key := r];
    }

    /** `predictTiebreaker` with its cache. */
    method PredictTiebreaker(currentServer: Player, firstServe: bool, a: nat, b: nat) returns (r: real)
      modifies this`tiebrekerCache
      ensures r == TiebreakProb(MatchParams(), currentServer, firstServe, a, b)
      decreases 16 - a - b
    {
      var key := (MatchParams(), currentServer, firstServe, a, b);
      if key in tiebrekerCache {
        return tiebrekerCache[key];
      }
      if a >= NUMPOINTSTIEBREAK && a > b + 1 {
        return 1.0;
      }
      if b >= NUMPOINTSTIEBREAK && a + 1 < b {
        return 0.0;
      }
      if a > NUMPOINTSTIEBREAK && b > NUMPOINTSTIEBREAK {
        return (pAWinPointOnServe + pAWinPointReturningServe) / 2.0;
      }
      var pAWinPoint := if currentServer == A then pAWinPointOnServe else pAWinPointReturningServe;
      var nextServer := currentServer;
      var nextFirstServe := firstServe;
      if firstServe {
        nextFirstServe := false;
      } else {
        nextFirstServe := true;
        nextServer := Other(currentServer);
      }
      assert (nextServer, nextFirstServe) == TiebreakRotate(currentServer, firstServe);
      assert pAWinPoint == PointProb(MatchParams(), currentServer);
      var win := PredictTiebreaker(nextServer, nextFirstServe, a + 1, b);
      var lose := PredictTiebreaker(nextServer, nextFirstServe, a, b + 1);
      r := win * pAWinPoint + lose * (1.0 - pAWinPoint);
      MixExpand(pAWinPoint, win, lose);
      tiebrekerCache := tiebrekerCache[key := r];
    }

    /** `predictSet` with its cache (and the game and tiebreak caches it
        fills on the way). */
    method PredictSet(currentServer: Player, a: nat, b: nat) returns (pAWinSet: real, pAServesNext: real)
      requires a <= 7 && b <= 7
      modifies this`gameCache, this`setCache, this`tiebrekerCache
      ensures (pAWinSet, pAServesNext) == SetProb(MatchParams(), currentServer, a, b)
      decreases 14 - a - b
    {
      var nextServer := Other(currentServer);
      var key := (MatchParams(), currentServer, a, b);
      if key in setCache {
        return setCache[key].0, setCache[key].1;
      }
      var serves := if currentServer == A then 1.0 else 0.0;
      if a >= 6 && a > b + 1 {
        return 1.0, serves;
      }
      if b >= 6 && b > a + 1 {
        return 0.0, serves;
      }
      if a == 7 {
        return 1.0, serves;
      }
      if b == 7 {
        return 0.0, serves;
      }
      if a == 6 && b == 6 {
        var tb := PredictTiebreaker(currentServer, false, 0, 0);
        return tb, serves;
      }
      var pAWinGame := PredictGame(currentServer, 0, 0);
      var pAWinSetGivenWinGame, pANextServerGivenWinGame := PredictSet(nextServer, a + 1, b);
      var pAWinSetGivenLoseGame, pANextServerGivenLoseGame := PredictSet(nextServer, a, b + 1);
      pAWinSet := pAWinGame * pAWinSetGivenWinGame + (1.0 - pAWinGame) * pAWinSetGivenLoseGame;
      pAServesNext := pAWinGame * pANextServerGivenWinGame + (1.0 - pAWinGame) * pANextServerGivenLoseGame;
      MixExpand(pAWinGame, pAWinSetGivenWinGame, pAWinSetGivenLoseGame);
      MixExpand(pAWinGame, pANextServerGivenWinGame, pANextServerGivenLoseGame);
      SetProbStep(MatchParams(), currentServer, a, b);
      setCache := setCache[key := (pAWinSet, pAServesNext)];
    }

    /** `predictMatch` with its cache (and the caches `predictSet` fills). */
    method PredictMatch(currentServer: Player, a: nat, b: nat) returns (r: real)
      modifies this`gameCache, this`setCache, this`tiebrekerCache, this`matchCache
      ensures r == MatchProb(MatchParams(), currentServer, a, b)
      decreases (if a < NUMSETS && b < NUMSETS then 6 - a - b else 0), 1
    {
      var key := (MatchParams(), currentServer, a, b);
      if key in matchCache {
        return matchCache[key];
      }
      if a >= NUMSETS {
        return 1.0;
      }
      if b >= NUMSETS {
        return 0.0;
      }
      var pAWinSet, pANextServer := PredictSet(currentServer, 0, 0);
      var winServes, loseServes, winReceives, loseReceives := PredictAfterSet(a, b);
      r := Blend(pAWinSet, pANextServer, winServes, loseServes, winReceives, loseReceives);
      MatchProbStep(MatchParams(), currentServer, a, b);
      matchCache := matchCache[key := r];
    }

    /** The four match chances `predictMatch` reads after the set in
        progress: A wins or loses it, and A or B serves next. */
    method PredictAfterSet(a: nat, b: nat)
      returns (winServes: real, loseServes: real, winReceives: real, loseReceives: real)
      modifies this`gameCache, this`setCache, this`tiebrekerCache, this`matchCache
      ensures winServes == MatchProb(MatchParams(), A, a + 1, b)
      ensures loseServes == MatchProb(MatchParams(), A, a, b + 1)
      ensures winReceives == MatchProb(MatchParams(), B, a + 1, b)
      ensures loseReceives == MatchProb(MatchParams(), B, a, b + 1)
      decreases (if a < NUMSETS && b < NUMSETS then 6 - a - b else 1), 0
    {
      winServes := PredictMatch(A, a + 1, b);
      loseServes := PredictMatch(A, a, b + 1);
      winReceives := PredictMatch(B, a + 1, b);
      loseReceives := PredictMatch(B, a, b + 1);
    }

    /** The six assignments that end `runPredictions`. */
    method StoreProbs(f: Probs)
      modifies this`pAWinGame, this`pBWinGame, this`pAWinSet, this`pBWinSet, this`pAWinMatch, this`pBWinMatch
      ensures CurrentProbs() == f
    {
      pAWinGame, pBWinGame, pAWinSet, pBWinSet, pAWinMatch, pBWinMatch
        := f.aGame, f.bGame, f.aSet, f.bSet, f.aMatch, f.bMatch;
    }

    /** The forecast `runPredictions` computes, before it is stored. */
    method ComputePredictions(s: Score, currentServer: Player) returns (f: Probs)
      requires s.aGames <= NUMGAMES && s.bGames <= NUMGAMES
      modifies this`gameCache, this`setCache, this`tiebrekerCache, this`matchCache
      ensures f == Predictions(MatchParams(), s, currentServer, tiebrekerFirstServe, tiebrekerSaveNextServer)
    {
      if s.aGames == NUMGAMES && s.bGames == NUMGAMES {
        var game := PredictTiebreaker(currentServer, tiebrekerFirstServe, s.aPoints, s.bPoints);
        var winSet := PredictMatch(tiebrekerSaveNextServer, s.aSets + 1, s.bSets);
        var loseSet := PredictMatch(tiebrekerSaveNextServer, s.aSets, s.bSets + 1);
        PredictionsInTiebreak(MatchParams(), s, currentServer, tiebrekerFirstServe, tiebrekerSaveNextServer,
                              game, winSet, loseSet);
        var aMatch := Mix(game, winSet, loseSet);
        f := Probs(game, 1.0 - game, game, 1.0 - game, aMatch, 1.0 - aMatch);
      } else {
        var nextServer := Other(currentServer);
        var game := PredictGame(currentServer, s.aPoints, s.bPoints);
        var pAWinSetGivenWinGame, pAServeNextGivenWinGame := PredictSet(nextServer, s.aGames + 1, s.bGames);
        var pAWinSetGivenLoseGame, pAServeNextGivenLoseGame := PredictSet(nextServer, s.aGames, s.bGames + 1);
        var winServes, loseServes, winReceives, loseReceives := PredictAfterSet(s.aSets, s.bSets);
        PredictionsOutsideTiebreak(MatchParams(), s, currentServer, tiebrekerFirstServe, tiebrekerSaveNextServer,
                                   game, pAWinSetGivenWinGame, pAServeNextGivenWinGame,
                                   pAWinSetGivenLoseGame, pAServeNextGivenLoseGame,
                                   winServes, loseServes, winReceives, loseReceives);
        var aSet := Mix(game, pAWinSetGivenWinGame, pAWinSetGivenLoseGame);
        var aServesNext := Mix(game, pAServeNextGivenWinGame, pAServeNextGivenLoseGame);
        var aMatch := Blend(aSet, aServesNext, winServes, loseServes, winReceives, loseReceives);
        f := Probs(game, 1.0 - game, aSet, 1.0 - aSet, aMatch, 1.0 - aMatch);
      }
    }

    /** `runPredictions`: recompute and store the six forecast figures for the
        current score and serving state. */
    method RunPredictions()
      requires aGames <= NUMGAMES && bGames <= NUMGAMES
      modifies this`pAWinGame, this`pBWinGame, this`pAWinSet, this`pBWinSet, this`pAWinMatch, this`pBWinMatch
      modifies this`gameCache, this`setCache, this`tiebrekerCache, this`matchCache
      ensures CurrentProbs()
              == Predictions(MatchParams(), CurrentScore(), server, tiebrekerFirstServe, tiebrekerSaveNextServer)
    {
      var f := ComputePredictions(CurrentScore(), server);
      StoreProbs(f);
    }

    /** The point half of `increment`: the forecast is refreshed for the
        score before the point, and the history gets the entry for that
        score, with its deltas against the previous entry. */
    method RecordPoint(player: Player)
      requires aGames <= NUMGAMES && bGames <= NUMGAMES
      modifies this`pAWinGame, this`pBWinGame, this`pAWinSet, this`pBWinSet, this`pAWinMatch, this`pBWinMatch
      modifies this`gameCache, this`setCache, this`tiebrekerCache, this`matchCache
      modifies this`matchHistory, this`pointId
      ensures CurrentProbs() == Predictions(MatchParams(), CurrentScore(), server,
                                            tiebrekerFirstServe, tiebrekerSaveNextServer)
      ensures matchHistory == old(matchHistory) + [Snapshot(old(pointId), CurrentScore(), CurrentProbs(),
                                                            old(matchHistory), server, winner, player)]
      ensures pointId == old(pointId) + 1
      ensures old(HistoryForecasts()) && ServingConsistent() ==> HistoryForecasts()
    {
      RunPredictions();
      PushSnapshot(player);
    }

    /** The history half of `RecordPoint`: the entry for the current score,
        with its deltas against the previous entry. */
    method PushSnapshot(player: Player)
      modifies this`matchHistory, this`pointId
      ensures matchHistory == old(matchHistory) + [Snapshot(old(pointId), CurrentScore(), CurrentProbs(),
                                                            old(matchHistory), server, winner, player)]
      ensures pointId == old(pointId) + 1
      ensures old(HistoryForecasts()) && ServingConsistent() && aGames <= NUMGAMES && bGames <= NUMGAMES
              && CurrentProbs() == Predictions(MatchParams(), CurrentScore(), server,
                                               tiebrekerFirstServe, tiebrekerSaveNextServer)
              ==> HistoryForecasts()
    {
      var probs := CurrentProbs();
      var deltas := Zero();
      if |matchHistory| > 0 {
        var lastEntry := matchHistory[|matchHistory| - 1];
        deltas := Minus(probs, lastEntry.probs);
      }
      var snapshot := Entry(pointId, CurrentScore(), probs, deltas, server, winner, Wins(player, Points));
      matchHistory := matchHistory + [snapshot];
      pointId := pointId + 1;
      if old(HistoryForecasts()) && ServingConsistent() && aGames <= NUMGAMES && bGames <= NUMGAMES
         && probs == Predictions(MatchParams(), CurrentScore(), server, tiebrekerFirstServe, tiebrekerSaveNextServer) {
        RecordsBySnapshot(old(matchHistory), old(pointId), CurrentScore(), probs, server,
                          tiebrekerFirstServe, tiebrekerSaveNextServer, winner, player, MatchParams());
      }
    }

    /** `increment`: one more unit of `metric` for `player`; a point is
        recorded first (see `RecordPoint`). */
    method Increment(player: Player, metric: Metric)
      requires metric == Points ==> aGames <= NUMGAMES && bGames <= NUMGAMES
      modifies this`aPoints, this`bPoints, this`aGames, this`bGames, this`aSets, this`bSets
      modifies this`pAWinGame, this`pBWinGame, this`pAWinSet, this`pBWinSet, this`pAWinMatch, this`pBWinMatch
      modifies this`gameCache, this`setCache, this`tiebrekerCache, this`matchCache
      modifies this`matchHistory, this`pointId
      ensures CurrentScore() == Bump(old(CurrentScore()), player, metric)
      ensures metric == Points ==>
                CurrentProbs() == Predictions(MatchParams(), old(CurrentScore()), server,
                                              tiebrekerFirstServe, tiebrekerSaveNextServer)
                && matchHistory == old(matchHistory) + [Snapshot(old(pointId), old(CurrentScore()), CurrentProbs(),
                                                                  old(matchHistory), server, winner, player)]
                && pointId == old(pointId) + 1
      ensures metric != Points ==>
                unchanged(this`pAWinGame, this`pBWinGame, this`pAWinSet, this`pBWinSet, this`pAWinMatch, this`pBWinMatch)
                && unchanged(this`gameCache, this`setCache, this`tiebrekerCache, this`matchCache)
                && unchanged(this`matchHistory, this`pointId)
      ensures old(HistoryForecasts() && ServingConsistent()) ==> HistoryForecasts()
    {
      if metric == Points {
        RecordPoint(player);
      }
      BumpCounter(player, metric);
    }

    /** The counter update that ends `increment`, for every metric: the
        player's counter of that metric goes up by one. */
    method BumpCounter(player: Player, metric: Metric)
      modifies this`aPoints, this`bPoints, this`aGames, this`bGames, this`aSets, this`bSets
      ensures CurrentScore() == Bump(old(CurrentScore()), player, metric)
    {
      match (player, metric)
      case (A, Points) => aPoints := aPoints + 1;
      case (A, Games) => aGames := aGames + 1;
      case (A, Sets) => aSets := aSets + 1;
      case (B, Points) => bPoints := bPoints + 1;
      case (B, Games) => bGames := bGames + 1;
      case (B, Sets) => bSets := bSets + 1;
    }

    /** `playPoint`: the next random value decides the point, which A wins
        exactly when the value is below A's chance of winning a point against
        the current server. */
    method PlayPoint()
      requires aGames <= NUMGAMES && bGames <= NUMGAMES
      modifies this`drawn, this`aPoints, this`bPoints, this`aGames, this`bGames, this`aSets, this`bSets
      modifies this`pAWinGame, this`pBWinGame, this`pAWinSet, this`pBWinSet, this`pAWinMatch, this`pBWinMatch
      modifies this`gameCache, this`setCache, this`tiebrekerCache, this`matchCache
      modifies this`matchHistory, this`pointId
      ensures drawn == old(drawn) + 1
      ensures CurrentScore() == Bump(old(CurrentScore()), DrawWinner(draws, MatchParams(), old(drawn), server), Points)
      ensures |matchHistory| == old(|matchHistory|) + 1
      ensures old(HistoryFollowsDraws(winner)) ==> HistoryFollowsDraws(winner)
      ensures old(HistoryForecasts() && ServingConsistent()) ==> HistoryForecasts()
    {
      var pAWinPoint := if server == A then pAWinPointOnServe else pAWinPointReturningServe;
      var random := RandomAt(draws, drawn);
      drawn := drawn + 1;
      var pointWinner := if random < pAWinPoint then A else B;
      Increment(pointWinner, Points);
      if old(HistoryFollowsDraws(winner)) {
        FollowsBySnapshot(old(matchHistory), old(drawn) - old(|matchHistory|), old(pointId), old(drawn),
                          old(CurrentScore()), CurrentProbs(), server, tiebrekerFirstServe, tiebrekerSaveNextServer,
                          winner, draws, MatchParams());
      }
    }

    /** `playGame`: points until one player has four, then the game to a
        player two clear, or deuce; the serve passes to the other player. The
        game goes to A exactly when A ends with more points. */
    method PlayGame()
      requires aGames <= NUMGAMES && bGames <= NUMGAMES
      modifies this`drawn, this`aPoints, this`bPoints, this`aGames, this`bGames, this`aSets, this`bSets
      modifies this`pAWinGame, this`pBWinGame, this`pAWinSet, this`pBWinSet, this`pAWinMatch, this`pBWinMatch
      modifies this`gameCache, this`setCache, this`tiebrekerCache, this`matchCache
      modifies this`matchHistory, this`pointId, this`server
      ensures aSets == old(aSets) && bSets == old(bSets)
      ensures aPoints > bPoints ==> aGames == old(aGames) + 1 && bGames == old(bGames)
      ensures aPoints <= bPoints ==> bGames == old(bGames) + 1 && aGames == old(aGames)
      ensures ad ==> ClosesGame(aPoints, bPoints) || ClosesGame(bPoints, aPoints)
      ensures !ad ==> NoAdEnd(aPoints, bPoints)
      ensures server == Other(old(server))
      ensures drawn + old(|matchHistory|) == old(drawn) + |matchHistory|
      ensures old(HistoryFollowsDraws(winner)) ==> HistoryFollowsDraws(winner)
      ensures old(HistoryForecasts()) && !InTiebreak(old(CurrentScore())) ==> HistoryForecasts()
    {
      ResetPoints();
      while aPoints < NUMPOINTS && bPoints < NUMPOINTS
        invariant aPoints <= NUMPOINTS && bPoints <= NUMPOINTS && !(aPoints == NUMPOINTS && bPoints == NUMPOINTS)
        invariant aGames == old(aGames) && bGames == old(bGames) && aSets == old(aSets) && bSets == old(bSets)
        invariant server == old(server) && drawn + old(|matchHistory|) == old(drawn) + |matchHistory|
        invariant old(HistoryFollowsDraws(winner)) ==> HistoryFollowsDraws(winner)
        invariant old(HistoryForecasts()) && !InTiebreak(old(CurrentScore())) ==> HistoryForecasts()
        decreases 2 * NUMPOINTS - aPoints - bPoints
      {
        PlayPoint();
      }
      if Dist(aPoints, bPoints) >= 2 {
        BumpCounter(if aPoints > bPoints then A else B, Games);
      } else {
        PlayDeuce();
      }
      server := Other(server);
    }

    /** `playDeuce`, entered at four points to three either way. With
        advantage scoring points are played until one player is two clear;
        without it one more point is played, and the game goes to A only if A
        then leads, so four-all goes to B. */
    method PlayDeuce()
      requires aGames <= NUMGAMES && bGames <= NUMGAMES
      requires (aPoints == NUMPOINTS && bPoints == NUMPOINTS - 1) || (aPoints == NUMPOINTS - 1 && bPoints == NUMPOINTS)
      modifies this`drawn, this`aPoints, this`bPoints, this`aGames, this`bGames, this`aSets, this`bSets
      modifies this`pAWinGame, this`pBWinGame, this`pAWinSet, this`pBWinSet, this`pAWinMatch, this`pBWinMatch
      modifies this`gameCache, this`setCache, this`tiebrekerCache, this`matchCache
      modifies this`matchHistory, this`pointId
      ensures aSets == old(aSets) && bSets == old(bSets)
      ensures aPoints > bPoints ==> aGames == old(aGames) + 1 && bGames == old(bGames)
      ensures aPoints <= bPoints ==> bGames == old(bGames) + 1 && aGames == old(aGames)
      ensures ad ==> ClosesGame(aPoints, bPoints) || ClosesGame(bPoints, aPoints)
      ensures !ad ==> aPoints + bPoints == 2 * NUMPOINTS
      ensures drawn + old(|matchHistory|) == old(drawn) + |matchHistory|
      ensures old(HistoryFollowsDraws(winner)) ==> HistoryFollowsDraws(winner)
      ensures old(HistoryForecasts()) && !InTiebreak(old(CurrentScore())) ==> HistoryForecasts()
    {
      if ad {
        while Dist(aPoints, bPoints) < 2
          invariant aPoints >= NUMPOINTS - 1 && bPoints >= NUMPOINTS - 1 && Dist(aPoints, bPoints) <= 2
          invariant aGames == old(aGames) && bGames == old(bGames) && aSets == old(aSets) && bSets == old(bSets)
          invariant server == old(server)
          invariant drawn + old(|matchHistory|) == old(drawn) + |matchHistory|
          invariant old(HistoryFollowsDraws(winner)) ==> HistoryFollowsDraws(winner)
          invariant old(HistoryForecasts()) && !InTiebreak(old(CurrentScore())) ==> HistoryForecasts()
            decreases DrawsLeft(), if 0.0 < PointProb(MatchParams(), server) then 2 + bPoints - aPoints
                                 else 2 + aPoints - bPoints
        {
          PlayPoint();
        }
      } else {
        PlayPoint();
      }
      BumpCounter(if aPoints > bPoints then A else B, Games);
    }

    /** `playTieBreaker`: points with the tiebreak serving rotation until one
        player has seven; two clear by then wins the set, otherwise points go
        on until one player is two clear or reaches RECURSIVECAP. The set goes
        to the player with more points, and the points are never level at the
        end. */
    method PlayTieBreaker()
      requires aGames <= NUMGAMES && bGames <= NUMGAMES
      modifies this`drawn, this`aPoints, this`bPoints, this`aGames, this`bGames, this`aSets, this`bSets
      modifies this`pAWinGame, this`pBWinGame, this`pAWinSet, this`pBWinSet, this`pAWinMatch, this`pBWinMatch
      modifies this`gameCache, this`setCache, this`tiebrekerCache, this`matchCache
      modifies this`matchHistory, this`pointId, this`server, this`tiebrekerFirstServe
      ensures aGames == old(aGames) && bGames == old(bGames) && aPoints != bPoints
      ensures aPoints > bPoints ==> aSets == old(aSets) + 1 && bSets == old(bSets)
      ensures aPoints < bPoints ==> bSets == old(bSets) + 1 && aSets == old(aSets)
      ensures ClosesTiebreak(aPoints, bPoints) || ClosesTiebreak(bPoints, aPoints)
      ensures TiebreakServing(old(server), aPoints + bPoints, server, tiebrekerFirstServe)
      ensures drawn + old(|matchHistory|) == old(drawn) + |matchHistory|
      ensures old(HistoryFollowsDraws(winner)) ==> HistoryFollowsDraws(winner)
      ensures old(HistoryForecasts()) && tiebrekerSaveNextServer == old(server)
              ==> HistoryForecasts()
    {
      ghost var start := server;
      ResetPoints();
      tiebrekerFirstServe := false;
      while aPoints < NUMPOINTSTIEBREAK && bPoints < NUMPOINTSTIEBREAK
        invariant aPoints <= NUMPOINTSTIEBREAK && bPoints <= NUMPOINTSTIEBREAK
        invariant !(aPoints == NUMPOINTSTIEBREAK && bPoints == NUMPOINTSTIEBREAK)
        invariant TiebreakServing(old(server), aPoints + bPoints, server, tiebrekerFirstServe)
        invariant aGames == old(aGames) && bGames == old(bGames) && aSets == old(aSets) && bSets == old(bSets)
        invariant drawn + old(|matchHistory|) == old(drawn) + |matchHistory|
        invariant old(HistoryFollowsDraws(winner)) ==> HistoryFollowsDraws(winner)
        invariant old(TiebreakForecasts(start)) ==> TiebreakForecasts(start)
        decreases 2 * NUMPOINTSTIEBREAK - aPoints - bPoints
      {
        PlayTiebreakPoint(start);
      }
      if Dist(aPoints, bPoints) >= 2 {
        BumpCounter(if aPoints > bPoints then A else B, Sets);
      } else {
        PlayTiebreakWinByTwo(start);
      }
    }

    /** The win-by-two part of `playTieBreaker`, entered at seven points to
        six either way: points until one player is two clear or reaches
        RECURSIVECAP, then the set to the player ahead. `start` is the player
        who served the first point of the tiebreak. */
    method PlayTiebreakWinByTwo(ghost start: Player)
      requires aGames <= NUMGAMES && bGames <= NUMGAMES
      requires (aPoints == NUMPOINTSTIEBREAK && bPoints == NUMPOINTSTIEBREAK - 1)
               || (aPoints == NUMPOINTSTIEBREAK - 1 && bPoints == NUMPOINTSTIEBREAK)
      requires TiebreakServing(start, aPoints + bPoints, server, tiebrekerFirstServe)
      modifies this`drawn, this`aPoints, this`bPoints, this`aGames, this`bGames, this`aSets, this`bSets
      modifies this`pAWinGame, this`pBWinGame, this`pAWinSet, this`pBWinSet, this`pAWinMatch, this`pBWinMatch
      modifies this`gameCache, this`setCache, this`tiebrekerCache, this`matchCache
      modifies this`matchHistory, this`pointId, this`server, this`tiebrekerFirstServe
      ensures aGames == old(aGames) && bGames == old(bGames) && aPoints != bPoints
      ensures aPoints > bPoints ==> aSets == old(aSets) + 1 && bSets == old(bSets)
      ensures aPoints < bPoints ==> bSets == old(bSets) + 1 && aSets == old(aSets)
      ensures (aPoints > NUMPOINTSTIEBREAK && aPoints == bPoints + 2) || (bPoints > NUMPOINTSTIEBREAK && bPoints == aPoints + 2)
              || (aPoints == RECURSIVECAP && bPoints + 1 == aPoints) || (bPoints == RECURSIVECAP && aPoints + 1 == bPoints)
      ensures TiebreakServing(start, aPoints + bPoints, server, tiebrekerFirstServe)
      ensures drawn + old(|matchHistory|) == old(drawn) + |matchHistory|
      ensures old(HistoryFollowsDraws(winner)) ==> HistoryFollowsDraws(winner)
      ensures old(TiebreakForecasts(start)) ==> TiebreakForecasts(start)
    {
      while Dist(aPoints, bPoints) < 2 && aPoints < RECURSIVECAP && bPoints < RECURSIVECAP
        invariant NUMPOINTSTIEBREAK - 1 <= aPoints <= RECURSIVECAP
        invariant NUMPOINTSTIEBREAK - 1 <= bPoints <= RECURSIVECAP
        invariant aPoints + bPoints >= 2 * NUMPOINTSTIEBREAK - 1 && Dist(aPoints, bPoints) <= 2
        invariant aPoints == bPoints ==> aPoints < RECURSIVECAP
        invariant TiebreakServing(start, aPoints + bPoints, server, tiebrekerFirstServe)
        invariant aGames == old(aGames) && bGames == old(bGames) && aSets == old(aSets) && bSets == old(bSets)
        invariant drawn + old(|matchHistory|) == old(drawn) + |matchHistory|
        invariant old(HistoryFollowsDraws(winner)) ==> HistoryFollowsDraws(winner)
        invariant old(TiebreakForecasts(start)) ==> TiebreakForecasts(start)
        decreases 2 * RECURSIVECAP - aPoints - bPoints
      {
        PlayTiebreakPoint(start);
      }
      if aPoints != bPoints {
        BumpCounter(if aPoints > bPoints then A else B, Sets);
      }
    }

    /** One tiebreak point, the body both loops of `playTieBreaker` share:
        `playPoint`, then one step of the serving rotation. */
    method PlayTiebreakPoint(ghost start: Player)
      requires aGames <= NUMGAMES && bGames <= NUMGAMES
      requires TiebreakServing(start, aPoints + bPoints, server, tiebrekerFirstServe)
      modifies this`drawn, this`aPoints, this`bPoints, this`aGames, this`bGames, this`aSets, this`bSets
      modifies this`pAWinGame, this`pBWinGame, this`pAWinSet, this`pBWinSet, this`pAWinMatch, this`pBWinMatch
      modifies this`gameCache, this`setCache, this`tiebrekerCache, this`matchCache
      modifies this`matchHistory, this`pointId, this`server, this`tiebrekerFirstServe
      ensures drawn == old(drawn) + 1
      ensures CurrentScore() == Bump(old(CurrentScore()), DrawWinner(draws, MatchParams(), old(drawn), old(server)), Points)
      ensures (server, tiebrekerFirstServe) == TiebreakRotate(old(server), old(tiebrekerFirstServe))
      ensures TiebreakServing(start, aPoints + bPoints, server, tiebrekerFirstServe)
      ensures |matchHistory| == old(|matchHistory|) + 1
      ensures old(HistoryFollowsDraws(winner)) ==> HistoryFollowsDraws(winner)
      ensures old(TiebreakForecasts(start)) ==> TiebreakForecasts(start)
    {
      TiebreakServingIsTurn(start, aPoints + bPoints, server, tiebrekerFirstServe);
      PlayPoint();
      var next := TiebreakRotate(server, tiebrekerFirstServe);
      server, tiebrekerFirstServe := next.0, next.1;
      TiebreakServingStep(start, old(aPoints + bPoints), old(server), old(tiebrekerFirstServe));
    }

    /** `playSet`: games until one player has six; a lead of two by then
        wins the set, otherwise one more game is played, and at six-all the
        tiebreak decides, after which the player who served first in it
        serves the next game, as the alternation says anyway. A takes the
        set exactly when A ends with more games, or at six-all with more
        tiebreak points. */
    method PlaySet()
      modifies this`drawn, this`aPoints, this`bPoints, this`aGames, this`bGames, this`aSets, this`bSets
      modifies this`pAWinGame, this`pBWinGame, this`pAWinSet, this`pBWinSet, this`pAWinMatch, this`pBWinMatch
      modifies this`gameCache, this`setCache, this`tiebrekerCache, this`matchCache
      modifies this`matchHistory, this`pointId, this`server, this`tiebrekerFirstServe, this`tiebrekerSaveNextServer
      ensures SetWinner() == A ==> aSets == old(aSets) + 1 && bSets == old(bSets)
      ensures SetWinner() == B ==> bSets == old(bSets) + 1 && aSets == old(aSets)
      ensures ClosesSet(aGames, bGames) || ClosesSet(bGames, aGames)
              || (aGames == NUMGAMES && bGames == NUMGAMES
                  && (ClosesTiebreak(aPoints, bPoints) || ClosesTiebreak(bPoints, aPoints)))
      ensures server == ServerAfter(old(server), aGames + bGames)
      ensures aGames == bGames ==> tiebrekerSaveNextServer == old(server)
      ensures drawn + old(|matchHistory|) == old(drawn) + |matchHistory|
      ensures old(HistoryFollowsDraws(winner)) ==> HistoryFollowsDraws(winner)
      ensures old(HistoryForecasts()) ==> HistoryForecasts()
    {
      ResetGames();
      while aGames < NUMGAMES && bGames < NUMGAMES
        invariant aGames <= NUMGAMES && bGames <= NUMGAMES && !(aGames == NUMGAMES && bGames == NUMGAMES)
        invariant aSets == old(aSets) && bSets == old(bSets)
        invariant server == ServerAfter(old(server), aGames + bGames)
        invariant drawn + old(|matchHistory|) == old(drawn) + |matchHistory|
        invariant old(HistoryFollowsDraws(winner)) ==> HistoryFollowsDraws(winner)
        invariant old(HistoryForecasts()) ==> HistoryForecasts()
        decreases 2 * NUMGAMES - aGames - bGames
      {
        PlayGame();
      }
      if aGames > bGames + 1 {
        BumpCounter(A, Sets);
      } else if aGames + 1 < bGames {
        BumpCounter(B, Sets);
      } else {
        PlaySetClose();
      }
    }

    /** The end of `playSet` from six games to five either way: one more
        game, which makes seven-five or six-all, and at six-all the tiebreak,
        with the server of its first point restored afterwards. */
    method PlaySetClose()
      requires (aGames == NUMGAMES && bGames == NUMGAMES - 1) || (aGames == NUMGAMES - 1 && bGames == NUMGAMES)
      modifies this`drawn, this`aPoints, this`bPoints, this`aGames, this`bGames, this`aSets, this`bSets
      modifies this`pAWinGame, this`pBWinGame, this`pAWinSet, this`pBWinSet, this`pAWinMatch, this`pBWinMatch
      modifies this`gameCache, this`setCache, this`tiebrekerCache, this`matchCache
      modifies this`matchHistory, this`pointId, this`server, this`tiebrekerFirstServe, this`tiebrekerSaveNextServer
      ensures SetWinner() == A ==> aSets == old(aSets) + 1 && bSets == old(bSets)
      ensures SetWinner() == B ==> bSets == old(bSets) + 1 && aSets == old(aSets)
      ensures ClosesSet(aGames, bGames) || ClosesSet(bGames, aGames)
              || (aGames == NUMGAMES && bGames == NUMGAMES
                  && (ClosesTiebreak(aPoints, bPoints) || ClosesTiebreak(bPoints, aPoints)))
      ensures aGames + bGames == 2 * NUMGAMES
      ensures server == Other(old(server))
      ensures aGames == bGames ==> tiebrekerSaveNextServer == Other(old(server))
      ensures drawn + old(|matchHistory|) == old(drawn) + |matchHistory|
      ensures old(HistoryFollowsDraws(winner)) ==> HistoryFollowsDraws(winner)
      ensures old(HistoryForecasts()) ==> HistoryForecasts()
    {
      PlayGame();
      if aGames > bGames + 1 {
        BumpCounter(A, Sets);
      } else if aGames + 1 < bGames {
        BumpCounter(B, Sets);
      } else {
        tiebrekerSaveNextServer := server;
        PlayTieBreaker();
        server := tiebrekerSaveNextServer;
      }
    }

    /** The winner of the set just played: the player with more games, or
        at six-all the player with more tiebreak points. */
    function SetWinner(): Player
      reads this`aPoints, this`bPoints, this`aGames, this`bGames
    {
      if aGames > bGames || (aGames == bGames && aPoints > bPoints) then A else B
    }

    /** `playTennis`: a fresh score, empty caches and an empty history, then
        sets until one player has NUMSETS, who becomes the winner. Entry `k`
        of the history records the point that random value number
        `old(drawn) + k` decided, with the winner field as it stood before
        the match. */
    method PlayTennis()
      modifies this`drawn, this`aPoints, this`bPoints, this`aGames, this`bGames, this`aSets, this`bSets
      modifies this`pAWinGame, this`pBWinGame, this`pAWinSet, this`pBWinSet, this`pAWinMatch, this`pBWinMatch
      modifies this`gameCache, this`setCache, this`tiebrekerCache, this`matchCache
      modifies this`matchHistory, this`pointId, this`server, this`tiebrekerFirstServe, this`tiebrekerSaveNextServer
      modifies this`winner
      ensures (aSets == NUMSETS && bSets < NUMSETS && winner == Some(A))
              || (bSets == NUMSETS && aSets < NUMSETS && winner == Some(B))
      ensures drawn == old(drawn) + |matchHistory|
      ensures HistoryFollowsDraws(old(winner))
      ensures HistoryForecasts()
    {
      ResetSets();
      pointId := 0;
      matchHistory := [];
      while aSets < NUMSETS && bSets < NUMSETS
        invariant aSets <= NUMSETS && bSets <= NUMSETS && !(aSets == NUMSETS && bSets == NUMSETS)
        invariant winner == old(winner)
        invariant drawn == old(drawn) + |matchHistory|
        invariant HistoryFollowsDraws(winner)
        invariant HistoryForecasts()
        decreases 2 * NUMSETS - aSets - bSets
      {
        PlaySet();
      }
      if aSets > bSets {
        winner := Some(A);
      } else if aSets < bSets {
        winner := Some(B);
      }
    }
  }
}
