// The match history of `TennisMatch`: one entry per point, recording the
// score and forecast before the point and the change in the forecast since
// the previous entry.
module History {
  import opened Tennis
  import opened Engine
  import opened EngineLemmas
  import opened Forecast

  /** The three counters `increment` can bump. */
  datatype Metric = Points | Games | Sets

  function MetricName(m: Metric): string
  {
    match m
    case Points => "points"
    case Games => "games"
    case Sets => "sets"
  }

  /** The message of an entry, kept as the player and metric it is written
      from; `MessageText` gives the text "<player> wins <metric>". */
  datatype Message = Wins(player: Player, metric: Metric)

  function MessageText(m: Message): (r: string)
    ensures |r| == 7 + |MetricName(m.metric)|
    ensures r[0] == (if m.player == A then 'a' else 'b')
    ensures r[1..7] == " wins " && r[7..] == MetricName(m.metric)
  {
    PlayerName(m.player) + " wins " + MetricName(m.metric)
  }

  /** The text names exactly one player and one metric, so keeping the pair
      loses nothing. */
  lemma MessageDeterminesWinner(m: Message, n: Message)
    requires MessageText(m) == MessageText(n)
    ensures m == n
  {
  }

  datatype Entry = Entry(pointId: nat, score: Score, probs: Probs, deltas: Probs,
                         server: Player, winner: Option<Player>, message: Message)

  function Zero(): Probs
  {
    Probs(0.0, 0.0, 0.0, 0.0, 0.0, 0.0)
  }

  function Minus(x: Probs, y: Probs): Probs
  {
    Probs(x.aGame - y.aGame, x.bGame - y.bGame, x.aSet - y.aSet, x.bSet - y.bSet,
          x.aMatch - y.aMatch, x.bMatch - y.bMatch)
  }

  function Plus(x: Probs, y: Probs): Probs
  {
    Probs(x.aGame + y.aGame, x.bGame + y.bGame, x.aSet + y.aSet, x.bSet + y.bSet,
          x.aMatch + y.aMatch, x.bMatch + y.bMatch)
  }

  /** The deltas of a new entry with forecast `cur`: zero for the first entry,
      otherwise what must be added to the previous entry's forecast to reach
      `cur`. */
  function Deltas(h: seq<Entry>, cur: Probs): (d: Probs)
    ensures |h| == 0 ==> d == Zero()
    ensures |h| > 0 ==> Plus(h[|h| - 1].probs, d) == cur
  {
    if |h| == 0 then Zero() else Minus(cur, h[|h| - 1].probs)
  }

  /** When both forecasts are complementary, each B delta is minus the A delta. */
  lemma DeltasOpposite(h: seq<Entry>, cur: Probs)
    requires |h| > 0 ==> Complementary(h[|h| - 1].probs)
    requires Complementary(cur)
    ensures var d := Deltas(h, cur);
            d.bGame == -d.aGame && d.bSet == -d.aSet && d.bMatch == -d.aMatch
  {
  }

  /** Entry `i` carries its own index, the deltas against entry `i - 1`, a
      complementary forecast and a point message. */
  predicate EntryOk(h: seq<Entry>, i: nat)
    requires i < |h|
  {
    h[i].pointId == i
    && h[i].deltas == Deltas(h[..i], h[i].probs)
    && Complementary(h[i].probs)
    && h[i].message.metric == Points
  }

  predicate WellFormedHistory(h: seq<Entry>)
  {
    forall i :: 0 <= i < |h| ==> EntryOk(h, i)
  }

  /** Appending an entry with the next index, its deltas against the last
      entry, a complementary forecast and a point message keeps a history
      well formed. */
  lemma WellFormedByEntry(h: seq<Entry>, e: Entry)
    requires WellFormedHistory(h)
    requires e.pointId == |h| && e.deltas == Deltas(h, e.probs) && Complementary(e.probs)
    requires e.message.metric == Points
    ensures WellFormedHistory(h + [e])
  {
    var h' := h + [e];
    forall j | 0 <= j < |h'|
      ensures EntryOk(h', j)
    {
      assert h'[..j] == if j < |h| then h[..j] else h;
      if j < |h| {
        assert EntryOk(h, j);
      }
    }
  }

  /** The running total of the deltas of the first `n` entries. */
  function SumDeltas(h: seq<Entry>, n: nat): Probs
    requires n <= |h|
  {
    if n == 0 then Zero() else Plus(SumDeltas(h, n - 1), h[n - 1].deltas)
  }

  /** The deltas telescope: over the first `n` entries of a well-formed
      history they add up to the change from the first forecast to entry
      `n - 1`'s. */
  lemma {:induction false} DeltasTelescope(h: seq<Entry>, n: nat)
    requires WellFormedHistory(h) && 0 < n <= |h|
    ensures SumDeltas(h, n) == Minus(h[n - 1].probs, h[0].probs)
  {
    assert EntryOk(h, n - 1);
    if n > 1 {
      DeltasTelescope(h, n - 1);
      assert h[..n - 1][n - 2] == h[n - 2];
      MinusChain(h[0].probs, h[n - 2].probs, h[n - 1].probs);
    } else {
      assert h[0].deltas == Zero();
      PlusZero(h[0].deltas);
      MinusSelf(h[0].probs);
    }
  }

  lemma PlusZero(x: Probs)
    ensures Plus(Zero(), x) == x
  {
  }

  lemma MinusSelf(x: Probs)
    ensures Minus(x, x) == Zero()
  {
  }

  /** Two successive differences add up to the difference across both. */
  lemma MinusChain(x: Probs, y: Probs, z: Probs)
    ensures Plus(Minus(y, x), Minus(z, y)) == Minus(z, x)
  {
  }

  /** The entry `increment` pushes before a point that `player` wins: the
      pre-point score and serving side, the freshly computed forecast, its
      deltas against the last entry, and the current match winner. */
  function Snapshot(id: nat, s: Score, probs: Probs, h: seq<Entry>, server: Player,
                    winner: Option<Player>, player: Player): (e: Entry)
    ensures e.score == s && e.probs == probs && e.server == server && e.winner == winner
    ensures e.message == Wins(player, Points)
    ensures |h| == 0 ==> e.deltas == Zero()
    ensures |h| > 0 ==> Plus(h[|h| - 1].probs, e.deltas) == probs
    ensures id == |h| && WellFormedHistory(h) && Complementary(probs) ==> WellFormedHistory(h + [e])
  {
    var e := Entry(id, s, probs, Deltas(h, probs), server, winner, Wins(player, Points));
    if id == |h| && WellFormedHistory(h) && Complementary(probs) then
      WellFormedByEntry(h, e);
      e
    else
      e
  }

  /** The `i`-th value of `Math.random()` in a run: the supplied numbers, then
      zeros once they are used up. */
  function RandomAt(draws: seq<real>, i: nat): real
  {
    if i < |draws| then draws[i] else 0.0
  }

  /** The winner of the point played with random value number `i`: A exactly
      when the value is below A's chance of winning a point against `server`. */
  function DrawWinner(draws: seq<real>, p: Params, i: nat, server: Player): (w: Player)
    ensures w == A <==> RandomAt(draws, i) < PointProb(p, server)
  {
    if RandomAt(draws, i) < PointProb(p, server) then A else B
  }

  /** `h` is the history of play that began at random value number `d0`:
      it is well formed, every entry records `w` as the match winner,
      entry `k` names the winner that random value number `d0 + k` gives
      against that entry's server, and with valid point probabilities every
      recorded figure is a probability. */
  predicate FollowsDraws(h: seq<Entry>, d0: nat, w: Option<Player>, draws: seq<real>, p: Params)
  {
    WellFormedHistory(h)
    && (forall k :: 0 <= k < |h| ==>
          h[k].winner == w && h[k].message == Wins(DrawWinner(draws, p, d0 + k, h[k].server), Points))
    && (ValidParams(p) ==> forall k :: 0 <= k < |h| ==> ProbsInUnit(h[k].probs))
  }

  /** Pushing the snapshot of the forecast at the current position, for the
      point that the next random value decides, keeps the history following
      the draws. */
  lemma FollowsBySnapshot(h: seq<Entry>, d0: nat, i: nat, d: nat, s: Score, probs: Probs, server: Player,
                          firstServe: bool, saved: Player, w: Option<Player>, draws: seq<real>, p: Params)
    requires FollowsDraws(h, d0, w, draws, p)
    requires s.aGames <= NUMGAMES && s.bGames <= NUMGAMES && probs == Predictions(p, s, server, firstServe, saved)
    requires i == |h| && d == d0 + |h|
    ensures FollowsDraws(h + [Snapshot(i, s, probs, h, server, w, DrawWinner(draws, p, d, server))], d0, w, draws, p)
  {
    if ValidParams(p) {
      PredictionsInUnit(p, s, server, firstServe, saved);
    }
    var e := Snapshot(i, s, probs, h, server, w, DrawWinner(draws, p, d, server));
    var h' := h + [e];
    forall k | 0 <= k < |h'|
      ensures h'[k].winner == w && h'[k].message == Wins(DrawWinner(draws, p, d0 + k, h'[k].server), Points)
      ensures ValidParams(p) ==> ProbsInUnit(h'[k].probs)
    {
      if k < |h| {
        assert h'[k] == h[k];
      }
    }
  }

  /** Every entry holds the forecast at its own score and server. */
  predicate RecordsForecasts(h: seq<Entry>, p: Params)
  {
    forall k {:trigger EntryForecast(p, h[k].score, h[k].server)} :: 0 <= k < |h| ==>
      h[k].score.aGames <= NUMGAMES && h[k].score.bGames <= NUMGAMES
      && h[k].probs == EntryForecast(p, h[k].score, h[k].server)
  }

  /** Pushing the snapshot of the forecast taken in a serving state that
      follows the tiebreak rotation keeps every entry's figures the forecast
      at its own score. */
  lemma RecordsBySnapshot(h: seq<Entry>, i: nat, s: Score, probs: Probs, server: Player, firstServe: bool,
                          saved: Player, w: Option<Player>, player: Player, p: Params)
    requires RecordsForecasts(h, p)
    requires s.aGames <= NUMGAMES && s.bGames <= NUMGAMES && probs == Predictions(p, s, server, firstServe, saved)
    requires InTiebreak(s) ==> (server, firstServe) == TiebreakTurn(saved, s.aPoints + s.bPoints)
    ensures RecordsForecasts(h + [Snapshot(i, s, probs, h, server, w, player)], p)
  {
    TiebreakServingIsTurn(saved, s.aPoints + s.bPoints, server, firstServe);
    PredictionsAtEntry(p, s, server, firstServe, saved);
    var h' := h + [Snapshot(i, s, probs, h, server, w, player)];
    forall k | 0 <= k < |h'|
      ensures h'[k].score.aGames <= NUMGAMES && h'[k].score.bGames <= NUMGAMES
      ensures h'[k].probs == EntryForecast(p, h'[k].score, h'[k].server)
    {
      if k < |h| {
        assert h'[k] == h[k];
        assert h[k].probs == EntryForecast(p, h[k].score, h[k].server);
      }
    }
  }
}
