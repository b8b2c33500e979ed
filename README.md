# Tennis match model

A Dafny model of `TennisMatch` from `tennis-web-app/src/lib/tennis-model.ts`.
The class does three jobs:

- it plays out a tennis match point by point from two point probabilities;
- before each point it forecasts the chances A and B have of winning the current game, set and match;
- it records one history entry per point.

The model has six parts:

- **`Tennis`** holds the shared vocabulary: players, the two point probabilities as `Params`, the score, the six forecast figures and the scoring constants.
- **`Engine`** has the four recurrences `predictGame`, `predictTiebreaker`, `predictSet` and `predictMatch`. Each is a pure function over `real`, with its termination measure and its `[0,1]` bound.
- **`EngineLemmas`** proves properties of those recurrences:
  - their decided positions;
  - the complement: the engine run for B on the mirrored probabilities gives 1 minus A's chance;
  - independence from the server when serving gives no edge;
  - the even match and the certain match;
  - the match figure is a convex combination of its four branches;
  - a closed form of the tiebreak serving rotation.
- **`Forecast`** is `runPredictions` as a pure function of the score and the serving state, with lemmas that tie it back to the recurrences.
- **`History`** covers the history entries:
  - the delta rule;
  - well-formedness of a history, and the deltas telescoping;
  - the link between each entry and the random value that decided its point;
  - each entry's figures being the forecast at that entry's own score and server.
- **`Display`** is `displayScores` and its score line.
- **`Simulator`** is the class `TennisMatch` itself.
  - Its fields are the source's fields.
  - Its four caches are maps whose types say that every cached value is the recurrence's value at its key.
  - Memoising `Predict*` methods are proved equal to the recurrences.
  - `RunPredictions` and `Increment` are modelled.
  - The `Play*` methods are `while` loops with invariants. They are proved to score each game, tiebreak, set and match as the source does.

`Math.random()` becomes a constant sequence `draws` of the values it returns in one run, with a counter `drawn`. Point `k` is decided by value `k`. Past the end of the sequence, every value is `0.0`.

Four behaviours of the code shape the history the model records:

- `increment` pushes the history entry before it bumps the point counter (`tennis-web-app/src/lib/tennis-model.ts` lines 219-274). An entry therefore holds the score and the forecast from before its point.
- `playTennis` never resets `winner` (lines 197-211). Each entry records the match winner as it stood before the run, which on a fresh match is none.
- The message is the player, the word "wins" and the metric (line 239). Every entry is a points entry, so the message is "a wins points" or "b wins points".
- `playPoint` uses `pAWinPointReturningServe` as A's chance of winning a point on B's serve (lines 81-84).

## Model

| member | source | states |
|---|---|---|
| Tennis.PointProb | tennis-web-app/src/lib/tennis-model.ts:81-84 | A's chance of winning a point is the on-serve figure when A serves and the returning figure otherwise; it is in [0,1] when the parameters are |
| Tennis.MirrorPointProb | tennis-web-app/src/lib/tennis-model.ts:325-328 | from B's side with the mirrored parameters, B's chance of winning a point is 1 minus A's; mirroring twice gives the parameters back |
| Engine.TiebreakRotate | tennis-web-app/src/lib/tennis-model.ts:161-166 | one step of the tiebreak serving rotation flips the first-serve flag, and keeps the server exactly when the flag was set |
| Engine.TiebreakTurn | tennis-web-app/src/lib/tennis-model.ts:419-427 | stepping the rotation n times from the opening point leaves the first-serve flag set exactly when n is odd |
| Engine.GameProb | tennis-web-app/src/lib/tennis-model.ts:311-334 | the game recurrence terminates (measure 42-a-b) and is a probability whenever both point probabilities are |
| Engine.Midpoint | tennis-web-app/src/lib/tennis-model.ts:411-412 | the midpoint used beyond seven-all in a tiebreak is a probability when the parameters are |
| Engine.TiebreakProb | tennis-web-app/src/lib/tennis-model.ts:409-436 | the tiebreak recurrence terminates (non-terminal positions have a+b <= 15) and is a probability for valid parameters |
| Engine.SetProb | tennis-web-app/src/lib/tennis-model.ts:352-391 | for games at most seven the set recurrence terminates and both components (set chance, serves-next chance) are probabilities |
| Engine.Blend | tennis-web-app/src/lib/tennis-model.ts:458-473 | the four-way split over winning or losing the set and serving or receiving next is a probability when its inputs are |
| Engine.MatchProb | tennis-web-app/src/lib/tennis-model.ts:453-473 | the match recurrence terminates (measure 6-a-b) and is a probability for valid parameters |
| EngineLemmas.GameProbDecided | tennis-web-app/src/lib/tennis-model.ts:311-323 | the game is worth 1 when A has four points and two clear or more than 20 points, and 0 in the symmetric B cases |
| EngineLemmas.TiebreakProbDecided | tennis-web-app/src/lib/tennis-model.ts:409-412 | a won tiebreak is worth 1, a lost one 0, and beyond seven-all within one point the value is the midpoint of the two point probabilities |
| EngineLemmas.SetProbDecided | tennis-web-app/src/lib/tennis-model.ts:352-372 | at every terminal set position and at 6-6 the serves-next figure is 1 exactly when A serves; the set value is 1 or 0 at won or lost sets, and at 6-6 it is the tiebreak from 0-0 with a first serve still to come |
| EngineLemmas.MatchProbDecided | tennis-web-app/src/lib/tennis-model.ts:453-454 | the match is worth 1 once A has three sets and 0 once B has three and A fewer |
| EngineLemmas.MixComplement | tennis-web-app/src/lib/tennis-model.ts:330-334 | a point mix added to its mirror image on B's side (the complementary weight, the complemented continuations in swapped order) gives 1; the same holds of the set's game mix at lines 386-391 |
| EngineLemmas.GameComplement | tennis-web-app/src/lib/tennis-model.ts:311-334 | A's game chance plus B's, computed by the same recurrence on the mirrored parameters, is 1 wherever at most one side is past the cap |
| EngineLemmas.TiebreakComplement | tennis-web-app/src/lib/tennis-model.ts:409-436 | A's tiebreak chance plus B's mirrored one is 1 at every position |
| EngineLemmas.SetComplementDecided | tennis-web-app/src/lib/tennis-model.ts:352-372 | at the positions where the set recurrence stops, both of its figures complement B's mirrored ones |
| EngineLemmas.SetComplement | tennis-web-app/src/lib/tennis-model.ts:352-391 | B's set chance is 1 minus A's and B's serves-next chance is 1 minus A's, at every position except 7-7 |
| EngineLemmas.BlendMirror | tennis-web-app/src/lib/tennis-model.ts:458-473 | a four-way split and its mirror image (complemented weights, continuations reversed and complemented) add up to 1 |
| EngineLemmas.MatchComplementStep | tennis-web-app/src/lib/tennis-model.ts:456-473 | the complement of one undecided match position follows from the set complement and from the complements of its four continuations |
| EngineLemmas.MatchComplementDecided | tennis-web-app/src/lib/tennis-model.ts:453-454 | when exactly one side has three sets, A's and B's mirrored match chances add up to 1 |
| EngineLemmas.MatchComplement | tennis-web-app/src/lib/tennis-model.ts:442-477 | B's match chance is 1 minus A's whenever the match is not over for both sides |
| EngineLemmas.GameServerFree | tennis-web-app/src/lib/tennis-model.ts:325-334 | when A's point chance is the same on and off serve, the game chance does not depend on the server |
| EngineLemmas.TiebreakServerFree | tennis-web-app/src/lib/tennis-model.ts:414-436 | with no serving edge the tiebreak chance depends on neither the server nor the first-serve flag |
| EngineLemmas.SetServerFree | tennis-web-app/src/lib/tennis-model.ts:352-388 | with no serving edge the set chance does not depend on the server |
| EngineLemmas.MatchDecidedServerFree | tennis-web-app/src/lib/tennis-model.ts:453-454 | a finished match has the same value whoever would serve |
| EngineLemmas.BlendIgnoresServe | tennis-web-app/src/lib/tennis-model.ts:458-473 | when the continuations do not depend on who serves next, the four-way split is a plain mix over the set |
| EngineLemmas.MatchServerFree | tennis-web-app/src/lib/tennis-model.ts:442-477 | with no serving edge the match chance does not depend on the server of the next set |
| EngineLemmas.FairMatchIsEven | tennis-web-app/src/lib/tennis-model.ts:442-477 | with one half on and off serve, a level undecided match is worth exactly one half |
| EngineLemmas.DeuceCapped | tennis-web-app/src/lib/tennis-model.ts:311-334 | with a point chance of 0.6 the game from twenty all is worth 0.6 and from nineteen all 0.648, so past the cap deuce no longer repeats itself |
| EngineLemmas.GameSure | tennis-web-app/src/lib/tennis-model.ts:311-334 | if A wins every point, A wins every game B has not already won and where B is not past the cap |
| EngineLemmas.TiebreakSure | tennis-web-app/src/lib/tennis-model.ts:409-436 | if A wins every point, A wins every tiebreak B has not already won |
| EngineLemmas.BlendAsMix | tennis-web-app/src/lib/tennis-model.ts:458-473 | the four-way split is a mix over the serve of two mixes over the set |
| EngineLemmas.SetSureDecided | tennis-web-app/src/lib/tennis-model.ts:352-361 | a set A has already won on games, or at seven games, is worth 1 |
| EngineLemmas.SetSureStep | tennis-web-app/src/lib/tennis-model.ts:374-388 | a certain game followed by a certain set from the next score makes the set certain |
| EngineLemmas.SetSure | tennis-web-app/src/lib/tennis-model.ts:340-395 | if A wins every point, A wins the set from every score where B has fewer than six games |
| EngineLemmas.MatchSure | tennis-web-app/src/lib/tennis-model.ts:442-477 | if A wins every point, A wins the match from every score where B has fewer than three sets |
| EngineLemmas.MixBetween | tennis-web-app/src/lib/tennis-model.ts:330-334 | a mix with a weight in [0,1] lies between its two continuations |
| EngineLemmas.BlendBetween | tennis-web-app/src/lib/tennis-model.ts:458-473 | the four-way split with weights in [0,1] lies between the least and the greatest of its four continuations |
| EngineLemmas.MatchProbBetween | tennis-web-app/src/lib/tennis-model.ts:456-473 | an undecided match lies between the least and the greatest of its four continuations, so the recurrence is a convex combination of them |
| EngineLemmas.TiebreakTurnClosedForm | tennis-web-app/src/lib/tennis-model.ts:419-427 | after n points of the rotation, the flag is set exactly before odd points, and the server has changed exactly when (n+1)/2 is odd |
| EngineLemmas.TiebreakServingStep | tennis-web-app/src/lib/tennis-model.ts:161-166 | one step of the simulator's rotation moves the closed-form serving state on by one point |
| EngineLemmas.TiebreakServingIsTurn | tennis-web-app/src/lib/tennis-model.ts:419-427 | the closed form `TiebreakServing` holds of exactly the serving state that stepping the recurrence's rotation n times produces, so the recurrence and the simulator rotate identically |
| Forecast.SetForecastInUnit | tennis-web-app/src/lib/tennis-model.ts:518-531 | the set half of the forecast outside a tiebreak is a pair of probabilities |
| Forecast.SetForecastAtGameStart | tennis-web-app/src/lib/tennis-model.ts:511-536 | before the first point of a game that does not end the set on the spot, the forecast's set figures equal the set recurrence at the current game score |
| Forecast.Predictions | tennis-web-app/src/lib/tennis-model.ts:479-562 | every B figure of the forecast is 1 minus the A figure, and in a tiebreak the set figure is the game figure |
| Forecast.PredictionsInUnit | tennis-web-app/src/lib/tennis-model.ts:479-562 | with valid point probabilities every one of the six forecast figures is a probability |
| Forecast.SetFigureAtGameStart | tennis-web-app/src/lib/tennis-model.ts:518-531 | at the start of a game the forecast's set figure is the set recurrence at the current games |
| Forecast.MatchForecastAtSetStart | tennis-web-app/src/lib/tennis-model.ts:538-559 | at the start of a set the forecast's match figure is the match recurrence at the current sets |
| Forecast.PredictionsAtEntry | tennis-web-app/src/lib/tennis-model.ts:484-508 | in a serving state that follows the tiebreak rotation, the forecast depends only on the score and the server: the first-serve flag and the saved opener are fixed by them |
| Forecast.BlendKnownServer | tennis-web-app/src/lib/tennis-model.ts:495-507 | with a serves-next figure of 0 or 1 the four-way split reduces to the two-term tiebreak form |
| Forecast.TiebreakForecastAgrees | tennis-web-app/src/lib/tennis-model.ts:484-508 | at the start of a tiebreak the tiebreak forecast agrees with the set recurrence at 6-6 and with the four-way split of the match recurrence |
| History.MessageDeterminesWinner | tennis-web-app/src/lib/tennis-model.ts:239 | the message text determines its player and metric, so keeping the pair loses nothing |
| History.MessageText | tennis-web-app/src/lib/tennis-model.ts:239 | the message is the player's letter, then " wins ", then the metric's name |
| History.Deltas | tennis-web-app/src/lib/tennis-model.ts:222-237 | the first entry's deltas are zero; otherwise the previous entry's figures plus the deltas give the current figures |
| History.DeltasOpposite | tennis-web-app/src/lib/tennis-model.ts:229-237 | with complementary forecasts every B delta is minus the A delta |
| History.WellFormedByEntry | tennis-web-app/src/lib/tennis-model.ts:240-266 | appending an entry with the next index, its deltas against the last entry, a complementary forecast and a point message keeps a history well formed |
| History.Snapshot | tennis-web-app/src/lib/tennis-model.ts:240-263 | the entry holds the score, forecast, server and winner it is given and a points message; the first entry's deltas are zero and a later entry's deltas take the previous figures to the current ones; with the next index and a complementary forecast the history stays well formed |
| History.DeltasTelescope | tennis-web-app/src/lib/tennis-model.ts:229-237 | over a well-formed history the deltas of the first n entries add up to entry n-1's figures minus the first entry's |
| History.RecordsBySnapshot | tennis-web-app/src/lib/tennis-model.ts:240-266 | pushing the snapshot of a forecast taken in a serving state that follows the tiebreak rotation keeps every entry's figures the forecast at that entry's own score and server |
| History.FollowsBySnapshot | tennis-web-app/src/lib/tennis-model.ts:240-266 | pushing the snapshot of the forecast at the current position, for the point the next random value decides, keeps the history following the random values; with valid point probabilities every recorded figure stays a probability |
| Display.NatToString | tennis-web-app/src/lib/tennis-model.ts:581 | a count prints as at least one digit with no leading zero |
| Display.ParseNatToString | tennis-web-app/src/lib/tennis-model.ts:581 | reading the printed numeral back gives the number |
| Display.NatToStringInjective | tennis-web-app/src/lib/tennis-model.ts:581 | different counts print differently |
| Display.GameScoreText | tennis-web-app/src/lib/tennis-model.ts:566-579 | point names are shown (and indexed in bounds) only when both scores are below three; otherwise "Deuce" exactly at equal scores and "Advantage Player X" exactly for the leader, 3-0 included |
| Display.NoFortyShown | tennis-web-app/src/lib/tennis-model.ts:566-579 | no current-game text contains the digit 4, so "40" is never shown |
| Display.DisplayScores | tennis-web-app/src/lib/tennis-model.ts:565-582 | the score line opens with "Sets: " and closes with the current-game text |
| Display.DisplayDeterminesScore | tennis-web-app/src/lib/tennis-model.ts:565-582 | the score line determines the sets, the games and the current-game text |
| Simulator.TennisMatch.constructor | tennis-web-app/src/lib/tennis-model.ts:69-78 | the two probabilities and the starting server are stored; the starting server is also stored as `tiebrekerSaveNextServer`, which `playSet` overwrites before any tiebreak; the score, the forecast and the history start empty and the caches empty |
| Simulator.TennisMatch.ResetPoints | tennis-web-app/src/lib/tennis-model.ts:277-280 | both point counters become 0 and nothing else changes |
| Simulator.TennisMatch.ResetGames | tennis-web-app/src/lib/tennis-model.ts:282-286 | both game and both point counters become 0 and nothing else changes |
| Simulator.TennisMatch.ResetSets | tennis-web-app/src/lib/tennis-model.ts:288-298 | the score becomes 0 everywhere and all four caches are emptied |
| Simulator.TennisMatch.PredictGame | tennis-web-app/src/lib/tennis-model.ts:300-338 | the memoised game prediction returns the game recurrence, and the cache stays coherent |
| Simulator.TennisMatch.PredictTiebreaker | tennis-web-app/src/lib/tennis-model.ts:397-440 | the memoised tiebreak prediction returns the tiebreak recurrence, and the cache stays coherent |
| Simulator.TennisMatch.PredictSet | tennis-web-app/src/lib/tennis-model.ts:340-395 | the memoised set prediction returns both figures of the set recurrence, and the caches it touches stay coherent |
| Simulator.TennisMatch.PredictMatch | tennis-web-app/src/lib/tennis-model.ts:442-477 | the memoised match prediction returns the match recurrence, and every cache stays coherent |
| Simulator.TennisMatch.PredictAfterSet | tennis-web-app/src/lib/tennis-model.ts:458-467 | the four match continuations after a set are the match recurrence at the four following positions |
| Simulator.TennisMatch.ComputePredictions | tennis-web-app/src/lib/tennis-model.ts:479-562 | the figures computed through the caches are the forecast of the score and the serving state |
| Simulator.TennisMatch.RunPredictions | tennis-web-app/src/lib/tennis-model.ts:479-562 | the six probability fields become the forecast of the current score and serving state |
| Simulator.TennisMatch.RecordPoint | tennis-web-app/src/lib/tennis-model.ts:219-267 | the forecast is refreshed for the score before the point, and the history gains exactly the snapshot of that score, forecast, server and winner, with the next index; when the serving state follows the tiebreak rotation, a history whose entries hold their forecasts still does |
| Simulator.TennisMatch.PushSnapshot | tennis-web-app/src/lib/tennis-model.ts:222-267 | the history gains exactly the snapshot of the current score, forecast, server and winner, with its deltas and the next index; if the current figures are the forecast and the serving state follows the rotation, every entry still holds its forecast |
| Simulator.TennisMatch.Increment | tennis-web-app/src/lib/tennis-model.ts:213-275 | exactly the named counter goes up by one; for a point the forecast and the snapshot are recorded first from the pre-point score, and for games and sets the forecast, caches and history are unchanged; from a serving state that follows the tiebreak rotation every entry still holds its forecast |
| Simulator.TennisMatch.BumpCounter | tennis-web-app/src/lib/tennis-model.ts:270-274 | exactly the player's counter of the metric goes up by one |
| Simulator.Bump | tennis-web-app/src/lib/tennis-model.ts:270-274 | the named player's counter of the named metric goes up by one and the other five counters are unchanged |
| Simulator.TennisMatch.PlayPoint | tennis-web-app/src/lib/tennis-model.ts:80-91 | one random value is used, the point goes to the player it names, one entry is appended, and the history keeps following the random values; from a serving state that follows the tiebreak rotation every entry still holds its forecast |
| Simulator.TennisMatch.PlayGame | tennis-web-app/src/lib/tennis-model.ts:93-109 | exactly one game goes to the player with more points; with advantage scoring the game ends at four points two clear or two clear after deuce, without it at four points two clear or after one point from four-three; the serve passes over; outside a tiebreak every entry keeps holding its forecast |
| Simulator.TennisMatch.PlayDeuce | tennis-web-app/src/lib/tennis-model.ts:111-125 | from four-three either way the game goes to the player ahead: two clear with advantage scoring, or after one more point without it, so four-all goes to B; outside a tiebreak every entry keeps holding its forecast |
| Simulator.TennisMatch.PlayTieBreaker | tennis-web-app/src/lib/tennis-model.ts:152-195 | exactly one set goes to the player with more tiebreak points; the tiebreak ends at seven two clear, two clear beyond seven, or at the cap one point ahead; the serving state after n points is the rotation's closed form; with the opener saved in `tiebrekerSaveNextServer`, every entry keeps holding its forecast |
| Simulator.TennisMatch.PlayTiebreakWinByTwo | tennis-web-app/src/lib/tennis-model.ts:173-193 | from seven-six either way points go on until one player is two clear or reaches the cap, and that player takes the set; with the opener saved, every entry keeps holding its forecast |
| Simulator.TennisMatch.PlayTiebreakPoint | tennis-web-app/src/lib/tennis-model.ts:156-166 | one tiebreak point as the next random value decides, then one step of the serving rotation; with the opener saved, every entry keeps holding its forecast |
| Simulator.TennisMatch.PlaySet | tennis-web-app/src/lib/tennis-model.ts:127-150 | exactly one set goes to the set's winner; the set ends at six games two clear, at seven-five, or at six-all through the tiebreak; the serve alternates game by game, and after a tiebreak the player who opened it serves next; every entry keeps holding its forecast |
| Simulator.TennisMatch.PlaySetClose | tennis-web-app/src/lib/tennis-model.ts:138-149 | from six-five either way one more game makes seven-five or six-all, and six-all is settled by the tiebreak with the opener's serve restored afterwards; every entry keeps holding its forecast |
| Simulator.TennisMatch.PlayTennis | tennis-web-app/src/lib/tennis-model.ts:197-211 | one side ends with three sets and the other with fewer, and `winner` names that side; the history has one entry per random value used, each recording the point that value decided and holding the forecast at its own score and server, and with valid point probabilities every recorded figure is a probability |

## Left out

- The React components, `App.tsx` and the form are presentation and input handling. They are not part of this model.
- Floating point: probabilities are `real`, so nothing about rounding or bit-identical results is claimed.
- `Math.random()` is not modelled as randomness. Its values in one run are the constructor argument `draws`, and past the end of `draws` every value is `0.0`. With that convention the advantage-scoring deuce loop, which has no cap, still ends: A wins every later point when A's point chance is positive, and B wins every later point when it is 0. The tiebreak win-by-two loop needs no such convention, because `RECURSIVECAP` bounds it (lines 175-179).
- Simulator.TennisMatch.constructor: the source's default arguments (0.5, 0.5 and "a", lines 69-72) are not modelled; callers pass every argument.
- Simulator.TennisMatch.constructor: takes `ad` as a parameter. The source's public field is `true` unless a caller changes it before play. The two probabilities and `ad` are `const`, because the class never writes them.
- Cache keys are tuples, not strings. Besides the server and the score they hold the two point probabilities, which never change during a match; with them in the key, the cache types can state outright that each value is its recurrence's.
- Simulator.TennisMatch.RunPredictions: requires games at most six. `predictSet` recurses forever from 8-8, and the simulator never reaches seven games outside the set-closing game.
- Engine.SetProb: requires games at most seven, for the same termination reason.
- Forecast.Predictions: writes each mix with its factors as `game * win + (1 - game) * lose`, where the source writes `win * game + lose * (1 - game)`. The two are equal over the reals.
- The no-advantage branch of `playDeuce` is modelled as written: from four-three one point is played, and four-all goes to B.
- `displayScores` never shows "40". That is modelled as written.
- Past the cap on both sides, the game recurrence gives the game to A. GameComplement excludes that position for this reason.
- The set complement excludes 7-7. There the recurrence gives the set to whichever side it is run for.
- `MATCHTRACKING` is always true, so the snapshot is always taken. The flag itself is not modelled.
- The message of an entry is kept as the pair it is written from (`Wins(player, Points)`), and `MessageText` gives the text.
- Simulator.TennisMatch.PlayPoint: states the new score and the history length. The full snapshot is stated by Increment and RecordPoint.
- History.FollowsDraws: speaks of winners and messages only. That each entry's figures are the forecast at its own score and server is the separate predicate `RecordsForecasts`, which the `Play*` methods carry and PlayTennis ensures.
- These helper methods have no counterpart of their own in the source. They split one source routine so that each proof stays small:
  - `StoreProbs`
  - `ComputePredictions`
  - `RecordPoint`
  - `PushSnapshot`
  - `BumpCounter`, the counter update that `increment("…", "games")` and `increment("…", "sets")` perform
  - `PredictAfterSet`
  - `PlayTiebreakPoint`
  - `PlayTiebreakWinByTwo`
  - `PlaySetClose`
- These functions, predicates and lemmas are proof helpers and have no row of their own: `AServes`, `SetProbStep`, `MatchProbStep`, `MixSure`, `BlendSure`, `BlendServeFree`, `PredictionsInTiebreak`, `PredictionsOutsideTiebreak`, `EntryForecast`, `DrawWinner`, `RecordsForecasts`, `HistoryForecasts`, `TiebreakForecasts`, `ServingConsistent`, `ScoreLine` and `Count`.
- Simulator.TennisMatch.PlayTennis: does not state the new forecast or cache contents after the match. It states the set score, the winner and the history.
- Engine.SetProb / Engine.MatchProb: that the set and match chances grow with the on-serve probability is not proved.
- Engine.GameProb: because of the cap past 20 points, deuce is only approximately self-similar. The game chance from three all and from four all differ unless the point chance is 0, 1/2 or 1; DeuceCapped shows the cap at work at nineteen and twenty all.
