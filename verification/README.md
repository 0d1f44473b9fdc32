# Adaptive rock–paper–scissors engine, modelled in Dafny

This project models the adaptive opponent of the "Jokenpô" browser game
(`scripts.js`). It covers the moves (tesoura, pedra, papel) and the round
outcome. It also covers the predictors that each guess the player's next move
as a distribution over the three moves:

- global frequency;
- first- and second-order transitions;
- post-result;
- the repeat heuristic;
- the ABAB/ABCABC n-gram;
- hover intent;
- the hesitation pivot.

Beyond the predictors, the model covers:

- the level-dependent weights and per-predictor performance scaling that combine the predictors;
- the AI's ε-greedy choice of a counter-move;
- the level controller;
- the learning step that decays and bumps the count tables after every round;
- the capped round history and the lifetime totals;
- the click handler that ties one round together.

Layout, one module per concern:

- `moves.dfy`: `Moves` (ORDER, COUNTER, outcome);
- `distributions.dfy`: `Distributions` (zero/uniform/normalise/add-weighted, decay of one count bucket);
- `predictors.dfy`: `Predictors` (every `pred*` function and `isHesitant`);
- `combination.dfy`: `Combination` (levelWeights, predictorPerfScale, the weighted sum);
- `policy.dfy`: `Policy` (pickAiMove);
- `progression.dfy`: `Progression` (updateProgression);
- `tables.dfy`: `Tables` (the pure meaning of every update in updateModelAfterRound);
- `history.dfy`: `History` (pushHistory, updateTotals);
- `engine.dfy`: `Engine` (the model object);
- `round.dfy`: `Round` (the click handler).

`wrappers.dfy` holds an `Option` type.

The source's `MODEL` object is the class `Engine.Model`. Its methods change the
fields in place and are proved against the pure functions of `Tables`. The
history log and the lifetime totals are the classes `History.RoundHistory` and
`History.Totals`.

Some of what the code does is easy to misread from its names and comments.
The model follows the code in each of these places:

- **The level can fall.** `updateProgression` recomputes the level from scratch. A player above a 0.6 win rate before round 40 is at level 3, and once the rate falls they drop back to the level the round count gives: 2 from 15 rounds, 1 from 5, else 0. `Progression.LevelCanFall` shows the drop to 2 at 22 rounds. Only from 40 rounds on is level 3 permanent (`Progression.TopLevelSticksAfterForty`).
- **The 1.6× repeat boost has no effect at level 0.** The boost after a slow decision that followed a loss multiplies a base weight of 0 at level 0 (`Combination.RepeatWeight` states exactly when the weight rises).
- **The draw lean is not partial.** On a draw the repeat heuristic gives the last move 0.55 and the other moves 0, so after normalising its opinion is the full point mass, the same as after a win (`Predictors.PredRepeat`).
- **The performance scale is wider than its comment says.** The comment at `scripts.js:369` gives `predictorPerfScale` a range of about 0.6 to 1.4, but it ranges over 0.6 to 2.2 (`Combination.PerfScale`).
- **Hesitation is judged on the new average.** In the learning step, `isHesitant` runs after the running decision-time average has been updated, so it sees the new average (`Engine.Model.UpdateModelAfterRound`). During prediction it sees the old one.
- **Count entries can fall below 1.** Tables start at 1 and are only ever multiplied by the decay (0.92) and bumped by 1, so untouched entries shrink below the initial 1 (`Distributions.ScaleShrinks`). The model proves that they stay strictly positive instead.

JavaScript numbers are modelled as Dafny reals. `Math.round` is `Tables.JsRound`.
Calls to `Math.random()` become parameters `r1`, `r2` in [0, 1). `Date.now()`
becomes the parameter `now`.

## Model

| member | source | states |
|---|---|---|
| Moves.OrderIndex | scripts.js:16 | every move has a position in ORDER, and ORDER at that position is the move |
| Moves.Counter | scripts.js:17 | the counter of a move is never the move itself |
| Moves.Beaten | scripts.js:17 | the move a given move defeats is the unique move whose counter it is |
| Moves.CyclicDominance | scripts.js:17 | COUNTER is a 3-cycle: applying it twice never returns the move, three times always does, and the beaten move differs from the counter |
| Moves.Outcome | scripts.js:621-629 | draw iff the moves are equal; win iff the player's move is the counter of the AI's; lose iff the AI's move is the counter of the player's |
| Moves.OutcomeSwap | scripts.js:621-629 | swapping player and AI swaps win and lose and keeps a draw |
| Distributions.NormDist | scripts.js:244-248 | a total at most 1e-9 gives the uniform distribution; otherwise each entry times the total is the input entry; non-negative input gives a probability distribution |
| Distributions.NormKeepsOrder | scripts.js:244-248 | normalising keeps the order between any two entries |
| Distributions.NormSingle | scripts.js:244-248 | normalising a bucket with one positive entry gives the point mass on that move |
| Distributions.AddWeighted | scripts.js:249-253 | each entry grows by the weighted entry of the added distribution, the total grows by weight times total, and non-negativity is kept |
| Distributions.Bump | scripts.js:468 | adds exactly 1 to the played move's count, leaves the others and keeps positivity |
| Distributions.DecayCounts | scripts.js:453-455 | the loop over ORDER leaves every count multiplied by the decay |
| Distributions.ScalePositive | scripts.js:453-455 | decaying a positive bucket by a positive factor keeps it positive |
| Distributions.ScaleShrinks | scripts.js:453-455 | decaying by a factor below 1 strictly lowers every positive count |
| Predictors.DistFromCounts | scripts.js:254-256 | a missing bucket, or one whose total is at most 1e-9, gives uniform; otherwise each probability times the bucket's total is that move's count; a non-negative table gives a distribution; the distribution ranks moves as the counts do |
| Predictors.PredFreq | scripts.js:259 | counts with a total at most 1e-9 give uniform; otherwise each probability times the total is that move's count; non-negative counts give a distribution that ranks moves as the counts do |
| Predictors.PredTrans1 | scripts.js:262-265 | an opinion exists iff there is a last move, and it is the normalised bucket of that move |
| Predictors.PredTrans2 | scripts.js:268-271 | an opinion exists iff there is a last pair, and it is the normalised bucket of that pair, uniform when the pair is unseen |
| Predictors.PredPostRes | scripts.js:274-277 | an opinion exists iff there is a last result, and it is the normalised bucket of that result |
| Predictors.PredRepeat | scripts.js:280-300 | no opinion without a last move; after a win or draw, full mass on the last move; after a loss, 0.4/0.6 between the last move and its counter, and 0.9/0.6 (renormalised) once the streak is at least 2 |
| Predictors.RepeatShares | scripts.js:282-299 | the normalised repeat bucket is a distribution with exactly those shares |
| Predictors.PatternsExclusive | scripts.js:308-325 | the last six moves can never show both ABAB and ABCABC |
| Predictors.PredNgram | scripts.js:303-329 | no opinion under 4 entries or without a pattern; ABAB predicts A, ABCABC predicts A, each as a point mass |
| Predictors.NgramVote | scripts.js:306-327 | the vote bucket normalises to the predicted point mass, or to uniform (which the source rejects) when there is no pattern |
| Predictors.NgramAbabExample | scripts.js:308-316 | the history pedra, papel, pedra, papel votes entirely for pedra |
| Predictors.PredHoverIntent | scripts.js:332-340 | an opinion exists iff the hover time is positive, and it is proportional to the hover times |
| Predictors.HoverFavoursScissors | scripts.js:332-340 | hover times 900/50/10 ms put more than 0.8 on tesoura |
| Predictors.IsHesitant | scripts.js:343-349 | hesitant exactly when the decision is slower than both 700 ms and 1.25× the average, or the switches reach 3, or the path exceeds 800 |
| Predictors.HesitationBarRises | scripts.js:343-349 | a higher running average never makes a round hesitant that was not hesitant under a lower one |
| Predictors.MostHovered | scripts.js:353-354 | the chosen move has the largest hover time, the earliest in ORDER among ties |
| Predictors.PredPivot | scripts.js:350-357 | an opinion exists iff the round is hesitant; it is the normalised pivot bucket of the most hovered move, uniform when that bucket is missing |
| Combination.LevelWeights | scripts.js:360-366 | weights are never negative; level 0 uses only frequency and hover; from level 1 every predictor except trans2 has weight; from level 2 all do; ε lies in (0, 0.30] |
| Combination.WeightShift | scripts.js:360-366 | a higher level never raises the frequency weight or ε and never lowers the trans2 weight |
| Combination.Clamp01 | scripts.js:371 | the result lies in [0, 1]: 0 below the range, 1 above it, the input itself inside it |
| Combination.PerfScale | scripts.js:368-372 | the scale lies in [0.6, 2.2]: 0.6 for a score at or below 0, 2.2 at or above 1, and 1.4 for a predictor without a score |
| Combination.PerfScaleMonotone | scripts.js:368-372 | a better score never gives a smaller scale, and gives a strictly larger one exactly when the scores differ and are not both clamped to the same end |
| Combination.RepeatWeight | scripts.js:380-383 | the repeat weight is at least the base weight, and it exceeds it iff the level is at least 1 and a slow decision follows a loss |
| Combination.WeightedSum | scripts.js:402-405 | the sum of well-formed parts is non-negative |
| Combination.EffectiveWeight | scripts.js:403 | a non-negative base weight stays non-negative after performance scaling |
| Combination.UsedDists | scripts.js:695-715 | every part's predictor is recorded, and every recorded distribution is the one a part of that name contributed |
| Policy.Score | scripts.js:413-417 | an AI move's score is the predicted probability of the player move it defeats |
| Policy.MaxScore | scripts.js:424 | the maximum is at least every score and attained by one |
| Policy.BestMove | scripts.js:434 | the greedy move has the highest score, and the first of pedra, papel, tesoura among ties |
| Policy.ExploreIndex | scripts.js:421 | the exploration index is in range and picks each third of [0, 1) for one move |
| Policy.ScoreTotal | scripts.js:427 | the divisor is the sum of the three scores, or 1 when that sum is 0; so it is never 0, and it is 1 for a distribution |
| Policy.PickAiMove | scripts.js:411-435 | with r1 < ε each move is drawn on its third of r2; otherwise a clear best move is chosen with ties broken pedra, papel, tesoura; when scores are close, the pick is within 0.05 of the best and is drawn proportionally to the scores |
| Progression.WinRate | scripts.js:444-445 | with games recorded, the rate times the number of games is the number of wins; without games it is 0; it always lies in [0, 1] |
| Progression.Progress | scripts.js:438-450 | level 3 iff 40 rounds or win rate above 0.6; otherwise 2 from 15 rounds, 1 from 5, else 0; ε is the level's ε |
| Progression.ComputeTier | scripts.js:440-446 | the step-by-step computation yields that level and ε |
| Progression.FortyRoundsReachTopLevel | scripts.js:446 | after 40 rounds with no wins recorded, the level is 3 |
| Progression.LevelCanFall | scripts.js:440-449 | 13 wins of 20 give level 3, and two more losses bring it back to level 2 |
| Progression.TopLevelSticksAfterForty | scripts.js:446 | from 40 rounds on, the level is 3 whatever the totals |
| Tables.ScaleTable | scripts.js:456-461 | decaying a table keeps its keys and decays every bucket |
| Tables.ScaleTablePositive | scripts.js:456-461 | decaying a positive table by a positive factor keeps it positive |
| Tables.DecayNested | scripts.js:456-461 | the loop over the table's keys yields the decayed table |
| Tables.NextCounts | scripts.js:466-468 | the played move's count becomes decay × count + 1, the others decay × count, and positivity is kept |
| Tables.NextTrans1 | scripts.js:470-473 | without a last move every bucket just decays; otherwise every other bucket decays, the last move's bucket, when present, is decayed and counts the played move (as NextCounts gives), and when missing it is created at 1 after the decay, so it is not decayed and holds 1 plus 1 on the played move; positivity is kept |
| Tables.DecayBump | scripts.js:475-480 | only the keyed bucket (created at 1 when missing) is decayed and bumped; the other buckets are unchanged; positivity is kept |
| Tables.NextTrans2 | scripts.js:475-480 | without a last pair the table is unchanged; otherwise only that pair's bucket is decayed and bumped |
| Tables.NextPostRes | scripts.js:482-485 | the keys stay the same and every bucket decays; the last result's bucket (draw when there is none), when present, is decayed and counts the played move, as NextCounts gives; a missing bucket is not created; positivity is kept |
| Tables.NextStreak | scripts.js:487-489 | the streak grows by 1 when the move repeats and restarts at 1 otherwise |
| Tables.StreakIsTrailingRun | scripts.js:487-489 | the streak is the length of the run of equal moves at the end of the history |
| Tables.JsRound | scripts.js:494 | rounding lands within half a unit of its argument |
| Tables.NextAvg | scripts.js:491-494 | the new average is the whole number within half a unit of 0.9 × old average + 0.1 × decision time, so it lies between the old average and the decision time up to rounding |
| Tables.NextTwoKey | scripts.js:506-509 | the pair key exists iff there was a last move, and it is (last move, played move) |
| Tables.NextPerf | scripts.js:515-521 | each used predictor's score moves 15% of the way toward the probability it gave the played move, with 0.5 for a missing score; the rest are unchanged |
| Tables.NextPerfInRange | scripts.js:517-520 | scores in [0, 1] stay in [0, 1] when the used opinions are distributions |
| Tables.LearnPerf | scripts.js:518-521 | the loop over the used predictors yields those scores |
| History.AppendCapped | scripts.js:527-533 | the entry is appended last, the length is capped at 300, and the oldest entries are the ones dropped |
| History.Recent | scripts.js:692 | the window holds the last min(n, length) entries in order |
| History.RecentKeepsTail | scripts.js:692 | the last k ≤ 8 moves of the 8-entry window are the last k moves of the whole history |
| History.RoundHistory.constructor | scripts.js:528 | a fresh history is empty |
| History.RoundHistory.Push | scripts.js:527-533 | pushing appends the entry under the 300-entry cap |
| History.Totals.constructor | scripts.js:84 | fresh totals are all zero |
| History.Totals.Update | scripts.js:534-539 | exactly the counter for the result grows by one, so one more game is recorded |
| Engine.Accumulate | scripts.js:402-405 | the loop over the parts yields the weighted sum and the record of used opinions |
| Engine.Model.constructor | scripts.js:46-81 | the default model: 0 rounds, level 0, ε 0.30, decay 0.92, tables of ones, no window, average 700 ms, every score 0.5 |
| Engine.Model.Parts | scripts.js:385-399 | frequency always comes first; a pivot part appears iff the round is hesitant, and a hover part only when it is not |
| Engine.Model.PartsContent | scripts.js:374-399 | for each of the eight predictors, the parts under its name are exactly its opinion with its weight, or nothing when it has none: frequency, the two transitions, post-result and the n-gram with their level weights, repeat with the boosted repeat weight, the pivot with 1.2 times its level weight, and hover intent with its level weight only in a round that is not hesitant |
| Engine.Model.PartsNamed | scripts.js:385-399 | a table-based predictor's parts in the full list are its own opinion, and the pivot's and hover's parts are those of the tail |
| Engine.Model.ModelOpinionsNamed | scripts.js:388-393 | the six table-based predictors each contribute exactly their own opinion, in their own name, and no pivot or hover part |
| Engine.Model.HoverOrPivot | scripts.js:395-399 | a pivot part appears iff the round is hesitant, and a hover part only when it is not |
| Engine.Model.HoverOrPivotContent | scripts.js:395-399 | the pivot's parts are its opinion with 1.2 times its level weight; hover's parts are its opinion with its level weight when the round is not hesitant and nothing when it is; no other predictor appears |
| Engine.Model.PartsAreDistributions | scripts.js:385-399 | every part of a consistent model carries a distribution and a non-negative weight |
| Engine.Model.PredictNextPlayerDist | scripts.js:374-408 | the prediction is the normalised performance-weighted sum of the parts (whose per-predictor content PartsContent states) and is a distribution; the record of used opinions is taken from the same parts; frequency is always used; pivot is used iff hesitant; never both pivot and hover |
| Engine.Model.UsedNames | scripts.js:695-715 | the used opinions always include frequency, include pivot iff hesitant, and never hold both pivot and hover |
| Engine.Model.UpdateProgression | scripts.js:438-450 | the model's level and ε become the level controller's verdict on the current round count and totals; the learning step runs it after counting the round |
| Engine.Model.UpdateModelAfterRound | scripts.js:463-524 | every table, the streak, the average, the pivot, the window, the round count, the level and the scores take their next values; the model stays consistent and scores stay in [0, 1] |
| Engine.Model.ShiftWindow | scripts.js:487-512 | the streak advances, the last move becomes the previous move, the played move and result become the last ones, and the round count grows by one |
| Engine.LearnCounts | scripts.js:466-468 | the in-place steps yield the next counts |
| Engine.LearnTrans1 | scripts.js:470-473 | the in-place steps yield the next first-order table |
| Engine.LearnBucket | scripts.js:476-479 | creating, decaying and bumping one bucket yields the decayed-and-bumped table |
| Engine.LearnTrans2 | scripts.js:475-480 | the in-place steps yield the next second-order table |
| Engine.LearnPostRes | scripts.js:482-485 | the in-place steps yield the next post-result table |
| Engine.LearnPivot | scripts.js:496-504 | when hesitant, the most hovered move's pivot bucket is decayed and bumped; otherwise the pivot table is unchanged |
| Round.PlayRound | scripts.js:677-749 | the AI plays the policy's move for the prediction from the last 8 entries; the round is logged under the cap; exactly the counter of the result grows; the counts, transition, post-result and pivot tables, the streak, the pair key, the sample count and the average take their next values, the pivot judged against the new average; the scores learn from the very opinions that made the prediction; the model stays consistent |

## Left out

- The DOM, the UI updates, the pointer sensor and the way it fills the snapshot are not modelled. The snapshot is a parameter, and so are `performance.now()` (the decision time) and `Date.now()` (`now`).
- `localStorage`, JSON (de)serialisation and `saveLS`/`loadLS` are not modelled. The model, the history and the totals are objects held in memory.
- `Math.random()` is not modelled. Its two draws in `pickAiMove` are the parameters `r1`, `r2`.
- IEEE-754 floating point is not modelled; numbers are reals. In particular, the n-gram predictor's test `nd.tesoura === 1/3 && …` becomes an exact comparison with the uniform distribution.
- The session scoreboard, the 50-round match guard, `endIfCompleted` and the reset and navigation dialogs are left out. They are UI state that the engine never reads.
- Engine.Model.UpdateModelAfterRound: does not create the `trans1[""]` bucket that the source adds when there is no last move. No predictor ever reads that bucket, because the key is not a move.
- Engine.Model.UpdateModelAfterRound: does not model the `|| 0` and `|| {}` fallbacks for entries missing from a bucket. Buckets always hold all three moves here, and missing buckets are handled as in the source.
- Round.PlayRound: the handler evaluates every predictor twice, once for the record of used opinions and once inside `predictNextPlayerDist`. Both evaluations read the same state, so the model evaluates them once and returns both results from `PredictNextPlayerDist`.
- Round.PlayRound: the snapshot's `moves` counter is not modelled, because no engine function reads it.
- Engine.Model.UpdateModelAfterRound: the `decay` field is a constant 0.92, because the source never reassigns it.
