# boatrace-ai: prediction and settlement, modelled in Dafny

The model covers the computing core of `app.py`, a one-page boat-race
prediction app:

- **The scorer `score`.** It maps one boat of the race card to a rank value:
  - a weighted sum of the motor's 2-place and 3-place rates;
  - the exhibition-time advantage over the race average;
  - a start-timing bonus;
  - a starting-course bonus.

  The last three terms are clamped at zero.
- **The prediction block under the "予想する" (predict) button.** It:
  - scores every boat against the sum of the exhibition times divided by 6;
  - ranks the boats by score, descending;
  - takes the first three as the favourites (本命, honmei);
  - picks as longshot (穴, ana) the strongest 2-place motor among the remaining boats;
  - emits nine bets: the six finish orders of the favourites (本線, main line) at odds 12, then three fixed longshot orders at odds 45, 60 and 38, none of them bought.
- **The settlement `calc`.** It:
  - keeps the bought predictions (or all of them);
  - counts the predictions whose finish order equals the declared result;
  - pays the declared payout once per hit and charges 100 yen per kept prediction;
  - reports the hit rate and the return rate in percent.

Modules:

- `Scoring` (`scoring.dfy`): the boat record and `Score`.
- `StableSort` (`stable_sort.dfy`): Python's `sorted(..., reverse=True)` as a stable insertion sort, with its properties.
- `Predictor` (`predictor.dfy`): covers the following.
  - The ranking, the favourites and the longshot.
  - The bets, specified by the functions `Ranking`, `Others`, `Ana`, `Bets` and `Predicted`.
  - The button's code as the methods `Predict`, `ScoreBoats`, `MainBets` and `BuildBets`. They are proved equal to those functions.
- `Settlement` (`settlement.dfy`): the method `Calc`, proved equal to the function `Settle`, and the properties of the settlement.

Behaviour worth noting:

- **Ties.** Boats with equal scores keep their order in the input, because Python's sort is stable (`StableSort.SortDescStable`). The page's race card builds its boats in lane order (app.py:51-57, `lane = i`). On that input, tied boats therefore come out in ascending lane order.
- **Number of bets.** A prediction is nine bets: six main-line plus three longshot.
- **Failure threshold.** The button fails whenever no boat is left beside the favourites. Python raises an index error; the model returns `Failed(NoLongshotCandidate)`. With distinct lanes this happens exactly when there are fewer than four boats.
- **Average.** The "average" exhibition time is the sum divided by a fixed 6, whatever the number of boats.

## Model

| member | source | states |
|---|---|---|
| Scoring.Score | app.py:97-104 | The score is at least the motor baseline (0.4 and 0.2 per unit of the motor's 2- and 3-place rates as fractions). It equals that baseline exactly when no bonus applies: exhibition time not below average, start timing at least 0.2, course 7 or later. |
| Scoring.ScoreMonotone | app.py:97-104 | With the average fixed, the score never decreases with better motor rates and never increases with a slower exhibition time, a later start or a later course. |
| StableSort.SortDesc | app.py:113 | `sorted(..., reverse=True)` returns a permutation of its input (same multiset) whose keys never increase. |
| StableSort.SortDescStable | app.py:113 | Stability: for every key value, the elements with that key appear in the sorted output in exactly their input order. |
| StableSort.SortDescHead | app.py:115 | `sorted(...)[0]` is the earliest element of the input that has the largest key. |
| StableSort.SortDescDistinct | app.py:113 | Sorting keeps elements that differ in some attribute (the lane) apart. |
| Predictor.AsMainBets | app.py:118-119 | One main-line bet per ordering, same length and order: combo `cs[i]`, odds 12, not bought. |
| Predictor.ScoreBoats | app.py:109-111 | The scoring loop pairs each boat, in order, with its score against the given average. |
| Predictor.MainBets | app.py:117-119 | The permutation loop builds exactly the main-line bets of the given orderings, in order. |
| Predictor.BuildBets | app.py:117-126 | The bet list, after the cut to six and the longshot append, is `Bets` of the favourites' lanes and the longshot's lane. |
| Predictor.Predicted | app.py:107-127 | A successful prediction implies at least four ranked boats and a non-empty list of non-favourites. |
| Predictor.Predict | app.py:107-127 | The button's code computes `Predicted(boats)`, including the failure when no longshot candidate exists. On success it yields nine bets, none bought. |
| Predictor.PredictedOk | app.py:113-126 | A successful prediction is the nine bets on the lanes of ranking positions 0, 1 and 2 and the longshot's lane. |
| Predictor.OthersAllIn | app.py:115 | Filtering out the favourites leaves nothing when every boat is a favourite. |
| Predictor.OthersNoneIn | app.py:115 | The filter keeps the whole list when no boat is a favourite. |
| Predictor.OthersAppend | app.py:115 | The filter distributes over concatenation. |
| Predictor.OthersSubset | app.py:115 | Every boat the filter keeps is in the ranking and is not a favourite. |
| Predictor.OthersNonEmpty | app.py:114-115 | A longshot candidate exists only with at least four ranked boats; the favourites are then exactly three. |
| Predictor.OthersOfDistinct | app.py:114-115 | With distinct lanes the non-favourites are exactly the ranking from position 3 on. |
| Predictor.RankingFromBoats | app.py:109-113 | The ranking has one entry per boat; each entry is a boat of the race carrying its own score against the race average. |
| Predictor.RankingIsStableSort | app.py:113 | The ranking is a permutation of the scored boats with non-increasing scores. Boats with equal scores keep their input order. |
| Predictor.RankingDistinct | app.py:113 | Boats with distinct lanes stay on distinct lanes in the ranking. |
| Predictor.PredictedFailure | app.py:114-115 | With fewer than four boats the button always fails. With distinct lanes it succeeds if and only if there are at least four boats. |
| Predictor.LongshotChoice | app.py:115 | The longshot is a ranked boat that is not a favourite. Among the non-favourites it has the largest 2-place motor rate, and it is the earliest such boat in ranking order. |
| Predictor.BetsShape | app.py:117-126 | Nine bets, none bought: six main-line bets at odds 12, then longshot bets at odds 45, 60 and 38. |
| Predictor.BetsMainline | app.py:117-120 | With three distinct favourite lanes, a combo is among the first six bets if and only if it names three different lanes, all favourites. |
| Predictor.BetsCombos | app.py:117-126 | With four distinct lanes: every bet names three different lanes among them, and no two bets share a combo. The longshot lane appears in each of the last three bets and in none of the first six. |
| Predictor.PredictedShape | app.py:107-127 | A successful prediction has nine unbought bets with the kinds and odds above, and at least four ranked boats. |
| Predictor.PredictedLanes | app.py:114-126 | The bets are built from the lanes of ranking positions 0 to 2 and of the longshot. On boats with distinct lanes these are four different lanes of the race. |
| Predictor.PredictedMainline | app.py:113-120 | On boats with distinct lanes, the main line is exactly the orderings of the three top-ranked lanes. |
| Predictor.PredictedCombos | app.py:113-126 | On boats with distinct lanes: every bet names three different lanes of the race, no two bets share a combo, and the longshot lane sits in exactly the last three bets. |
| Settlement.Targets | app.py:154 | The filtered list is never longer than the prediction list. |
| Settlement.Hits | app.py:160-162 | The hit count never exceeds the number of settled predictions, and it is zero if and only if no settled prediction matches the result. |
| Settlement.Calc | app.py:153-164 | The loop's hit rate and return rate equal `Settle` (both 0 with nothing to settle), and the hit rate lies in [0, 100]. |
| Settlement.SettleBounds | app.py:153-164 | With nothing to settle both rates are 0. Otherwise the hit rate lies in [0, 100], and the return rate is the hit rate times the payout over the 100-yen stake. |
| Settlement.RatesOfCounts | app.py:158-164 | For `hit` hits among `n > 0` predictions, the hit rate lies in [0, 100] and the return rate is the hit rate scaled by payout over stake. |
| Settlement.RateArithmetic | app.py:164 | The real-number identities behind the two percentages, and the bound of one hit in `n`. |
| Settlement.TargetsMembers | app.py:154 | A prediction is settled if and only if it is one of the predictions and is bought, or all are settled. |
| Settlement.TargetsAll | app.py:154 | Settling all predictions keeps the list unchanged. |
| Settlement.TargetsBought | app.py:154 | Settling the bought ones keeps exactly the bought ones: all of them when all are bought, none when none is. |
| Settlement.TargetsAppend | app.py:154 | The filter distributes over concatenation. |
| Settlement.HitsAppend | app.py:160-162 | Hit counts add up over concatenation. |
| Settlement.CountsOrderIndependent | app.py:154-162 | Permuting the predictions changes neither the number settled nor the number of hits. |
| Settlement.SettleOrderIndependent | app.py:153-164 | The rates depend on the predictions as a multiset, not on their order. |
| Settlement.HitsAtMostOne | app.py:160-162 | When no two predictions share a combo, at most one hits. |
| Settlement.TargetsHits | app.py:154-162 | Filtering never adds hits. |
| Settlement.HitRateAtMostOne | app.py:153-164 | With pairwise different combos, at most one settled bet hits and the hit rate is at most 100 over the number settled. |
| Settlement.PredictedAtMostOneHit | app.py:117-126 | For a fresh prediction on boats with distinct lanes, at most one settled bet hits, whichever predictions are settled. |
| Settlement.FreshPredictionsUnbought | app.py:119 | The predictor's own bet list has no bought bet (app.py:119, 123-125), so settling the bought bets of that list gives (0, 0). |

## Left out

- Fetching and parsing the race card over HTTP (`fetch_boatrace_data`) is left out: it is network I/O. The boats are the input of `Predict`.
- The Streamlit interface is left out: widgets, layout, session state and the per-boat input fields. The race result and the payout are read from select boxes and a number input; they are parameters of `Calc`. The "bought" flags are set by checkboxes, so they arrive as part of the predictions.
- `LANE_COLORS` and the HTML rendering of combos are presentation only, so they are left out.
- `PLACES`/`PLACE_CODE` only serve the HTTP fetch and its place selector, so they are left out.
- Floating point is not modelled: all quantities are exact reals.
- Rounding is not modelled. `calc` rounds both rates to one decimal with `round(…, 1)`, and `Settle` and `Calc` return the unrounded values.
- Score write-back is not modelled. The page writes each boat's score into the boat's record in place (`b["score"] = …`). The model pairs each boat with its score in a new sequence, so the mutation of the session's boat records is not captured.
- Python dictionaries are modelled as datatypes. Membership in `b not in honmei` is value equality, which is how Python compares dictionaries. Keys beyond the modelled fields are not represented.
- Settlement.Calc: does not model the rounding to one decimal of the two rates, because rounding of reals is outside the model.
- Scoring.ScoreMonotone: is stated with the race average held fixed. A boat's own exhibition time also moves the average; that effect is not covered.

