# Horse race simulator — a Dafny model

A model of a horse-race simulator in its three generations:

- **The console race.** `Race.java` races plain horses (`Horse.java` and the
  clamping `Part-1/Horse.java`) lane by lane. Each tick every standing horse
  moves one unit with a probability that grows with its confidence, and falls
  with a probability that shrinks with it. The race ends when a horse has run
  exactly the race length or every horse has fallen.
- **The graphical race.** `Part-2/Race.java` races customisable horses
  (`Phase-2/HorseGUI.java`) on a `Phase-2/Track.java` with a shape and a
  weather. It runs on a timer with start, pause and reset, and can change its
  length and its number of lanes. At the end it writes each horse's race into
  that horse's history and into `Phase-2/Statistics.java`, keeps the best
  time per track and weather, and settles the player's bets through
  `Phase-2/BettingSystem.java`.
- **The betting system.** `Phase-2/BettingSystem.java` prices each horse from
  five factors: confidence, recent form, track suitability, weather and gear,
  and how heavily it is backed. It then spreads the odds table, takes stakes,
  and pays out the winner's stake at its odds.

Each Java file becomes one module:

| module | file | source |
|---|---|---|
| `ClampedHorse` | `clamped_horse.dfy` | `Part-1/Horse.java` |
| `UnclampedHorse` | `unclamped_horse.dfy` | `Horse.java` |
| `ConsoleRace` | `console_race.dfy` | `Race.java`, `Main.java` |
| `HorseCustomisation` | `horse_gui.dfy` | `Phase-2/HorseGUI.java` |
| `RaceTrack` | `track.dfy` | `Phase-2/Track.java` |
| `RaceStatistics` | `statistics.dfy` | `Phase-2/Statistics.java` |
| `Betting` | `betting.dfy` | `Phase-2/BettingSystem.java` |
| `TimedRace` | `timed_race.dfy` | `Part-2/Race.java` |

`common.dfy` (module `Common`) holds what several modules share:
- the per-tick draws and a horse's position;
- lane sets and their lowest lane;
- the sum of a map's values;
- `String.contains` and int-to-string rendering;
- an ASCII-only lower-casing that stands in for Java's `toLowerCase`.

The classes whose fields the source updates in place are classes here:
- the horses;
- the two races;
- `Track`, `Statistics` and `BettingSystem`.

Their methods carry `modifies` clauses, and their postconditions state the
new value of every field they change, except where a line under
"## Left out" names what a method leaves unstated.
Pure calculations are functions:
- the odds factors;
- the weather and shape tables;
- the attribute tables;
- the statistics folds.

Loops in the source are loops here, each proved against a function that
specifies it:
- the statistics folds;
- the odds walk;
- the spreading of the odds;
- the lane walks of the races;
- the console race loop, whose final positions are `ConsoleRace.Run` over
  each lane's draws for the ticks used;
- the lane-count change.

Java's `HashMap` visits small integer keys in ascending order. The lane walks
therefore visit lanes lowest first (`Common.LowestLane`). Tables keyed by a
horse are walked in an unspecified order, and their contracts do not depend
on that order.

Randomness and clocks are parameters:
- a `Draw` holds the two `Math.random()` values of one horse in one tick;
- `NewHorseRolls` holds the draws for a horse that a lane-count change adds;
- `now` is `System.nanoTime()`;
- `timeText` is `String.format("%.2f", …)`.

Where the code and its documented intent differ, the model follows the code:

- **The refund keeps the stakes.** `processRaceResult(null)` refunds every
  stake but leaves the stakes on the table, so a second refund pays them
  again (`Betting.BettingSystem.ProcessRaceResult`).
- **Odds are computed once.** A race is settled at odds computed only when
  the table is empty; once computed, the odds are kept.
- **The spread can stay below 2.** Spreading the odds need not reach a
  spread of 2, because the floor of 1.1 can hold the lowest entry up
  (`Betting.NormalizedCanStayBelowTwo`).
- **The end listener runs twice.** `updateRace` runs it again after
  `processRaceResults` has already run it.
- **`Horse.java` does not clamp.** It stores any confidence;
  `Part-1/Horse.java` clamps it into [0, 1].
- **A new track resets shape and weather.** The graphical race starts with a
  track length of 0 for lane-count changes. A change of length or of lane
  count builds a new oval track in clear weather.
- **`setLaneCount` can replace kept horses.** It puts new horses into lanes
  numbered from the number of kept lanes upwards, so it can overwrite a
  kept horse whose lane number is that high. The overwritten horse stays in
  the horse list.
- **The drawn speed and stamina do not survive.** A horse that
  `setLaneCount` adds gets its drawn speed and stamina overwritten by the
  breed, saddle and horseshoe setters, which rebuild the attributes.
- **Confidence compounds.** Every attribute rebuild starts from the effective
  confidence, so rebuilding twice changes confidence again
  (`HorseCustomisation.ConfidenceCompounds`).

## Model

| member | source | states |
|---|---|---|
| `ClampedHorse.Clamp` | Part-1/Horse.java:88-97 | the stored rating lies in [0, 1]: a value inside is kept, one below becomes 0 and one above becomes 1 |
| `ClampedHorse.ClampIsProjection` | Part-1/Horse.java:88-97 | clamping a stored rating again changes nothing, and clamping is monotone |
| `ClampedHorse.Horse.constructor` | Part-1/Horse.java:24-37 | a new horse has the given symbol and name and the clamped confidence, and stands at the start, neither fallen nor winner |
| `ClampedHorse.Horse.Fall` | Part-1/Horse.java:42-45 | the horse is fallen; nothing else changes |
| `ClampedHorse.Horse.MoveForward` | Part-1/Horse.java:83-86 | the distance grows by exactly one, with no guard for a fallen horse; nothing else changes |
| `ClampedHorse.Horse.GoBackToStart` | Part-1/Horse.java:71-75 | distance 0 and standing; the winner flag, rating, symbol and name are kept |
| `ClampedHorse.Horse.SetConfidence` | Part-1/Horse.java:88-97 | the rating becomes the clamped value, which is the value itself when it is in [0, 1]; the object invariant holds |
| `ClampedHorse.Horse.SetIsWinner` | Part-1/Horse.java:104-106 | only the winner flag changes |
| `ClampedHorse.Horse.SetSymbol` | Part-1/Horse.java:99-102 | only the symbol changes |
| `UnclampedHorse.Horse.constructor` | Horse.java:25-32 | a new horse stores the given confidence unchanged, even outside [0, 1], and stands at the start |
| `UnclampedHorse.Horse.Fall` | Horse.java:37-40 | the horse is fallen; nothing else changes |
| `UnclampedHorse.Horse.MoveForward` | Horse.java:78-81 | the distance grows by exactly one; nothing else changes |
| `UnclampedHorse.Horse.GoBackToStart` | Horse.java:66-70 | distance 0 and standing; everything else is kept |
| `UnclampedHorse.Horse.SetConfidence` | Horse.java:83-86 | the rating is stored as given; nothing else changes |
| `UnclampedHorse.Horse.SetIsWinner` | Horse.java:93-95 | only the winner flag changes |
| `UnclampedHorse.Horse.SetSymbol` | Horse.java:88-91 | only the symbol changes |
| `ConsoleRace.Step` | Race.java:160-185 | a fallen horse stays put; a standing one advances by one exactly when the move draw is below 0.9 times its confidence, and falls exactly when the fall draw is below 0.02 times (1.5 minus its confidence) |
| `ConsoleRace.FallenStaysPut` | Race.java:164 | a fallen horse keeps its place over any number of ticks |
| `ConsoleRace.RunAdvancesAtMostOnePerTick` | Race.java:89-121 | over n ticks a horse covers at most n units and never goes back |
| `ConsoleRace.RunSnoc` | Race.java:89-121 | running one more tick after a sequence of ticks is one more `Step` from where the sequence left the horse |
| `ConsoleRace.PlaceAfterNext` | Race.java:93-98 | a horse's place after n+1 ticks is one `Step`, with its lane's draws of tick n, from its place after n ticks |
| `ConsoleRace.FallenStaysFallen` | Race.java:164 | a horse down after n ticks is down, at the same distance, after every later tick |
| `ConsoleRace.Race.constructor` | Race.java:26-48 | lanes 0 to 3 hold four distinct new horses at the start: '>' " Le Horse" 0.45, '^' " Solider" 0.65, '#' " The Castle" 0.35 and '*' " King" 0.75; lane 4 is empty; there is no winner |
| `ConsoleRace.Race.AddHorse` | Race.java:56-63 | a free lane, one missing from the map or mapped to null, gets the horse, as `putIfAbsent` does; a lane holding a horse keeps it; no other lane changes |
| `ConsoleRace.Race.MoveHorse` | Race.java:160-185 | the horse's new place is the one `Step` gives for its draws; its rating, flags and name are kept |
| `ConsoleRace.Race.Tick` | Race.java:93-98 | every horse in a lane takes exactly its own step; its symbol, name, confidence and winner flag are kept |
| `ConsoleRace.Race.RaceWonBy` | Race.java:192-210 | the result is true exactly when the race length is not 0 and some lane's horse has run exactly that length; the horse in the lowest such lane becomes the winner, is flagged, and is the only newly flagged horse |
| `ConsoleRace.Race.IsAllHorsesFallen` | Race.java:136-151 | the count says yes exactly when every lane is empty or holds a fallen horse |
| `ConsoleRace.Race.ResetHorses` | Race.java:77-84 | every horse is at the start, standing and unflagged, and there is no winner |
| `ConsoleRace.Race.StartRace` | Race.java:71-122 | every horse ends where its own draws for the ticks used take it from the gate (`PlaceAfter`); no earlier tick left a finisher or an all-fallen field; `won` and `allFallen` are exactly the two checks after the last tick, and ticks stop early only when one fired; the winner is the horse in the lowest finished lane and the only flagged horse; no horse overshoots a positive race length; confidences are untouched |
| `ConsoleRace.Race.Round` | Race.java:91-110 | one pass of the loop carries the placing after n ticks to the placing after n+1, and its two results are the winner check and the all-fallen check on that placing |
| `ConsoleRace.Race.TickPlaced` | Race.java:93-98 | every horse moves from its place after n ticks to its place after n+1; no flag changes |
| `ConsoleRace.Race.CheckWinner` | Race.java:104-108 | the winner check fires exactly when some horse has run the race length by tick n; the lowest finished lane's horse is then the winner; otherwise no horse has reached the finish |
| `ConsoleRace.Race.FinishedAfter` | Race.java:192-210 | with the horses placed after n ticks, some lane has finished exactly when some horse of the field has run the race length by then |
| `ConsoleRace.MainSetUp` | Main.java:12-17 | a race of length 20 whose lanes 1 to 3 were already taken, so the three added horses are ignored and the constructor's roster stays |
| `HorseCustomisation.BreedModifiers` | Phase-2/HorseGUI.java:70-86 | a breed's starting speed modifier lies in [1.0, 1.2] and its confidence modifier in [0.9, 1.1] |
| `HorseCustomisation.EquipmentFactors` | Phase-2/HorseGUI.java:88-101 | equipment scales speed and confidence by factors in [0.9, 1.1] |
| `HorseCustomisation.ModifiersFor` | Phase-2/HorseGUI.java:68-102 | each modifier is the breed's value times the equipment's factor |
| `HorseCustomisation.ModifiersInRange` | Phase-2/HorseGUI.java:68-102 | every breed and equipment keeps the speed modifier in [0.9, 1.32] and the confidence modifier in [0.81, 1.21] |
| `HorseCustomisation.BreedFactors` | Phase-2/HorseGUI.java:111-137 | a breed's effects lie in [0.9, 1.3] for speed, [0.8, 1.1] for confidence and [0.8, 1.2] for stamina |
| `HorseCustomisation.SaddleFactors` | Phase-2/HorseGUI.java:140-153 | a saddle never changes confidence and scales speed and stamina within [0.9, 1.1] |
| `HorseCustomisation.HorseshoeFactors` | Phase-2/HorseGUI.java:156-169 | horseshoes never change stamina and scale speed and confidence within [0.9, 1.1] |
| `HorseCustomisation.AttributeFactors` | Phase-2/HorseGUI.java:104-175 | the combined breed, saddle and horseshoe factors are all positive |
| `HorseCustomisation.UnlistedChoicesAreNeutral` | Phase-2/HorseGUI.java:83-86 | breeds and equipment missing from the tables leave every modifier and attribute factor at 1.0 |
| `HorseCustomisation.AttributeFactorsInRange` | Phase-2/HorseGUI.java:104-175 | the combined factors lie in [0.72, 1.21] for confidence, [0.72, 1.32] for stamina and [0.729, 1.573] for speed |
| `HorseCustomisation.Rebuild` | Phase-2/HorseGUI.java:104-175 | a rebuild's speed and stamina are the combined factors, and its confidence is the starting confidence scaled by the combined confidence factor |
| `HorseCustomisation.ConfidenceCompounds` | Phase-2/HorseGUI.java:107 | a default Thoroughbred at confidence 0.5 drops to 0.45 after one rebuild and to 0.405 after a second one |
| `HorseCustomisation.StepCount` | Phase-2/HorseGUI.java:263 | the loop runs once for each natural number below the speed modifier |
| `HorseCustomisation.StepsPerMove` | Phase-2/HorseGUI.java:261-266 | a move covers one or two base steps, and exactly one when the speed modifier is at most 1.0 |
| `HorseCustomisation.HorseGUI.constructor` | Phase-2/HorseGUI.java:23-42 | a new horse is a Brown Thoroughbred with standard equipment, saddle and horseshoes and neutral modifiers; the breed's effects are not applied; its record is empty |
| `HorseCustomisation.HorseGUI.Confidence` | Phase-2/HorseGUI.java:268-272 | the effective confidence lies in [0, 1.21] |
| `HorseCustomisation.HorseGUI.SetBreed` | Phase-2/HorseGUI.java:44-47 | the breed is set and the attributes are rebuilt from the previous effective confidence |
| `HorseCustomisation.HorseGUI.SetCoatColor` | Phase-2/HorseGUI.java:49-51 | only the coat colour changes |
| `HorseCustomisation.HorseGUI.SetEquipment` | Phase-2/HorseGUI.java:53-56 | the equipment is set and both modifiers become those of the breed and the new equipment |
| `HorseCustomisation.HorseGUI.SetSaddle` | Phase-2/HorseGUI.java:58-61 | the saddle is set and the attributes are rebuilt |
| `HorseCustomisation.HorseGUI.SetHorseshoes` | Phase-2/HorseGUI.java:63-66 | the horseshoes are set and the attributes are rebuilt |
| `HorseCustomisation.HorseGUI.SetSpeed` | Phase-2/HorseGUI.java:201-203 | only the speed changes |
| `HorseCustomisation.HorseGUI.SetStamina` | Phase-2/HorseGUI.java:209-211 | only the stamina changes |
| `HorseCustomisation.HorseGUI.SetConfidence` | Part-1/Horse.java:88-97 | the stored confidence becomes the clamped value |
| `HorseCustomisation.HorseGUI.SetSymbol` | Phase-2/HorseGUI.java:279-282 | only the symbol changes, and the one-character and character forms agree |
| `HorseCustomisation.HorseGUI.SetName` | Phase-2/HorseGUI.java:284-286 | only the name changes |
| `HorseCustomisation.HorseGUI.SetIsWinner` | Part-1/Horse.java:104-106 | only the winner flag changes |
| `HorseCustomisation.HorseGUI.UpdateModifiers` | Phase-2/HorseGUI.java:68-102 | both modifiers are the breed's values times the equipment's factors |
| `HorseCustomisation.HorseGUI.UpdateAttributes` | Phase-2/HorseGUI.java:104-175 | base and current speed and stamina are the combined factors, and the stored confidence is the clamped rebuild of the previous effective confidence |
| `HorseCustomisation.HorseGUI.MoveForward` | Phase-2/HorseGUI.java:260-266 | the distance grows by the number of naturals below the speed modifier |
| `HorseCustomisation.HorseGUI.Fall` | Part-1/Horse.java:42-45 | the horse is fallen; nothing else changes |
| `HorseCustomisation.HorseGUI.GoBackToStart` | Part-1/Horse.java:71-75 | distance 0 and standing; nothing else changes |
| `HorseCustomisation.HorseGUI.AddWin` | Phase-2/HorseGUI.java:235-237 | the win count grows by one |
| `HorseCustomisation.HorseGUI.AddRaceResult` | Phase-2/HorseGUI.java:239-241 | the result is appended to the history |
| `HorseCustomisation.HorseGUI.UpdateRaceStats` | Phase-2/HorseGUI.java:255-258 | the distance and time are added to the totals |
| `HorseCustomisation.HorseGUI.RecentRaceResults` | Phase-2/HorseGUI.java:213-215 | the last three results (all of them when there are fewer), in order, forming the tail of the history |
| `HorseCustomisation.HorseGUI.WinRatio` | Phase-2/HorseGUI.java:251-253 | 0 with no history; otherwise the ratio times the number of races is the wins, so it lies in [0, 1] when the wins do not exceed the races |
| `HorseCustomisation.HorseGUI.AverageSpeed` | Phase-2/HorseGUI.java:247-249 | 0 until time is recorded; otherwise the speed times the total time is the total distance |
| `RaceTrack.WeatherModifiers` | Phase-2/Track.java:38-60 | the speed factor lies in [0.6, 1], the confidence factor in [0.8, 1] and the fall factor in [1, 1.5] |
| `RaceTrack.WeatherOrdering` | Phase-2/Track.java:38-60 | an unlisted weather behaves as clear weather, and snow is strictly worse than rain, which is strictly worse than clear weather, in all three factors |
| `RaceTrack.ShapeModifier` | Phase-2/Track.java:90-101 | the shape's speed factor lies in [0.8, 1] |
| `RaceTrack.ShapeModifierIgnoresCase` | Phase-2/Track.java:91 | a name and its lower-cased form get the same factor |
| `RaceTrack.Blend` | Phase-2/Track.java:110 | the new average lies between the previous average and the new time, and equals them when they agree |
| `RaceTrack.Track.constructor` | Phase-2/Track.java:14-27 | a new track of the given length and lanes is oval, in clear weather with neutral modifiers, and has the default average times |
| `RaceTrack.Track.SetShape` | Phase-2/Track.java:29-31 | only the shape changes; the weather and its modifiers stay |
| `RaceTrack.Track.SetWeatherCondition` | Phase-2/Track.java:33-36 | the weather is set and the modifiers are again those of the weather |
| `RaceTrack.Track.UpdateWeatherModifiers` | Phase-2/Track.java:38-60 | the three modifiers become those of the current weather |
| `RaceTrack.Track.TrackShapeModifier` | Phase-2/Track.java:90-101 | the factor lies in [0.8, 1] and is looked up on the lower-cased shape |
| `RaceTrack.Track.AverageTimeForShape` | Phase-2/Track.java:103-105 | the stored average, or 20 for a shape never seen |
| `RaceTrack.Track.UpdateAverageTime` | Phase-2/Track.java:107-112 | a new shape gets the time itself; a known one moves 30% of the way to the time; no other shape changes |
| `RaceStatistics.Improve` | Phase-2/Statistics.java:21-26 | the key's record becomes the smaller of the old record and the time, and is never above either; every other key keeps its record |
| `RaceStatistics.ImproveKeepsMinima` | Phase-2/Statistics.java:21-26 | when every record is the minimum of the times offered for its key, that stays so after a new time is offered |
| `RaceStatistics.CountWins` | Phase-2/Statistics.java:48-53 | there are never more wins than records |
| `RaceStatistics.SumSpeedsWithin` | Phase-2/Statistics.java:35-38 | the sum of n speeds lies between n times the lowest and n times the highest bound |
| `RaceStatistics.MeanSpeedWithin` | Phase-2/Statistics.java:29-40 | the mean speed lies between the slowest and the fastest recorded speed |
| `RaceStatistics.CountWinsExtremes` | Phase-2/Statistics.java:48-53 | the count equals the number of records exactly when all are wins, and is 0 exactly when none is |
| `RaceStatistics.WinFractionInUnit` | Phase-2/Statistics.java:42-55 | the win ratio lies in [0, 1]; it is 1 exactly when every record is a win, and 0 exactly when none is |
| `RaceStatistics.FractionInUnit` | Phase-2/Statistics.java:54 | a part over a positive whole lies in [0, 1], is 1 only for the whole and 0 only for nothing |
| `RaceStatistics.ChangesTelescope` | Phase-2/Statistics.java:73-77 | the sum of consecutive confidence changes is the last final confidence minus the first |
| `RaceStatistics.TrendIsOverallChange` | Phase-2/Statistics.java:66-79 | the trend times the number of gaps is the overall change in final confidence |
| `RaceStatistics.ChangesShiftLast` | Phase-2/Statistics.java:101-111 | raising the newest record's final confidence by d raises the total change by exactly d |
| `RaceStatistics.AfterBettingStats` | Phase-2/Statistics.java:101-111 | only the winner's newest record changes, and only its final confidence: up by 0.1 when something was paid out, otherwise down by 0.1; a horse without records is untouched |
| `RaceStatistics.BetShifted` | Phase-2/Statistics.java:101-111 | one horse's list keeps its length and every record but the newest, whose final confidence alone moves by 0.1, up when something was paid out and down otherwise; an empty list stays empty |
| `RaceStatistics.Statistics.constructor` | Phase-2/Statistics.java:10-13 | both tables are empty |
| `RaceStatistics.Statistics.RecordRace` | Phase-2/Statistics.java:15-27 | the record is appended to the horse's list, and its time improves the record for its track and weather, which stays the minimum of all times seen |
| `RaceStatistics.Statistics.AverageSpeed` | Phase-2/Statistics.java:29-40 | the loop computes the mean recorded speed, 0 with no records |
| `RaceStatistics.Statistics.WinRatio` | Phase-2/Statistics.java:42-55 | the loop computes the fraction of records that are wins, 0 with no records |
| `RaceStatistics.Statistics.TrackRecord` | Phase-2/Statistics.java:57-60 | 0 for a key never recorded; otherwise never slower than any time recorded for that track and weather |
| `RaceStatistics.Statistics.ConfidenceTrend` | Phase-2/Statistics.java:66-79 | the loop computes the mean change in final confidence per race, 0 with fewer than two records |
| `RaceStatistics.Statistics.RecordBettingStats` | Phase-2/Statistics.java:101-111 | the table becomes the one `AfterBettingStats` describes |
| `Betting.AtLeast` | Phase-2/BettingSystem.java:55 | the larger of the floor and the value |
| `Betting.Score` | Phase-2/BettingSystem.java:72-82 | a recorded result scores between 0.8 and 1.2 |
| `Betting.WeightSumClosed` | Phase-2/BettingSystem.java:87 | the weights of the newest results sum to the triangle number the source divides by |
| `Betting.FormSumWithin` | Phase-2/BettingSystem.java:71-85 | the weighted score lies between 0.8 and 1.2 times the sum of the weights |
| `Betting.RecentFormWithin` | Phase-2/BettingSystem.java:62-88 | the form factor is 1 with no history and lies in [1.12, 1.28] otherwise |
| `Betting.FormSumOfTail` | Phase-2/BettingSystem.java:71 | the weighted score depends only on the results it weighs |
| `Betting.RecentFormLastFive` | Phase-2/BettingSystem.java:66-67 | results older than the last five never change the form factor |
| `Betting.TrackFactor` | Phase-2/BettingSystem.java:90-104 | the track factor is 1.0 or 1.2 |
| `Betting.SuitedBreed` | Phase-2/BettingSystem.java:95-103 | on lower-cased names the factor is 1.0 or 1.2 |
| `Betting.WeatherFactor` | Phase-2/BettingSystem.java:106-123 | the weather factor is 0.9, 1.0 or 1.1 |
| `Betting.SuitedGear` | Phase-2/BettingSystem.java:110-122 | on a lower-cased weather and gear description the factor is 0.9, 1.0 or 1.1 |
| `Betting.TrackFactorIgnoresCase` | Phase-2/BettingSystem.java:91-92 | letter case never changes the track factor |
| `Betting.WeatherFactorIgnoresCase` | Phase-2/BettingSystem.java:107-108 | letter case never changes the weather factor |
| `Betting.TrackFactorFavours` | Phase-2/BettingSystem.java:90-104 | for every shape and breed the factor is 1.2 exactly when, lower-cased, the shape contains "oval" and the breed "thoroughbred" or "arabian", or the shape "straight" and the breed "quarter", or the shape "figure-eight" and the breed "appaloosa"; it is 1.0 exactly otherwise |
| `Betting.WeatherFactorCases` | Phase-2/BettingSystem.java:106-123 | for every weather, horseshoes and saddle, with the gear being both names lower-cased and joined by a space: the factor is 1.1 exactly when the lower-cased weather names rain or snow and the gear heavy or racing, or the weather names neither but names clear and the gear lightweight or racing; 0.9 exactly when the weather names rain or snow and the gear lightweight but neither heavy nor racing; 1.0 exactly otherwise |
| `Betting.BettingPattern` | Phase-2/BettingSystem.java:125-138 | the factor is at least 1, at most 1.3 for a share of the total, 1 without bets, and above 1 exactly when more than 40% of the money is on the horse |
| `Betting.Payout` | Phase-2/BettingSystem.java:249 | a non-negative stake at non-negative odds pays a non-negative amount |
| `Betting.PerformanceFactor` | Phase-2/BettingSystem.java:34 | a non-negative confidence gives a performance factor of at least 0.5 |
| `Betting.OddsFromFactors` | Phase-2/BettingSystem.java:49-55 | the odds are at least 1.1; times the product of the five factors they are at least 11.5, and exactly 11.5 above the floor |
| `Betting.ExtremesExist` | Phase-2/BettingSystem.java:145-148 | a non-empty table has a lowest and a highest entry |
| `Betting.Lowest` | Phase-2/BettingSystem.java:145-148 | the lowest odds in the table |
| `Betting.Highest` | Phase-2/BettingSystem.java:145-148 | the highest odds in the table |
| `Betting.ExtremesUnique` | Phase-2/BettingSystem.java:145-148 | any lowest and highest values found are the table's extremes |
| `Betting.Spread` | Phase-2/BettingSystem.java:150-160 | spreading keeps the same horses |
| `Betting.Normalized` | Phase-2/BettingSystem.java:140-161 | spreading keeps the same horses |
| `Betting.NormalizedKeepsFloor` | Phase-2/BettingSystem.java:157 | no entry drops below 1.1 when none was below it |
| `Betting.NormalizedEqualOddsRiseByOne` | Phase-2/BettingSystem.java:150-160 | when all odds are equal, each rises by exactly 1 |
| `Betting.NormalizedReachesSpreadOfTwo` | Phase-2/BettingSystem.java:150-160 | when the floor does not interfere, different odds end exactly 2 apart, the extremes moving out by the same amount |
| `Betting.NormalizedCanStayBelowTwo` | Phase-2/BettingSystem.java:157 | odds of 1.5 and 2.0 become 1.1 and 2.75, a spread below 2 |
| `Betting.NonNullSnoc` | Phase-2/BettingSystem.java:30-31 | extending the list by one horse adds it to the horses priced, unless it is null |
| `Betting.BettingSystem.GetOdds` | Phase-2/BettingSystem.java:265-267 | 0 for a horse without odds, otherwise at least 1.1 |
| `Betting.BettingSystem.constructor` | Phase-2/BettingSystem.java:15-23 | no odds and no bets; the house holds 10000 and the player 1000; the statistics are shared |
| `Betting.PriceOf` | Phase-2/BettingSystem.java:33-55 | one horse's odds from its five factors, given the stakes on the table, are at least 1.1 |
| `Betting.Priced` | Phase-2/BettingSystem.java:30-56 | exactly the non-null horses of the list get odds, each at least 1.1 |
| `Betting.PricedSnoc` | Phase-2/BettingSystem.java:30-56 | pricing one more horse of the list adds its entry, and a null adds nothing |
| `Betting.PricedUnchanged` | Phase-2/BettingSystem.java:30-56 | pricing a list of horses gives the same odds before and after any change that leaves those horses and the track alone |
| `Betting.BettingSystem.PlaceBet` | Phase-2/BettingSystem.java:217-232 | a bet is accepted exactly when there is a horse and the amount is positive, within the balance and at least 2; it moves the amount from the balance onto that horse's stake and the total; a rejected bet changes nothing; the money in play is conserved |
| `Betting.BettingSystem.ProcessRaceResult` | Phase-2/BettingSystem.java:234-263 | without a winner the table is refunded and stays; with one, the odds are computed only if there are none, the winner's stake comes back with stake times odds on top, the house takes the rest, the winner's newest record is adjusted, the table is cleared and the money in play is conserved |
| `Betting.BettingSystem.Settle` | Phase-2/BettingSystem.java:247-262 | the balances, the statistics and the cleared table after paying the winner's stake at its odds |
| `Betting.BettingSystem.CalculateOdds` | Phase-2/BettingSystem.java:25-60 | the table becomes the spread of the five-factor odds of every non-null horse |
| `Betting.BettingSystem.SpreadTable` | Phase-2/BettingSystem.java:27-59 | the installed table is spread |
| `Betting.BettingSystem.OddsTable` | Phase-2/BettingSystem.java:30-56 | the loop builds the five-factor odds of every non-null horse |
| `Betting.BettingSystem.ComputeHorseOdds` | Phase-2/BettingSystem.java:33-55 | one horse's odds from its five factors |
| `Betting.BettingSystem.CalculateRecentForm` | Phase-2/BettingSystem.java:62-88 | the loop computes the weighted form factor of the last five results |
| `Betting.BettingSystem.CalculateBettingPattern` | Phase-2/BettingSystem.java:125-138 | the betting-pattern factor of the horse's stake against the total staked |
| `Betting.BettingSystem.NormalizeOdds` | Phase-2/BettingSystem.java:140-161 | the table becomes its spread form, whatever order the horses are visited in |
| `Betting.BettingSystem.NudgeAll` | Phase-2/BettingSystem.java:150-160 | each entry is nudged given the extremes |
| `Betting.BettingSystem.OddsExtremes` | Phase-2/BettingSystem.java:142-148 | the walk finds the lowest and the highest odds |
| `Betting.BettingSystem.TotalBetAmount` | Phase-2/BettingSystem.java:438-444 | the walk sums the stakes |
| `Common.LowestLane` | Part-2/Race.java:118 | the next lane a map walk visits is in the set and below every other one |
| `Common.LowestLaneExists` | Part-2/Race.java:118 | every non-empty set of lanes has a lowest one |
| `Common.TotalRemove` | Phase-2/BettingSystem.java:438-444 | the sum of the stakes does not depend on which one is added first |
| `Common.TotalUpdate` | Phase-2/BettingSystem.java:227-229 | storing a new stake changes the sum by the new stake minus the old one |
| `Common.TotalNonNegative` | Phase-2/BettingSystem.java:236-237 | a sum of non-negative stakes is non-negative |
| `Common.LowerChar` | Phase-2/Track.java:91 | an ASCII capital becomes its small letter and any other character stays (ASCII only) |
| `Common.Lower` | Phase-2/Track.java:91 | the lower-cased name has the same length, each character folded as `LowerChar` folds it (ASCII only) |
| `Common.LowerIdempotent` | Phase-2/BettingSystem.java:91-92 | lower-casing twice is lower-casing once |
| `Common.ContainsOccurs` | Phase-2/BettingSystem.java:95 | the scan finds the text exactly when it occurs somewhere |
| `Common.Decimal` | Part-2/Race.java:580 | the rendering is a non-empty string of decimal digits |
| `Common.DecimalRoundTrip` | Part-2/Race.java:580 | reading the rendering back gives the number |
| `TimedRace.ChancesInRange` | Part-2/Race.java:366-372 | for horses and tracks in range the move chance lies in [0, 1.1495] and the fall chance in [0.0009, 0.0195], and the most confident horse always moves in clear weather on an oval |
| `TimedRace.Step` | Part-2/Race.java:362-382 | a fallen horse stays put; a standing one advances, by at most its step count, exactly when the move draw is below the move chance, and falls exactly when the fall draw is below the fall chance |
| `TimedRace.Seconds` | Part-2/Race.java:189 | the race time in seconds is positive and is the nanoseconds over 10^9 |
| `TimedRace.HorseTime` | Part-2/Race.java:196-205 | a fallen or finished horse gets the race time; one that stopped short gets the race time stretched to the whole length at its pace, which is never shorter |
| `TimedRace.RecordedSpeedOfUnfinishedHorse` | Part-2/Race.java:203-207 | the speed recorded for a horse that stopped short is the distance it covered over the race time |
| `TimedRace.ResultText` | Part-2/Race.java:213-216 | the history line starts with the shape and ": ", and ends in " (fell)" exactly for a fallen horse |
| `TimedRace.WonCount` | Part-2/Race.java:658 | never more won bets than bets |
| `TimedRace.Recent` | Part-2/Race.java:661-664 | the last ten bets, or all of them when there are fewer |
| `TimedRace.RecentAfterAppend` | Part-2/Race.java:661-664 | appending a bet to the kept ones and dropping the oldest past ten gives the last ten of the longer history |
| `TimedRace.Roster` | Part-2/Race.java:59-73 | lanes 0 to 3 hold four distinct new horses with the source's symbols, names and confidences at the start, listed in lane order |
| `TimedRace.Components` | Part-2/Race.java:64-66 | a new oval clear track of the race length with four lanes, empty statistics, and a ledger sharing them with no odds or bets and the starting balances |
| `TimedRace.MadeForLanesExtend` | Part-2/Race.java:574-598 | a horse made for the next lane extends the run of horses made for consecutive lanes |
| `TimedRace.MakeLaneHorse` | Part-2/Race.java:576-596 | the horse made for the next lane is new and extends the run of made horses |
| `TimedRace.NewLaneHorse` | Part-2/Race.java:576-594 | the new horse for lane i has symbol '@' + i, name "Horse " and i + 1, the drawn breed, coat, saddle and horseshoes, and the speed and stamina they give |
| `TimedRace.SetLooks` | Part-2/Race.java:587-588 | the breed and coat colour are set; position, record and equipment are untouched |
| `TimedRace.SetTack` | Part-2/Race.java:593-594 | the saddle and horseshoes are set, and speed and stamina end as breed, saddle and horseshoes give them |
| `TimedRace.InLaneOrderLowest` | Part-2/Race.java:566-571 | the lane-order listing starts with the lowest lane |
| `TimedRace.InLaneOrderMembers` | Part-2/Race.java:566-571 | the listing holds the horse of every lane that has one, and nothing else |
| `TimedRace.KeepLanes` | Part-2/Race.java:552-559 | exactly the lanes below the count are kept, with their horses |
| `TimedRace.ListLanes` | Part-2/Race.java:566-571 | the horses of the kept lanes are listed lowest lane first, skipping empty lanes |
| `TimedRace.AddLaneHorses` | Part-2/Race.java:574-598 | lanes from the number of kept lanes up to count-1 get new, distinct horses made from their draws, in lane order; every other kept lane keeps its horse |
| `TimedRace.RefilledDistinct` | Part-2/Race.java:574-598 | refilling keeps the lanes' horses distinct |
| `TimedRace.RefillLanes` | Part-2/Race.java:551-598 | the lanes and list are what the lane-count change makes of the old lanes |
| `TimedRace.ListMissing` | Part-2/Race.java:601-605 | the list is extended by every lane horse it lacks, lowest lane first, and nothing else; a complete list is left as it was |
| `TimedRace.Race.constructor` | Part-2/Race.java:49-88 | four horses in lanes 0 to 3 with their symbols, names and confidences, a new oval clear track of the given length with four lanes, new statistics and a ledger sharing them, no race running, no bets, and a track length of 0 |
| `TimedRace.Race.ResetHorses` | Part-2/Race.java:118-124 | every horse in a lane is at the start, standing and unflagged, and there is no winner |
| `TimedRace.Race.StartRace` | Part-2/Race.java:111-130 | a race not running is reset and started at the given time; a paused race resumes with its horses untouched; either way it then runs, unpaused, with the timer going |
| `TimedRace.Race.BeginRace` | Part-2/Race.java:113-125 | the horses are reset, the start time taken and the race set running |
| `TimedRace.Race.StopRace` | Part-2/Race.java:165-170 | a running race is paused with its timer stopped; otherwise nothing changes |
| `TimedRace.Race.ResetRace` | Part-2/Race.java:172-185 | nothing running, paused or timed, every horse at the start and unflagged, and no winner |
| `TimedRace.Race.Launch` | Part-2/Race.java:114-116 | the start time is taken and the race runs, unpaused |
| `TimedRace.Race.SetRunState` | Part-2/Race.java:113-128 | the timer runs exactly when the race runs unpaused |
| `TimedRace.Race.MoveHorse` | Part-2/Race.java:362-382 | the horse's new place is the one `Step` gives for its draws on the current track |
| `TimedRace.Race.MoveAll` | Part-2/Race.java:134-138 | every horse in a lane takes exactly its own step |
| `TimedRace.Race.RaceWonBy` | Part-2/Race.java:389-407 | the result is true exactly when the race length is not 0 and some lane's horse has run exactly that length; the horse in the lowest such lane becomes the flagged winner |
| `TimedRace.Race.MarkWinner` | Part-2/Race.java:401-402 | the horse is flagged and recorded as the winner |
| `TimedRace.Race.IsAllHorsesFallen` | Part-2/Race.java:338-353 | the count says yes exactly when every lane is empty or holds a fallen horse |
| `TimedRace.Race.AddHorse` | Part-2/Race.java:96-103 | a free lane, one missing from the map or mapped to null, gets the horse, as `putIfAbsent` does; a lane holding a horse keeps it; no other lane changes |
| `TimedRace.Race.SetTrackShape` | Part-2/Race.java:523-526 | the track's shape is set, its weather kept |
| `TimedRace.Race.SetWeatherCondition` | Part-2/Race.java:528-531 | the track's weather and its modifiers are set |
| `TimedRace.Race.SetTrackLength` | Part-2/Race.java:611-619 | a length in [20, 200] becomes the race and track length, with a new oval clear track; any other length changes nothing |
| `TimedRace.Race.Relength` | Part-2/Race.java:613-616 | the new length and track are installed |
| `TimedRace.Race.SetLaneCount` | Part-2/Race.java:545-609 | a count in [2, 25] gives a new oval clear track of that many lanes; the lanes below the count keep their horses, listed first in lane order; lanes from the number of kept lanes up get new horses made from their draws, listed after; any other count changes nothing |
| `TimedRace.Race.InstallLanes` | Part-2/Race.java:547-549 | the lane count, lanes, list and a new oval clear track with that many lanes are installed |
| `TimedRace.Race.AddRaceEndListener` | Part-2/Race.java:679-681 | a listener is registered |
| `TimedRace.Race.UpdateBestTime` | Part-2/Race.java:235-239 | the race time becomes the best time for the shape and weather when there is none or it is faster, and the best times stay the minima of the race times seen |
| `TimedRace.Race.SetBestTimes` | Part-2/Race.java:238 | the best times installed are the minima of the times seen |
| `TimedRace.Race.BestTimeForTrack` | Part-2/Race.java:621-623 | 0 for a shape never timed in the current weather; otherwise never slower than any race time seen for it |
| `TimedRace.Race.RecordBet` | Part-2/Race.java:655-665 | the bet is counted, its amount added, counted as won when it was, and kept as the newest of at most ten recent bets |
| `TimedRace.Race.SetLedger` | Part-2/Race.java:656-664 | the counters and the recent list installed agree with the bet history |
| `TimedRace.Race.BettingWinRate` | Part-2/Race.java:643-645 | 0 without bets; otherwise the rate times the bets is the won bets, so it lies in [0, 1] |
| `TimedRace.Race.AverageBetAmount` | Part-2/Race.java:647-649 | 0 without bets; otherwise the average times the bets is the total amount |
| `TimedRace.Race.RecordHorse` | Part-2/Race.java:197-231 | the horse gets its history line, its win when it is the winner, the race length and its time in its totals, and one statistics record whose time improves the record for the track and weather |
| `TimedRace.Race.RecordsAfter` | Part-2/Race.java:192-233 | the same lanes, timed ones with their new record |
| `TimedRace.Race.RecordResults` | Part-2/Race.java:192-233 | every horse with a time is recorded as `RecordHorse` says, and the others keep their records |
| `TimedRace.Race.AllLanesRecorded` | Part-2/Race.java:192-233 | once no lane remains, the lane records are the new ones |
| `TimedRace.Race.RecordLane` | Part-2/Race.java:193-232 | one lane is recorded and every other lane keeps its record |
| `TimedRace.Race.SettleBets` | Part-2/Race.java:241-302 | `Settled`: with a winner the table total is recorded as a bet, won exactly when the winner was backed, the odds are the spread five-factor odds of the race's horses on its track and the stakes found when the table had none and are kept otherwise, the player gets the stake back with its winnings at the winner's odds, the house takes the rest of the table total and the table is cleared; with every horse fallen the total is recorded as lost and refunded to the player, the stakes and the house's balance staying; otherwise nothing is settled. `StatsSettled`: with a winner the statistics become `AfterBettingStats` of the old ones for the winner and the payout, without one they stay |
| `TimedRace.SettledMoney` | Phase-2/BettingSystem.java:234-263 | a settlement on a winner makes and loses no money over the player, the house and the table; a refund when every horse fell adds the table total to it, because the stakes stay on the table; no settlement leaves it |
| `TimedRace.Race.SettleWinner` | Part-2/Race.java:242-253 | the bet is recorded and the ledger settles on the winner, at odds priced from the race's horses, track and stakes when it had none: the player gets stake plus payout, the house the table total less that, the table is cleared, no money is made or lost, and the statistics become `AfterBettingStats` for the winner and the payout |
| `TimedRace.Race.SettleRefund` | Part-2/Race.java:279-287 | a lost bet of the whole table is recorded and the table refunded to the player, the stakes, odds, house balance and statistics staying |
| `TimedRace.Race.PayOut` | Part-2/Race.java:253 | the ledger settles on the winner, at odds priced from the race's horses, track and stakes when it had none: the player gets stake plus payout, the house the table total less that, the table is cleared and the statistics become `AfterBettingStats` for the winner and the payout; without a winner it refunds the table total to the player and keeps its stakes, odds, house balance and the statistics; the race's own state is kept |
| `TimedRace.Race.SettleTable` | Phase-2/BettingSystem.java:234-263 | the ledger's settlement with its odds stated over the race's horses and track as they stand after it: on a winner the player's and the house's new balances, the cleared table and the winner's shifted statistics; without one a refund that keeps the house balance and the statistics |
| `TimedRace.Race.PricingKept` | Phase-2/BettingSystem.java:242-245 | the odds the race's horses and track would be priced at do not change while the horses, their attributes and the track are unchanged |
| `TimedRace.Race.ProcessRaceResults` | Part-2/Race.java:187-325 | the best time for the track's shape and weather is improved by the race time in seconds since the start; the bets are `Settled` from the table and history it found, at odds priced, when there were none, from the horses as they end up and the track; `LaneStatsSettled`: each lane's statistics list is the one the race wrote for it, with the winner's newest record shifted by settling on it; the listener runs once; the horses' positions are untouched |
| `TimedRace.LanesSettled` | Part-2/Race.java:187-325 | when the lanes' records carry the lists of a statistics table and settling moves the table as `AfterBettingStats` says, or not at all without a winner, the lanes' lists afterwards are the records' lists with only the winner's shifted |
| `TimedRace.Race.Conclude` | Part-2/Race.java:235-324 | given the race time: the best time is improved, the bets are `Settled` and the statistics `StatsSettled` from the table, history and statistics it found, at odds priced, when there were none, from the horses as they end up and the track; each lane's statistics list is its record's list with the winner's shifted; the listener runs once |
| `TimedRace.Race.SettleAndNotify` | Part-2/Race.java:241-324 | the bets are `Settled` and the statistics `StatsSettled` from the table, history and statistics it found, at odds priced, when there were none, from the horses as they end up and the track, then the listener runs once |
| `TimedRace.Race.NotifyEnd` | Part-2/Race.java:322-324 | the listener runs once when there is one; the bet table, the horses, the track and the odds the horses would be priced at are unchanged |
| `TimedRace.Race.UpdateRace` | Part-2/Race.java:132-163 | every horse takes its step; a race that goes on has no finisher, a standing horse, the same winner, untouched best times, bet history, bet counters, ledger, statistics, horse records and listener count; a race that ends stops its timer, improves the best time by the seconds since the start, leaves the bets `Settled` from the table and history before the tick, at odds priced, when there were none, from the horses as they end up and the track, and runs the listener twice |
| `TimedRace.Race.MoveAndJudge` | Part-2/Race.java:134-154 | every horse takes its step; the race is over exactly when a horse has finished a non-zero length or every horse has fallen; a race that is not over keeps its winner |
| `TimedRace.Race.FinishRace` | Part-2/Race.java:145-150 | the race stops; the best time is improved by the seconds since the start; the bets are `Settled` from the table and history it found, at odds priced, when there were none, from the horses as they end up and the track; the positions are untouched; the listener runs twice |
| `TimedRace.Race.TimerTick` | Part-2/Race.java:76-80 | a running, unpaused race is updated as `UpdateRace` says, both when it goes on (positions, no finisher, a standing horse, everything else kept) and when the tick ends it (best time, settlement, listener); otherwise nothing changes, neither the race, its horses, the ledger nor the statistics |

## Left out

- Floating point: `double` is modelled as exact `real`. Rounding, `Infinity` and `NaN` are not modelled. The `int` counters do not wrap around.
- `Math.random()`, `System.nanoTime()`, the Swing timer and `TimeUnit.sleep` are parameters or left out. The timer's 100 ms period is not modelled.
- `TimedRace.Race.UpdateRace`: requires a current time later than the start time, which a real clock gives.
- `String.format` is a parameter (`timeText`). The recent bets are kept as records of amount and outcome, not as their formatted text.
- Display code is not modelled: `printRace`, `printLane`, `multiplePrint`, `clearConsole`, `printWinner`, `printNoWinner`, the result text shown, `invokeLater` and the `MainGUI` lookup.
- `setBettingSystem` is not modelled: the race keeps the ledger it builds, which shares its statistics.
- `Race.getAverageTimeForShape` (the best time times 1.2) is not modelled.
- `HorseGUI.getBestTimeForTrack` is not modelled: it parses times back out of the history text with `split` and `Double.parseDouble`.
- Reporting and unused odds code are not modelled: `getBettingFeedback`, `getBettingSummary`, `getBettingSuggestion`, `calculateDynamicOdds`, `calculateRecentFormModifier`, `calculateTrackRecordModifier`, `updateOddsDuringRace`, `generatePerformanceReport`.
- Getters that only return a field are not modelled.
- `HashMap` iteration order: lane maps are walked lowest lane first. Tables keyed by a horse have contracts that do not depend on the order.
- `ConsoleRace.Race.AddHorse`: requires that a horse added to a free lane (one missing from the map or mapped to null) is not already in another lane. Aliasing one horse object in two lanes is not modelled.
- `TimedRace.Race.AddHorse`: the same restriction.
- `ConsoleRace.Race.StartRace`: the `while (!finished)` loop is driven by a finite sequence of tick draws and stops when they run out; with no draws at all it runs no tick, where the source always runs at least one.
- `TimedRace.Race.RecordResults`: a standing horse with distance 0 at the end of a race gets no record, because the source divides by a zero completion ratio there.
- `TimedRace.Race.RecordResults`: does not state which times were offered to the statistics' track records. It states only that those records stay the minima of the times seen.
- `TimedRace.Race.ProcessRaceResults`: the per-horse records it writes are stated by `TimedRace.Race.RecordResults`, not repeated in its own contract.
- `TimedRace.Race.UpdateRace`: after a tick that ends the race, it does not restate the horses' positions or which end condition held.
- `TimedRace.Race.UpdateRace`: after a tick that ends the race, it states the house's and the player's balances through `Settled` but not the statistics lists; `TimedRace.Race.ProcessRaceResults` states those from the records it writes, and carrying them up would mean proving that stopping the race leaves every field those records are computed from unchanged, a proof too costly here.
- `TimedRace.Race.FinishRace`: the same, for the statistics lists after the race ends.
- `TimedRace.Race.TimerTick`: the same, for a tick that ends the race.
- `TimedRace.Race.ProcessRaceResults`: states the statistics lists of the horses in the lanes only; the lists of horses outside the lanes are stated one level down, by `TimedRace.Race.Conclude`, relative to the table the records left.
- `TimedRace.NewLaneHorse`: does not state the drawn confidence; the rebuilding setters change it.
- Lanes hold `HorseGUI` objects only. Part-2's `addHorse` accepts any `Horse`, and the race skips a lane whose horse is not a `HorseGUI` when it builds its list, records results and settles; the model has no such lane, so those skips have no counterpart.
- `Betting.BettingSystem.ProcessRaceResult`: takes the race's horse list and track as parameters, because the ledger's back-reference to its race would make the modules cyclic.
- `Common.Lower`: folds only the ASCII capitals A to Z and ignores the locale. Java's `toLowerCase` folds every Unicode capital and follows the default locale. This matters only for the case-insensitive name and attribute checks.
- `Common.LowerChar`: the same ASCII-only folding, one character at a time.
- The base class `Horse` that `Phase-2/HorseGUI.java` extends is not part of this model. Its fields are held in `HorseCustomisation.HorseGUI` and behave as in `Part-1/Horse.java`, including the clamping of confidence and a plain name setter.
