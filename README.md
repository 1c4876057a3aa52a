# TrackGenerator, modelled in Dafny

This project models the procedural non-backtracking track generator `TrackGenerator` of
`index.py`. The generator walks forward one fixed-length step at a time. Each step
it steers its heading in one of three ways:

- it continues a smooth big turn;
- it adds a small random noise to the smoothed recent heading while a countdown runs;
- once the countdown reaches zero, it makes a decision: a small turn (85% of the time) or the start of a big turn.

Every steering choice is checked against a backtracking test: a heading more than
120 degrees away from the initial heading is refused, and a turn that would produce
one falls back through 30% of itself, then -20% of itself, then no turn at all. The
generator also records the indices of the points where turns happen.

The model has six modules:

- `Angles` (angles.dfy): heading normalisation. `Normalize` is a function built from the two `while` loops of `normalize_angle`. `NormalizeAngle` is the imperative version with those loops, proved equal to `Normalize`.
- `Steering` (steering.dfy): the read-only queries.
  - `WouldBacktrack` is the backtracking test and `SafeHeading` a heading that passes it.
  - `SafeTurnAngle` is written as `FirstSafe`, the first safe candidate among `[d, 0.3d, -0.2d]`, and no turn otherwise.
  - `SmoothedAngle` is the mean of the last three headings.
- `Draws` (draws.dfy): the seeded random stream as an injected oracle `rng: nat -> [0, 1)`. Each Python call into the stream consumes the next draw, and `randint`, `uniform` and the random sign are written as functions of one draw.
- `TrackModel` (track_model.dfy): the generator's state as a value `GenState`. Each branch of a step is a function from the state before to the state after (`TurnStep`, `NoiseStep`, `SmallTurn`, `BeginTurn`, `Decision`, `Steer`, `NextPoint`). `Inv` is the invariant of the state.
- `TrackProperties` (track_properties.dfy): what each step keeps, and `Run`, `n` steps in a row. Both are proved on the model functions.
- `Generator` (track_generator.dfy): the class `TrackGenerator`.
  - The class has the generator's mutable fields, and its methods update them in place as the source does.
  - Each method except `GenerateFullTrack` is proved to move `Model()`, the object's state as a `GenState`, exactly as the corresponding model function says.
  - `GenerateFullTrack` is proved to end in `Run` of its starting state, the model's run of `numPoints` steps (none when `numPoints` is not positive, as `range` gives).
  - `GenerateNextPoint` and `GenerateFullTrack` also keep `Valid()`, the invariant `Inv` of `Model()`.

The model follows the code's exact ranges:

- `normalize_angle` leaves both 180 and -180 unchanged. Its range is therefore the closed interval [-180, 180], not a half-open one.
- `randint(lo, hi)` includes both ends, so a countdown is drawn from [20, 50] or [30, 70] and a big turn lasts 15 to 30 steps inclusive.

## Model

| member | source | states |
|---|---|---|
| Angles.Normalize | index.py:42-48 | the normalised heading lies in [-180, 180], a heading already in range is unchanged, and an input above the range never lands on -180 (below it, never on 180) |
| Angles.NormalizeAngle | index.py:42-48 | the two `while` loops compute exactly `Normalize` of the input, a heading in [-180, 180] |
| Angles.WrapDown | index.py:44-45 | computes the first loop: subtracts 360 while the angle is above 180 (its bounds are stated by `WrapDownBounds`) |
| Angles.WrapUp | index.py:46-47 | computes the second loop: adds 360 while the angle is below -180 (its bounds are stated by `WrapUpBounds`) |
| Angles.WrapDownBounds | index.py:44-45 | the first loop leaves the angle at most 180, does nothing to an angle at most 180, and stops above -180 |
| Angles.WrapUpBounds | index.py:46-47 | the second loop leaves the angle at least -180, does nothing to an angle at least -180, and stops below 180 |
| Angles.WrapDownByWholeTurns | index.py:44-45 | the first loop changes the angle by a whole number of turns |
| Angles.WrapUpByWholeTurns | index.py:46-47 | the second loop changes the angle by a whole number of turns |
| Angles.NormalizeByWholeTurns | index.py:42-48 | normalisation changes a heading only by a whole number of 360-degree turns |
| Angles.NormalizeIdempotent | index.py:42-48 | normalising twice is the same as normalising once |
| Angles.AbsNormalizeShift | index.py:42-48 | headings a whole number of turns apart normalise to headings of the same magnitude |
| Draws.RandInt | index.py:29 | `randint(lo, hi)` is an integer in [lo, hi], both ends included |
| Draws.Uniform | index.py:96 | `uniform(lo, hi)` lies between lo and hi |
| Draws.WithRandomSign | index.py:96 | multiplying by a random sign gives the value or its negation, of the same magnitude |
| Steering.ExceedsBacktrackThreshold | index.py:56-61 | computes the first check: the magnitude of the normalised difference from the initial heading exceeds 120 |
| Steering.ExceedsCumulativeTurn | index.py:63-66 | computes the second check, from the same normalised difference, against the cumulative limit of 120 |
| Steering.WouldBacktrack | index.py:54-68 | computes the backtracking test as either check holding (characterised by `WouldBacktrackExactly`) |
| Steering.WouldBacktrackExactly | index.py:54-68 | the backtracking test holds exactly when the normalised deviation from the initial heading exceeds 120 degrees in magnitude |
| Steering.CumulativeCheckRedundant | index.py:56-66 | the second check of the test (against the cumulative limit) holds exactly when the first one does, so it never changes the answer |
| Steering.SafeHeadingFromZero | index.py:54-68 | with the initial heading 0, a heading is safe exactly when it lies in [-120, 120] |
| Steering.WouldBacktrackNormalize | index.py:54-68 | the test gives the same answer for a heading and for its normalisation |
| Steering.NormalizedCandidateSafe | index.py:54-68 | a candidate heading that passes the test normalises to a safe heading |
| Steering.FirstSafe | index.py:70-91 | computes the fallback chain: the first candidate whose normalised heading passes the test, else no turn (its promises are stated by `FirstSafeChoice`) |
| Steering.SafeTurnAngle | index.py:70-91 | computes `get_safe_turn_angle` as that chain over the desired turn, 30% of it and -20% of it (its promises are stated by `SafeTurnAngleChoice`) |
| Steering.FirstSafeChoice | index.py:70-91 | the fallback chain returns one of its candidates or no turn, returns the first candidate whenever that one passes, and from a safe heading always reaches a safe heading |
| Steering.SafeTurnAngleChoice | index.py:70-91 | the safe turn is the desired turn, 30% of it, -20% of it, or 0; it is never larger than the desired turn; it is the desired turn whenever that one passes the test; and from a safe heading it leads to a safe heading |
| Steering.SmoothedAngle | index.py:50-52 | computes the mean of the last three headings, or of all of them when fewer are recorded |
| Steering.SmoothedWithin | index.py:50-52 | the smoothed heading lies between the bounds of the headings averaged |
| Steering.SmoothedSteady | index.py:50-52 | a history whose last three headings agree smooths to that heading |
| Steering.SmoothedIgnoresOlder | index.py:50-52 | only the last three headings affect the smoothed heading |
| TrackModel.Initial | index.py:10-40 | computes the constructor's state: the origin, headings 0, five zero headings, a first countdown drawn from [20, 50], no turn, one draw taken |
| TrackModel.TurnChoice | index.py:96-99 | computes the turn a decision takes (also at index.py:162-165): a drawn magnitude in [lo, hi], a drawn sign, then the safe turn |
| TrackModel.AimTurn | index.py:95-102 | computes the first half of `start_big_turn`: the target is the normalised current heading plus the safe turn |
| TrackModel.ScheduleTurn | index.py:104-114 | computes the second half: a drawn total, all steps remaining, the increment from the normalised difference, turning set, the current point flagged |
| TrackModel.BeginTurn | index.py:93-114 | computes `start_big_turn` as the two halves in order (its promises are stated by `BeginTurnSetsUpTurn` and `BeginTurnTargetSafe`) |
| TrackModel.TurnStep | index.py:116-133 | computes `step_turn`: advance by the increment, abort before a backtracking heading, or close the turn (its promises are stated by `TurnStepOutcome`) |
| TrackModel.NoiseStep | index.py:141-151 | computes the noise branch: count down, draw noise, and commit the normalised smoothed heading plus noise only when it passes the test |
| TrackModel.SmallTurn | index.py:160-173 | computes the small turn: the safe turn is added and normalised, appended to the history, and flagged when larger than half a degree |
| TrackModel.Decided | index.py:156-159 | computes the countdown reset into [30, 70] and the consumption of the turn-type roll |
| TrackModel.Decision | index.py:154-177 | computes the decision: a small turn when the roll is below 0.85, else a big turn |
| TrackModel.Steer | index.py:136-177 | computes the heading update of a step: a turn step while turning, a noise step while the countdown is positive, else a decision |
| TrackModel.Inv | index.py:9-190 | defines the state invariant: a safe current heading that ends a history of at least five safe headings, an origin-first track of safely reached points, strictly increasing turn indices naming emitted points, consistent turn counters and a non-negative countdown (kept by `NextPointKeepsInv`) |
| TrackModel.TurnIncrement | index.py:108-110 | the per-step share of a normalised turn spread over at least 15 steps is at most 12 degrees |
| TrackModel.NextPoint | index.py:135-185 | a step never shortens the heading history |
| TrackProperties.InitialState | index.py:10-40 | a fresh generator has only the origin as a point, no turn indices, a first countdown in [20, 50], and satisfies the invariant |
| TrackProperties.TurnChoiceSafe | index.py:95-99 | a drawn turn of lo to hi degrees, once made safe, turns at most hi degrees and keeps a safe heading safe |
| TrackProperties.BeginTurnSetsUpTurn | index.py:93-114 | starting a big turn sets turning, a total step count in [15, 30], all steps remaining, the increment as the normalised difference to the target divided by the step count (at most 12 degrees), and flags the current point index |
| TrackProperties.BeginTurnTargetSafe | index.py:93-102 | from a safe heading the target of a big turn is safe, and starting it changes neither heading, history nor points |
| TrackProperties.TurnIncrementSplitsEvenly | index.py:108-110 | the per-step shares add up to the whole turn |
| TrackProperties.TurnStepOutcome | index.py:116-133 | a turn step either advances by the increment (one step fewer remains, still turning, the new heading passed the test) or ends the turn with no steps remaining and the heading unchanged; when no steps remain, the target is reset to the current heading |
| TrackProperties.TurnStepHeading | index.py:116-133 | a turn step either leaves heading and history alone or appends a safe heading, and changes neither points nor turn indices |
| TrackProperties.NoiseStepHeading | index.py:138-150 | a noise step either leaves heading and history alone or appends a safe heading, and changes neither points nor turn indices |
| TrackProperties.SmallTurnHeading | index.py:158-173 | from a safe heading a small turn appends a safe heading to the history and flags at most the current point index |
| TrackProperties.DecisionBranchesHeading | index.py:152-177 | from a safe heading both outcomes of a decision leave the history alone or append a safe heading |
| TrackProperties.DecisionHeading | index.py:152-177 | from a safe heading a decision appends at most a safe heading, keeps the points, and flags at most the current point index |
| TrackProperties.SteerShape | index.py:136-177 | from a valid state, steering keeps points and initial heading, flags at most the current point index, and appends at most a safe heading |
| TrackProperties.TurnStepCounters | index.py:116-133 | a turn step keeps the turn counters consistent and leaves the countdown alone |
| TrackProperties.DecisionCounters | index.py:152-177 | a decision resets the countdown into [30, 70] and keeps the turn counters consistent |
| TrackProperties.SteerCounters | index.py:136-177 | the countdown is left alone during a turn, decremented between decisions, and reset into [30, 70] only once it has reached 0 outside a turn; the turn counters stay non-negative and consistent |
| TrackProperties.NextPointStepOk | index.py:135-185 | one call of the step operation appends exactly one point along the new heading, flags at most the index it had before the append, and keeps the history, countdown and turn-counter rules |
| TrackProperties.StepOkKeepsInv | index.py:135-185 | any step obeying those rules keeps the invariant: safe headings, at least five history entries ending in the current heading, strictly increasing turn indices all naming emitted points, consistent counters |
| TrackProperties.NextPointAppendsOnePoint | index.py:179-185 | a step appends exactly one point, along the new heading, and keeps all earlier points |
| TrackProperties.NextPointFlagsAtMostOne | index.py:135-185 | a step adds at most one turn index, and an added index is the index of the point that step emitted |
| TrackProperties.NextPointHistory | index.py:135-185 | a step either leaves heading and history alone or appends the new heading to the history |
| TrackProperties.NextPointKeepsInitial | index.py:135-185 | no step changes the initial heading |
| TrackProperties.NextPointKeepsInv | index.py:135-185 | every step keeps the invariant, so the heading never backtracks |
| TrackProperties.Run | index.py:187-190 | after any number of steps the invariant holds, the initial heading is the same, and exactly one point per step has been appended |
| TrackProperties.TraceIsRun | index.py:187-190 | a sequence of states each one step after the one before ends in `Run` of its first state for as many steps as it has transitions |
| TrackProperties.FullTrack | index.py:187-190 | a full track of n steps from a fresh generator has n + 1 points starting at the origin, every later point reached along a heading in [-120, 120], strictly increasing turn indices all below n + 1, and a final heading in [-120, 120] |
| Generator.TrackGenerator.constructor | index.py:10-40 | a fresh object is in the state `Initial` and satisfies the invariant |
| Generator.TrackGenerator.DrawUnit | index.py:159 | `random()` returns the next draw of the stream and consumes it |
| Generator.TrackGenerator.DrawUniform | index.py:144 | `uniform(lo, hi)` maps the next draw into the range and consumes it |
| Generator.TrackGenerator.DrawInt | index.py:156 | `randint(lo, hi)` maps the next draw into the range and consumes it |
| Generator.TrackGenerator.ChooseTurn | index.py:96-99 | drawing a magnitude and a sign and making the turn safe gives `TurnChoice` of the state and consumes two draws |
| Generator.TrackGenerator.AimBigTurn | index.py:95-102 | the object moves to `AimTurn` of its state: the target heading is set |
| Generator.TrackGenerator.ScheduleBigTurn | index.py:104-114 | the object moves to `ScheduleTurn` of its state: the step counts, increment and turning flag are set and the turn is flagged |
| Generator.TrackGenerator.StartBigTurn | index.py:93-114 | the object moves to `BeginTurn` of its state |
| Generator.TrackGenerator.StepTurn | index.py:116-133 | the object moves to `TurnStep` of its state |
| Generator.TrackGenerator.SteerNoise | index.py:140-150 | the object moves to `NoiseStep` of its state |
| Generator.TrackGenerator.MakeSmallTurn | index.py:160-173 | the object moves to `SmallTurn` of its state |
| Generator.TrackGenerator.ResetCountdown | index.py:154-159 | the object moves to `Decided` of its state, and the roll returned is the second draw taken |
| Generator.TrackGenerator.Decide | index.py:152-177 | the object moves to `Decision` of its state |
| Generator.TrackGenerator.GenerateNextPoint | index.py:135-185 | the object moves to `NextPoint` of its state, one point along the new heading is appended, and the invariant is kept |
| Generator.TrackGenerator.GenerateFullTrack | index.py:187-190 | the object ends in `Run` of its starting state for `numPoints` steps (zero steps when `numPoints` is not positive), the invariant is kept, exactly one point per loop iteration is appended after the earlier points, and the returned lists are the object's points and turn indices |

## Left out

- Point coordinates: `math.radians`, `cos` and `sin` are not modelled. A point is `Origin` or `Advance(heading, length)`, the step that reached it, and `current_position` is not a field.
- The random number generator: `random.Random(seed)` is an injected stream of draws in [0, 1). `randint` is modelled as `lo + floor(u * (hi - lo + 1))` and `uniform` as `lo + (hi - lo) * u`. Python's exact mapping of its Mersenne Twister output is not modelled. The seed itself is not a field.
- Floating point: headings are exact reals. `np.mean` is an exact average and the division by the step count is exact, so rounding is not modelled.
- `cumulative_turn` and `max_turn_angle` are set in the constructor and never read, so they are not fields. The two thresholds are the constants `BACKTRACK_THRESHOLD` and `MAX_CUMULATIVE_TURN`.
- The default arguments `step_length=10` and `num_points=200`: the constructor takes both explicitly.
- Aliasing: `generate_full_track` returns the object's own lists. The model returns their values.
- `TrackApp`, `generate_random_seed`, the live generation and all of the Tk and matplotlib interface are outside the generator and not modelled.
- Multiplying by `1` or `-1` for a random sign is written as `WithRandomSign`, which returns the value or its negation (the same on reals).
- Generator.TrackGenerator.SteerNoise: it requires a non-empty heading history, where the source would average an empty list to NaN. The invariant keeps at least five entries, so that case is unreachable.
