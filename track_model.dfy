/**
 * The track generator's state machine as values: one step of it is a function from
 * the state before the step to the state after it. The class in track_generator.dfy
 * is proved to follow these functions, and the lemmas here state what every step keeps.
 */
module TrackModel {
  import opened Angles
  import opened Steering
  import opened Draws

  /**
   * An emitted track point. The first point is the origin; every later point lies
   * `length` beyond the previous one along `heading` (the coordinates are not modelled).
   */
  datatype Point = Origin | Advance(heading: real, length: real)

  /** Everything the generator changes while it runs, plus its initial heading. */
  datatype GenState = GenState(
    trackPoints: seq<Point>,
    currentDirection: real,
    targetDirection: real,
    previousAngles: seq<real>,
    initialDirection: real,
    stepsUntilNextTurn: int,
    turnIndices: seq<int>,
    turning: bool,
    turnStepsRemaining: int,
    turnTotalSteps: int,
    turnAngleIncrement: real,
    drawn: nat)

  // Ranges of the random draws.
  const FIRST_DECISION_MIN: int := 20
  const FIRST_DECISION_MAX: int := 50
  const DECISION_MIN: int := 30
  const DECISION_MAX: int := 70
  const BIG_TURN_STEPS_MIN: int := 15
  const BIG_TURN_STEPS_MAX: int := 30
  /** A decision roll below this makes a small turn, otherwise a big turn starts. */
  const SMALL_TURN_ODDS: real := 0.85
  /** A small turn is flagged only when its safe angle is larger than this. */
  const FLAGGED_TURN_MIN: real := 0.5

  /** The state of a freshly constructed generator; it has taken one draw. */
  function Initial(rng: Oracle): GenState
  {
    GenState(
      trackPoints := [Origin],
      currentDirection := 0.0,
      targetDirection := 0.0,
      previousAngles := [0.0, 0.0, 0.0, 0.0, 0.0],
      initialDirection := 0.0,
      stepsUntilNextTurn := RandInt(FIRST_DECISION_MIN, FIRST_DECISION_MAX, rng(0)),
      turnIndices := [],
      turning := false,
      turnStepsRemaining := 0,
      turnTotalSteps := 0,
      turnAngleIncrement := 0.0,
      drawn := 1)
  }

  /**
   * The turn actually taken for a desired turn of `lo` to `hi` degrees either way:
   * a magnitude and a sign are drawn, then the turn is made safe.
   */
  function TurnChoice(s: GenState, rng: Oracle, lo: real, hi: real): real
  {
    SafeTurnAngle(s.initialDirection, s.currentDirection,
                  WithRandomSign(Uniform(lo, hi, rng(s.drawn)), rng(s.drawn + 1)))
  }

  /** The first half of starting a big turn: aim at a turn of 20 to 50 degrees, made safe. */
  function AimTurn(s: GenState, rng: Oracle): GenState
  {
    s.(targetDirection := Normalize(s.currentDirection + TurnChoice(s, rng, 20.0, 50.0)),
       drawn := s.drawn + 2)
  }

  /**
   * The second half: spread the turn to the target over 15 to 30 steps, each step
   * moving by the same share of the shortest signed path, and flag the current point.
   */
  function ScheduleTurn(s: GenState, rng: Oracle): GenState
  {
    var total := RandInt(BIG_TURN_STEPS_MIN, BIG_TURN_STEPS_MAX, rng(s.drawn));
    var diff := Normalize(s.targetDirection - s.currentDirection);
    s.(turnTotalSteps := total,
       turnStepsRemaining := total,
       turnAngleIncrement := TurnIncrement(diff, total),
       turning := true,
       turnIndices := s.turnIndices + [|s.trackPoints|],
       drawn := s.drawn + 1)
  }

  /** Start a smooth big turn. */
  function BeginTurn(s: GenState, rng: Oracle): GenState
  {
    ScheduleTurn(AimTurn(s, rng), rng)
  }

  /** One step of a big turn: advance by the increment, abort it, or close it. */
  function TurnStep(s: GenState): GenState
  {
    if s.turnStepsRemaining > 0 then
      var newAngle := s.currentDirection + s.turnAngleIncrement;
      if !WouldBacktrack(s.initialDirection, newAngle) then
        var heading := Normalize(newAngle);
        s.(currentDirection := heading,
           previousAngles := s.previousAngles + [heading],
           turnStepsRemaining := s.turnStepsRemaining - 1)
      else
        s.(turning := false, turnStepsRemaining := 0)
    else
      s.(turning := false, targetDirection := s.currentDirection)
  }

  /** Between decisions: count down and nudge the smoothed heading by noise in [-1, 1]. */
  function NoiseStep(s: GenState, rng: Oracle): GenState
    requires s.previousAngles != []
  {
    var noise := Uniform(-1.0, 1.0, rng(s.drawn));
    var proposed := SmoothedAngle(s.previousAngles) + noise;
    var counted := s.(stepsUntilNextTurn := s.stepsUntilNextTurn - 1, drawn := s.drawn + 1);
    if !WouldBacktrack(s.initialDirection, proposed) then
      var heading := Normalize(proposed);
      counted.(currentDirection := heading, previousAngles := s.previousAngles + [heading])
    else
      counted
  }

  /** A small turn of 2 to 15 degrees, made safe, flagged when it exceeds half a degree. */
  function SmallTurn(s: GenState, rng: Oracle): GenState
  {
    var safe := TurnChoice(s, rng, 2.0, 15.0);
    var heading := Normalize(s.currentDirection + safe);
    var turned := s.(currentDirection := heading,
                     previousAngles := s.previousAngles + [heading],
                     drawn := s.drawn + 2);
    if Abs(safe) > FLAGGED_TURN_MIN then
      turned.(turnIndices := s.turnIndices + [|s.trackPoints|])
    else
      turned
  }

  /** The state at a decision point once the countdown is reset and the turn type is rolled. */
  function Decided(s: GenState, rng: Oracle): GenState
  {
    s.(stepsUntilNextTurn := RandInt(DECISION_MIN, DECISION_MAX, rng(s.drawn)), drawn := s.drawn + 2)
  }

  /** A decision point: reset the countdown, then a small turn or the start of a big one. */
  function Decision(s: GenState, rng: Oracle): GenState
  {
    if rng(s.drawn + 1) < SMALL_TURN_ODDS then SmallTurn(Decided(s, rng), rng)
    else BeginTurn(Decided(s, rng), rng)
  }

  /** The heading update of one step: exactly one of the three branches. */
  function Steer(s: GenState, rng: Oracle): GenState
    requires s.previousAngles != []
  {
    if s.turning then TurnStep(s)
    else if s.stepsUntilNextTurn > 0 then NoiseStep(s, rng)
    else Decision(s, rng)
  }

  /** One call of the step operation: steer, then emit one point along the new heading. */
  function NextPoint(s: GenState, rng: Oracle, stepLength: real): (t: GenState)
    requires s.previousAngles != []
    ensures |t.previousAngles| >= |s.previousAngles|
  {
    var u := Steer(s, rng);
    u.(trackPoints := u.trackPoints + [Advance(u.currentDirection, stepLength)])
  }

  // ---------------------------------------------------------------------------
  // What every step keeps

  predicate StrictlyIncreasing(xs: seq<int>)
  {
    forall i, j :: 0 <= i < j < |xs| ==> xs[i] < xs[j]
  }

  /** Every index is the index of an emitted point. */
  predicate AllBelow(xs: seq<int>, n: nat)
  {
    forall i :: 0 <= i < |xs| ==> 0 <= xs[i] < n
  }

  predicate SafeHistory(initial: real, history: seq<real>)
  {
    forall i {:trigger SafeHeading(initial, history[i])} :: 0 <= i < |history| ==> SafeHeading(initial, history[i])
  }

  /** The origin first, then points each reached along a safe heading. */
  predicate SafeTrack(initial: real, points: seq<Point>)
  {
    |points| >= 1 && points[0] == Origin &&
    forall i :: 1 <= i < |points| ==> points[i].Advance? && SafeHeading(initial, points[i].heading)
  }

  /**
   * The turn counters: never negative, no steps remain outside a turn, and a turn
   * in progress spans 15 to 30 steps.
   */
  predicate TurnCountersOk(s: GenState)
  {
    0 <= s.turnStepsRemaining <= s.turnTotalSteps &&
    (!s.turning ==> s.turnStepsRemaining == 0) &&
    (s.turning ==> BIG_TURN_STEPS_MIN <= s.turnTotalSteps <= BIG_TURN_STEPS_MAX)
  }

  /** The invariant of the generator's state. */
  predicate Inv(s: GenState)
  {
    SafeHeading(s.initialDirection, s.currentDirection) &&
    |s.previousAngles| >= 5 &&
    s.previousAngles[|s.previousAngles| - 1] == s.currentDirection &&
    SafeHistory(s.initialDirection, s.previousAngles) &&
    SafeTrack(s.initialDirection, s.trackPoints) &&
    StrictlyIncreasing(s.turnIndices) &&
    AllBelow(s.turnIndices, |s.trackPoints|) &&
    TurnCountersOk(s) &&
    s.stepsUntilNextTurn >= 0
  }

  /**
   * `angle_diff / turn_total_steps`: the per-step share of a turn. The shares add
   * up to the whole turn, and a wrapped turn over 15 or more steps moves at most
   * 12 degrees a step.
   */
  function TurnIncrement(diff: real, steps: int): (inc: real)
    requires steps > 0
    ensures -180.0 <= diff <= 180.0 && steps >= BIG_TURN_STEPS_MIN ==> Abs(inc) <= 12.0
  {
    var n := steps as real;
    var inc := diff / n;
    assert inc * n == diff;
    assert -180.0 <= diff <= 180.0 && steps >= BIG_TURN_STEPS_MIN ==> Abs(inc) <= 12.0 by {
      if inc > 12.0 {
        assert inc * n > 12.0 * n;
      } else if inc < -12.0 {
        assert inc * n < -12.0 * n;
      }
    }
    inc
  }

}
