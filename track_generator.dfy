/**
 * The track generator as an object whose methods update its fields in place. Each
 * method is proved to move the object's state exactly as the step functions of
 * `TrackModel` say, so everything proved about those functions holds of the object.
 */
module Generator {
  import opened Angles
  import opened Steering
  import opened Draws
  import opened TrackModel
  import opened TrackProperties

  /** The number of iterations of `for _ in range(n)`: none when `n` is not positive. */
  function LoopCount(n: int): nat
  {
    if n > 0 then n else 0
  }

  class TrackGenerator {
    /** The seeded random stream; `drawn` draws of it have been taken. */
    const rng: Oracle
    const stepLength: real
    const numPoints: int
    /** The heading the track must never turn back against; it is never changed. */
    const initialDirection: real

    var drawn: nat
    var trackPoints: seq<Point>
    var currentDirectionAngle: real
    var targetDirectionAngle: real
    var previousAngles: seq<real>
    var stepsUntilNextTurn: int
    var turnIndices: seq<int>
    var turning: bool
    var turnStepsRemaining: int
    var turnTotalSteps: int
    var turnAngleIncrement: real

    /** The object's state as a value of the model. */
    function Model(): GenState
      reads this
    {
      GenState(trackPoints, currentDirectionAngle, targetDirectionAngle, previousAngles,
               initialDirection, stepsUntilNextTurn, turnIndices, turning,
               turnStepsRemaining, turnTotalSteps, turnAngleIncrement, drawn)
    }

    ghost predicate Valid()
      reads this
    {
      Inv(Model())
    }

    /** A fresh generator: the origin, heading 0, five zero headings, and a first countdown. */
    constructor(rng: Oracle, stepLength: real, numPoints: int)
      ensures this.rng == rng && this.stepLength == stepLength && this.numPoints == numPoints
      ensures Model() == Initial(rng)
      ensures Valid()
    {
      this.rng := rng;
      this.stepLength := stepLength;
      this.numPoints := numPoints;
      initialDirection := 0.0;
      trackPoints := [Origin];
      currentDirectionAngle := 0.0;
      targetDirectionAngle := 0.0;
      previousAngles := [0.0, 0.0, 0.0, 0.0, 0.0];
      stepsUntilNextTurn := RandInt(FIRST_DECISION_MIN, FIRST_DECISION_MAX, rng(0));
      drawn := 1;
      turnIndices := [];
      turning := false;
      turnStepsRemaining := 0;
      turnTotalSteps := 0;
      turnAngleIncrement := 0.0;
      new;
      InitialState(rng);
    }

    /** `random()`: takes the next draw of the stream. */
    method DrawUnit() returns (u: Unit)
      modifies this`drawn
      ensures u == rng(old(drawn)) && drawn == old(drawn) + 1
    {
      u := rng(drawn);
      drawn := drawn + 1;
    }

    /** `uniform(lo, hi)`: takes the next draw of the stream. */
    method DrawUniform(lo: real, hi: real) returns (r: real)
      modifies this`drawn
      ensures r == Uniform(lo, hi, rng(old(drawn))) && drawn == old(drawn) + 1
    {
      var u := DrawUnit();
      r := Uniform(lo, hi, u);
    }

    /** `randint(lo, hi)`: takes the next draw of the stream. */
    method DrawInt(lo: int, hi: int) returns (r: int)
      modifies this`drawn
      ensures r == RandInt(lo, hi, rng(old(drawn))) && drawn == old(drawn) + 1
    {
      var u := DrawUnit();
      r := RandInt(lo, hi, u);
    }

    /**
     * `uniform(lo, hi) * (1 if random() < 0.5 else -1)`, passed through
     * `get_safe_turn_angle`: the turn actually taken.
     */
    method ChooseTurn(lo: real, hi: real) returns (turn: real)
      modifies this`drawn
      ensures turn == TurnChoice(old(Model()), rng, lo, hi)
      ensures drawn == old(drawn) + 2
    {
      var magnitude := DrawUniform(lo, hi);
      var u := DrawUnit();
      var desired := WithRandomSign(magnitude, u);
      turn := SafeTurnAngle(initialDirection, currentDirectionAngle, desired);
    }

    /** Choose the big turn and set the heading it aims at. */
    method AimBigTurn()
      modifies this
      ensures Model() == AimTurn(old(Model()), rng)
    {
      var bigTurnAngle := ChooseTurn(20.0, 50.0);
      targetDirectionAngle := NormalizeAngle(currentDirectionAngle + bigTurnAngle);
    }

    /** Spread the turn over its steps, start it, and flag the current point. */
    method ScheduleBigTurn()
      modifies this
      ensures Model() == ScheduleTurn(old(Model()), rng)
    {
      turnTotalSteps := DrawInt(BIG_TURN_STEPS_MIN, BIG_TURN_STEPS_MAX);
      turnStepsRemaining := turnTotalSteps;
      var angleDiff := NormalizeAngle(targetDirectionAngle - currentDirectionAngle);
      turnAngleIncrement := TurnIncrement(angleDiff, turnTotalSteps);
      turning := true;
      turnIndices := turnIndices + [|trackPoints|];
    }

    /** Start a smooth big turn. */
    method StartBigTurn()
      modifies this
      ensures Model() == BeginTurn(old(Model()), rng)
    {
      AimBigTurn();
      ScheduleBigTurn();
    }

    /** One step of a smooth big turn. */
    method StepTurn()
      modifies this
      ensures Model() == TurnStep(old(Model()))
    {
      if turnStepsRemaining > 0 {
        var newAngle := currentDirectionAngle + turnAngleIncrement;
        if !WouldBacktrack(initialDirection, newAngle) {
          currentDirectionAngle := NormalizeAngle(newAngle);
          previousAngles := previousAngles + [currentDirectionAngle];
          turnStepsRemaining := turnStepsRemaining - 1;
        } else {
          turning := false;
          turnStepsRemaining := 0;
        }
      } else {
        turning := false;
        targetDirectionAngle := currentDirectionAngle;
      }
    }

    /** The branch of `GenerateNextPoint` between decisions: count down and add noise. */
    method SteerNoise()
      requires previousAngles != []
      modifies this
      ensures Model() == NoiseStep(old(Model()), rng)
    {
      stepsUntilNextTurn := stepsUntilNextTurn - 1;
      var noise := DrawUniform(-1.0, 1.0);
      var smoothedAngle := SmoothedAngle(previousAngles);
      var proposedAngle := smoothedAngle + noise;
      if !WouldBacktrack(initialDirection, proposedAngle) {
        currentDirectionAngle := NormalizeAngle(proposedAngle);
        previousAngles := previousAngles + [currentDirectionAngle];
      }
    }

    /** The small-turn branch of a decision point. */
    method MakeSmallTurn()
      modifies this
      ensures Model() == SmallTurn(old(Model()), rng)
    {
      var safeTurnAngle := ChooseTurn(2.0, 15.0);
      currentDirectionAngle := currentDirectionAngle + safeTurnAngle;
      currentDirectionAngle := NormalizeAngle(currentDirectionAngle);
      previousAngles := previousAngles + [currentDirectionAngle];
      if Abs(safeTurnAngle) > FLAGGED_TURN_MIN {
        turnIndices := turnIndices + [|trackPoints|];
      }
    }

    /** A decision point's first two draws: the next countdown, then the turn-type roll. */
    method ResetCountdown() returns (turnTypeRoll: Unit)
      modifies this
      ensures Model() == Decided(old(Model()), rng)
      ensures turnTypeRoll == rng(old(drawn) + 1)
    {
      stepsUntilNextTurn := DrawInt(DECISION_MIN, DECISION_MAX);
      turnTypeRoll := DrawUnit();
    }

    /** The branch of `GenerateNextPoint` at a decision point. */
    method Decide()
      modifies this
      ensures Model() == Decision(old(Model()), rng)
    {
      var turnTypeRoll := ResetCountdown();
      if turnTypeRoll < SMALL_TURN_ODDS {
        MakeSmallTurn();
      } else {
        StartBigTurn();
      }
    }

    /** Steer, then move one step forward along the new heading. */
    method GenerateNextPoint()
      requires Valid()
      modifies this
      ensures Model() == NextPoint(old(Model()), rng, stepLength)
      ensures trackPoints == old(trackPoints) + [Advance(currentDirectionAngle, stepLength)]
      ensures Valid()
    {
      if turning {
        StepTurn();
      } else if stepsUntilNextTurn > 0 {
        SteerNoise();
      } else {
        Decide();
      }
      trackPoints := trackPoints + [Advance(currentDirectionAngle, stepLength)];
      NextPointKeepsInv(old(Model()), rng, stepLength);
    }

    /**
     * `numPoints` calls of the step operation; the result is the list of points and
     * the list of turn indices. The object ends in the state the model's run of that
     * many steps reaches, the invariant still holds, and the track has grown by exactly
     * one point per call while keeping every earlier point. A ghost trace records the
     * state after each call.
     */
    method GenerateFullTrack() returns (points: seq<Point>, indices: seq<int>)
      requires Valid()
      modifies this
      ensures Valid()
      ensures |trackPoints| == |old(trackPoints)| + LoopCount(numPoints)
      ensures old(trackPoints) <= trackPoints
      ensures Model() == Run(old(Model()), rng, stepLength, LoopCount(numPoints))
      ensures points == trackPoints && indices == turnIndices
    {
      ghost var trace := [Model()];
      var i := 0;
      while i < numPoints
        invariant 0 <= i <= LoopCount(numPoints)
        invariant Valid()
        invariant |trackPoints| == |old(trackPoints)| + i
        invariant old(trackPoints) <= trackPoints
        invariant |trace| == i + 1 && trace[0] == old(Model()) && trace[i] == Model()
        invariant forall k :: 0 <= k < i ==>
                    trace[k].previousAngles != [] && trace[k + 1] == NextPoint(trace[k], rng, stepLength)
      {
        GenerateNextPoint();
        trace := trace + [Model()];
        i := i + 1;
      }
      TraceIsRun(trace, rng, stepLength);
      points, indices := trackPoints, turnIndices;
    }
  }
}
