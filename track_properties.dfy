/**
 * What every step of the track generator keeps: the heading never backtracks, the
 * track grows by one point a step from the origin, turn indices increase and name
 * emitted points, and the turn and countdown counters stay consistent.
 */
module TrackProperties {
  import opened Angles
  import opened Steering
  import opened Draws
  import opened TrackModel

  /** A fresh generator: the origin alone, no turns, five zero headings, a first countdown in [20, 50]. */
  lemma InitialState(rng: Oracle)
    ensures Inv(Initial(rng))
    ensures Initial(rng).trackPoints == [Origin] && Initial(rng).turnIndices == []
    ensures FIRST_DECISION_MIN <= Initial(rng).stepsUntilNextTurn <= FIRST_DECISION_MAX
  {
  }

  /**
   * The turn a decision takes: at most `hi` degrees either way, and from a safe
   * heading it leads to a safe heading.
   */
  lemma TurnChoiceSafe(s: GenState, rng: Oracle, lo: real, hi: real)
    requires 0.0 <= lo <= hi
    ensures Abs(TurnChoice(s, rng, lo, hi)) <= hi
    ensures SafeHeading(s.initialDirection, s.currentDirection) ==>
              SafeHeading(s.initialDirection, Normalize(s.currentDirection + TurnChoice(s, rng, lo, hi)))
  {
    var desired := WithRandomSign(Uniform(lo, hi, rng(s.drawn)), rng(s.drawn + 1));
    SafeTurnAngleChoice(s.initialDirection, s.currentDirection, desired);
  }

  /**
   * A big turn starts: turning is set, the full step count in [15, 30] remains, the
   * per-step increment covers the shortest signed path to the target in that many
   * steps, and the current point is flagged.
   */
  lemma BeginTurnSetsUpTurn(s: GenState, rng: Oracle)
    ensures BeginTurn(s, rng).turning
    ensures BIG_TURN_STEPS_MIN <= BeginTurn(s, rng).turnTotalSteps <= BIG_TURN_STEPS_MAX
    ensures BeginTurn(s, rng).turnStepsRemaining == BeginTurn(s, rng).turnTotalSteps
    ensures BeginTurn(s, rng).turnAngleIncrement ==
              TurnIncrement(Normalize(BeginTurn(s, rng).targetDirection - s.currentDirection),
                            BeginTurn(s, rng).turnTotalSteps)
    ensures Abs(BeginTurn(s, rng).turnAngleIncrement) <= 12.0
    ensures BeginTurn(s, rng).turnIndices == s.turnIndices + [|s.trackPoints|]
  {
  }

  /**
   * Starting a big turn leaves the heading and the history alone, and from a safe
   * heading the target it sets is itself safe.
   */
  lemma BeginTurnTargetSafe(s: GenState, rng: Oracle)
    requires SafeHeading(s.initialDirection, s.currentDirection)
    ensures SafeHeading(s.initialDirection, BeginTurn(s, rng).targetDirection)
    ensures BeginTurn(s, rng).currentDirection == s.currentDirection
    ensures BeginTurn(s, rng).previousAngles == s.previousAngles
    ensures BeginTurn(s, rng).trackPoints == s.trackPoints
  {
    TurnChoiceSafe(s, rng, 20.0, 50.0);
  }

  /** The per-step shares of a turn add up to the whole turn. */
  lemma TurnIncrementSplitsEvenly(diff: real, steps: int)
    requires steps > 0
    ensures TurnIncrement(diff, steps) * steps as real == diff
  {
  }

  /**
   * A turn step either takes one increment (one step fewer remains, still turning)
   * or stops the turn: aborted before a backtracking step, or closed once no steps remain.
   */
  lemma TurnStepOutcome(s: GenState)
    requires s.turnStepsRemaining >= 0
    ensures var t := TurnStep(s);
      (t.turnStepsRemaining == s.turnStepsRemaining - 1 && t.turning == s.turning &&
       t.currentDirection == Normalize(s.currentDirection + s.turnAngleIncrement) &&
       !WouldBacktrack(s.initialDirection, s.currentDirection + s.turnAngleIncrement)) ||
      (!t.turning && t.turnStepsRemaining == 0 && t.currentDirection == s.currentDirection)
    ensures s.turnStepsRemaining <= 0 ==> TurnStep(s).targetDirection == s.currentDirection
  {
  }

  /**
   * The heading part of a step: either the heading and the history are left alone, or
   * the new heading is safe and appended to the history.
   */
  predicate HeadingStepOk(s: GenState, u: GenState)
  {
    (u.previousAngles == s.previousAngles && u.currentDirection == s.currentDirection) ||
    (u.previousAngles == s.previousAngles + [u.currentDirection] &&
     SafeHeading(s.initialDirection, u.currentDirection))
  }

  /** A turn step commits only headings that passed the backtracking test. */
  lemma TurnStepHeading(s: GenState)
    ensures HeadingStepOk(s, TurnStep(s))
    ensures TurnStep(s).trackPoints == s.trackPoints && TurnStep(s).turnIndices == s.turnIndices
  {
    if s.turnStepsRemaining > 0 && !WouldBacktrack(s.initialDirection, s.currentDirection + s.turnAngleIncrement) {
      NormalizedCandidateSafe(s.initialDirection, s.currentDirection + s.turnAngleIncrement);
    }
  }

  /** A noise step commits only a smoothed heading that passed the backtracking test. */
  lemma NoiseStepHeading(s: GenState, rng: Oracle)
    requires s.previousAngles != []
    ensures HeadingStepOk(s, NoiseStep(s, rng))
    ensures NoiseStep(s, rng).trackPoints == s.trackPoints && NoiseStep(s, rng).turnIndices == s.turnIndices
  {
    var proposed := SmoothedAngle(s.previousAngles) + Uniform(-1.0, 1.0, rng(s.drawn));
    if !WouldBacktrack(s.initialDirection, proposed) {
      NormalizedCandidateSafe(s.initialDirection, proposed);
    }
  }

  /** A small turn commits the safe version of the drawn turn, and flags at most the current point. */
  lemma SmallTurnHeading(s: GenState, rng: Oracle)
    requires SafeHeading(s.initialDirection, s.currentDirection)
    ensures SmallTurn(s, rng).previousAngles == s.previousAngles + [SmallTurn(s, rng).currentDirection]
    ensures SafeHeading(s.initialDirection, SmallTurn(s, rng).currentDirection)
    ensures SmallTurn(s, rng).trackPoints == s.trackPoints
    ensures SmallTurn(s, rng).turnIndices == s.turnIndices ||
            SmallTurn(s, rng).turnIndices == s.turnIndices + [|s.trackPoints|]
  {
    TurnChoiceSafe(s, rng, 2.0, 15.0);
  }

  /** The two outcomes of a decision, as `HeadingStepOk` sees them. */
  lemma DecisionBranchesHeading(s: GenState, rng: Oracle)
    requires SafeHeading(s.initialDirection, s.currentDirection)
    ensures HeadingStepOk(s, SmallTurn(s, rng)) && HeadingStepOk(s, BeginTurn(s, rng))
  {
    SmallTurnHeading(s, rng);
    BeginTurnTargetSafe(s, rng);
  }

  /** A decision keeps a safe heading safe and flags at most the current point. */
  lemma DecisionHeading(s: GenState, rng: Oracle)
    requires SafeHeading(s.initialDirection, s.currentDirection)
    ensures HeadingStepOk(s, Decision(s, rng))
    ensures Decision(s, rng).trackPoints == s.trackPoints
    ensures Decision(s, rng).turnIndices == s.turnIndices ||
            Decision(s, rng).turnIndices == s.turnIndices + [|s.trackPoints|]
  {
    var decided := Decided(s, rng);
    DecisionBranchesHeading(decided, rng);
    SmallTurnHeading(decided, rng);
    BeginTurnSetsUpTurn(decided, rng);
  }

  /**
   * The heading part of one steering step: the heading changes only by appending it
   * to the history, and then it is safe; at most the current point index is flagged.
   */
  lemma SteerShape(s: GenState, rng: Oracle)
    requires Inv(s)
    ensures var u := Steer(s, rng);
      u.trackPoints == s.trackPoints && u.initialDirection == s.initialDirection &&
      (u.turnIndices == s.turnIndices || u.turnIndices == s.turnIndices + [|s.trackPoints|]) &&
      HeadingStepOk(s, u)
  {
    if s.turning {
      TurnStepHeading(s);
    } else if s.stepsUntilNextTurn > 0 {
      NoiseStepHeading(s, rng);
    } else {
      DecisionHeading(s, rng);
    }
  }

  /** A turn step leaves the countdown alone and keeps the turn counters consistent. */
  lemma TurnStepCounters(s: GenState)
    requires TurnCountersOk(s)
    ensures TurnCountersOk(TurnStep(s))
    ensures TurnStep(s).stepsUntilNextTurn == s.stepsUntilNextTurn
  {
  }

  /** A decision resets the countdown into [30, 70] and keeps the turn counters consistent. */
  lemma DecisionCounters(s: GenState, rng: Oracle)
    requires TurnCountersOk(s) && !s.turning
    ensures TurnCountersOk(Decision(s, rng))
    ensures DECISION_MIN <= Decision(s, rng).stepsUntilNextTurn <= DECISION_MAX
  {
    if rng(s.drawn + 1) >= SMALL_TURN_ODDS {
      BeginTurnSetsUpTurn(Decided(s, rng), rng);
    }
  }

  /**
   * The countdown part of a step: it is left alone during a turn, counts down by one
   * between decisions, and is reset into [30, 70] only once it has reached 0 outside
   * a turn.
   */
  predicate CountdownStepOk(s: GenState, u: GenState)
  {
    u.stepsUntilNextTurn >= 0 &&
    (s.turning ==> u.stepsUntilNextTurn == s.stepsUntilNextTurn) &&
    (!s.turning && s.stepsUntilNextTurn > 0 ==> u.stepsUntilNextTurn == s.stepsUntilNextTurn - 1) &&
    (!s.turning && s.stepsUntilNextTurn == 0 ==> DECISION_MIN <= u.stepsUntilNextTurn <= DECISION_MAX)
  }

  /** The bookkeeping part of one steering step: countdown and turn counters. */
  lemma SteerCounters(s: GenState, rng: Oracle)
    requires Inv(s)
    ensures CountdownStepOk(s, Steer(s, rng)) && TurnCountersOk(Steer(s, rng))
  {
    if s.turning {
      TurnStepCounters(s);
    } else if s.stepsUntilNextTurn <= 0 {
      DecisionCounters(s, rng);
    }
  }

  /** Everything one call of the step operation does, stated on the states before and after it. */
  predicate StepOk(s: GenState, t: GenState, stepLength: real)
  {
    t.initialDirection == s.initialDirection &&
    t.trackPoints == s.trackPoints + [Advance(t.currentDirection, stepLength)] &&
    (t.turnIndices == s.turnIndices || t.turnIndices == s.turnIndices + [|s.trackPoints|]) &&
    HeadingStepOk(s, t) &&
    CountdownStepOk(s, t) &&
    TurnCountersOk(t)
  }

  /** The step operation does what `StepOk` says. */
  lemma NextPointStepOk(s: GenState, rng: Oracle, stepLength: real)
    requires Inv(s)
    ensures StepOk(s, NextPoint(s, rng, stepLength), stepLength)
  {
    SteerShape(s, rng);
    SteerCounters(s, rng);
  }

  /** Any step that does what `StepOk` says keeps the invariant. */
  lemma StepOkKeepsInv(s: GenState, t: GenState, stepLength: real)
    requires Inv(s) && StepOk(s, t, stepLength)
    ensures Inv(t)
  {
    var init := s.initialDirection;
    assert SafeHistory(init, t.previousAngles) by {
      if t.previousAngles != s.previousAngles {
        forall i | 0 <= i < |t.previousAngles|
          ensures SafeHeading(init, t.previousAngles[i])
        {
          if i < |s.previousAngles| {
            assert t.previousAngles[i] == s.previousAngles[i];
          }
        }
      }
    }
    assert SafeTrack(init, t.trackPoints) by {
      forall i | 1 <= i < |t.trackPoints|
        ensures t.trackPoints[i].Advance? && SafeHeading(init, t.trackPoints[i].heading)
      {
        if i < |s.trackPoints| {
          assert t.trackPoints[i] == s.trackPoints[i];
        }
      }
    }
    assert StrictlyIncreasing(t.turnIndices) && AllBelow(t.turnIndices, |t.trackPoints|) by {
      if t.turnIndices != s.turnIndices {
        forall i, j | 0 <= i < j < |t.turnIndices|
          ensures t.turnIndices[i] < t.turnIndices[j]
        {
          assert t.turnIndices[i] == s.turnIndices[i];
        }
      }
    }
  }

  /** One step appends exactly one point, along the new heading, and keeps every earlier one. */
  lemma NextPointAppendsOnePoint(s: GenState, rng: Oracle, stepLength: real)
    requires s.previousAngles != []
    ensures var t := NextPoint(s, rng, stepLength);
      t.trackPoints == s.trackPoints + [Advance(t.currentDirection, stepLength)]
  {
  }

  /**
   * One step flags at most one turn, and a flagged turn is the point this step
   * emitted: the last index is then the index of the last point.
   */
  lemma NextPointFlagsAtMostOne(s: GenState, rng: Oracle, stepLength: real)
    requires Inv(s)
    ensures var t := NextPoint(s, rng, stepLength);
      (t.turnIndices == s.turnIndices || t.turnIndices == s.turnIndices + [|s.trackPoints|]) &&
      (|t.turnIndices| > |s.turnIndices| ==> t.turnIndices[|t.turnIndices| - 1] == |t.trackPoints| - 1)
  {
    NextPointStepOk(s, rng, stepLength);
  }

  /** The history grows by at most the new heading, which it then ends with. */
  lemma NextPointHistory(s: GenState, rng: Oracle, stepLength: real)
    requires Inv(s)
    ensures var t := NextPoint(s, rng, stepLength);
      (t.previousAngles == s.previousAngles && t.currentDirection == s.currentDirection) ||
      t.previousAngles == s.previousAngles + [t.currentDirection]
  {
    NextPointStepOk(s, rng, stepLength);
  }

  /** No step changes the initial heading. */
  lemma NextPointKeepsInitial(s: GenState, rng: Oracle, stepLength: real)
    requires s.previousAngles != []
    ensures NextPoint(s, rng, stepLength).initialDirection == s.initialDirection
  {
  }

  /** Every step keeps the invariant: in particular the heading never backtracks. */
  lemma NextPointKeepsInv(s: GenState, rng: Oracle, stepLength: real)
    requires Inv(s)
    ensures Inv(NextPoint(s, rng, stepLength))
  {
    NextPointStepOk(s, rng, stepLength);
    StepOkKeepsInv(s, NextPoint(s, rng, stepLength), stepLength);
  }

  /**
   * `n` calls of the step operation. After any number of steps the invariant still
   * holds, the initial heading is the same, and exactly one point per step has been
   * appended.
   */
  function Run(s: GenState, rng: Oracle, stepLength: real, n: nat): (t: GenState)
    requires Inv(s)
    ensures Inv(t)
    ensures t.initialDirection == s.initialDirection
    ensures |t.trackPoints| == |s.trackPoints| + n
  {
    if n == 0 then s
    else
      var before := Run(s, rng, stepLength, n - 1);
      NextPointStepOk(before, rng, stepLength);
      StepOkKeepsInv(before, NextPoint(before, rng, stepLength), stepLength);
      NextPoint(before, rng, stepLength)
  }

  /**
   * A full track of `n` steps from a fresh generator: `n + 1` points starting at the
   * origin, every later point reached along a heading within the backtracking limit,
   * and strictly increasing turn indices that all name one of those points.
   */
  lemma FullTrack(rng: Oracle, stepLength: real, n: nat)
    ensures var t := Run(Initial(rng), rng, stepLength, n);
      |t.trackPoints| == n + 1 && t.trackPoints[0] == Origin &&
      (forall i :: 1 <= i < |t.trackPoints| ==>
         t.trackPoints[i].Advance? && -120.0 <= t.trackPoints[i].heading <= 120.0) &&
      StrictlyIncreasing(t.turnIndices) && AllBelow(t.turnIndices, n + 1) &&
      -120.0 <= t.currentDirection <= 120.0
  {
    InitialState(rng);
    var t := Run(Initial(rng), rng, stepLength, n);
    forall i | 1 <= i < |t.trackPoints|
      ensures t.trackPoints[i].Advance? && -120.0 <= t.trackPoints[i].heading <= 120.0
    {
      SafeHeadingFromZero(t.trackPoints[i].heading);
    }
    SafeHeadingFromZero(t.currentDirection);
  }


  /** A trace of states, each one step after the one before it, ends in the run from its first state. */
  lemma {:induction false} TraceIsRun(trace: seq<GenState>, rng: Oracle, stepLength: real)
    requires |trace| >= 1 && Inv(trace[0])
    requires forall k :: 0 <= k < |trace| - 1 ==>
               trace[k].previousAngles != [] && trace[k + 1] == NextPoint(trace[k], rng, stepLength)
    ensures trace[|trace| - 1] == Run(trace[0], rng, stepLength, |trace| - 1)
  {
    if |trace| > 1 {
      var n := |trace| - 1;
      var prefix := trace[..n];
      assert forall k :: 0 <= k < n ==> prefix[k] == trace[k];
      TraceIsRun(prefix, rng, stepLength);
      assert trace[n] == NextPoint(trace[n - 1], rng, stepLength);
    }
  }
}
