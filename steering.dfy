/**
 * The generator's read-only heading queries: the backtracking test, the fallback
 * chain that makes a desired turn safe, and the smoothed heading of the history.
 */
module Steering {
  import opened Angles

  /** A heading further than this from the initial heading counts as backtracking. */
  const BACKTRACK_THRESHOLD: real := 120.0
  /** The largest total turn allowed away from the initial heading. */
  const MAX_CUMULATIVE_TURN: real := 120.0

  /** The first check of the backtracking test. */
  predicate ExceedsBacktrackThreshold(initial: real, proposed: real)
  {
    Abs(Normalize(proposed - initial)) > BACKTRACK_THRESHOLD
  }

  /** The second check of the backtracking test, computed from the same difference. */
  predicate ExceedsCumulativeTurn(initial: real, proposed: real)
  {
    Abs(Normalize(proposed - initial)) > MAX_CUMULATIVE_TURN
  }

  /** Whether heading `proposed` would take the track back against `initial`. */
  predicate WouldBacktrack(initial: real, proposed: real)
  {
    ExceedsBacktrackThreshold(initial, proposed) || ExceedsCumulativeTurn(initial, proposed)
  }

  /** A heading that is normalised and does not backtrack. */
  predicate SafeHeading(initial: real, heading: real)
  {
    -180.0 <= heading <= 180.0 && !WouldBacktrack(initial, heading)
  }

  /** The backtracking test is a single threshold on the wrapped deviation. */
  lemma WouldBacktrackExactly(initial: real, proposed: real)
    ensures WouldBacktrack(initial, proposed) <==> Abs(Normalize(proposed - initial)) > 120.0
  {
  }

  /** The second check never decides anything the first one did not. */
  lemma CumulativeCheckRedundant(initial: real, proposed: real)
    ensures ExceedsCumulativeTurn(initial, proposed) <==> ExceedsBacktrackThreshold(initial, proposed)
  {
  }

  /** From the initial heading 0, a safe heading is one within 120 degrees either way. */
  lemma SafeHeadingFromZero(heading: real)
    ensures SafeHeading(0.0, heading) <==> -120.0 <= heading <= 120.0
  {
  }

  /** The test cannot tell a heading from its normalisation. */
  lemma WouldBacktrackNormalize(initial: real, x: real)
    ensures WouldBacktrack(initial, Normalize(x)) <==> WouldBacktrack(initial, x)
  {
    NormalizeByWholeTurns(x);
    var k := WholeTurnsCount(Normalize(x) - x);
    assert Normalize(x) - initial == (x - initial) + 360.0 * k as real;
    AbsNormalizeShift(x - initial, k);
  }

  /** Committing the normalisation of a candidate that passed the test gives a safe heading. */
  lemma NormalizedCandidateSafe(initial: real, x: real)
    requires !WouldBacktrack(initial, x)
    ensures SafeHeading(initial, Normalize(x))
  {
    WouldBacktrackNormalize(initial, x);
  }

  /**
   * The first of `candidates` whose normalised heading from `current` passes the
   * backtracking test, or no turn at all when none of them does.
   */
  function FirstSafe(initial: real, current: real, candidates: seq<real>): real
    decreases |candidates|
  {
    if candidates == [] then 0.0
    else if !WouldBacktrack(initial, Normalize(current + candidates[0])) then candidates[0]
    else FirstSafe(initial, current, candidates[1..])
  }

  /**
   * The fallback chain takes one of the candidates or no turn, takes the first
   * candidate whenever it is safe, and from a safe heading always reaches a safe one.
   */
  lemma {:induction false} FirstSafeChoice(initial: real, current: real, candidates: seq<real>)
    ensures FirstSafe(initial, current, candidates) == 0.0 ||
            FirstSafe(initial, current, candidates) in candidates
    ensures candidates != [] && !WouldBacktrack(initial, Normalize(current + candidates[0])) ==>
              FirstSafe(initial, current, candidates) == candidates[0]
    ensures SafeHeading(initial, current) ==>
              SafeHeading(initial, Normalize(current + FirstSafe(initial, current, candidates)))
    decreases |candidates|
  {
    if candidates != [] && WouldBacktrack(initial, Normalize(current + candidates[0])) {
      FirstSafeChoice(initial, current, candidates[1..]);
      var r := FirstSafe(initial, current, candidates[1..]);
      assert r in candidates[1..] ==> r in candidates;
    } else if candidates == [] {
      assert current + 0.0 == current;
    }
  }

  /**
   * The turn actually taken for a desired turn `desired` from heading `current`:
   * the desired turn, else 30% of it, else -20% of it, else no turn at all, each
   * candidate checked on the normalised heading it would produce.
   */
  function SafeTurnAngle(initial: real, current: real, desired: real): real
  {
    FirstSafe(initial, current, [desired, desired * 0.3, -desired * 0.2])
  }

  /**
   * The safe turn is one of the four fallbacks, never larger than the desired turn,
   * the desired turn itself whenever that is safe, and it keeps a safe heading safe.
   */
  lemma SafeTurnAngleChoice(initial: real, current: real, desired: real)
    ensures var r := SafeTurnAngle(initial, current, desired);
      (r == desired || r == 0.3 * desired || r == -0.2 * desired || r == 0.0) &&
      Abs(r) <= Abs(desired) &&
      (!WouldBacktrack(initial, Normalize(current + desired)) ==> r == desired) &&
      (SafeHeading(initial, current) ==> SafeHeading(initial, Normalize(current + r)))
  {
    var candidates := [desired, desired * 0.3, -desired * 0.2];
    FirstSafeChoice(initial, current, candidates);
    var r := FirstSafe(initial, current, candidates);
    assert r == 0.0 || r == candidates[0] || r == candidates[1] || r == candidates[2];
  }

  /**
   * The mean of the last three recorded headings, or of all of them when fewer than
   * three have been recorded (a slice `[-3:]` of a shorter list is the whole list).
   */
  function SmoothedAngle(history: seq<real>): real
    requires history != []
  {
    var n := |history|;
    if n >= 3 then (history[n - 3] + history[n - 2] + history[n - 1]) / 3.0
    else if n == 2 then (history[0] + history[1]) / 2.0
    else history[0]
  }

  /** The smoothed heading lies between the bounds of the headings it averages. */
  lemma SmoothedWithin(history: seq<real>, lo: real, hi: real)
    requires history != []
    requires forall k :: |history| - 3 <= k < |history| && 0 <= k ==> lo <= history[k] <= hi
    ensures lo <= SmoothedAngle(history) <= hi
  {
  }

  /** A history that has held one heading for its last three entries smooths to that heading. */
  lemma SmoothedSteady(history: seq<real>, heading: real)
    requires |history| >= 3
    requires forall k :: |history| - 3 <= k < |history| ==> history[k] == heading
    ensures SmoothedAngle(history) == heading
  {
  }

  /** Only the last three entries matter: appending to the front changes nothing. */
  lemma SmoothedIgnoresOlder(older: seq<real>, recent: seq<real>)
    requires |recent| >= 3
    ensures SmoothedAngle(older + recent) == SmoothedAngle(recent)
  {
    var h := older + recent;
    var n, m := |h|, |recent|;
    assert h[n - 3] == recent[m - 3] && h[n - 2] == recent[m - 2] && h[n - 1] == recent[m - 1];
  }
}
