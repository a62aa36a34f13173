/** Launch angles of the two flanking cannon balls fired by Wave::Fire.

    Angles are reals; `lim` stands for the half-turn (the engine's
    radians(180)), and the spread offset is 37/180 of it (radians(37)).
    Every function is written over an arbitrary `lim`; the lemmas that need a
    positive half-turn say so. */
module WaveAngles {

  /** The fixed spread offset between the centre and each flank. */
  function Spread(lim: real): (x: real)
    ensures lim > 0.0 ==> 0.0 < x < lim
  {
    lim * 37.0 / 180.0
  }

  /** True when `r` and `a` name the same direction: they differ by a whole
      number of turns, and here (as in the source) by at most one. */
  predicate SameDirection(r: real, a: real, lim: real)
  {
    r == a || r == a - 2.0 * lim || r == a + 2.0 * lim
  }

  /** The angle the upper flank is spawned at (the muzzle offset direction):
      `a + x`, wrapped down by a full turn only when it exceeds the full turn.
      This is the normalisation the unit evidently intends; it is also the
      corrected angle for the facing and velocity of the same ball. */
  function UpperFlank(a: real, lim: real): (r: real)
    ensures SameDirection(r, a + Spread(lim), lim)
    ensures lim > 0.0 && 0.0 <= a < 2.0 * lim ==> 0.0 < r <= 2.0 * lim
    ensures lim > 0.0 && 0.0 <= a < 2.0 * lim && a + Spread(lim) != 2.0 * lim
      ==> r < 2.0 * lim
  {
    if a + Spread(lim) <= 2.0 * lim then a + Spread(lim)
    else a + Spread(lim) - 2.0 * lim
  }

  /** The angle the upper flank faces and flies along, as the unit computes
      it: the comparison is inverted with respect to UpperFlank, so the
      value is wrapped down exactly when it did NOT exceed the full turn. */
  function UpperFacingAsWritten(a: real, lim: real): (r: real)
    ensures SameDirection(r, a + Spread(lim), lim)
  {
    if a + Spread(lim) > 2.0 * lim then a + Spread(lim)
    else a + Spread(lim) - 2.0 * lim
  }

  /** The angle of the lower flank, used for its spawn offset, facing and
      velocity alike: `a - x`, wrapped up by a full turn when negative. */
  function LowerFlank(a: real, lim: real): (r: real)
    ensures SameDirection(r, a - Spread(lim), lim)
    ensures lim > 0.0 && 0.0 <= a < 2.0 * lim ==> 0.0 <= r < 2.0 * lim
  {
    if a - Spread(lim) >= 0.0 then a - Spread(lim)
    else a - Spread(lim) + 2.0 * lim
  }

  /** The facing angle and the spawn angle of the upper flank always pick
      opposite branches, so they are never equal: they differ by exactly one
      full turn, downwards when `a + x` is within the full turn and upwards
      otherwise. */
  lemma UpperFacingIsSpawnShifted(a: real, lim: real)
    requires lim > 0.0
    ensures a + Spread(lim) <= 2.0 * lim
      ==> UpperFacingAsWritten(a, lim) == UpperFlank(a, lim) - 2.0 * lim
    ensures a + Spread(lim) > 2.0 * lim
      ==> UpperFacingAsWritten(a, lim) == UpperFlank(a, lim) + 2.0 * lim
    ensures UpperFacingAsWritten(a, lim) != UpperFlank(a, lim)
  {
  }

  /** For an aim inside the canonical range, the as-written facing angle of
      the upper flank never lands in (0, 2*lim]: it is zero, negative, or
      beyond the full turn. */
  lemma UpperFacingLeavesRange(a: real, lim: real)
    requires lim > 0.0 && 0.0 <= a < 2.0 * lim
    ensures var r := UpperFacingAsWritten(a, lim);
      r <= 0.0 || r > 2.0 * lim
    ensures a + Spread(lim) < 2.0 * lim ==> UpperFacingAsWritten(a, lim) < 0.0
  {
  }

  /** The aim tracker yields `atan2(dy, dx)` minus a quarter turn, so its
      aims lie in [-1.5*lim, 0.5*lim] rather than [0, 2*lim). On that
      domain the upper flank never wraps, and is negative for aims below
      -x; the as-written facing angle is always wrapped down a full turn;
      the lower flank still lands in [0, 2*lim). */
  lemma TrackerAims(a: real, lim: real)
    requires lim > 0.0 && -1.5 * lim <= a <= 0.5 * lim
    ensures UpperFlank(a, lim) == a + Spread(lim)
    ensures UpperFlank(a, lim) < 0.0 <==> a < -Spread(lim)
    ensures UpperFacingAsWritten(a, lim) == a + Spread(lim) - 2.0 * lim
    ensures 0.0 <= LowerFlank(a, lim) < 2.0 * lim
  {
  }

  /** A tracker aim of -90 degrees gives an upper flank of -53 degrees. */
  lemma AimMinus90(lim: real)
    requires lim > 0.0
    ensures UpperFlank(-(lim * 90.0 / 180.0), lim) == -(lim * 53.0 / 180.0)
  {
  }

  /** The aim of 170 degrees: the lower flank is 133 degrees and the upper
      flank 207 degrees, both already in range; the as-written facing angle
      is -153 degrees instead of 207. */
  lemma Aim170(lim: real)
    requires lim > 0.0
    ensures LowerFlank(lim * 170.0 / 180.0, lim) == lim * 133.0 / 180.0
    ensures UpperFlank(lim * 170.0 / 180.0, lim) == lim * 207.0 / 180.0
    ensures UpperFacingAsWritten(lim * 170.0 / 180.0, lim) == -(lim * 153.0 / 180.0)
  {
  }

  /** The aim of 350 degrees: the upper flank wraps to 27 degrees and the
      lower flank stays at 313; the as-written facing angle keeps 387. */
  lemma Aim350(lim: real)
    requires lim > 0.0
    ensures UpperFlank(lim * 350.0 / 180.0, lim) == lim * 27.0 / 180.0
    ensures LowerFlank(lim * 350.0 / 180.0, lim) == lim * 313.0 / 180.0
    ensures UpperFacingAsWritten(lim * 350.0 / 180.0, lim) == lim * 387.0 / 180.0
  {
  }
}
