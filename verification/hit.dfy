/** The hit test of Wave::IsHit, over a point already in the unit's local
    frame and the four random samples drawn for this call. */
module WaveHit {
  import opened WaveTypes

  /** The four samples p_x, p_y, q_x, q_y drawn from the game core's random
      source, in draw order. */
  datatype Samples = Samples(px: real, py: real, qx: real, qy: real)

  /** The random source yields values in [0, 1). */
  predicate InSampleRange(s: Samples)
  {
    && 0.0 <= s.px < 1.0 && 0.0 <= s.py < 1.0
    && 0.0 <= s.qx < 1.0 && 0.0 <= s.qy < 1.0
  }

  function Min(a: real, b: real): real { if a <= b then a else b }
  function Max(a: real, b: real): real { if a >= b then a else b }
  function Abs(a: real): real { if a >= 0.0 then a else -a }

  /** The randomised region: a box from (-0.8 p_x, -p_y) to
      (0.8 q_x, q_y), cut by two diagonal half-planes. */
  function IsHit(local: Vec2, s: Samples): (r: bool)
    ensures r ==> Abs(local.x) < Max(s.px, s.qx) * 0.8 && Abs(local.y) < Max(s.py, s.qy)
  {
    && local.x > -s.px * 0.8
    && local.x < s.qx * 0.8
    && local.y > -s.py
    && local.y < s.qy
    && local.x + local.y < Min(s.px, s.qx) * 0.8 + Max(s.py, s.qy)
    && local.y - local.x < Abs(Max(s.px, s.qx) + Min(s.py, s.qy) * 0.8)
  }

  /** The unit's own origin is hit exactly when all four samples are
      positive; a single zero sample misses it. */
  lemma OriginHitIff(s: Samples)
    ensures IsHit(Vec2(0.0, 0.0), s) <==> s.px > 0.0 && s.py > 0.0 && s.qx > 0.0 && s.qy > 0.0
  {
  }

  /** With every sample at one half, the origin is hit. */
  lemma HalfSamplesHitOrigin()
    ensures IsHit(Vec2(0.0, 0.0), Samples(0.5, 0.5, 0.5, 0.5))
  {
  }

  /** Whatever the samples, a hit lies strictly inside the box
      (-0.8, 0.8) x (-1, 1): points outside it are never hit. */
  lemma HitWithinEnvelope(local: Vec2, s: Samples)
    requires InSampleRange(s)
    ensures IsHit(local, s) ==> -0.8 < local.x < 0.8 && -1.0 < local.y < 1.0
  {
  }

  /** Every point strictly inside the box scaled by the smallest sample is
      hit: the random region always contains a neighbourhood of the origin
      when all samples are positive. */
  lemma InnerBoxHit(local: Vec2, s: Samples)
    requires InSampleRange(s)
    requires var m := Min(Min(s.px, s.py), Min(s.qx, s.qy));
             Abs(local.x) < m * 0.4 && Abs(local.y) < m * 0.4
    ensures IsHit(local, s)
  {
  }
}
