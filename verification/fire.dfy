/** The fire controller of Wave::Fire: an integer cooldown counter gating a
    three-ball spread. Each call is one tick. The counter is only reset on a
    firing call and is decremented, on every call, when it is non-zero; so it
    never goes below zero. */
module WaveFire {
  import opened WaveTypes
  import opened WaveAngles

  /** One cannon ball as handed to the bullet subsystem: the direction of its
      spawn offset from the unit, the angle it faces, the direction of its
      velocity, and its damage as a factor of the unit's damage scale. */
  datatype Bullet = Bullet(
    spawnAngle: real,
    facingAngle: real,
    velocityAngle: real,
    damageFactor: real)

  /** The unit's own firing state. */
  datatype FireState = FireState(countDown: nat)

  /** The outcome of one call: the new state and the balls spawned, in order. */
  datatype FireStep = FireStep(state: FireState, bullets: seq<Bullet>)

  /** One tick's inputs: the owning player's snapshot if there is a player,
      and the turret angle computed by the aim tracker. */
  datatype Tick = Tick(player: Option<PlayerInput>, aim: real)

  /** The counter value a firing call resets to: one third of a second's
      worth of ticks, truncated. */
  function Reload(ticksPerSecond: nat): nat
  {
    ticksPerSecond / 3
  }

  /** The counter after one decrement that stops at zero. */
  function Tock(n: nat): (m: nat)
    ensures n == 0 ==> m == 0
    ensures n > 0 ==> m + 1 == n
  {
    if n == 0 then 0 else n - 1
  }

  /** The spread fired at aim `a`: the centre ball, the upper flank and the
      lower flank. */
  function Spread3(a: real, lim: real): (bs: seq<Bullet>)
    ensures |bs| == 3
    ensures bs[0] == Bullet(a, a, a, 1.0)
    ensures bs[1].damageFactor == 0.8 && bs[2].damageFactor == 0.8
    ensures bs[1].facingAngle == bs[1].velocityAngle
    ensures lim > 0.0 ==> bs[1].facingAngle != bs[1].spawnAngle
    ensures SameDirection(bs[1].spawnAngle, a + Spread(lim), lim)
    ensures SameDirection(bs[1].facingAngle, a + Spread(lim), lim)
    ensures bs[2].spawnAngle == bs[2].facingAngle == bs[2].velocityAngle
    ensures SameDirection(bs[2].spawnAngle, a - Spread(lim), lim)
  {
    var up := UpperFacingAsWritten(a, lim);
    var low := LowerFlank(a, lim);
    [ Bullet(a, a, a, 1.0),
      Bullet(UpperFlank(a, lim), up, up, 0.8),
      Bullet(low, low, low, 0.8) ]
  }

  /** True when this tick's call would fire: the counter is zero, a player
      is bound and its left button is held. */
  predicate Triggered(s: FireState, player: Option<PlayerInput>)
  {
    s.countDown == 0 && player.Some? && player.value.leftButton
  }

  /** One call of Wave::Fire. */
  function Fire(s: FireState, t: Tick, lim: real, ticksPerSecond: nat): (r: FireStep)
    ensures s.countDown != 0 ==> r.bullets == []
    ensures r.bullets != [] <==> s.countDown == 0 && t.player.Some? && t.player.value.leftButton
    ensures r.bullets != [] ==> r.bullets == Spread3(t.aim, lim)
    ensures r.bullets != [] ==> |r.bullets| == 3 && r.bullets[0] == Bullet(t.aim, t.aim, t.aim, 1.0)
    ensures r.bullets != [] && Reload(ticksPerSecond) >= 1
      ==> r.state.countDown + 1 == Reload(ticksPerSecond)
    ensures r.bullets == [] && s.countDown > 0 ==> r.state.countDown + 1 == s.countDown
    ensures r.bullets == [] && s.countDown == 0 ==> r.state.countDown == 0
  {
    if Triggered(s, t.player) then
      FireStep(FireState(Tock(Reload(ticksPerSecond))), Spread3(t.aim, lim))
    else
      FireStep(FireState(Tock(s.countDown)), [])
  }

  /** The calls of a run of ticks, each starting from the state the previous
      one left. */
  function Run(s: FireState, ts: seq<Tick>, lim: real, ticksPerSecond: nat): (r: seq<FireStep>)
    ensures |r| == |ts|
    decreases |ts|
  {
    if ts == [] then []
    else
      var first := Fire(s, ts[0], lim, ticksPerSecond);
      [first] + Run(first.state, ts[1..], lim, ticksPerSecond)
  }

  /** While the counter starts at n, the first n calls fire nothing,
      whatever the buttons. */
  lemma {:induction false} Cooling(s: FireState, ts: seq<Tick>, lim: real, ticksPerSecond: nat)
    ensures forall k :: 0 <= k < |ts| && k < s.countDown ==>
              Run(s, ts, lim, ticksPerSecond)[k].bullets == []
    decreases |ts|
  {
    if ts != [] && s.countDown > 0 {
      var first := Fire(s, ts[0], lim, ticksPerSecond);
      Cooling(first.state, ts[1..], lim, ticksPerSecond);
      var r := Run(s, ts, lim, ticksPerSecond);
      assert r == [first] + Run(first.state, ts[1..], lim, ticksPerSecond);
      forall k | 0 <= k < |ts| && k < s.countDown
        ensures r[k].bullets == []
      {
        if k > 0 {
          assert r[k] == Run(first.state, ts[1..], lim, ticksPerSecond)[k - 1];
        }
      }
    }
  }

  /** Two firing calls of a run are at least Reload ticks apart. */
  lemma {:induction false} FireSpacing(s: FireState, ts: seq<Tick>, lim: real, ticksPerSecond: nat, i: nat, j: nat)
    requires i < j < |ts|
    requires Run(s, ts, lim, ticksPerSecond)[i].bullets != []
    requires Run(s, ts, lim, ticksPerSecond)[j].bullets != []
    ensures j - i >= Reload(ticksPerSecond)
    decreases |ts|
  {
    var first := Fire(s, ts[0], lim, ticksPerSecond);
    var rest := Run(first.state, ts[1..], lim, ticksPerSecond);
    assert Run(s, ts, lim, ticksPerSecond) == [first] + rest;
    assert rest[j - 1] == Run(s, ts, lim, ticksPerSecond)[j];
    if i == 0 {
      Cooling(first.state, ts[1..], lim, ticksPerSecond);
    } else {
      assert rest[i - 1] == Run(s, ts, lim, ticksPerSecond)[i];
      FireSpacing(first.state, ts[1..], lim, ticksPerSecond, i - 1, j - 1);
    }
  }

  /** True when every tick of the run has a player holding the left button. */
  predicate HeldThroughout(ts: seq<Tick>)
  {
    forall k :: 0 <= k < |ts| ==> ts[k].player.Some? && ts[k].player.value.leftButton
  }

  /** With the button held throughout, the unit fires on the first call whose
      counter has run down, that is, on call number countDown. */
  lemma {:induction false} HeldButtonFires(s: FireState, ts: seq<Tick>, lim: real, ticksPerSecond: nat)
    requires HeldThroughout(ts)
    requires s.countDown < |ts|
    ensures Run(s, ts, lim, ticksPerSecond)[s.countDown].bullets != []
    decreases |ts|
  {
    var first := Fire(s, ts[0], lim, ticksPerSecond);
    var rest := Run(first.state, ts[1..], lim, ticksPerSecond);
    assert Run(s, ts, lim, ticksPerSecond) == [first] + rest;
    if s.countDown > 0 {
      assert HeldThroughout(ts[1..]) by {
        forall k | 0 <= k < |ts[1..]|
          ensures ts[1..][k].player.Some? && ts[1..][k].player.value.leftButton
        {
          assert ts[1..][k] == ts[k + 1];
        }
      }
      HeldButtonFires(first.state, ts[1..], lim, ticksPerSecond);
      assert rest[s.countDown - 1] == Run(s, ts, lim, ticksPerSecond)[s.countDown];
    }
  }
}
