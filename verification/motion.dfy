/** The motion controller of Wave::WaveMove: key states become a forward
    axis and a rotation axis; the unit proposes a new position along its
    heading and a new rotation, and emits them as intents for the game core
    to apply. The move is dropped when the obstacle oracle reports the
    proposed position blocked; the rotation never is. */
module WaveMotion {
  import opened WaveTypes

  /** A request to the game core; the unit never writes its own pose. */
  datatype Intent = MoveUnit(position: Vec2) | RotateUnit(rotation: real)

  /** The unit's pose. `cosR` and `sinR` are the cosine and sine of
      `rotation`, computed by the engine. */
  datatype Pose = Pose(position: Vec2, rotation: real, cosR: real, sinR: real)

  /** Speeds of one call: the move speed and angular speed passed in by the
      caller, the unit's speed scale, and the length of a tick in seconds. */
  datatype Speeds = Speeds(
    moveSpeed: real,
    rotateSpeed: real,
    speedScale: real,
    secondsPerTick: real)

  /** The tick length, the angular speed and the speed scale are all
      positive, as they are in play. */
  predicate RatesPositive(sp: Speeds)
  {
    sp.secondsPerTick > 0.0 && sp.rotateSpeed > 0.0 && sp.speedScale > 0.0
  }

  /** A signed axis from a pair of opposing keys: the first key alone gives
      +1, the second alone -1, and both or neither cancel. W/S give the
      forward axis and A/D the rotation axis (A turns left, positive). */
  function Axis(plus: bool, minus: bool): (r: int)
    ensures r == 1 <==> plus && !minus
    ensures r == -1 <==> minus && !plus
    ensures r == 0 <==> plus == minus
  {
    (if plus then 1 else 0) - (if minus then 1 else 0)
  }

  /** Distance moved along the heading this tick, signed by the axis. */
  function Step(axis: int, sp: Speeds): real
  {
    axis as real * (sp.secondsPerTick * (sp.moveSpeed * sp.speedScale))
  }

  /** The proposed position: the local displacement (0, step) rotated by
      the chassis rotation and added to the current position. */
  function Proposed(pose: Pose, axis: int, sp: Speeds): (q: Vec2)
    ensures axis == 0 ==> q == pose.position
    // no sideways part: the displacement is orthogonal to the local x axis
    ensures (q.x - pose.position.x) * pose.cosR + (q.y - pose.position.y) * pose.sinR == 0.0
    // for a unit heading, its component along the heading (-sinR, cosR) is the step
    ensures pose.cosR * pose.cosR + pose.sinR * pose.sinR == 1.0 ==>
              (q.y - pose.position.y) * pose.cosR - (q.x - pose.position.x) * pose.sinR == Step(axis, sp)
  {
    var d := Step(axis, sp);
    Vec2(pose.position.x - pose.sinR * d, pose.position.y + pose.cosR * d)
  }

  /** The new rotation: never blocked, changed by the rotation axis. */
  function NewRotation(pose: Pose, axis: int, sp: Speeds): (r: real)
    ensures axis == 0 ==> r == pose.rotation
    ensures RatesPositive(sp) && axis > 0 ==> r > pose.rotation
    ensures RatesPositive(sp) && axis < 0 ==> r < pose.rotation
  {
    pose.rotation + axis as real * (sp.secondsPerTick * sp.rotateSpeed * sp.speedScale)
  }

  /** One call of Wave::WaveMove. `player` is the owning player's input
      snapshot if a player is bound; `blocked` is the obstacle oracle. */
  function WaveMove(player: Option<PlayerInput>, pose: Pose, sp: Speeds, blocked: Vec2 -> bool): (r: seq<Intent>)
    ensures player.None? ==> r == []
    ensures player.Some? ==> 1 <= |r| <= 2
    ensures player.Some? ==>
              r[|r| - 1] == RotateUnit(NewRotation(pose, Axis(player.value.keyA, player.value.keyD), sp))
    ensures player.Some? ==>
              (|r| == 2 <==> !blocked(Proposed(pose, Axis(player.value.keyW, player.value.keyS), sp)))
    ensures player.Some? && |r| == 2 ==>
              r[0] == MoveUnit(Proposed(pose, Axis(player.value.keyW, player.value.keyS), sp))
    ensures forall k :: 0 <= k < |r| && r[k].MoveUnit? ==>
              k == 0 && !blocked(r[k].position)
  {
    match player
    case None => []
    case Some(input) =>
      var target := Proposed(pose, Axis(input.keyW, input.keyS), sp);
      var moves := if !blocked(target) then [MoveUnit(target)] else [];
      moves + [RotateUnit(NewRotation(pose, Axis(input.keyA, input.keyD), sp))]
  }

  /** How many intents of a run are moves. */
  function CountMoves(r: seq<Intent>): nat
  {
    if r == [] then 0 else (if r[0].MoveUnit? then 1 else 0) + CountMoves(r[1..])
  }

  /** How many intents of a run are rotations. */
  function CountRotates(r: seq<Intent>): nat
  {
    if r == [] then 0 else (if r[0].RotateUnit? then 1 else 0) + CountRotates(r[1..])
  }

  /** With a player, a call emits exactly one rotation, and one move exactly
      when the proposed position is free; without one it emits nothing. */
  lemma IntentCounts(player: Option<PlayerInput>, pose: Pose, sp: Speeds, blocked: Vec2 -> bool)
    ensures player.None? ==> CountMoves(WaveMove(player, pose, sp, blocked)) == 0
    ensures player.None? ==> CountRotates(WaveMove(player, pose, sp, blocked)) == 0
    ensures player.Some? ==> CountRotates(WaveMove(player, pose, sp, blocked)) == 1
    ensures player.Some? ==>
              (CountMoves(WaveMove(player, pose, sp, blocked)) == 1
               <==> !blocked(Proposed(pose, Axis(player.value.keyW, player.value.keyS), sp)))
    ensures CountMoves(WaveMove(player, pose, sp, blocked)) <= 1
  {
    var r := WaveMove(player, pose, sp, blocked);
    if player.Some? {
      if |r| == 2 {
        assert r[1..][1..] == [];
        assert CountRotates(r[1..]) == 1 + CountRotates(r[1..][1..]);
        assert CountMoves(r[1..]) == CountMoves(r[1..][1..]);
        assert CountMoves(r) == 1;
      } else {
        assert r[1..] == [];
        assert CountMoves(r) == 0;
      }
    }
  }

  /** The rotation intent does not depend on the obstacle oracle. */
  lemma RotationIgnoresObstacles(input: PlayerInput, pose: Pose, sp: Speeds, b1: Vec2 -> bool, b2: Vec2 -> bool)
    ensures var r1 := WaveMove(Some(input), pose, sp, b1);
            var r2 := WaveMove(Some(input), pose, sp, b2);
            r1[|r1| - 1] == r2[|r2| - 1]
  {
  }

  /** A alone and D alone turn by the same amount in opposite directions:
      the two new rotations lie symmetrically about the current one. */
  lemma OppositeTurns(pose: Pose, sp: Speeds)
    ensures NewRotation(pose, Axis(true, false), sp) + NewRotation(pose, Axis(false, true), sp)
         == 2.0 * pose.rotation
  {
  }

  /** When the heading is a unit vector, the proposed position lies at
      exactly the step length from the current one. */
  lemma MoveLength(pose: Pose, axis: int, sp: Speeds)
    requires pose.cosR * pose.cosR + pose.sinR * pose.sinR == 1.0
    ensures var q := Proposed(pose, axis, sp);
            var dx := q.x - pose.position.x;
            var dy := q.y - pose.position.y;
            dx * dx + dy * dy == Step(axis, sp) * Step(axis, sp)
  {
  }

  /** A unit at the origin facing rotation 0, W held, nothing in the way:
      it moves one step straight ahead and keeps its rotation. */
  lemma ForwardScenario(sp: Speeds)
    ensures WaveMove(Some(PlayerInput(true, false, false, false, false)),
                     Pose(Vec2(0.0, 0.0), 0.0, 1.0, 0.0), sp, (q: Vec2) => false)
         == [MoveUnit(Vec2(0.0, sp.secondsPerTick * sp.moveSpeed * sp.speedScale)), RotateUnit(0.0)]
  {
    var pose := Pose(Vec2(0.0, 0.0), 0.0, 1.0, 0.0);
    assert Step(1, sp) == sp.secondsPerTick * sp.moveSpeed * sp.speedScale;
    assert Proposed(pose, 1, sp) == Vec2(0.0, sp.secondsPerTick * sp.moveSpeed * sp.speedScale);
  }
}
