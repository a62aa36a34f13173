# Tranquil Wave unit: a Dafny model

This project models the behaviour of one unit of the arena battle game, the
"Tranquil Wave" tank (`Wave`), as pure Dafny functions, and proves
properties about them. It covers five parts:

- **Fire controller** (`WaveFire`). An integer cooldown counter gates a
  three-ball spread. A call fires only when the counter is 0, a player is
  bound and the left button is held. Firing resets the counter to
  `kTickPerSecond / 3`, and the same call then decrements it. Every call
  decrements a non-zero counter. Spawned cannon balls are records of
  (spawn angle, facing angle, velocity angle, damage factor).
- **Flank angles** (`WaveAngles`). The angles are reals. `lim` stands for
  the half-turn and the spread offset is `37/180 · lim`. The upper flank's
  spawn offset uses the `<=` test and its facing/velocity angle uses the
  inverted `>` test. The model keeps both and proves that they always
  differ by exactly one full turn.
- **Model provisioning** (`WaveMeshes`). This covers the index buffers of
  the chassis (12 indices over 6 vertices) and the turret (a 60-segment fan
  plus a two-triangle barrel: 186 indices over 65 vertices). It also
  covers the process-wide handle pair. The `!~handle` guard on the all-ones
  sentinel makes registration happen once, and only the chassis handle is
  inspected.
- **Motion controller** (`WaveMotion`). Keys become signed axes. The unit
  emits a `MoveUnit` intent only when the obstacle oracle reports the
  proposed position free. It always emits exactly one `RotateUnit` intent
  when a player is bound, and nothing when there is none.
- **Hit test** (`WaveHit`). The random region is a predicate over a local
  point and the four samples drawn for the call.

The collaborators are parameters:
- the owning player is an `Option<PlayerInput>`;
- the obstacle check is a function `Vec2 -> bool`;
- the registry's returned handles are arguments;
- the random samples are a `Samples` value;
- the cosine and sine of the chassis rotation are fields of `Pose`;
- `kTickPerSecond`, the tick length and the speeds are arguments.

Facts about the code that the model keeps:
- The chassis index list holds four triangles; the nose is a quad split in two.
- The registration guard inspects only the chassis handle.
- For aims in `[0, 2·lim)`, the upper flank's spawn angle equals the full
  turn exactly when `aim + offset == 2·lim`, so on that range it lies in
  `[0, 2·lim]`.
- The upper flank's facing angle is not normalised (see Findings).
- The aim the unit's tracker produces is `atan2(dy, dx)` minus a quarter
  turn, which lies in `[−1.5·lim, 0.5·lim]`, or the chassis rotation itself
  (any real) when the cursor sits on the unit. The wrap-around tests assume
  aims in `[0, 2·lim)`. On the tracker's range the upper flank never wraps
  and is negative for aims below `−offset` (`WaveAngles.TrackerAims`): an aim
  of −90° gives −53°. The direction is still right, since only the numeric
  range differs. The range lemmas over `[0, 2·lim)` describe the wrap-around
  as written, not the angles the tracker actually feeds it.

## Model

| member | source | states |
|---|---|---|
| WaveAngles.Spread | src/battle_game/core/units/tranquil_wave_lqqx.cpp:161-162 | the spread offset is strictly between 0 and the half-turn |
| WaveAngles.UpperFlank | src/battle_game/core/units/tranquil_wave_lqqx.cpp:169 | the upper spawn angle names the same direction as aim + offset, and for an aim in [0, 2·lim) it lies in (0, 2·lim], below 2·lim unless aim + offset is exactly 2·lim |
| WaveAngles.UpperFacingAsWritten | src/battle_game/core/units/tranquil_wave_lqqx.cpp:167-170 | the as-written facing/velocity angle still names the direction aim + offset |
| WaveAngles.LowerFlank | src/battle_game/core/units/tranquil_wave_lqqx.cpp:171-174 | the lower flank names the direction aim − offset and, for an aim in [0, 2·lim), lies in [0, 2·lim) |
| WaveAngles.UpperFacingIsSpawnShifted | src/battle_game/core/units/tranquil_wave_lqqx.cpp:167-170 | the facing angle and the spawn angle of the upper flank are never equal; they differ by exactly one full turn, whose sign depends on whether aim + offset exceeds the full turn |
| WaveAngles.UpperFacingLeavesRange | src/battle_game/core/units/tranquil_wave_lqqx.cpp:167-170 | for an aim in range, the as-written facing angle is never in (0, 2·lim], and it is negative whenever aim + offset is below the full turn |
| WaveAngles.TrackerAims | src/battle_game/core/units/tranquil_wave_lqqx.cpp:147-174 | for aims in the tracker's range [−1.5·lim, 0.5·lim], the upper flank is aim + offset unwrapped, and negative iff aim < −offset; the as-written facing angle is always aim + offset − 2·lim; the lower flank lies in [0, 2·lim) |
| WaveAngles.AimMinus90 | src/battle_game/core/units/tranquil_wave_lqqx.cpp:150-169 | a tracker aim of −90° gives an upper flank of −53° |
| WaveAngles.Aim170 | src/battle_game/core/units/tranquil_wave_lqqx.cpp:161-174 | an aim of 170° gives flanks of 207° and 133° with no wrap, while the as-written facing angle is −153° |
| WaveAngles.Aim350 | src/battle_game/core/units/tranquil_wave_lqqx.cpp:161-174 | an aim of 350° wraps the upper flank to 27° and leaves the lower flank at 313° |
| WaveFire.Tock | src/battle_game/core/units/tranquil_wave_lqqx.cpp:179-181 | the counter drops by one when positive and stays at zero otherwise, so it never underflows |
| WaveFire.Spread3 | src/battle_game/core/units/tranquil_wave_lqqx.cpp:163-174 | a spread is three balls: the centre along the aim with factor 1, then two flanks with factor 0.8 in the directions aim ± offset; the lower flank uses one angle throughout; the upper ball's facing angle always differs from its spawn angle |
| WaveFire.Fire | src/battle_game/core/units/tranquil_wave_lqqx.cpp:155-182 | balls are spawned iff the counter is 0, a player is bound and the left button is held; a firing call spawns exactly the three-ball spread of the current aim; a firing call leaves the counter at kTickPerSecond/3 − 1, and a non-firing call lowers a positive counter by one and keeps zero at zero |
| WaveFire.Run | src/battle_game/core/units/tranquil_wave_lqqx.cpp:105-109 | the run of fire calls over a run of ticks has exactly one step per tick |
| WaveFire.Cooling | src/battle_game/core/units/tranquil_wave_lqqx.cpp:155-181 | from a counter of n, the first n calls fire nothing |
| WaveFire.FireSpacing | src/battle_game/core/units/tranquil_wave_lqqx.cpp:175-181 | any two firing calls of a run are at least kTickPerSecond/3 ticks apart |
| WaveFire.HeldButtonFires | src/battle_game/core/units/tranquil_wave_lqqx.cpp:155-181 | with the button held and a player bound throughout, the unit fires on the call whose index equals the starting counter |
| WaveMeshes.BodyMesh | src/battle_game/core/units/tranquil_wave_lqqx.cpp:20-30 | the chassis buffer has 12 indices, all below its 6 vertices, forming four non-degenerate triangles |
| WaveMeshes.FanIndices | src/battle_game/core/units/tranquil_wave_lqqx.cpp:38-49 | the first k fan triangles are (i, (i+1) mod p, p), so every index is at most the centre vertex p |
| WaveMeshes.BarrelIndices | src/battle_game/core/units/tranquil_wave_lqqx.cpp:60-65 | the barrel is six indices, all among vertices p+1..p+4, forming two non-degenerate triangles |
| WaveMeshes.TurretMeshOf | src/battle_game/core/units/tranquil_wave_lqqx.cpp:34-67 | the turret has p + 5 vertices and 3p + 6 indices (the fan followed by the barrel), and it is well formed |
| WaveMeshes.BuildTurret | src/battle_game/core/units/tranquil_wave_lqqx.cpp:34-67 | the constructor's loop builds p + 5 vertices and a well-formed buffer of 3p + 6 indices: fan triangle i is (i, (i+1) mod p, p), followed by the barrel triangles over vertices p+1..p+4 |
| WaveMeshes.TurretShape | src/battle_game/core/units/tranquil_wave_lqqx.cpp:36-65 | with 60 segments the turret has 65 vertices and 186 indices, and its last fan triangle (59, 0, 60) wraps to vertex 0 |
| WaveMeshes.TurretNonDegenerate | src/battle_game/core/units/tranquil_wave_lqqx.cpp:46-65 | with at least two segments, every turret triangle uses three distinct vertices |
| WaveMeshes.FanTriangleNonDegenerate | src/battle_game/core/units/tranquil_wave_lqqx.cpp:46-48 | with at least two segments, a fan triangle uses three distinct vertices |
| WaveMeshes.BarrelTriangleNonDegenerate | src/battle_game/core/units/tranquil_wave_lqqx.cpp:60-65 | each barrel triangle uses three distinct vertices |
| WaveMeshes.NeedsRegistration | src/battle_game/core/units/tranquil_wave_lqqx.cpp:10-16 | the `!~handle` guard holds exactly for the all-ones sentinel |
| WaveMeshes.Construct | src/battle_game/core/units/tranquil_wave_lqqx.cpp:14-69 | an unset chassis handle causes both meshes to be registered, body first, and both handles to take the registry's answers; otherwise nothing is registered and both handles are unchanged; every registered mesh is well formed |
| WaveMeshes.GuardIgnoresTurret | src/battle_game/core/units/tranquil_wave_lqqx.cpp:16 | whether a construction registers does not depend on the turret handle |
| WaveMeshes.ConstructAll | src/battle_game/core/units/tranquil_wave_lqqx.cpp:14-69 | a run of constructions leaves set handles unchanged and registers only well-formed chassis and turret meshes |
| WaveMeshes.RegistersOnce | src/battle_game/core/units/tranquil_wave_lqqx.cpp:10-67 | if the registry never answers with the sentinel, any run of constructions registers both meshes exactly once when the handles start unset and never otherwise, and keeps the first answers |
| WaveMotion.Axis | src/battle_game/core/units/tranquil_wave_lqqx.cpp:115-137 | a pair of opposing keys gives +1 for the first alone, −1 for the second alone and 0 for both or neither (W/S forward, A/D rotation) |
| WaveMotion.Proposed | src/battle_game/core/units/tranquil_wave_lqqx.cpp:122-127 | with no forward key input the proposed position is the current one; the displacement has no sideways part, and for a unit heading its component along the heading (−sin, cos) is exactly the signed step |
| WaveMotion.NewRotation | src/battle_game/core/units/tranquil_wave_lqqx.cpp:131-139 | with no rotation key input the rotation is kept; with positive tick length, angular speed and speed scale, A alone increases it and D alone decreases it |
| WaveMotion.OppositeTurns | src/battle_game/core/units/tranquil_wave_lqqx.cpp:131-139 | A alone and D alone turn by the same amount in opposite directions |
| WaveMotion.WaveMove | src/battle_game/core/units/tranquil_wave_lqqx.cpp:111-141 | no player gives no intents; with a player, one or two intents, the last a rotation by the A/D axis; two iff the proposed position is free; the move intent comes first, carries exactly the proposed position the oracle was asked about, and is never a blocked position |
| WaveMotion.IntentCounts | src/battle_game/core/units/tranquil_wave_lqqx.cpp:111-141 | with a player there is exactly one rotate intent and one move intent iff not blocked; at most one move ever; without a player there are none |
| WaveMotion.RotationIgnoresObstacles | src/battle_game/core/units/tranquil_wave_lqqx.cpp:128-139 | the rotate intent is the same whatever the obstacle oracle answers |
| WaveMotion.MoveLength | src/battle_game/core/units/tranquil_wave_lqqx.cpp:122-127 | for a unit heading, the proposed move has exactly the step length |
| WaveMotion.ForwardScenario | src/battle_game/core/units/tranquil_wave_lqqx.cpp:111-141 | at the origin with rotation 0, W held and no obstacle: a move to (0, tick × speed × scale), then a rotation to 0 |
| WaveHit.IsHit | src/battle_game/core/units/tranquil_wave_lqqx.cpp:94-103 | a hit lies within 0.8 × the larger x sample and the larger y sample of the origin on each axis |
| WaveHit.OriginHitIff | src/battle_game/core/units/tranquil_wave_lqqx.cpp:100-102 | the local origin is hit iff all four samples are strictly positive |
| WaveHit.HalfSamplesHitOrigin | src/battle_game/core/units/tranquil_wave_lqqx.cpp:100-102 | with every sample at 0.5, the origin is hit |
| WaveHit.HitWithinEnvelope | src/battle_game/core/units/tranquil_wave_lqqx.cpp:100-102 | for samples in [0, 1), every hit lies strictly inside (−0.8, 0.8) × (−1, 1) |
| WaveHit.InnerBoxHit | src/battle_game/core/units/tranquil_wave_lqqx.cpp:100-102 | every point within 0.4 × the smallest sample of the origin on both axes is hit |

## Left out

- Rendering (`Wave::Render`), vertex positions, colours and texture: drawing calls and floating-point geometry. Only vertex counts and index lists are modelled.
- The aim tracker (`Wave::PointMe`): it uses `atan2` and a vector length. The aim angle is an input of each `Tick`.
- The rotation matrix in `Wave::WaveMove`: the cosine and sine of the chassis rotation are inputs (`Pose.cosR`, `Pose.sinR`).
- Velocity and muzzle vectors (`Rotate`) and the internals of `GenerateBullet`: these belong to the bullet subsystem. Each ball is recorded by its angles and damage factor.
- The random source, the player lookup, the obstacle check and the event queue: they are parameters, as listed above.
- `WorldToLocal` in `Wave::IsHit`: the hit test takes a point already in the local frame.
- The random move speed in `Wave::Update`: the speed is an argument.
- `BasicMaxHealth`, `UnitName`, `Author`: constants with nothing to prove.
- Floating-point rounding: angles, speeds and hit-test bounds are reals. The mix of `float` and `double` comparisons (`2.0 * lim`, `0.8` against `0.8f`) is not modelled.
- Integer widths: the cooldown counter is a `nat` (the decrement guard keeps it non-negative), and `kTickPerSecond / 3` is a natural-number division, which matches C++ truncation for non-negative operands. Index values are `nat`s far below the 32-bit limit. The handles are `bv32`.
- Re-entrant construction during a first registration is not modelled: construction is a single pure step.
- WaveMeshes.RegistersOnce: it requires that the registry never returns the sentinel as a chassis handle. If it did, the next construction would register again.

## Findings

| source | as written | input that shows it | evidently intended | confidence | as-written member | corrected member |
|---|---|---|---|---|---|---|
| src/battle_game/core/units/tranquil_wave_lqqx.cpp:167-170 | the facing and velocity angle of the upper flank uses `>` where the spawn angle uses `<=`, so it wraps down by a full turn exactly when it should not | an aim of 170° (`a = 170/180 · lim`): the facing angle is −153° rather than 207° (`WaveAngles.Aim170`) | the same normalised angle as the spawn offset, in `[0, 2·lim]` | not executed; high that the test is inverted, but low impact: the two angles differ by exactly one full turn, so the direction is the same | WaveAngles.UpperFacingAsWritten | WaveAngles.UpperFlank |

`WaveAngles.UpperFacingLeavesRange` shows that the as-written angle is never
in `(0, 2·lim]` for an aim in range. `WaveAngles.UpperFacingIsSpawnShifted`
shows that it differs from the corrected angle by exactly one full turn.
`WaveFire.Spread3` uses `UpperFlank` for the spawn direction. It keeps the
as-written value in the facing and velocity fields, because those fields
record what the unit passes to the bullet subsystem.
