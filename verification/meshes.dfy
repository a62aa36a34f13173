/** Model provisioning in the Wave constructor: the index buffers of the
    chassis and turret meshes, and the process-wide handle pair guarded by
    the all-ones sentinel so that registration happens once.

    Vertex positions and colours are not modelled; a mesh is its vertex
    count and its index list. */
module WaveMeshes {

  /** A registered mesh: how many vertices it has and its triangle list. */
  datatype Mesh = Mesh(vertexCount: nat, indices: seq<nat>)

  /** A triangle list is well formed when it holds whole triangles and every
      index names an existing vertex. */
  predicate WellFormed(m: Mesh)
  {
    && |m.indices| % 3 == 0
    && forall j :: 0 <= j < |m.indices| ==> m.indices[j] < m.vertexCount
  }

  /** Triangle t of the list uses three different vertices. */
  predicate NonDegenerate(ix: seq<nat>, t: nat)
    requires 3 * t + 3 <= |ix|
  {
    ix[3 * t] != ix[3 * t + 1] && ix[3 * t + 1] != ix[3 * t + 2] && ix[3 * t] != ix[3 * t + 2]
  }

  /** The number of angular segments of the turret's base circle. */
  const Precision: nat := 60

  // ---------------------------------------------------------------------
  // Chassis

  /** The chassis: a rectangle (vertices 0..3) and a tapered nose
      (vertices 4 and 5), as four triangles over six vertices. */
  function BodyMesh(): (m: Mesh)
    ensures m.vertexCount == 6 && |m.indices| == 12
    ensures WellFormed(m)
    ensures forall t :: 0 <= t < 4 ==> NonDegenerate(m.indices, t)
  {
    Mesh(6, [0, 1, 2, 1, 2, 3, 0, 2, 5, 2, 4, 5])
  }

  // ---------------------------------------------------------------------
  // Turret

  /** Triangle i of the turret fan: segment i of the rim, the next segment
      (wrapping to vertex 0 after the last), and the centre vertex p. */
  predicate FanTriangle(ix: seq<nat>, i: nat, p: nat)
    requires p > 0 && 3 * i + 3 <= |ix|
  {
    ix[3 * i] == i && ix[3 * i + 1] == (i + 1) % p && ix[3 * i + 2] == p
  }

  /** The first k fan triangles of a circle of p segments. */
  function FanIndices(k: nat, p: nat): (r: seq<nat>)
    requires k <= p
    ensures |r| == 3 * k
    ensures forall i :: 0 <= i < k ==> FanTriangle(r, i, p)
    ensures forall j :: 0 <= j < |r| ==> r[j] <= p
  {
    if k == 0 then []
    else
      var prev := FanIndices(k - 1, p);
      var r := prev + [k - 1, k % p, p];
      assert forall i :: 0 <= i < k ==> FanTriangle(r, i, p) by {
        forall i | 0 <= i < k ensures FanTriangle(r, i, p) {
          if i < k - 1 {
            assert FanTriangle(prev, i, p);
            assert r[3 * i] == prev[3 * i] && r[3 * i + 1] == prev[3 * i + 1] && r[3 * i + 2] == prev[3 * i + 2];
          }
        }
      }
      r
  }

  /** The barrel quad, vertices p+1 .. p+4, as two triangles. */
  function BarrelIndices(p: nat): (r: seq<nat>)
    ensures |r| == 6
    ensures forall j :: 0 <= j < |r| ==> p < r[j] < p + 5
    ensures forall t :: 0 <= t < 2 ==> NonDegenerate(r, t)
  {
    [p + 1, p + 2, p + 3, p + 2, p + 3, p + 4]
  }

  /** The turret mesh for p segments: p rim vertices, the centre, and the
      four barrel vertices; the fan followed by the barrel. */
  function TurretMeshOf(p: nat): (m: Mesh)
    requires p > 0
    ensures m.vertexCount == p + 5
    ensures |m.indices| == 3 * p + 6
    ensures WellFormed(m)
    ensures forall i :: 0 <= i < p ==> FanTriangle(m.indices, i, p)
    ensures m.indices[3 * p..] == BarrelIndices(p)
  {
    var fan := FanIndices(p, p);
    var ix := fan + BarrelIndices(p);
    assert forall j :: 0 <= j < |ix| ==> ix[j] < p + 5 by {
      forall j | 0 <= j < |ix| ensures ix[j] < p + 5 {
        if j < |fan| { assert ix[j] == fan[j]; }
      }
    }
    assert forall i :: 0 <= i < p ==> FanTriangle(ix, i, p) by {
      forall i | 0 <= i < p ensures FanTriangle(ix, i, p) {
        assert FanTriangle(fan, i, p);
        assert ix[3 * i] == fan[3 * i] && ix[3 * i + 1] == fan[3 * i + 1] && ix[3 * i + 2] == fan[3 * i + 2];
      }
    }
    assert ix[3 * p..] == BarrelIndices(p);
    Mesh(p + 5, ix)
  }

  /** The turret mesh the unit registers. */
  function TurretMesh(): Mesh
  {
    TurretMeshOf(Precision)
  }

  /** The constructor's loop, written out: one rim vertex and one fan
      triangle per segment, then the centre and barrel vertices and the two
      barrel triangles. */
  method BuildTurret(p: nat) returns (m: Mesh)
    requires p > 0
    ensures m.vertexCount == p + 5
    ensures |m.indices| == 3 * p + 6
    ensures WellFormed(m)
    ensures forall i :: 0 <= i < p ==> FanTriangle(m.indices, i, p)
    ensures m.indices[3 * p..] == BarrelIndices(p)
  {
    var vertices: nat := 0;
    var indices: seq<nat> := [];
    var i := 0;
    while i < p
      invariant 0 <= i <= p
      invariant vertices == i
      invariant |indices| == 3 * i
      invariant forall k :: 0 <= k < i ==> FanTriangle(indices, k, p)
      invariant forall j :: 0 <= j < |indices| ==> indices[j] <= p
    {
      vertices := vertices + 1;
      var next := indices + [i, (i + 1) % p, p];
      forall k | 0 <= k < i ensures FanTriangle(next, k, p) {
        assert FanTriangle(indices, k, p);
        assert next[3 * k] == indices[3 * k];
        assert next[3 * k + 1] == indices[3 * k + 1];
        assert next[3 * k + 2] == indices[3 * k + 2];
      }
      assert FanTriangle(next, i, p);
      indices := next;
      i := i + 1;
    }
    // centre, then the four barrel corners
    vertices := vertices + 5;
    var fan := indices;
    indices := indices + [p + 1 + 0, p + 1 + 1, p + 1 + 2];
    indices := indices + [p + 1 + 1, p + 1 + 2, p + 1 + 3];
    assert indices == fan + BarrelIndices(p);
    forall k | 0 <= k < p ensures FanTriangle(indices, k, p) {
      assert FanTriangle(fan, k, p);
      assert indices[3 * k] == fan[3 * k];
      assert indices[3 * k + 1] == fan[3 * k + 1];
      assert indices[3 * k + 2] == fan[3 * k + 2];
    }
    assert forall j :: 0 <= j < |indices| ==> indices[j] < p + 5 by {
      forall j | 0 <= j < |indices| ensures indices[j] < p + 5 {
        if j < |fan| { assert indices[j] == fan[j]; }
      }
    }
    assert indices[3 * p..] == BarrelIndices(p);
    m := Mesh(vertices, indices);
  }

  /** With 60 segments the turret has 65 vertices and 186 indices, and the
      last fan triangle wraps back to the first rim vertex. */
  lemma TurretShape()
    ensures TurretMesh().vertexCount == 65
    ensures |TurretMesh().indices| == 186
    ensures TurretMesh().indices[177..180] == [59, 0, 60]
  {
  }

  /** Every triangle of a turret with at least two segments uses three
      different vertices. */
  lemma {:induction false} TurretNonDegenerate(p: nat)
    requires p >= 2
    ensures forall t :: 0 <= t < p + 2 ==> NonDegenerate(TurretMeshOf(p).indices, t)
  {
    var ix := TurretMeshOf(p).indices;
    forall t | 0 <= t < p + 2 ensures NonDegenerate(ix, t) {
      if t < p {
        FanTriangleNonDegenerate(ix, t, p);
      } else {
        BarrelTriangleNonDegenerate(ix, t, p);
      }
    }
  }

  /** A fan triangle of a circle of at least two segments uses three
      different vertices: the rim wraps only after the last segment. */
  lemma FanTriangleNonDegenerate(ix: seq<nat>, t: nat, p: nat)
    requires p >= 2 && t < p && 3 * t + 3 <= |ix|
    requires FanTriangle(ix, t, p)
    ensures NonDegenerate(ix, t)
  {
    if t + 1 < p {
      assert (t + 1) % p == t + 1;
    } else {
      assert (t + 1) % p == 0;
    }
  }

  /** A triangle in the barrel part of a list ending in the barrel uses
      three different vertices. */
  lemma BarrelTriangleNonDegenerate(ix: seq<nat>, t: nat, p: nat)
    requires p <= t < p + 2 && |ix| == 3 * p + 6
    requires ix[3 * p..] == BarrelIndices(p)
    ensures NonDegenerate(ix, t)
  {
    var b := BarrelIndices(p);
    var u := t - p;
    assert NonDegenerate(b, u);
    assert ix[3 * t] == b[3 * u] && ix[3 * t + 1] == b[3 * u + 1] && ix[3 * t + 2] == b[3 * u + 2];
  }

  // ---------------------------------------------------------------------
  // Registration guard

  /** The value both cached handles hold before registration. */
  const Unset: bv32 := 0xffff_ffff

  /** The constructor's guard `!~handle`: the complement is zero, which
      holds of exactly the sentinel value. */
  function NeedsRegistration(body: bv32): (r: bool)
    ensures r <==> body == Unset
  {
    !body == 0
  }

  /** The process-wide handles of the chassis and turret meshes. */
  datatype Handles = Handles(body: bv32, turret: bv32)

  /** What one construction leaves behind: the handles, and the meshes it
      handed to the asset registry, in order. */
  datatype Construction = Construction(handles: Handles, registered: seq<Mesh>)

  /** One Wave construction. `bodyAnswer` and `turretAnswer` are the handles
      the asset registry would return to the two registrations; the guard
      looks only at the chassis handle. */
  function Construct(h: Handles, bodyAnswer: bv32, turretAnswer: bv32): (c: Construction)
    ensures h.body == Unset ==> c.handles == Handles(bodyAnswer, turretAnswer)
    ensures h.body == Unset ==> c.registered == [BodyMesh(), TurretMesh()]
    ensures h.body != Unset ==> c.handles == h && c.registered == []
    ensures forall m :: m in c.registered ==> WellFormed(m)
  {
    if NeedsRegistration(h.body) then
      Construction(Handles(bodyAnswer, turretAnswer), [BodyMesh(), TurretMesh()])
    else
      Construction(h, [])
  }

  /** Whether a construction registers does not depend on the turret
      handle. */
  lemma GuardIgnoresTurret(body: bv32, t1: bv32, t2: bv32, bodyAnswer: bv32, turretAnswer: bv32)
    ensures Construct(Handles(body, t1), bodyAnswer, turretAnswer).registered
         == Construct(Handles(body, t2), bodyAnswer, turretAnswer).registered
  {
  }

  /** The answers the registry gives to a run of constructions. */
  datatype Answer = Answer(body: bv32, turret: bv32)

  /** A run of constructions, one per answer pair. */
  function ConstructAll(h: Handles, answers: seq<Answer>): (c: Construction)
    ensures h.body != Unset ==> c.handles == h
    ensures forall m :: m in c.registered ==> WellFormed(m) && (m == BodyMesh() || m == TurretMesh())
    decreases |answers|
  {
    if answers == [] then Construction(h, [])
    else
      var first := Construct(h, answers[0].body, answers[0].turret);
      var rest := ConstructAll(first.handles, answers[1..]);
      Construction(rest.handles, first.registered + rest.registered)
  }

  /** As long as the registry never answers with the sentinel itself, any
      number of constructions registers the two meshes at most once: exactly
      once, with the first answers kept for good, when the handles start
      unset, and never otherwise. */
  lemma {:induction false} RegistersOnce(h: Handles, answers: seq<Answer>)
    requires forall k :: 0 <= k < |answers| ==> answers[k].body != Unset
    ensures h.body != Unset ==> ConstructAll(h, answers) == Construction(h, [])
    ensures h.body == Unset && answers != [] ==>
              ConstructAll(h, answers)
              == Construction(Handles(answers[0].body, answers[0].turret), [BodyMesh(), TurretMesh()])
    decreases |answers|
  {
    if answers != [] {
      var first := Construct(h, answers[0].body, answers[0].turret);
      assert first.handles.body != Unset;
      RegistersOnce(first.handles, answers[1..]);
    }
  }
}
