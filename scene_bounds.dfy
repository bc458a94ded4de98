/** The scene bounding boxes computed in `Initialize` (BakingLab.cpp, lines
    420-449): for every scene, a componentwise min/max fold over the positions
    of all vertices of all its meshes, started from the sentinels `FLT_MAX`
    and `-FLT_MAX`. Positions are modelled as reals. */
module SceneBounds {

  /** The largest finite 32-bit float. */
  const FLT_MAX: real := 340282346638528859811704183484516925440.0

  datatype Float3 = Float3(x: real, y: real, z: real)

  datatype Axis = X | Y | Z

  function Coord(v: Float3, a: Axis): real
  {
    match a
    case X => v.x
    case Y => v.y
    case Z => v.z
  }

  function MinR(a: real, b: real): real { if a < b then a else b }

  function MaxR(a: real, b: real): real { if a > b then a else b }

  /** A box as a pair of corners. */
  datatype Aabb = Aabb(mins: Float3, maxes: Float3)

  /** The box the fold starts from, empty in every axis. */
  const EmptyBox: Aabb := Aabb(Float3(FLT_MAX, FLT_MAX, FLT_MAX), Float3(-FLT_MAX, -FLT_MAX, -FLT_MAX))

  /** The box grown by one vertex. */
  function Extend(b: Aabb, v: Float3): Aabb
  {
    Aabb(Float3(MinR(b.mins.x, v.x), MinR(b.mins.y, v.y), MinR(b.mins.z, v.z)),
         Float3(MaxR(b.maxes.x, v.x), MaxR(b.maxes.y, v.y), MaxR(b.maxes.z, v.z)))
  }

  /** The box after folding the vertices in order. */
  function FoldBounds(b: Aabb, vs: seq<Float3>): Aabb
    decreases |vs|
  {
    if |vs| == 0 then b else Extend(FoldBounds(b, vs[..|vs| - 1]), vs[|vs| - 1])
  }

  /** All vertices of the meshes, mesh by mesh. */
  function Vertices(meshes: seq<seq<Float3>>): seq<Float3>
    decreases |meshes|
  {
    if |meshes| == 0 then [] else Vertices(meshes[..|meshes| - 1]) + meshes[|meshes| - 1]
  }

  /** The bounding box of a scene. */
  function SceneAabb(meshes: seq<seq<Float3>>): Aabb
  {
    FoldBounds(EmptyBox, Vertices(meshes))
  }

  predicate IsVertex(meshes: seq<seq<Float3>>, v: Float3)
  {
    exists m, k :: 0 <= m < |meshes| && 0 <= k < |meshes[m]| && meshes[m][k] == v
  }

  /** The flattened list holds exactly the vertices of the meshes. */
  lemma {:induction false} VerticesAreMeshVertices(meshes: seq<seq<Float3>>)
    ensures forall v :: v in Vertices(meshes) <==> IsVertex(meshes, v)
    decreases |meshes|
  {
    if |meshes| > 0 {
      var init, last := meshes[..|meshes| - 1], meshes[|meshes| - 1];
      VerticesAreMeshVertices(init);
      forall v | v in Vertices(meshes)
        ensures IsVertex(meshes, v)
      {
        if v in Vertices(init) {
          var m, k :| 0 <= m < |init| && 0 <= k < |init[m]| && init[m][k] == v;
          assert meshes[m][k] == v;
        } else {
          assert v in last;
          var k :| 0 <= k < |last| && last[k] == v;
          assert meshes[|meshes| - 1][k] == v;
        }
      }
      forall v | IsVertex(meshes, v)
        ensures v in Vertices(meshes)
      {
        var m, k :| 0 <= m < |meshes| && 0 <= k < |meshes[m]| && meshes[m][k] == v;
        if m < |meshes| - 1 {
          assert init[m][k] == v;
          assert IsVertex(init, v);
        } else {
          assert last[k] == v;
        }
      }
    }
  }

  /** The folded box contains every vertex and the box it started from. */
  lemma {:induction false} FoldContains(b: Aabb, vs: seq<Float3>)
    ensures forall a :: Coord(FoldBounds(b, vs).mins, a) <= Coord(b.mins, a)
    ensures forall a :: Coord(FoldBounds(b, vs).maxes, a) >= Coord(b.maxes, a)
    ensures forall v, a :: v in vs ==> Coord(FoldBounds(b, vs).mins, a) <= Coord(v, a) <= Coord(FoldBounds(b, vs).maxes, a)
    decreases |vs|
  {
    if |vs| > 0 {
      var init := vs[..|vs| - 1];
      FoldContains(b, init);
      forall v, a | v in vs
        ensures Coord(FoldBounds(b, vs).mins, a) <= Coord(v, a) <= Coord(FoldBounds(b, vs).maxes, a)
      {
        if v != vs[|vs| - 1] {
          assert v in init;
        }
      }
    }
  }

  /** Each bound of the folded box is that of the box it started from or a
      coordinate of one of the vertices. */
  lemma {:induction false} FoldAttained(b: Aabb, vs: seq<Float3>)
    ensures forall a :: Coord(FoldBounds(b, vs).mins, a) == Coord(b.mins, a)
                        || exists v :: v in vs && Coord(v, a) == Coord(FoldBounds(b, vs).mins, a)
    ensures forall a :: Coord(FoldBounds(b, vs).maxes, a) == Coord(b.maxes, a)
                        || exists v :: v in vs && Coord(v, a) == Coord(FoldBounds(b, vs).maxes, a)
    decreases |vs|
  {
    if |vs| > 0 {
      var init, last := vs[..|vs| - 1], vs[|vs| - 1];
      FoldAttained(b, init);
      assert forall v :: v in init ==> v in vs;
      assert last in vs;
    }
  }

  /** The bounding box of a scene: every vertex lies inside it; every bound is
      the sentinel or a coordinate of some vertex, and it is a vertex
      coordinate whenever some vertex is within the float range in that axis;
      with no vertices the box is the empty sentinel box. */
  lemma {:induction false} SceneAabbIsTight(meshes: seq<seq<Float3>>)
    ensures forall m, k, a :: 0 <= m < |meshes| && 0 <= k < |meshes[m]| ==>
      Coord(SceneAabb(meshes).mins, a) <= Coord(meshes[m][k], a) <= Coord(SceneAabb(meshes).maxes, a)
    ensures forall a :: Coord(SceneAabb(meshes).mins, a) == FLT_MAX
                        || exists v :: IsVertex(meshes, v) && Coord(v, a) == Coord(SceneAabb(meshes).mins, a)
    ensures forall a :: Coord(SceneAabb(meshes).maxes, a) == -FLT_MAX
                        || exists v :: IsVertex(meshes, v) && Coord(v, a) == Coord(SceneAabb(meshes).maxes, a)
    ensures forall a, v :: IsVertex(meshes, v) && Coord(v, a) <= FLT_MAX ==>
      exists w :: IsVertex(meshes, w) && Coord(w, a) == Coord(SceneAabb(meshes).mins, a)
    ensures forall a, v :: IsVertex(meshes, v) && Coord(v, a) >= -FLT_MAX ==>
      exists w :: IsVertex(meshes, w) && Coord(w, a) == Coord(SceneAabb(meshes).maxes, a)
    ensures (forall m :: 0 <= m < |meshes| ==> |meshes[m]| == 0) ==> SceneAabb(meshes) == EmptyBox
  {
    var vs := Vertices(meshes);
    VerticesAreMeshVertices(meshes);
    FoldContains(EmptyBox, vs);
    FoldAttained(EmptyBox, vs);
    forall m, k, a | 0 <= m < |meshes| && 0 <= k < |meshes[m]|
      ensures Coord(SceneAabb(meshes).mins, a) <= Coord(meshes[m][k], a) <= Coord(SceneAabb(meshes).maxes, a)
    {
      assert IsVertex(meshes, meshes[m][k]);
    }
    if forall m :: 0 <= m < |meshes| ==> |meshes[m]| == 0 {
      NoVerticesInEmptyMeshes(meshes);
    }
  }

  lemma {:induction false} NoVerticesInEmptyMeshes(meshes: seq<seq<Float3>>)
    requires forall m :: 0 <= m < |meshes| ==> |meshes[m]| == 0
    ensures Vertices(meshes) == []
    decreases |meshes|
  {
    if |meshes| > 0 {
      NoVerticesInEmptyMeshes(meshes[..|meshes| - 1]);
    }
  }

  /** The six componentwise updates of one vertex, applied to scene `i`'s
      entries; the other scenes' entries are left alone. */
  method ExtendInPlace(sceneMins: array<Float3>, sceneMaxes: array<Float3>, i: nat, vtx: Float3)
    requires i < sceneMins.Length && i < sceneMaxes.Length && sceneMins != sceneMaxes
    modifies sceneMins, sceneMaxes
    ensures Aabb(sceneMins[i], sceneMaxes[i]) == Extend(old(Aabb(sceneMins[i], sceneMaxes[i])), vtx)
    ensures forall j :: 0 <= j < sceneMins.Length && j != i ==> sceneMins[j] == old(sceneMins[j])
    ensures forall j :: 0 <= j < sceneMaxes.Length && j != i ==> sceneMaxes[j] == old(sceneMaxes[j])
  {
    sceneMins[i] := sceneMins[i].(x := MinR(sceneMins[i].x, vtx.x));
    sceneMins[i] := sceneMins[i].(y := MinR(sceneMins[i].y, vtx.y));
    sceneMins[i] := sceneMins[i].(z := MinR(sceneMins[i].z, vtx.z));
    sceneMaxes[i] := sceneMaxes[i].(x := MaxR(sceneMaxes[i].x, vtx.x));
    sceneMaxes[i] := sceneMaxes[i].(y := MaxR(sceneMaxes[i].y, vtx.y));
    sceneMaxes[i] := sceneMaxes[i].(z := MaxR(sceneMaxes[i].z, vtx.z));
  }

  /** The fold of `Initialize`, for every scene: `sceneMins[i]` and
      `sceneMaxes[i]` start at the sentinels and are narrowed one vertex
      component at a time. */
  method ComputeSceneBounds(scenes: seq<seq<seq<Float3>>>, sceneMins: array<Float3>, sceneMaxes: array<Float3>)
    requires sceneMins.Length == |scenes| && sceneMaxes.Length == |scenes| && sceneMins != sceneMaxes
    modifies sceneMins, sceneMaxes
    ensures forall i :: 0 <= i < |scenes| ==>
      sceneMins[i] == SceneAabb(scenes[i]).mins && sceneMaxes[i] == SceneAabb(scenes[i]).maxes
  {
    for i := 0 to |scenes|
      invariant forall j :: 0 <= j < i ==>
        sceneMins[j] == SceneAabb(scenes[j]).mins && sceneMaxes[j] == SceneAabb(scenes[j]).maxes
    {
      var meshes := scenes[i];
      sceneMins[i] := EmptyBox.mins;
      sceneMaxes[i] := EmptyBox.maxes;
      for meshIdx := 0 to |meshes|
        invariant forall j :: 0 <= j < i ==>
          sceneMins[j] == SceneAabb(scenes[j]).mins && sceneMaxes[j] == SceneAabb(scenes[j]).maxes
        invariant Aabb(sceneMins[i], sceneMaxes[i]) == FoldBounds(EmptyBox, Vertices(meshes[..meshIdx]))
      {
        var mesh := meshes[meshIdx];
        ghost var before := Vertices(meshes[..meshIdx]);
        assert before + mesh[..0] == before;
        for vtxIdx := 0 to |mesh|
          invariant forall j :: 0 <= j < i ==>
            sceneMins[j] == SceneAabb(scenes[j]).mins && sceneMaxes[j] == SceneAabb(scenes[j]).maxes
          invariant Aabb(sceneMins[i], sceneMaxes[i]) == FoldBounds(EmptyBox, before + mesh[..vtxIdx])
        {
          var vtx := mesh[vtxIdx];
          assert (before + mesh[..vtxIdx + 1])[..|before + mesh[..vtxIdx + 1]| - 1] == before + mesh[..vtxIdx];
          ExtendInPlace(sceneMins, sceneMaxes, i, vtx);
        }
        assert meshes[..meshIdx + 1][..meshIdx] == meshes[..meshIdx];
        assert mesh[..|mesh|] == mesh;
      }
      assert meshes[..|meshes|] == meshes;
    }
  }
}
