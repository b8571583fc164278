// DNA calibration write-back (dna_io/calibrator.py): the vertex, shape-key
// and bone passes that merge edited scene data into a DNA writer, and `run`,
// which orders them and writes once. Each pass is specified by a left fold
// over its loop, so the loop invariants of the methods in `DnaCalibrator`
// are prefixes of these folds.

module Calibrator {
  import opened Geometry
  import opened Wrappers
  import opened Seqs
  import opened Text
  import opened DnaIo

  /** Sampled vertices move a stored vertex only beyond this distance (1e-6). */
  const VertexTolerance: real := 0.000001
  /** Sampled bone translations and rotations replace stored ones only beyond this distance (1e-3). */
  const BoneTolerance: real := 0.001
  /** Only bones with this prefix have their rotations calibrated. */
  const FacialPrefix: string := "FACIAL_"
  const HeadComponent: string := "head"

  /**
   * A mesh object as sampling sees it: its name, the sampled vertex indices,
   * the sampled positions (indexed by vertex) and, when the mesh has shape-key
   * data, each key block's coordinates by key name.
   */
  datatype SceneMesh = SceneMesh(
    name: string,
    sampledIndices: seq<nat>,
    sampledPositions: seq<Vec3>,
    shapeKeys: Option<map<string, seq<Vec3>>>)

  /** One row of `get_bone_transforms`: a bone name with its local translation and rotation. */
  datatype SceneBone = SceneBone(name: string, translation: Vec3, rotation: Vec3)

  /**
   * The scene after `initialize_scene_data`: the mesh objects of the export
   * LODs in LOD order, the scene objects by name, and the sampled bones.
   */
  datatype Scene = Scene(
    exportMeshes: seq<SceneMesh>,
    objects: map<string, SceneMesh>,
    bones: seq<SceneBone>)

  /** The calibrator's configuration: component, names, unit modifier, constants and enabled stages. */
  datatype Settings = Settings(
    componentType: string,
    instanceName: string,
    prefix: string,
    linearModifier: real,
    deltaThreshold: real,
    nameMaxLength: nat,
    basisName: string,
    extraBones: seq<string>,
    includeMeshes: bool,
    includeShapeKeys: bool,
    includeBones: bool)

  /** The writer calls a pass made, and the exception that stopped it, if any. */
  datatype PassResult = PassResult(calls: seq<WriterCall>, raised: Option<Exception>)

  const NoCalls := PassResult([], None)

  /** Runs `q` after `p` unless `p` raised. */
  function Then(p: PassResult, q: PassResult): (r: PassResult)
    ensures p.raised.Some? ==> r == p
    ensures p.raised.None? ==> r.calls == p.calls + q.calls && r.raised == q.raised
  {
    if p.raised.Some? then p else PassResult(p.calls + q.calls, q.raised)
  }

  /** The steps of a pass run in order; the first exception stops it. */
  function Sequence(steps: seq<PassResult>): PassResult
    decreases |steps|
  {
    if |steps| == 0 then NoCalls else Then(Sequence(steps[..|steps| - 1]), steps[|steps| - 1])
  }

  /** Every call of every step, in order. */
  function AllCalls(steps: seq<PassResult>): seq<WriterCall>
    decreases |steps|
  {
    if |steps| == 0 then [] else AllCalls(steps[..|steps| - 1]) + steps[|steps| - 1].calls
  }

  predicate NoneRaised(steps: seq<PassResult>) {
    forall k :: 0 <= k < |steps| ==> steps[k].raised.None?
  }

  /** A sequence of steps completes exactly when no step raises, and then it makes all their calls. */
  lemma {:induction false} SequenceComplete(steps: seq<PassResult>)
    ensures Sequence(steps).raised.None? <==> NoneRaised(steps)
    ensures NoneRaised(steps) ==> Sequence(steps).calls == AllCalls(steps)
    decreases |steps|
  {
    if |steps| > 0 {
      var front := steps[..|steps| - 1];
      SequenceComplete(front);
      assert forall k :: 0 <= k < |front| ==> front[k] == steps[k];
      if Sequence(front).raised.Some? {
        var k :| 0 <= k < |front| && front[k].raised.Some?;
        assert steps[k].raised.Some?;
      }
    }
  }

  /** Once a prefix of the steps has raised, the rest of the steps change nothing. */
  lemma {:induction false} SequenceRaisedFinal(steps: seq<PassResult>, n: nat)
    requires n <= |steps| && Sequence(steps[..n]).raised.Some?
    ensures Sequence(steps) == Sequence(steps[..n])
    decreases |steps|
  {
    if n < |steps| {
      var front := steps[..|steps| - 1];
      assert front[..n] == steps[..n];
      SequenceRaisedFinal(front, n);
    } else {
      assert steps[..n] == steps;
    }
  }

  /** Running the steps up to the first one that raises: the calls before it and its own, then its exception. */
  lemma SequenceStopsAtFirstRaise(steps: seq<PassResult>, k: nat)
    requires k < |steps| && NoneRaised(steps[..k]) && steps[k].raised.Some?
    ensures Sequence(steps) == PassResult(AllCalls(steps[..k]) + steps[k].calls, steps[k].raised)
  {
    assert steps[..k + 1][..k] == steps[..k];
    SequenceComplete(steps[..k]);
    SequenceRaisedFinal(steps, k + 1);
  }

  /** A property every step's calls have, the calls of the whole sequence have. */
  lemma {:induction false} SequenceCallsFrom(steps: seq<PassResult>, P: WriterCall -> bool)
    requires forall k, c :: 0 <= k < |steps| && c in steps[k].calls ==> P(c)
    ensures forall c :: c in Sequence(steps).calls ==> P(c)
    decreases |steps|
  {
    if |steps| > 0 {
      SequenceCallsFrom(steps[..|steps| - 1], P);
    }
  }

  /** Extending the prefix of steps that has run by one more step. */
  lemma SequenceSnoc(steps: seq<PassResult>, k: nat)
    requires k < |steps|
    ensures Sequence(steps[..k + 1]) == Then(Sequence(steps[..k]), steps[k])
  {
    assert steps[..k + 1][..k] == steps[..k];
  }

  /** A dict comprehension `{names[i]: i}` keeps the last index of a repeated name. */
  function LookupLast(names: seq<string>, name: string): (r: Option<nat>)
    ensures r.Some? ==> r.value < |names| && names[r.value] == name
    ensures r.Some? ==> forall j :: r.value < j < |names| ==> names[j] != name
    ensures r.None? ==> name !in names
  {
    if |names| == 0 then None
    else if names[|names| - 1] == name then Some(|names| - 1)
    else LookupLast(names[..|names| - 1], name)
  }

  // ---------------------------------------------------------------- vertices

  /** The per-vertex decision: the sampled position wins only when it is farther than 1e-6 away. */
  function CalibrateVertex(stored: Vec3, sampled: Vec3): Vec3 {
    if LongerThan(Sub(sampled, stored), VertexTolerance) then sampled else stored
  }

  /** Applying the decision twice with the same sample is applying it once. */
  lemma CalibrateVertexIdempotent(stored: Vec3, sampled: Vec3)
    ensures CalibrateVertex(CalibrateVertex(stored, sampled), sampled) == CalibrateVertex(stored, sampled)
  {
    if LongerThan(Sub(sampled, stored), VertexTolerance) {
      assert Sub(sampled, sampled) == Zero;
      ZeroNeverLonger(VertexTolerance);
    }
  }

  /** The loop over the sampled indices, rewriting the stored positions one index at a time. */
  function MergeSamples(stored: seq<Vec3>, indices: seq<nat>, sampled: seq<Vec3>): (r: Result<seq<Vec3>, Exception>)
    ensures r.Ok? ==> |r.value| == |stored|
    decreases |indices|
  {
    if |indices| == 0 then Ok(stored)
    else
      match MergeSamples(stored, indices[..|indices| - 1], sampled)
      case Err(e) => Err(e)
      case Ok(current) =>
        var v := indices[|indices| - 1];
        if v >= |sampled| || v >= |current| then Err(IndexError(v))
        else Ok(current[v := CalibrateVertex(current[v], sampled[v])])
  }

  /**
   * The merge succeeds exactly when every sampled index is in range, and then
   * each stored vertex is the per-vertex decision if it was sampled (however
   * often) and untouched otherwise.
   */
  lemma {:induction false} MergeSamplesMeaning(stored: seq<Vec3>, indices: seq<nat>, sampled: seq<Vec3>)
    ensures MergeSamples(stored, indices, sampled).Ok? <==> AllBelow(indices, Min(|stored|, |sampled|))
    ensures MergeSamples(stored, indices, sampled).Ok? ==>
      forall i :: 0 <= i < |stored| ==>
        MergeSamples(stored, indices, sampled).value[i] ==
          if i in indices then CalibrateVertex(stored[i], sampled[i]) else stored[i]
    decreases |indices|
  {
    if |indices| > 0 {
      var front := indices[..|indices| - 1];
      var v := indices[|indices| - 1];
      MergeSamplesMeaning(stored, front, sampled);
      assert forall i :: i in indices <==> i in front || i == v;
      match MergeSamples(stored, front, sampled)
      case Err(_) =>
      case Ok(current) =>
        if v < |sampled| && v < |current| {
          CalibrateVertexIdempotent(stored[v], sampled[v]);
        }
    }
  }

  function Min(a: nat, b: nat): nat { if a <= b then a else b }

  /** A vertex whose sample lies within 1e-6 of the stored one is written back bit-identical, whatever else was sampled. */
  lemma UneditedMeshUnchanged(stored: seq<Vec3>, indices: seq<nat>, sampled: seq<Vec3>)
    requires AllBelow(indices, Min(|stored|, |sampled|))
    requires forall i :: i in indices ==> !LongerThan(Sub(sampled[i], stored[i]), VertexTolerance)
    ensures MergeSamples(stored, indices, sampled) == Ok(stored)
  {
    MergeSamplesMeaning(stored, indices, sampled);
    var r := MergeSamples(stored, indices, sampled).value;
    assert forall i :: 0 <= i < |stored| ==> r[i] == stored[i];
    assert r == stored;
  }

  /** Strips every `<instance>_` from a scene object name to get the DNA mesh name. */
  function RealMeshName(s: Settings, objectName: string): string {
    ReplaceAll(objectName, s.instanceName + "_", "")
  }

  /** One mesh object of the vertex pass: look its DNA mesh up (KeyError if absent), merge, and set all positions. */
  function VertexMesh(r: DnaReader, s: Settings, obj: SceneMesh): (c: Result<WriterCall, Exception>)
    requires r.Valid()
    ensures c.Ok? ==> c.value.SetVertexPositions? && c.value.meshIndex < |r.meshes|
    ensures c.Ok? ==> |c.value.positions| == |r.meshes[c.value.meshIndex].xs|
    ensures RealMeshName(s, obj.name) !in r.MeshNames() ==> c == Err(KeyError(RealMeshName(s, obj.name)))
  {
    var realName := RealMeshName(s, obj.name);
    match LookupLast(r.MeshNames(), realName)
    case None => Err(KeyError(realName))
    case Some(m) =>
      match MergeSamples(r.Positions(m), obj.sampledIndices, obj.sampledPositions)
      case Err(e) => Err(e)
      case Ok(ps) => Ok(SetVertexPositions(m, ps))
  }

  /** `calibrate_vertex_positions` over the export meshes, stopping at the first exception. */
  function VertexPass(r: DnaReader, s: Settings, objs: seq<SceneMesh>): PassResult
    requires r.Valid()
    decreases |objs|
  {
    if |objs| == 0 then NoCalls
    else
      var p := VertexPass(r, s, objs[..|objs| - 1]);
      if p.raised.Some? then p
      else
        match VertexMesh(r, s, objs[|objs| - 1])
        case Err(e) => PassResult(p.calls, Some(e))
        case Ok(c) => PassResult(p.calls + [c], None)
  }

  /** The vertex pass completes exactly when every object's mesh call does. */
  lemma {:induction false} VertexPassCompletes(r: DnaReader, s: Settings, objs: seq<SceneMesh>)
    requires r.Valid()
    ensures VertexPass(r, s, objs).raised.None? <==> forall k :: 0 <= k < |objs| ==> VertexMesh(r, s, objs[k]).Ok?
    decreases |objs|
  {
    if |objs| > 0 {
      var front := objs[..|objs| - 1];
      VertexPassCompletes(r, s, front);
      assert forall k :: 0 <= k < |front| ==> front[k] == objs[k];
      if VertexPass(r, s, front).raised.Some? {
        var k :| 0 <= k < |front| && !VertexMesh(r, s, front[k]).Ok?;
        assert !VertexMesh(r, s, objs[k]).Ok?;
      }
    }
  }

  /** A completed vertex pass makes one `setVertexPositions` per object, in order. */
  lemma {:induction false} VertexPassCalls(r: DnaReader, s: Settings, objs: seq<SceneMesh>)
    requires r.Valid() && VertexPass(r, s, objs).raised.None?
    ensures |VertexPass(r, s, objs).calls| == |objs|
    ensures forall k :: 0 <= k < |objs| ==> VertexMesh(r, s, objs[k]) == Ok(VertexPass(r, s, objs).calls[k])
    decreases |objs|
  {
    if |objs| > 0 {
      var front := objs[..|objs| - 1];
      var p := VertexPass(r, s, front);
      assert p.raised.None?;
      assert VertexMesh(r, s, objs[|objs| - 1]).Ok?;
      var c := VertexMesh(r, s, objs[|objs| - 1]).value;
      assert VertexPass(r, s, objs).calls == p.calls + [c];
      VertexPassCalls(r, s, front);
      forall k | 0 <= k < |objs|
        ensures VertexMesh(r, s, objs[k]) == Ok(VertexPass(r, s, objs).calls[k])
      {
        if k < |front| {
          assert front[k] == objs[k];
        }
      }
    }
  }

  /** Every call of the vertex pass sets a whole mesh, at the length the DNA stores; it never writes. */
  lemma {:induction false} VertexPassCallsKeepLengths(r: DnaReader, s: Settings, objs: seq<SceneMesh>)
    requires r.Valid()
    ensures forall c :: c in VertexPass(r, s, objs).calls ==>
      c.SetVertexPositions? && c.meshIndex < |r.meshes| && |c.positions| == |r.meshes[c.meshIndex].xs|
    decreases |objs|
  {
    if |objs| > 0 {
      VertexPassCallsKeepLengths(r, s, objs[..|objs| - 1]);
    }
  }

  /** An object whose stripped name is no DNA mesh name makes the pass raise (a KeyError, or an earlier exception). */
  lemma {:induction false} VertexPassUnknownMeshRaises(r: DnaReader, s: Settings, objs: seq<SceneMesh>, k: nat)
    requires r.Valid() && k < |objs|
    requires RealMeshName(s, objs[k].name) !in r.MeshNames()
    ensures VertexPass(r, s, objs).raised.Some?
    ensures VertexPass(r, s, objs[..k]).raised.None? ==>
      VertexPass(r, s, objs[..k + 1]).raised == Some(KeyError(RealMeshName(s, objs[k].name)))
  {
    VertexPassCompletes(r, s, objs);
    assert objs[..k + 1][..k] == objs[..k];
    assert objs[..k + 1][k] == objs[k];
  }

  /** Once the vertex pass has raised on a prefix of the objects, the later objects are never reached. */
  lemma {:induction false} VertexPassRaisedFinal(r: DnaReader, s: Settings, objs: seq<SceneMesh>, n: nat)
    requires r.Valid() && n <= |objs| && VertexPass(r, s, objs[..n]).raised.Some?
    ensures VertexPass(r, s, objs) == VertexPass(r, s, objs[..n])
    decreases |objs|
  {
    if n < |objs| {
      var front := objs[..|objs| - 1];
      assert front[..n] == objs[..n];
      VertexPassRaisedFinal(r, s, front, n);
    } else {
      assert objs[..n] == objs;
    }
  }

  // -------------------------------------------------------------- shape keys

  /** The delta of one sampled vertex, moved from Blender's Z-up to the DNA's Y-up frame. */
  function RawDelta(basis: seq<Vec3>, shape: seq<Vec3>, v: nat): Vec3
    requires v < |basis| && v < |shape|
  {
    RotXNeg90(Sub(shape[v], basis[v]))
  }

  /** The loop over the sampled vertices of one target, building the index and delta lists. */
  function TargetDeltas(indices: seq<nat>, basis: seq<Vec3>, shape: seq<Vec3>, threshold: real, lm: real)
    : (r: Result<(seq<nat>, seq<Vec3>), Exception>)
    requires lm != 0.0
    ensures r.Ok? ==> |r.value.0| == |r.value.1|
    decreases |indices|
  {
    if |indices| == 0 then Ok(([], []))
    else
      match TargetDeltas(indices[..|indices| - 1], basis, shape, threshold, lm)
      case Err(e) => Err(e)
      case Ok(acc) =>
        var v := indices[|indices| - 1];
        if v >= |shape| || v >= |basis| then Err(IndexError(v))
        else if LongerThan(RawDelta(basis, shape, v), threshold) then
          Ok((acc.0 + [v], acc.1 + [Div(RawDelta(basis, shape, v), lm)]))
        else Ok(acc)
  }

  /** Reference definition: the sampled vertices, in sample order, whose rotated delta is longer than the threshold. */
  function Kept(indices: seq<nat>, basis: seq<Vec3>, shape: seq<Vec3>, threshold: real): seq<nat>
    requires AllBelow(indices, Min(|basis|, |shape|))
  {
    if |indices| == 0 then []
    else
      (if LongerThan(RawDelta(basis, shape, indices[0]), threshold) then [indices[0]] else [])
      + Kept(indices[1..], basis, shape, threshold)
  }

  lemma {:induction false} KeptMembership(indices: seq<nat>, basis: seq<Vec3>, shape: seq<Vec3>, threshold: real)
    requires AllBelow(indices, Min(|basis|, |shape|))
    ensures forall v :: v in Kept(indices, basis, shape, threshold) <==>
      v in indices && LongerThan(RawDelta(basis, shape, v), threshold)
  {
    if |indices| > 0 {
      KeptMembership(indices[1..], basis, shape, threshold);
      assert forall v :: v in indices <==> v == indices[0] || v in indices[1..];
    }
  }

  lemma {:induction false} KeptSnoc(indices: seq<nat>, basis: seq<Vec3>, shape: seq<Vec3>, threshold: real)
    requires |indices| > 0 && AllBelow(indices, Min(|basis|, |shape|))
    ensures Kept(indices, basis, shape, threshold) ==
      Kept(indices[..|indices| - 1], basis, shape, threshold)
      + (if LongerThan(RawDelta(basis, shape, indices[|indices| - 1]), threshold) then [indices[|indices| - 1]] else [])
    decreases |indices|
  {
    if |indices| > 1 {
      KeptSnoc(indices[1..], basis, shape, threshold);
      assert indices[1..][..|indices[1..]| - 1] == indices[..|indices| - 1][1..];
    }
  }

  /**
   * A target's sparse set: it is computed exactly when every sampled index is
   * in range, its indices are the reference `Kept` set, and each delta is the
   * rotated difference at that index divided by the linear modifier.
   */
  lemma {:induction false} TargetDeltasMeaning(indices: seq<nat>, basis: seq<Vec3>, shape: seq<Vec3>, threshold: real, lm: real)
    requires lm != 0.0
    ensures TargetDeltas(indices, basis, shape, threshold, lm).Ok? <==> AllBelow(indices, Min(|basis|, |shape|))
    ensures TargetDeltas(indices, basis, shape, threshold, lm).Ok? ==>
      var d := TargetDeltas(indices, basis, shape, threshold, lm).value;
      && d.0 == Kept(indices, basis, shape, threshold)
      && forall k :: 0 <= k < |d.0| ==>
           d.0[k] < |basis| && d.0[k] < |shape| && d.1[k] == Div(RawDelta(basis, shape, d.0[k]), lm)
    decreases |indices|
  {
    if |indices| > 0 {
      var front := indices[..|indices| - 1];
      TargetDeltasMeaning(front, basis, shape, threshold, lm);
      if AllBelow(indices, Min(|basis|, |shape|)) {
        KeptSnoc(indices, basis, shape, threshold);
      }
    }
  }

  /** The shape-key name a DNA target is looked up under: `<mesh>__<channel>`. */
  function TargetKeyName(r: DnaReader, m: nat, t: nat): string
    requires r.Valid() && m < |r.meshes| && t < |r.meshes[m].targets|
  {
    r.meshes[m].name + "__" + r.channelNames[r.meshes[m].targets[t].channelIndex]
  }

  /** One target: skipped when its key name is too long or has no key block, otherwise its sparse set replaced by two setter calls. */
  function TargetCalls(r: DnaReader, s: Settings, m: nat, t: nat, keys: map<string, seq<Vec3>>, basis: seq<Vec3>, sampled: seq<nat>)
    : (c: PassResult)
    requires r.Valid() && m < |r.meshes| && t < |r.meshes[m].targets| && s.linearModifier != 0.0
  {
    var name := TargetKeyName(r, m, t);
    if |name| > s.nameMaxLength || name !in keys then NoCalls
    else
      match TargetDeltas(sampled, basis, keys[name], s.deltaThreshold, s.linearModifier)
      case Err(e) => PassResult([], Some(e))
      case Ok(d) => PassResult([SetBlendShapeTargetVertexIndices(m, t, d.0), SetBlendShapeTargetDeltas(m, t, d.1)], None)
  }

  /** The first `n` targets of mesh `m`, one step each. */
  function TargetSteps(r: DnaReader, s: Settings, m: nat, keys: map<string, seq<Vec3>>, basis: seq<Vec3>, sampled: seq<nat>, n: nat)
    : (steps: seq<PassResult>)
    requires r.Valid() && m < |r.meshes| && n <= |r.meshes[m].targets| && s.linearModifier != 0.0
    ensures |steps| == n
  {
    if n == 0 then [] else TargetSteps(r, s, m, keys, basis, sampled, n - 1) + [TargetCalls(r, s, m, n - 1, keys, basis, sampled)]
  }

  lemma {:induction false} TargetStepsAt(r: DnaReader, s: Settings, m: nat, keys: map<string, seq<Vec3>>, basis: seq<Vec3>, sampled: seq<nat>, n: nat, t: nat)
    requires r.Valid() && m < |r.meshes| && n <= |r.meshes[m].targets| && s.linearModifier != 0.0 && t < n
    ensures TargetSteps(r, s, m, keys, basis, sampled, n)[t] == TargetCalls(r, s, m, t, keys, basis, sampled)
    decreases n
  {
    if t < n - 1 {
      TargetStepsAt(r, s, m, keys, basis, sampled, n - 1, t);
    }
  }

  /** The scene object name a DNA mesh is looked up under: `<prefix>_<mesh>`. */
  function SceneObjectName(r: DnaReader, s: Settings, m: nat): string
    requires m < |r.meshes|
  {
    s.prefix + "_" + r.meshes[m].name
  }

  /** One mesh of a LOD: skipped without an object or shape-key data, RuntimeError without a basis key, else all its targets in order. */
  function MeshShapeKeys(r: DnaReader, s: Settings, objects: map<string, SceneMesh>, m: nat): PassResult
    requires r.Valid() && m < |r.meshes| && s.linearModifier != 0.0
  {
    var name := SceneObjectName(r, s, m);
    if name !in objects || objects[name].shapeKeys.None? then NoCalls
    else
      var keys := objects[name].shapeKeys.value;
      if s.basisName !in keys then PassResult([], Some(RuntimeError(BasisMissing(s.basisName, name))))
      else Sequence(TargetSteps(r, s, m, keys, keys[s.basisName], objects[name].sampledIndices, |r.meshes[m].targets|))
  }

  /** The first `n` meshes of a LOD's mesh list, one step each. */
  function MeshSteps(r: DnaReader, s: Settings, objects: map<string, SceneMesh>, meshes: seq<nat>, n: nat): (steps: seq<PassResult>)
    requires r.Valid() && AllBelow(meshes, |r.meshes|) && n <= |meshes| && s.linearModifier != 0.0
    ensures |steps| == n
  {
    if n == 0 then [] else MeshSteps(r, s, objects, meshes, n - 1) + [MeshShapeKeys(r, s, objects, meshes[n - 1])]
  }

  lemma {:induction false} MeshStepsAt(r: DnaReader, s: Settings, objects: map<string, SceneMesh>, meshes: seq<nat>, n: nat, k: nat)
    requires r.Valid() && AllBelow(meshes, |r.meshes|) && n <= |meshes| && s.linearModifier != 0.0 && k < n
    ensures MeshSteps(r, s, objects, meshes, n)[k] == MeshShapeKeys(r, s, objects, meshes[k])
    decreases n
  {
    if k < n - 1 {
      MeshStepsAt(r, s, objects, meshes, n - 1, k);
    }
  }

  /** One LOD: skipped when it has no blend-shape channels, otherwise each of its meshes in order. */
  function LodShapeKeys(r: DnaReader, s: Settings, objects: map<string, SceneMesh>, l: nat): PassResult
    requires r.Valid() && l < r.LodCount() && s.linearModifier != 0.0
  {
    if |r.lodChannelIndices[l]| == 0 then NoCalls
    else Sequence(MeshSteps(r, s, objects, r.lodMeshIndices[l], |r.lodMeshIndices[l]|))
  }

  /** The first `n` LODs, one step each. */
  function LodSteps(r: DnaReader, s: Settings, objects: map<string, SceneMesh>, n: nat): (steps: seq<PassResult>)
    requires r.Valid() && n <= r.LodCount() && s.linearModifier != 0.0
    ensures |steps| == n
  {
    if n == 0 then [] else LodSteps(r, s, objects, n - 1) + [LodShapeKeys(r, s, objects, n - 1)]
  }

  lemma {:induction false} LodStepsAt(r: DnaReader, s: Settings, objects: map<string, SceneMesh>, n: nat, l: nat)
    requires r.Valid() && n <= r.LodCount() && s.linearModifier != 0.0 && l < n
    ensures LodSteps(r, s, objects, n)[l] == LodShapeKeys(r, s, objects, l)
    decreases n
  {
    if l < n - 1 {
      LodStepsAt(r, s, objects, n - 1, l);
    }
  }

  /** `calibrate_shape_keys`: only the head component is calibrated, LOD by LOD. */
  function ShapeKeyPass(r: DnaReader, s: Settings, objects: map<string, SceneMesh>): PassResult
    requires r.Valid() && s.linearModifier != 0.0
  {
    if s.componentType != HeadComponent then NoCalls else Sequence(LodSteps(r, s, objects, r.LodCount()))
  }

  /** A call that sets the sparse set of an existing target. */
  predicate TargetSetter(r: DnaReader, c: WriterCall) {
    && (c.SetBlendShapeTargetVertexIndices? || c.SetBlendShapeTargetDeltas?)
    && c.meshIndex < |r.meshes| && c.targetIndex < |r.meshes[c.meshIndex].targets|
  }

  /**
   * One target is skipped, with no call, when its key name is too long or has
   * no key block; otherwise its index set is replaced by the reference `Kept`
   * set and its deltas by the matching rotated and rescaled differences,
   * whatever the writer held before.
   */
  lemma TargetCallsMeaning(r: DnaReader, s: Settings, m: nat, t: nat, keys: map<string, seq<Vec3>>, basis: seq<Vec3>, sampled: seq<nat>,
                           before: seq<WriterCall>)
    requires r.Valid() && m < |r.meshes| && t < |r.meshes[m].targets| && s.linearModifier != 0.0
    ensures |TargetKeyName(r, m, t)| > s.nameMaxLength || TargetKeyName(r, m, t) !in keys ==> TargetCalls(r, s, m, t, keys, basis, sampled) == NoCalls
    ensures |TargetKeyName(r, m, t)| <= s.nameMaxLength && TargetKeyName(r, m, t) in keys ==>
      var shape := keys[TargetKeyName(r, m, t)];
      var c := TargetCalls(r, s, m, t, keys, basis, sampled);
      && (c.raised.None? <==> AllBelow(sampled, Min(|basis|, |shape|)))
      && (c.raised.None? ==>
            && |c.calls| == 2
            && c.calls[0] == SetBlendShapeTargetVertexIndices(m, t, Kept(sampled, basis, shape, s.deltaThreshold))
            && c.calls[1].SetBlendShapeTargetDeltas? && c.calls[1].meshIndex == m && c.calls[1].targetIndex == t
            && |c.calls[1].deltas| == |c.calls[0].vertexIndices|
            && LastTargetVertexIndices(before + c.calls, m, t) == Some(c.calls[0].vertexIndices)
            && forall k :: 0 <= k < |c.calls[0].vertexIndices| ==>
                 var v := c.calls[0].vertexIndices[k];
                 v < |basis| && v < |shape| && c.calls[1].deltas[k] == Div(RawDelta(basis, shape, v), s.linearModifier))
  {
    var name := TargetKeyName(r, m, t);
    if |name| <= s.nameMaxLength && name in keys {
      TargetDeltasMeaning(sampled, basis, keys[name], s.deltaThreshold, s.linearModifier);
      var c := TargetCalls(r, s, m, t, keys, basis, sampled);
      if c.raised.None? {
        var after := before + c.calls;
        assert after[..|after| - 1] == before + [c.calls[0]];
      }
    }
  }

  /** The shape-key pass only ever replaces sparse sets of existing targets: it sets nothing else and never writes. */
  lemma ShapeKeyPassSetsTargetsOnly(r: DnaReader, s: Settings, objects: map<string, SceneMesh>)
    requires r.Valid() && s.linearModifier != 0.0
    ensures forall c :: c in ShapeKeyPass(r, s, objects).calls ==> TargetSetter(r, c)
  {
    var P := (c: WriterCall) => TargetSetter(r, c);
    if s.componentType == HeadComponent {
      var lods := LodSteps(r, s, objects, r.LodCount());
      forall l | 0 <= l < |lods|
        ensures forall c :: c in lods[l].calls ==> P(c)
      {
        LodStepsAt(r, s, objects, r.LodCount(), l);
        if |r.lodChannelIndices[l]| > 0 {
          var meshes := MeshSteps(r, s, objects, r.lodMeshIndices[l], |r.lodMeshIndices[l]|);
          forall k | 0 <= k < |meshes|
            ensures forall c :: c in meshes[k].calls ==> P(c)
          {
            MeshStepsAt(r, s, objects, r.lodMeshIndices[l], |r.lodMeshIndices[l]|, k);
            MeshSetsTargetsOnly(r, s, objects, r.lodMeshIndices[l][k]);
          }
          SequenceCallsFrom(meshes, P);
        }
      }
      SequenceCallsFrom(lods, P);
    }
  }

  lemma MeshSetsTargetsOnly(r: DnaReader, s: Settings, objects: map<string, SceneMesh>, m: nat)
    requires r.Valid() && m < |r.meshes| && s.linearModifier != 0.0
    ensures forall c :: c in MeshShapeKeys(r, s, objects, m).calls ==> TargetSetter(r, c)
  {
    var name := SceneObjectName(r, s, m);
    if name in objects && objects[name].shapeKeys.Some? && s.basisName in objects[name].shapeKeys.value {
      var keys := objects[name].shapeKeys.value;
      var n := |r.meshes[m].targets|;
      var steps := TargetSteps(r, s, m, keys, keys[s.basisName], objects[name].sampledIndices, n);
      forall t | 0 <= t < n
        ensures forall c :: c in steps[t].calls ==> TargetSetter(r, c)
      {
        TargetStepsAt(r, s, m, keys, keys[s.basisName], objects[name].sampledIndices, n, t);
      }
      SequenceCallsFrom(steps, c => TargetSetter(r, c));
    }
  }

  /** A mesh object with shape-key data but no basis key stops the pass with a RuntimeError naming the object. */
  lemma MissingBasisRaises(r: DnaReader, s: Settings, objects: map<string, SceneMesh>, m: nat)
    requires r.Valid() && m < |r.meshes| && s.linearModifier != 0.0
    requires SceneObjectName(r, s, m) in objects
    requires objects[SceneObjectName(r, s, m)].shapeKeys.Some?
    requires s.basisName !in objects[SceneObjectName(r, s, m)].shapeKeys.value
    ensures MeshShapeKeys(r, s, objects, m) == PassResult([], Some(RuntimeError(BasisMissing(s.basisName, SceneObjectName(r, s, m)))))
  {
  }

  // ------------------------------------------------------------------- bones

  /** The neutral joint translations and rotations being calibrated. */
  datatype Joints = Joints(translations: seq<Vec3>, rotations: seq<Vec3>)

  predicate JointsFit(names: seq<string>, j: Joints) {
    |j.translations| == |names| && |j.rotations| == |names|
  }

  /**
   * One sampled bone: ignored when it is an extra bone or has no DNA joint;
   * otherwise its translation replaces the joint's beyond 1e-3, and its
   * rotation likewise but only for a `FACIAL_` bone.
   */
  function BoneStep(names: seq<string>, ignored: seq<string>, j: Joints, b: SceneBone): (r: Joints)
    requires JointsFit(names, j)
    ensures JointsFit(names, r)
  {
    if b.name in ignored then j
    else
      match LookupLast(names, b.name)
      case None => j
      case Some(i) =>
        var ts := if LongerThan(Sub(b.translation, j.translations[i]), BoneTolerance)
                  then j.translations[i := b.translation] else j.translations;
        var rs := if StartsWith(b.name, FacialPrefix) && LongerThan(Sub(b.rotation, j.rotations[i]), BoneTolerance)
                  then j.rotations[i := b.rotation] else j.rotations;
        Joints(ts, rs)
  }

  /** The loop over the sampled bones. */
  function BoneFold(names: seq<string>, ignored: seq<string>, j: Joints, bones: seq<SceneBone>): (r: Joints)
    requires JointsFit(names, j)
    ensures JointsFit(names, r)
    decreases |bones|
  {
    if |bones| == 0 then j
    else BoneStep(names, ignored, BoneFold(names, ignored, j, bones[..|bones| - 1]), bones[|bones| - 1])
  }

  /** A sampled bone that is calibrated against joint `i`. */
  predicate MapsTo(names: seq<string>, ignored: seq<string>, b: SceneBone, i: nat) {
    b.name !in ignored && LookupLast(names, b.name) == Some(i)
  }

  /**
   * The policy for one bone mapped to joint `i`: the translation is replaced
   * if and only if it moved more than 1e-3, the rotation if and only if the
   * bone is a `FACIAL_` bone and it turned more than 1e-3; other joints keep
   * their values.
   */
  lemma BoneStepPolicy(names: seq<string>, ignored: seq<string>, j: Joints, b: SceneBone, i: nat)
    requires JointsFit(names, j) && MapsTo(names, ignored, b, i)
    ensures BoneStep(names, ignored, j, b).translations[i] ==
      if LongerThan(Sub(b.translation, j.translations[i]), BoneTolerance) then b.translation else j.translations[i]
    ensures BoneStep(names, ignored, j, b).rotations[i] ==
      if StartsWith(b.name, FacialPrefix) && LongerThan(Sub(b.rotation, j.rotations[i]), BoneTolerance)
      then b.rotation else j.rotations[i]
    ensures forall k :: 0 <= k < |names| && k != i ==>
      BoneStep(names, ignored, j, b).translations[k] == j.translations[k] &&
      BoneStep(names, ignored, j, b).rotations[k] == j.rotations[k]
  {
  }

  /**
   * After the whole loop, a joint's translation differs from the DNA only if
   * some sampled bone maps to it, and its rotation only if a `FACIAL_` bone
   * maps to it: no other rotation is ever calibrated.
   */
  lemma {:induction false} BoneFoldChangesOnlyMapped(names: seq<string>, ignored: seq<string>, j: Joints, bones: seq<SceneBone>)
    requires JointsFit(names, j)
    ensures forall i :: 0 <= i < |names| && BoneFold(names, ignored, j, bones).translations[i] != j.translations[i] ==>
      exists k :: 0 <= k < |bones| && MapsTo(names, ignored, bones[k], i)
    ensures forall i :: 0 <= i < |names| && BoneFold(names, ignored, j, bones).rotations[i] != j.rotations[i] ==>
      exists k :: 0 <= k < |bones| && MapsTo(names, ignored, bones[k], i) && StartsWith(bones[k].name, FacialPrefix)
    decreases |bones|
  {
    if |bones| > 0 {
      var front := bones[..|bones| - 1];
      var b := bones[|bones| - 1];
      BoneFoldChangesOnlyMapped(names, ignored, j, front);
      var prev := BoneFold(names, ignored, j, front);
      forall i | 0 <= i < |names| && BoneFold(names, ignored, j, bones).translations[i] != j.translations[i]
        ensures exists k :: 0 <= k < |bones| && MapsTo(names, ignored, bones[k], i)
      {
        if prev.translations[i] != j.translations[i] {
          var k :| 0 <= k < |front| && MapsTo(names, ignored, front[k], i);
          assert bones[k] == front[k];
        } else {
          assert MapsTo(names, ignored, bones[|bones| - 1], i);
        }
      }
      forall i | 0 <= i < |names| && BoneFold(names, ignored, j, bones).rotations[i] != j.rotations[i]
        ensures exists k :: 0 <= k < |bones| && MapsTo(names, ignored, bones[k], i) && StartsWith(bones[k].name, FacialPrefix)
      {
        if prev.rotations[i] != j.rotations[i] {
          var k :| 0 <= k < |front| && MapsTo(names, ignored, front[k], i) && StartsWith(front[k].name, FacialPrefix);
          assert bones[k] == front[k];
        } else {
          assert MapsTo(names, ignored, bones[|bones| - 1], i) && StartsWith(bones[|bones| - 1].name, FacialPrefix);
        }
      }
    }
  }

  /** A rig whose mapped bones all lie within 1e-3 of the DNA gives the DNA joints back unchanged. */
  lemma {:induction false} BoneFoldUnedited(names: seq<string>, ignored: seq<string>, j: Joints, bones: seq<SceneBone>)
    requires JointsFit(names, j)
    requires forall k, i: nat :: 0 <= k < |bones| && MapsTo(names, ignored, bones[k], i) ==>
      !LongerThan(Sub(bones[k].translation, j.translations[i]), BoneTolerance) &&
      !LongerThan(Sub(bones[k].rotation, j.rotations[i]), BoneTolerance)
    ensures BoneFold(names, ignored, j, bones) == j
    decreases |bones|
  {
    if |bones| > 0 {
      var front := bones[..|bones| - 1];
      assert forall k :: 0 <= k < |front| ==> front[k] == bones[k];
      BoneFoldUnedited(names, ignored, j, front);
      var b := bones[|bones| - 1];
      if b.name !in ignored && LookupLast(names, b.name).Some? {
        assert MapsTo(names, ignored, b, LookupLast(names, b.name).value);
      }
    }
  }

  /** The DNA joints as the reader stores them. */
  function StoredJoints(r: DnaReader): (j: Joints)
    requires r.Valid()
    ensures JointsFit(r.jointNames, j)
  {
    Joints(r.Translations(), r.Rotations())
  }

  /** `calibrate_bone_transforms`: both full joint arrays are set, at the length the DNA stores. */
  function BonePass(r: DnaReader, s: Settings, bones: seq<SceneBone>): (calls: seq<WriterCall>)
    requires r.Valid()
    ensures |calls| == 2 && calls[0].SetNeutralJointTranslations? && calls[1].SetNeutralJointRotations?
    ensures |calls[0].translations| == |r.jointNames| && |calls[1].rotations| == |r.jointNames|
  {
    var j := BoneFold(r.jointNames, s.extraBones, StoredJoints(r), bones);
    [SetNeutralJointTranslations(j.translations), SetNeutralJointRotations(j.rotations)]
  }

  // --------------------------------------------------------------------- run

  /** What the abstract `validate` returns; the fix callback is represented by its name. */
  datatype Validation = Validation(valid: bool, title: string, message: string, fix: Option<string>)

  /** The riglogic status after `write()`. */
  datatype WriteStatus = WriteStatus(ok: bool, message: string)

  /** What `run` gives back: the validation failure, success, or the exception it lets escape. */
  datatype Outcome =
    | Invalid(title: string, message: string, fix: Option<string>)
    | Calibrated
    | Raised(error: Exception)

  /** The `(success, title, message, fix)` tuple `run` returns, when it returns. */
  function ReturnedTuple(o: Outcome): (bool, string, string, Option<string>)
    requires !o.Raised?
  {
    match o
    case Invalid(title, message, fix) => (false, title, message, fix)
    case Calibrated => (true, "Success", "Calibration successful.", None)
  }

  datatype RunResult = RunResult(calls: seq<WriterCall>, outcome: Outcome)

  /** Each stage of `run` when its flag enables it, and no calls otherwise. */
  function VertexStage(r: DnaReader, s: Settings, scene: Scene): PassResult
    requires r.Valid()
  {
    if s.includeMeshes then VertexPass(r, s, scene.exportMeshes) else NoCalls
  }

  function ShapeKeyStage(r: DnaReader, s: Settings, scene: Scene): PassResult
    requires r.Valid() && s.linearModifier != 0.0
  {
    if s.includeShapeKeys then ShapeKeyPass(r, s, scene.objects) else NoCalls
  }

  function BoneStage(r: DnaReader, s: Settings, scene: Scene): PassResult
    requires r.Valid()
  {
    if s.includeBones then PassResult(BonePass(r, s, scene.bones), None) else NoCalls
  }

  /** The enabled stages in their fixed order: vertices, shape keys, bones. */
  function Stages(r: DnaReader, s: Settings, scene: Scene): PassResult
    requires r.Valid() && s.linearModifier != 0.0
  {
    Then(Then(VertexStage(r, s, scene), ShapeKeyStage(r, s, scene)), BoneStage(r, s, scene))
  }

  /** `run`: validate, then the stages, then a single write and the status check. */
  function RunSpec(r: DnaReader, s: Settings, scene: Scene, v: Validation, status: WriteStatus): RunResult
    requires r.Valid() && s.linearModifier != 0.0
  {
    if !v.valid then RunResult([], Invalid(v.title, v.message, v.fix))
    else
      var st := Stages(r, s, scene);
      if st.raised.Some? then RunResult(st.calls, Raised(st.raised.value))
      else if !status.ok then RunResult(st.calls + [Write], Raised(RuntimeError(SaveFailed(status.message))))
      else RunResult(st.calls + [Write], Calibrated)
  }

  /** No stage ever calls `write()`. */
  lemma StagesNeverWrite(r: DnaReader, s: Settings, scene: Scene)
    requires r.Valid() && s.linearModifier != 0.0
    ensures Write !in Stages(r, s, scene).calls
  {
    VertexPassCallsKeepLengths(r, s, scene.exportMeshes);
    ShapeKeyPassSetsTargetsOnly(r, s, scene.objects);
  }

  /** A failed validation returns its own verdict, runs no stage and makes no call. */
  lemma RunInvalidDoesNothing(r: DnaReader, s: Settings, scene: Scene, v: Validation, status: WriteStatus)
    requires r.Valid() && s.linearModifier != 0.0 && !v.valid
    ensures RunSpec(r, s, scene, v, status) == RunResult([], Invalid(v.title, v.message, v.fix))
  {
  }

  /**
   * After a successful validation, `write()` is called exactly once, as the
   * last call, when no stage raised, and never when one did.
   */
  lemma RunWritesOnce(r: DnaReader, s: Settings, scene: Scene, v: Validation, status: WriteStatus)
    requires r.Valid() && s.linearModifier != 0.0 && v.valid
    ensures var calls := RunSpec(r, s, scene, v, status).calls;
      && WriteCount(calls) == (if Stages(r, s, scene).raised.None? then 1 else 0)
      && (Write in calls ==> calls[|calls| - 1] == Write)
  {
    StagesNeverWrite(r, s, scene);
    var st := Stages(r, s, scene);
    if st.raised.None? {
      WriteCountAppend(st.calls, [Write]);
      assert WriteCount([Write]) == 1 by {
        assert [Write][..0] == [];
      }
    }
  }

  /** When no stage raises, the calls are the enabled stages' calls in the order vertices, shape keys, bones, then the write. */
  lemma RunOrder(r: DnaReader, s: Settings, scene: Scene, v: Validation, status: WriteStatus)
    requires r.Valid() && s.linearModifier != 0.0 && v.valid && Stages(r, s, scene).raised.None?
    ensures RunSpec(r, s, scene, v, status).calls ==
      (if s.includeMeshes then VertexPass(r, s, scene.exportMeshes).calls else [])
      + (if s.includeShapeKeys then ShapeKeyPass(r, s, scene.objects).calls else [])
      + (if s.includeBones then BonePass(r, s, scene.bones) else [])
      + [Write]
  {
  }

  /** After the write, a bad status raises RuntimeError with its message; a good one returns the success tuple. */
  lemma RunStatus(r: DnaReader, s: Settings, scene: Scene, v: Validation, status: WriteStatus)
    requires r.Valid() && s.linearModifier != 0.0 && v.valid && Stages(r, s, scene).raised.None?
    ensures !status.ok ==> RunSpec(r, s, scene, v, status).outcome == Raised(RuntimeError(SaveFailed(status.message)))
    ensures status.ok ==> RunSpec(r, s, scene, v, status).outcome == Calibrated
  {
  }

  /** An unknown mesh name in an enabled vertex pass reaches neither the later stages nor the write. */
  lemma UnknownMeshPreventsWrite(r: DnaReader, s: Settings, scene: Scene, v: Validation, status: WriteStatus, k: nat)
    requires r.Valid() && s.linearModifier != 0.0 && v.valid && s.includeMeshes
    requires k < |scene.exportMeshes| && RealMeshName(s, scene.exportMeshes[k].name) !in r.MeshNames()
    ensures RunSpec(r, s, scene, v, status).outcome.Raised?
    ensures RunSpec(r, s, scene, v, status).calls == VertexPass(r, s, scene.exportMeshes).calls
    ensures Write !in RunSpec(r, s, scene, v, status).calls
  {
    VertexPassUnknownMeshRaises(r, s, scene.exportMeshes, k);
    StagesNeverWrite(r, s, scene);
  }

  // ------------------------------------------------------- imperative passes

  /** Once a prefix of the sampled indices hit an IndexError, the merge ends with that error. */
  lemma {:induction false} MergeSamplesErrFinal(stored: seq<Vec3>, indices: seq<nat>, sampled: seq<Vec3>, n: nat)
    requires n <= |indices| && MergeSamples(stored, indices[..n], sampled).Err?
    ensures MergeSamples(stored, indices, sampled) == MergeSamples(stored, indices[..n], sampled)
    decreases |indices|
  {
    if n < |indices| {
      var front := indices[..|indices| - 1];
      assert front[..n] == indices[..n];
      MergeSamplesErrFinal(stored, front, sampled, n);
    } else {
      assert indices[..n] == indices;
    }
  }

  lemma {:induction false} TargetDeltasErrFinal(indices: seq<nat>, basis: seq<Vec3>, shape: seq<Vec3>, threshold: real, lm: real, n: nat)
    requires lm != 0.0 && n <= |indices| && TargetDeltas(indices[..n], basis, shape, threshold, lm).Err?
    ensures TargetDeltas(indices, basis, shape, threshold, lm) == TargetDeltas(indices[..n], basis, shape, threshold, lm)
    decreases |indices|
  {
    if n < |indices| {
      var front := indices[..|indices| - 1];
      assert front[..n] == indices[..n];
      TargetDeltasErrFinal(front, basis, shape, threshold, lm, n);
    } else {
      assert indices[..n] == indices;
    }
  }

  /**
   * The vertex loop of one mesh: the stored X/Y/Z arrays are rewritten in
   * place at each sampled index and zipped into positions at the end.
   */
  method MergeSampledPositions(xs0: seq<real>, ys0: seq<real>, zs0: seq<real>, indices: seq<nat>, sampled: seq<Vec3>)
    returns (r: Result<seq<Vec3>, Exception>)
    requires |ys0| == |xs0| && |zs0| == |xs0|
    ensures r == MergeSamples(Zip3(xs0, ys0, zs0), indices, sampled)
  {
    var xs, ys, zs := xs0, ys0, zs0;
    var i := 0;
    while i < |indices|
      invariant i <= |indices|
      invariant |ys| == |xs| && |zs| == |xs|
      invariant MergeSamples(Zip3(xs0, ys0, zs0), indices[..i], sampled) == Ok(Zip3(xs, ys, zs))
    {
      var v := indices[i];
      assert indices[..i + 1][..i] == indices[..i];
      if v >= |sampled| || v >= |xs| {
        MergeSamplesErrFinal(Zip3(xs0, ys0, zs0), indices, sampled, i + 1);
        return Err(IndexError(v));
      }
      var position := sampled[v];
      var stored := Vec3(xs[v], ys[v], zs[v]);
      ghost var current := Zip3(xs, ys, zs);
      assert MergeSamples(Zip3(xs0, ys0, zs0), indices[..i + 1], sampled)
          == Ok(current[v := CalibrateVertex(stored, position)]);
      if LongerThan(Sub(position, stored), VertexTolerance) {
        Zip3Update(xs, ys, zs, v, position);
        xs, ys, zs := xs[v := position.x], ys[v := position.y], zs[v := position.z];
      } else {
        assert current[v := stored] == current;
      }
      i := i + 1;
    }
    assert indices[..i] == indices;
    return Ok(Zip3(xs, ys, zs));
  }

  /** The vertex loop of one target, appending each kept index and its converted delta. */
  method ComputeTargetDeltas(indices: seq<nat>, basis: seq<Vec3>, shape: seq<Vec3>, threshold: real, lm: real)
    returns (r: Result<(seq<nat>, seq<Vec3>), Exception>)
    requires lm != 0.0
    ensures r == TargetDeltas(indices, basis, shape, threshold, lm)
  {
    var kept: seq<nat> := [];
    var deltas: seq<Vec3> := [];
    var i := 0;
    while i < |indices|
      invariant i <= |indices|
      invariant TargetDeltas(indices[..i], basis, shape, threshold, lm) == Ok((kept, deltas))
    {
      var v := indices[i];
      assert indices[..i + 1][..i] == indices[..i];
      if v >= |shape| || v >= |basis| {
        TargetDeltasErrFinal(indices, basis, shape, threshold, lm, i + 1);
        return Err(IndexError(v));
      }
      var delta := RotXNeg90(Sub(shape[v], basis[v]));
      if LongerThan(delta, threshold) {
        kept := kept + [v];
        deltas := deltas + [Div(delta, lm)];
      }
      i := i + 1;
    }
    assert indices[..i] == indices;
    return Ok((kept, deltas));
  }

  /** `DNACalibrator`: a reader, its configuration and the writer the passes call. */
  class DnaCalibrator {
    const reader: DnaReader
    const settings: Settings
    const writer: DnaWriter

    /** A well-formed DNA and a usable linear modifier (1/SCALE_FACTOR or 1, never 0). */
    predicate Valid() {
      reader.Valid() && settings.linearModifier != 0.0
    }

    constructor(reader: DnaReader, settings: Settings, writer: DnaWriter)
      ensures this.reader == reader && this.settings == settings && this.writer == writer
    {
      this.reader := reader;
      this.settings := settings;
      this.writer := writer;
    }

    /** `calibrate_vertex_positions`: merges each export mesh's samples into its DNA positions and sets them. */
    method CalibrateVertexPositions(objs: seq<SceneMesh>) returns (raised: Option<Exception>)
      requires Valid()
      modifies writer
      ensures writer.calls == old(writer.calls) + VertexPass(reader, settings, objs).calls
      ensures raised == VertexPass(reader, settings, objs).raised
    {
      var names := reader.MeshNames();
      raised := None;
      var k := 0;
      while k < |objs| && raised.None?
        invariant k <= |objs|
        invariant raised == VertexPass(reader, settings, objs[..k]).raised
        invariant writer.calls == old(writer.calls) + VertexPass(reader, settings, objs[..k]).calls
      {
        var obj := objs[k];
        assert objs[..k + 1][..k] == objs[..k];
        var realName := ReplaceAll(obj.name, settings.instanceName + "_", "");
        var found := LookupLast(names, realName);
        if found.None? {
          raised := Some(KeyError(realName));
        } else {
          var m := found.value;
          var merged := MergeSampledPositions(reader.meshes[m].xs, reader.meshes[m].ys, reader.meshes[m].zs,
                                              obj.sampledIndices, obj.sampledPositions);
          if merged.Err? {
            raised := Some(merged.error);
          } else {
            writer.SetVertexPositionsOf(m, merged.value);
          }
        }
        k := k + 1;
      }
      if raised.Some? {
        VertexPassRaisedFinal(reader, settings, objs, k);
      } else {
        assert objs[..k] == objs;
      }
    }

    /** One target of the mesh loop: skipped by its key name, otherwise its deltas computed and set. */
    method CalibrateTarget(keys: map<string, seq<Vec3>>, m: nat, t: nat, basis: seq<Vec3>, sampled: seq<nat>)
      returns (raised: Option<Exception>)
      requires Valid() && m < |reader.meshes| && t < |reader.meshes[m].targets|
      modifies writer
      ensures writer.calls == old(writer.calls) + TargetCalls(reader, settings, m, t, keys, basis, sampled).calls
      ensures raised == TargetCalls(reader, settings, m, t, keys, basis, sampled).raised
    {
      var channel := reader.channelNames[reader.meshes[m].targets[t].channelIndex];
      var keyName := reader.meshes[m].name + "__" + channel;
      assert keyName == TargetKeyName(reader, m, t);
      if |keyName| > settings.nameMaxLength || keyName !in keys {
        return None;
      }
      var d := ComputeTargetDeltas(sampled, basis, keys[keyName], settings.deltaThreshold, settings.linearModifier);
      if d.Err? {
        return Some(d.error);
      }
      writer.SetTargetVertexIndices(m, t, d.value.0);
      writer.SetTargetDeltas(m, t, d.value.1);
      raised := None;
    }

    /** One mesh of `calibrate_shape_keys`: its basis check and its target loop. */
    method CalibrateMeshShapeKeys(objects: map<string, SceneMesh>, m: nat) returns (raised: Option<Exception>)
      requires Valid() && m < |reader.meshes|
      modifies writer
      ensures writer.calls == old(writer.calls) + MeshShapeKeys(reader, settings, objects, m).calls
      ensures raised == MeshShapeKeys(reader, settings, objects, m).raised
    {
      var meshName := reader.meshes[m].name;
      var name := settings.prefix + "_" + meshName;
      if name !in objects || objects[name].shapeKeys.None? {
        return None;
      }
      var keys := objects[name].shapeKeys.value;
      if settings.basisName !in keys {
        return Some(RuntimeError(BasisMissing(settings.basisName, name)));
      }
      var basis := keys[settings.basisName];
      var sampled := objects[name].sampledIndices;
      ghost var steps := TargetSteps(reader, settings, m, keys, basis, sampled, |reader.meshes[m].targets|);
      var t := 0;
      while t < |reader.meshes[m].targets|
        invariant t <= |reader.meshes[m].targets|
        invariant Sequence(steps[..t]).raised.None?
        invariant writer.calls == old(writer.calls) + Sequence(steps[..t]).calls
      {
        SequenceSnoc(steps, t);
        TargetStepsAt(reader, settings, m, keys, basis, sampled, |reader.meshes[m].targets|, t);
        ghost var done := Sequence(steps[..t]).calls;
        var r := CalibrateTarget(keys, m, t, basis, sampled);
        AppendAssociative(old(writer.calls), done, steps[t].calls);
        if r.Some? {
          SequenceRaisedFinal(steps, t + 1);
          return r;
        }
        t := t + 1;
      }
      assert steps[..t] == steps;
      return None;
    }

    /** One LOD of `calibrate_shape_keys`: skipped without channels, otherwise each of its meshes in order. */
    method CalibrateLodShapeKeys(objects: map<string, SceneMesh>, l: nat) returns (raised: Option<Exception>)
      requires Valid() && l < reader.LodCount()
      modifies writer
      ensures writer.calls == old(writer.calls) + LodShapeKeys(reader, settings, objects, l).calls
      ensures raised == LodShapeKeys(reader, settings, objects, l).raised
    {
      if |reader.lodChannelIndices[l]| == 0 {
        return None;
      }
      var meshes := reader.lodMeshIndices[l];
      ghost var steps := MeshSteps(reader, settings, objects, meshes, |meshes|);
      raised := None;
      var k := 0;
      while k < |meshes| && raised.None?
        invariant k <= |meshes|
        invariant raised == Sequence(steps[..k]).raised
        invariant writer.calls == old(writer.calls) + Sequence(steps[..k]).calls
      {
        SequenceSnoc(steps, k);
        MeshStepsAt(reader, settings, objects, meshes, |meshes|, k);
        ghost var done := Sequence(steps[..k]).calls;
        raised := CalibrateMeshShapeKeys(objects, meshes[k]);
        AppendAssociative(old(writer.calls), done, steps[k].calls);
        k := k + 1;
      }
      if raised.Some? {
        SequenceRaisedFinal(steps, k);
      } else {
        assert steps[..k] == steps;
      }
    }

    /** `calibrate_shape_keys`: the head component only, LOD by LOD. */
    method CalibrateShapeKeys(objects: map<string, SceneMesh>) returns (raised: Option<Exception>)
      requires Valid()
      modifies writer
      ensures writer.calls == old(writer.calls) + ShapeKeyPass(reader, settings, objects).calls
      ensures raised == ShapeKeyPass(reader, settings, objects).raised
    {
      if settings.componentType != HeadComponent {
        return None;
      }
      var n := reader.LodCount();
      ghost var lods := LodSteps(reader, settings, objects, n);
      assert ShapeKeyPass(reader, settings, objects) == Sequence(lods);
      raised := None;
      var l := 0;
      while l < n && raised.None?
        invariant l <= n == |lods|
        invariant raised == Sequence(lods[..l]).raised
        invariant writer.calls == old(writer.calls) + Sequence(lods[..l]).calls
      {
        SequenceSnoc(lods, l);
        LodStepsAt(reader, settings, objects, n, l);
        ghost var done := Sequence(lods[..l]).calls;
        raised := CalibrateLodShapeKeys(objects, l);
        AppendAssociative(old(writer.calls), done, lods[l].calls);
        l := l + 1;
      }
      if raised.Some? {
        SequenceRaisedFinal(lods, l);
      } else {
        assert lods[..l] == lods;
      }
    }

    /** `calibrate_bone_transforms`: updates the six joint arrays bone by bone, then sets both in full. */
    method CalibrateBoneTransforms(bones: seq<SceneBone>)
      requires Valid()
      modifies writer
      ensures writer.calls == old(writer.calls) + BonePass(reader, settings, bones)
    {
      var ignored := settings.extraBones;
      var names := reader.jointNames;
      var tx, ty, tz := reader.translationXs, reader.translationYs, reader.translationZs;
      var rx, ry, rz := reader.rotationXs, reader.rotationYs, reader.rotationZs;
      ghost var stored := StoredJoints(reader);
      var k := 0;
      while k < |bones|
        invariant k <= |bones|
        invariant |tx| == |names| && |ty| == |names| && |tz| == |names|
        invariant |rx| == |names| && |ry| == |names| && |rz| == |names|
        invariant writer.calls == old(writer.calls)
        invariant Joints(Zip3(tx, ty, tz), Zip3(rx, ry, rz)) == BoneFold(names, ignored, stored, bones[..k])
      {
        var b := bones[k];
        assert bones[..k + 1][..k] == bones[..k];
        if b.name !in ignored {
          var found := LookupLast(names, b.name);
          if found.Some? {
            var i := found.value;
            if LongerThan(Sub(b.translation, Vec3(tx[i], ty[i], tz[i])), BoneTolerance) {
              Zip3Update(tx, ty, tz, i, b.translation);
              tx, ty, tz := tx[i := b.translation.x], ty[i := b.translation.y], tz[i := b.translation.z];
            }
            if StartsWith(b.name, FacialPrefix) && LongerThan(Sub(b.rotation, Vec3(rx[i], ry[i], rz[i])), BoneTolerance) {
              Zip3Update(rx, ry, rz, i, b.rotation);
              rx, ry, rz := rx[i := b.rotation.x], ry[i := b.rotation.y], rz[i := b.rotation.z];
            }
          }
        }
        k := k + 1;
      }
      assert bones[..k] == bones;
      assert stored == StoredJoints(reader);
      assert BonePass(reader, settings, bones) == [SetNeutralJointTranslations(Zip3(tx, ty, tz)), SetNeutralJointRotations(Zip3(rx, ry, rz))];
      writer.SetJointTranslations(Zip3(tx, ty, tz));
      writer.SetJointRotations(Zip3(rx, ry, rz));
    }

    /** The vertex and shape-key stages of `run`, the second only when the first did not raise. */
    method CalibrateMeshStages(scene: Scene) returns (raised: Option<Exception>)
      requires Valid()
      modifies writer
      ensures writer.calls == old(writer.calls) + Then(VertexStage(reader, settings, scene), ShapeKeyStage(reader, settings, scene)).calls
      ensures raised == Then(VertexStage(reader, settings, scene), ShapeKeyStage(reader, settings, scene)).raised
    {
      raised := None;
      if settings.includeMeshes {
        raised := CalibrateVertexPositions(scene.exportMeshes);
      }
      if raised.None? && settings.includeShapeKeys {
        raised := CalibrateShapeKeys(scene.objects);
      }
    }

    /** The enabled stages of `run`, in order, stopping at the first exception. */
    method CalibrateStages(scene: Scene) returns (raised: Option<Exception>)
      requires Valid()
      modifies writer
      ensures writer.calls == old(writer.calls) + Stages(reader, settings, scene).calls
      ensures raised == Stages(reader, settings, scene).raised
    {
      raised := CalibrateMeshStages(scene);
      if raised.None? && settings.includeBones {
        CalibrateBoneTransforms(scene.bones);
      }
    }

    /**
     * `run`, after `initialize_scene_data` (whose result is `scene`) and the
     * abstract `validate` (whose verdict is `validation`); `status` is the
     * riglogic status after `write()`.
     */
    method Run(scene: Scene, validation: Validation, status: WriteStatus) returns (outcome: Outcome)
      requires Valid()
      modifies writer
      ensures writer.calls == old(writer.calls) + RunSpec(reader, settings, scene, validation, status).calls
      ensures outcome == RunSpec(reader, settings, scene, validation, status).outcome
    {
      if !validation.valid {
        return Invalid(validation.title, validation.message, validation.fix);
      }
      var raised := CalibrateStages(scene);
      if raised.Some? {
        return Raised(raised.value);
      }
      writer.WriteOut();
      if !status.ok {
        return Raised(RuntimeError(SaveFailed(status.message)));
      }
      return Calibrated;
    }
  }
}
