// The DNA document as the calibrator sees it: an immutable reader record
// of parallel arrays, and a writer whose state is the log of setter calls
// made on it (the binary/JSON stream behind it is not part of this model).

module DnaIo {
  import opened Geometry
  import opened Wrappers

  /**
   * The Python exceptions the modelled code raises, as values. A RuntimeError
   * carries the reason it was raised for; `Message` gives its text.
   */
  datatype Exception =
    | KeyError(key: string)
    | IndexError(index: int)
    | RuntimeError(reason: Failure)
    | ValueError(message: string)
    | FileNotFoundError(path: string)
    | AttributeError(attribute: string)
    | ZeroDivisionError
    | TypeError(message: string)

  datatype Failure =
    | BasisMissing(basisName: string, meshName: string)
    | SaveFailed(status: string)
    | LoadFailed(status: string)

  /** The message text each RuntimeError is raised with. */
  function Message(f: Failure): string {
    match f
    case BasisMissing(basis, mesh) =>
      "Shape key '" + basis + "' not found for mesh '" + mesh + "'. This is needed for calibration!"
    case SaveFailed(status) => "Error saving DNA: " + status
    case LoadFailed(status) => "Error loading DNA: " + status
  }

  /** One blend-shape target of a mesh: which channel drives it and its sparse delta set (X/Y/Z arrays). */
  datatype BlendShapeTarget = BlendShapeTarget(
    channelIndex: nat,
    vertexIndices: seq<nat>,
    deltaXs: seq<real>,
    deltaYs: seq<real>,
    deltaZs: seq<real>)

  datatype DnaMesh = DnaMesh(
    name: string,
    xs: seq<real>,
    ys: seq<real>,
    zs: seq<real>,
    targets: seq<BlendShapeTarget>,
    layoutPositionCount: nat)

  /** The reader: meshes, joints (neutral translations and rotations as X/Y/Z arrays), LOD tables and channel names. */
  datatype DnaReader = DnaReader(
    meshes: seq<DnaMesh>,
    jointNames: seq<string>,
    translationXs: seq<real>, translationYs: seq<real>, translationZs: seq<real>,
    rotationXs: seq<real>, rotationYs: seq<real>, rotationZs: seq<real>,
    lodMeshIndices: seq<seq<nat>>,
    lodChannelIndices: seq<seq<nat>>,
    channelNames: seq<string>)
  {
    /** What a well-formed DNA file guarantees: parallel arrays agree and every index refers to something. */
    predicate Valid() {
      && (forall m :: 0 <= m < |meshes| ==> MeshValid(meshes[m], |channelNames|))
      && |translationXs| == |jointNames| && |translationYs| == |jointNames| && |translationZs| == |jointNames|
      && |rotationXs| == |jointNames| && |rotationYs| == |jointNames| && |rotationZs| == |jointNames|
      && |lodChannelIndices| == |lodMeshIndices|
      && (forall l :: 0 <= l < |lodMeshIndices| ==> AllBelow(lodMeshIndices[l], |meshes|))
    }

    function LodCount(): nat { |lodMeshIndices| }

    function MeshNames(): (names: seq<string>)
      ensures |names| == |meshes|
      ensures forall m :: 0 <= m < |meshes| ==> names[m] == meshes[m].name
    {
      seq(|meshes|, m requires 0 <= m < |meshes| => meshes[m].name)
    }

    /** `getVertexPositionXs/Ys/Zs(mesh)` zipped into one row per vertex. */
    function Positions(m: nat): (ps: seq<Vec3>)
      requires Valid() && m < |meshes|
      ensures |ps| == |meshes[m].xs|
    {
      Zip3(meshes[m].xs, meshes[m].ys, meshes[m].zs)
    }

    function Translations(): (ts: seq<Vec3>)
      requires Valid()
      ensures |ts| == |jointNames|
    {
      Zip3(translationXs, translationYs, translationZs)
    }

    function Rotations(): (rs: seq<Vec3>)
      requires Valid()
      ensures |rs| == |jointNames|
    {
      Zip3(rotationXs, rotationYs, rotationZs)
    }
  }

  /** Every index in the list is below `bound`. */
  predicate AllBelow(indices: seq<nat>, bound: nat) {
    forall k :: 0 <= k < |indices| ==> indices[k] < bound
  }

  predicate MeshValid(mesh: DnaMesh, channelCount: nat) {
    && |mesh.ys| == |mesh.xs| && |mesh.zs| == |mesh.xs|
    && forall t :: 0 <= t < |mesh.targets| ==> mesh.targets[t].channelIndex < channelCount
  }

  /** The writer operations the calibrator uses, recorded in the order they were made. */
  datatype WriterCall =
    | SetVertexPositions(meshIndex: nat, positions: seq<Vec3>)
    | SetBlendShapeTargetVertexIndices(meshIndex: nat, targetIndex: nat, vertexIndices: seq<nat>)
    | SetBlendShapeTargetDeltas(meshIndex: nat, targetIndex: nat, deltas: seq<Vec3>)
    | SetNeutralJointTranslations(translations: seq<Vec3>)
    | SetNeutralJointRotations(rotations: seq<Vec3>)
    | Write

  /** How many times `write()` appears in a call log. */
  function WriteCount(calls: seq<WriterCall>): (n: nat)
    ensures n <= |calls|
    ensures n == 0 <==> Write !in calls
  {
    if |calls| == 0 then 0
    else WriteCount(calls[..|calls| - 1]) + (if calls[|calls| - 1] == Write then 1 else 0)
  }

  lemma {:induction false} WriteCountAppend(a: seq<WriterCall>, b: seq<WriterCall>)
    ensures WriteCount(a + b) == WriteCount(a) + WriteCount(b)
    decreases |b|
  {
    if |b| == 0 {
      assert a + b == a;
    } else {
      assert (a + b)[..|a + b| - 1] == a + b[..|b| - 1];
      WriteCountAppend(a, b[..|b| - 1]);
    }
  }

  /** The positions a mesh holds after the log: the last `setVertexPositions` for it, if any. */
  function LastVertexPositions(calls: seq<WriterCall>, mesh: nat): (r: Option<seq<Vec3>>)
    ensures r.Some? <==> exists k :: 0 <= k < |calls| && calls[k].SetVertexPositions? && calls[k].meshIndex == mesh
    ensures r.Some? ==> SetVertexPositions(mesh, r.value) in calls
  {
    if |calls| == 0 then None
    else
      var c := calls[|calls| - 1];
      if c.SetVertexPositions? && c.meshIndex == mesh then Some(c.positions)
      else
        var r := LastVertexPositions(calls[..|calls| - 1], mesh);
        assert forall k :: 0 <= k < |calls| - 1 ==> calls[..|calls| - 1][k] == calls[k];
        r
  }

  /** The sparse index set a target holds after the log: the last set for it, never a merge of earlier ones. */
  function LastTargetVertexIndices(calls: seq<WriterCall>, mesh: nat, target: nat): (r: Option<seq<nat>>)
    ensures r.Some? ==> exists k :: 0 <= k < |calls| && calls[k] == SetBlendShapeTargetVertexIndices(mesh, target, r.value)
  {
    if |calls| == 0 then None
    else
      var c := calls[|calls| - 1];
      if c.SetBlendShapeTargetVertexIndices? && c.meshIndex == mesh && c.targetIndex == target then Some(c.vertexIndices)
      else
        var r := LastTargetVertexIndices(calls[..|calls| - 1], mesh, target);
        assert r.Some? ==> calls[..|calls| - 1] <= calls;
        r
  }

  /** The writer: `calls` is the log of every setter and `write()` made on it, in order. */
  class DnaWriter {
    var calls: seq<WriterCall>

    constructor()
      ensures calls == []
    {
      calls := [];
    }

    method SetVertexPositionsOf(meshIndex: nat, positions: seq<Vec3>)
      modifies this
      ensures calls == old(calls) + [SetVertexPositions(meshIndex, positions)]
    {
      calls := calls + [SetVertexPositions(meshIndex, positions)];
    }

    method SetTargetVertexIndices(meshIndex: nat, targetIndex: nat, vertexIndices: seq<nat>)
      modifies this
      ensures calls == old(calls) + [SetBlendShapeTargetVertexIndices(meshIndex, targetIndex, vertexIndices)]
    {
      calls := calls + [SetBlendShapeTargetVertexIndices(meshIndex, targetIndex, vertexIndices)];
    }

    method SetTargetDeltas(meshIndex: nat, targetIndex: nat, deltas: seq<Vec3>)
      modifies this
      ensures calls == old(calls) + [SetBlendShapeTargetDeltas(meshIndex, targetIndex, deltas)]
    {
      calls := calls + [SetBlendShapeTargetDeltas(meshIndex, targetIndex, deltas)];
    }

    method SetJointTranslations(translations: seq<Vec3>)
      modifies this
      ensures calls == old(calls) + [SetNeutralJointTranslations(translations)]
    {
      calls := calls + [SetNeutralJointTranslations(translations)];
    }

    method SetJointRotations(rotations: seq<Vec3>)
      modifies this
      ensures calls == old(calls) + [SetNeutralJointRotations(rotations)]
    {
      calls := calls + [SetNeutralJointRotations(rotations)];
    }

    method WriteOut()
      modifies this
      ensures calls == old(calls) + [Write]
    {
      calls := calls + [Write];
    }
  }
}
