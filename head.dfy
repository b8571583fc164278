// components/head.py: the shape-key import queue `import_shape_keys` fills,
// the arguments each queued command is later run with, the face-board and
// topology decisions of `ingest`, and the per-bone dispatch of
// `revert_bone_transforms_to_dna`.

module Head {
  import opened Wrappers
  import opened Seqs
  import opened Geometry
  import opened Text
  import opened DnaIo
  import Calibrator

  // ------------------------------------------------------------ the queue

  datatype CommandKind = InitializeBasis | CreateShapeKey

  /** One queued command: `(index, mesh_index, description, kwargs_callback, callback)`, the callbacks named by `kind`. */
  datatype Command = Command(index: nat, meshIndex: nat, description: string, kind: CommandKind)

  const InitDescription: string := "Initializing basis shape..."

  /** `f'{index}/{count}' + ' {name} ...'`: the `{name}` placeholder is filled in when the command runs. */
  function CreateDescription(index: nat, count: nat): string {
    NatToString(index) + "/" + NatToString(count) + " {name} ..."
  }

  /** A `queue.Queue` of commands: `put` appends, `get` takes the oldest. */
  class CommandQueue {
    var items: seq<Command>

    constructor()
      ensures items == []
    {
      items := [];
    }

    method Put(c: Command)
      modifies this
      ensures items == old(items) + [c]
    {
      items := items + [c];
    }

    method Get() returns (c: Command)
      requires |items| > 0
      modifies this
      ensures c == old(items)[0] && items == old(items)[1..]
    {
      c := items[0];
      items := items[1..];
    }
  }

  /** The create command of target `i` of mesh `m`, which has `count` targets. */
  function CreateCommand(m: nat, count: nat, i: nat): Command {
    Command(i, m, CreateDescription(i, count), CreateShapeKey)
  }

  /** The create commands of the first `n` targets of mesh `m`, which has `count` targets. */
  function CreateCommands(m: nat, count: nat, n: nat): (cs: seq<Command>)
    ensures |cs| == n
    ensures forall i :: 0 <= i < n ==> cs[i] == CreateCommand(m, count, i)
  {
    if n == 0 then [] else CreateCommands(m, count, n - 1) + [CreateCommand(m, count, n - 1)]
  }

  /** The commands of one mesh: an initialisation when it has targets, then one create per target. */
  function MeshCommands(m: nat, count: nat): seq<Command> {
    (if count > 0 then [Command(0, m, InitDescription, InitializeBasis)] else []) + CreateCommands(m, count, count)
  }

  /** Everything `import_shape_keys` enqueues for meshes `0 .. |counts| - 1` with these target counts. */
  function QueuePlan(counts: seq<nat>): seq<Command>
    decreases |counts|
  {
    if |counts| == 0 then [] else QueuePlan(counts[..|counts| - 1]) + MeshCommands(|counts| - 1, counts[|counts| - 1])
  }

  lemma QueuePlanStep(counts: seq<nat>, m: nat)
    requires m < |counts|
    ensures QueuePlan(counts[..m + 1]) == QueuePlan(counts[..m]) + MeshCommands(m, counts[m])
  {
    assert counts[..m + 1][..m] == counts[..m];
  }

  /** Σ (c + [c > 0]) over the target counts. */
  function CommandTotal(counts: seq<nat>): nat
    decreases |counts|
  {
    if |counts| == 0 then 0
    else CommandTotal(counts[..|counts| - 1]) + counts[|counts| - 1] + (if counts[|counts| - 1] > 0 then 1 else 0)
  }

  function TargetCounts(r: DnaReader): (counts: seq<nat>)
    ensures |counts| == |r.meshes|
    ensures forall m :: 0 <= m < |r.meshes| ==> counts[m] == |r.meshes[m].targets|
  {
    seq(|r.meshes|, m requires 0 <= m < |r.meshes| => |r.meshes[m].targets|)
  }

  /** The queue holds Σ (c + [c > 0]) commands: a mesh without targets enqueues nothing. */
  lemma {:induction false} QueuePlanLength(counts: seq<nat>)
    ensures |QueuePlan(counts)| == CommandTotal(counts)
    decreases |counts|
  {
    if |counts| > 0 {
      QueuePlanLength(counts[..|counts| - 1]);
    }
  }

  /** Every command of mesh `m` names that mesh and one of its `count` targets. */
  lemma MeshCommandsShape(m: nat, count: nat)
    ensures forall i :: 0 <= i < |MeshCommands(m, count)| ==>
      MeshCommands(m, count)[i].meshIndex == m && MeshCommands(m, count)[i].index < count
  {
    if count > 0 {
      MeshCommandsOrder(m, count);
      forall i | 0 < i < |MeshCommands(m, count)|
        ensures MeshCommands(m, count)[i].index < count
      {
        assert MeshCommands(m, count)[(i - 1) + 1].index == i - 1;
      }
    }
  }

  /** Every command names a mesh with targets, and a create command names one of its targets. */
  lemma {:induction false} QueuePlanMembers(counts: seq<nat>)
    ensures forall i :: 0 <= i < |QueuePlan(counts)| ==>
      QueuePlan(counts)[i].meshIndex < |counts| && counts[QueuePlan(counts)[i].meshIndex] > 0
      && QueuePlan(counts)[i].index < counts[QueuePlan(counts)[i].meshIndex]
    decreases |counts|
  {
    if |counts| > 0 {
      var front := counts[..|counts| - 1];
      var m := |counts| - 1;
      QueuePlanMembers(front);
      MeshCommandsShape(m, counts[m]);
      var p := QueuePlan(front);
      var mc := MeshCommands(m, counts[m]);
      var q := p + mc;
      assert q == QueuePlan(counts);
      forall i | 0 <= i < |q|
        ensures q[i].meshIndex < |counts| && counts[q[i].meshIndex] > 0 && q[i].index < counts[q[i].meshIndex]
      {
        if i < |p| {
          assert q[i] == p[i] && front[p[i].meshIndex] == counts[p[i].meshIndex];
        } else {
          assert q[i] == mc[i - |p|];
        }
      }
    }
  }

  /** The mesh indices never decrease along the queue: meshes are enqueued in ascending order. */
  lemma {:induction false} QueuePlanOrdered(counts: seq<nat>)
    ensures forall i, j :: 0 <= i < j < |QueuePlan(counts)| ==> QueuePlan(counts)[i].meshIndex <= QueuePlan(counts)[j].meshIndex
    decreases |counts|
  {
    if |counts| > 0 {
      var front := counts[..|counts| - 1];
      var m := |counts| - 1;
      QueuePlanOrdered(front);
      QueuePlanMembers(front);
      MeshCommandsShape(m, counts[m]);
      var p := QueuePlan(front);
      var mc := MeshCommands(m, counts[m]);
      var q := p + mc;
      assert q == QueuePlan(counts);
      forall i, j | 0 <= i < j < |q|
        ensures q[i].meshIndex <= q[j].meshIndex
      {
        if j >= |p| {
          assert q[j] == mc[j - |p|];
          if i < |p| { assert q[i] == p[i]; } else { assert q[i] == mc[i - |p|]; }
        } else {
          assert q[i] == p[i] && q[j] == p[j];
        }
      }
    }
  }

  /** Mesh `m`'s commands come right after those of the meshes before it: an initialisation, then creates 0 .. c-1. */
  lemma MeshCommandsOrder(m: nat, count: nat)
    requires count > 0
    ensures |MeshCommands(m, count)| == count + 1
    ensures MeshCommands(m, count)[0] == Command(0, m, InitDescription, InitializeBasis)
    ensures forall i :: 0 <= i < count ==> MeshCommands(m, count)[i + 1] == Command(i, m, CreateDescription(i, count), CreateShapeKey)
  {
  }

  /** The inner loop of `import_shape_keys`: one mesh's initialisation and create commands. */
  method EnqueueMesh(queue: CommandQueue, m: nat, count: nat)
    modifies queue
    ensures queue.items == old(queue.items) + MeshCommands(m, count)
  {
    if count > 0 {
      queue.Put(Command(0, m, InitDescription, InitializeBasis));
    }
    ghost var start := queue.items;
    var index := 0;
    while index < count
      invariant index <= count
      invariant queue.items == start + CreateCommands(m, count, index)
    {
      ghost var done := CreateCommands(m, count, index);
      var c := CreateCommand(m, count, index);
      assert CreateCommands(m, count, index + 1) == done + [c];
      queue.Put(c);
      assert queue.items == start + (done + [c]);
      index := index + 1;
    }
  }

  /**
   * `import_shape_keys`: a ValueError without a head mesh, before anything
   * is enqueued; otherwise the commands of every mesh in ascending order,
   * and an empty list is returned.
   */
  method ImportShapeKeys(queue: CommandQueue, r: DnaReader, hasHeadMesh: bool) returns (result: Result<seq<Command>, Exception>)
    modifies queue
    ensures !hasHeadMesh ==> result == Err(ValueError("Head mesh object not found!")) && queue.items == old(queue.items)
    ensures hasHeadMesh ==> result == Ok([]) && queue.items == old(queue.items) + QueuePlan(TargetCounts(r))
  {
    if !hasHeadMesh {
      return Err(ValueError("Head mesh object not found!"));
    }
    ghost var counts := TargetCounts(r);
    var m := 0;
    while m < |r.meshes|
      invariant m <= |r.meshes|
      invariant queue.items == old(queue.items) + QueuePlan(counts[..m])
    {
      var count := |r.meshes[m].targets|;
      ghost var done := QueuePlan(counts[..m]);
      QueuePlanStep(counts, m);
      EnqueueMesh(queue, m, count);
      AppendAssociative(old(queue.items), done, MeshCommands(m, count));
      m := m + 1;
    }
    assert counts[..m] == counts;
    return Ok([]);
  }

  /**
   * The keyword arguments `get_create_kwargs` computes for a create command
   * when it runs (the reader is left implicit). `isNeutral` is passed along
   * although `create_shape_key` declares no such parameter.
   */
  datatype CreateKwargs = CreateKwargs(
    index: nat,
    meshIndex: nat,
    objectName: string,
    name: string,
    isNeutral: bool,
    linearModifier: real,
    prefix: string)

  /**
   * The key `create_shape_key` makes is named `prefix + name`: exactly the
   * name the calibrator later looks the target up under, on the object the
   * calibrator reads when its prefix is this instance's name.
   */
  function GetCreateKwargs(r: DnaReader, instanceName: string, generateNeutral: bool, lm: real, index: nat, meshIndex: nat)
    : (kw: CreateKwargs)
    requires r.Valid() && meshIndex < |r.meshes| && index < |r.meshes[meshIndex].targets|
    ensures kw.index == index && kw.meshIndex == meshIndex && kw.linearModifier == lm
    ensures kw.isNeutral == generateNeutral
    ensures kw.prefix + kw.name == Calibrator.TargetKeyName(r, meshIndex, index)
    ensures forall s: Calibrator.Settings :: s.prefix == instanceName ==> kw.objectName == Calibrator.SceneObjectName(r, s, meshIndex)
  {
    var meshName := r.meshes[meshIndex].name;
    CreateKwargs(index, meshIndex, instanceName + "_" + meshName,
                 r.channelNames[r.meshes[meshIndex].targets[index].channelIndex], generateNeutral, lm, meshName + "__")
  }

  // ---------------------------------------------------------------- ingest

  datatype FaceBoardAction = ImportFaceBoard | DuplicateFaceBoard | ReuseFaceBoard(instance: nat)

  /** The first instance in the list that has a face board. */
  function FirstWithFaceBoard(hasFaceBoard: seq<bool>): (r: Option<nat>)
    ensures r.None? <==> forall i :: 0 <= i < |hasFaceBoard| ==> !hasFaceBoard[i]
    ensures r.Some? ==> (r.value < |hasFaceBoard| && hasFaceBoard[r.value]
                         && forall j :: 0 <= j < r.value ==> !hasFaceBoard[j])
  {
    if |hasFaceBoard| == 0 then None
    else if hasFaceBoard[0] then Some(0)
    else match FirstWithFaceBoard(hasFaceBoard[1..])
      case None => None
      case Some(i) => Some(i + 1)
  }

  /**
   * The face-board choice in `ingest`: import when no instance has one;
   * otherwise duplicate when this instance has none and reuse is off;
   * otherwise reuse the first instance's that has one.
   */
  function ChooseFaceBoard(hasFaceBoard: seq<bool>, thisHasFaceBoard: bool, reuseFaceBoard: bool): (a: FaceBoardAction)
    ensures a == ImportFaceBoard <==> forall i :: 0 <= i < |hasFaceBoard| ==> !hasFaceBoard[i]
    ensures a == DuplicateFaceBoard <==>
      (exists i :: 0 <= i < |hasFaceBoard| && hasFaceBoard[i]) && !thisHasFaceBoard && !reuseFaceBoard
    ensures a.ReuseFaceBoard? ==> (a.instance < |hasFaceBoard| && hasFaceBoard[a.instance]
                                   && forall j :: 0 <= j < a.instance ==> !hasFaceBoard[j])
  {
    match FirstWithFaceBoard(hasFaceBoard)
    case None => ImportFaceBoard
    case Some(i) => if !thisHasFaceBoard && !reuseFaceBoard then DuplicateFaceBoard else ReuseFaceBoard(i)
  }

  /** Topology vertex groups are only made for the default head mesh, recognised by its layout position count. */
  function CreatesTopologyGroups(layoutPositionCount: nat, defaultCount: nat): bool {
    layoutPositionCount == defaultCount
  }

  // ------------------------------------------------------ revert to the DNA

  /** A stored default of an extra bone, in the Y-up frame: its location and its rotation (Euler angles). */
  datatype ExtraBone = ExtraBone(location: Vec3, rotation: Vec3)

  /** A bone matrix, as a translation and an orientation. */
  datatype BoneMatrix = BoneMatrix(translation: Vec3, rotation: Vec3)

  /**
   * What reverting one bone sets: the rig's world matrix for `root`, an
   * extra bone's stored default (Y scaled, then rotated to Z-up), the DNA
   * matrix when there is one, and nothing otherwise.
   */
  datatype BoneAction =
    | SetWorldMatrix
    | SetExtraDefault(translation: Vec3, rotationYUp: Vec3)
    | SetDnaMatrix(matrix: BoneMatrix)
    | Unchanged

  /** `location.y = location.y * factor`. */
  function ScaleY(location: Vec3, heightFactor: real): Vec3 {
    Vec3(location.x, location.y * heightFactor, location.z)
  }

  /** The default location, y multiplied by the height factor, moved to Z-up by the +90 degree turn about X. */
  function ExtraTranslation(location: Vec3, heightFactor: real): (t: Vec3)
    ensures t == Vec3(location.x, -location.z, location.y * heightFactor)
  {
    RotXPos90(ScaleY(location, heightFactor))
  }

  /** `dict(EXTRA_BONES).get(name)`: the last entry under that name. */
  function LookupExtra(table: seq<(string, ExtraBone)>, name: string): (r: Option<nat>)
    ensures r.Some? ==> (r.value < |table| && table[r.value].0 == name
                         && forall j :: r.value < j < |table| ==> table[j].0 != name)
    ensures r.None? ==> forall j :: 0 <= j < |table| ==> table[j].0 != name
  {
    if |table| == 0 then None
    else if table[|table| - 1].0 == name then Some(|table| - 1)
    else LookupExtra(table[..|table| - 1], name)
  }

  /** The dispatch for one bone, given the extra-bone table as it stands when the bone is reached. */
  function RevertAction(table: seq<(string, ExtraBone)>, dnaMatrices: map<string, BoneMatrix>, heightFactor: real, name: string)
    : (a: BoneAction)
    ensures name == "root" ==> a == SetWorldMatrix
    ensures name != "root" && LookupExtra(table, name).Some? ==>
      a == SetExtraDefault(ExtraTranslation(table[LookupExtra(table, name).value].1.location, heightFactor),
                           table[LookupExtra(table, name).value].1.rotation)
    ensures name != "root" && LookupExtra(table, name).None? ==>
      a == (if name in dnaMatrices then SetDnaMatrix(dnaMatrices[name]) else Unchanged)
  {
    if name == "root" then SetWorldMatrix
    else match LookupExtra(table, name)
      case Some(k) => SetExtraDefault(ExtraTranslation(table[k].1.location, heightFactor), table[k].1.rotation)
      case None => if name in dnaMatrices then SetDnaMatrix(dnaMatrices[name]) else Unchanged
  }

  /** `location.y = location.y * factor` on the Vector the table holds: the stored default itself is rescaled. */
  function ScaleStoredY(table: seq<(string, ExtraBone)>, k: nat, heightFactor: real): (t: seq<(string, ExtraBone)>)
    requires k < |table|
    ensures |t| == |table|
  {
    table[k := (table[k].0, ExtraBone(ScaleY(table[k].1.location, heightFactor), table[k].1.rotation))]
  }

  /**
   * The module-level `EXTRA_BONES` table. `dict(EXTRA_BONES)` copies only
   * the outer list, so the location vectors it hands out are the table's own.
   */
  class ExtraBoneTable {
    var entries: seq<(string, ExtraBone)>

    constructor(entries: seq<(string, ExtraBone)>)
      ensures this.entries == entries
    {
      this.entries := entries;
    }
  }

  /** The table after one revert, as written: each selected extra bone's stored y is multiplied by the factor. */
  function TableAfterRevert(table: seq<(string, ExtraBone)>, selected: seq<string>, heightFactor: real): (t: seq<(string, ExtraBone)>)
    ensures |t| == |table|
    decreases |selected|
  {
    if |selected| == 0 then table
    else
      var t := TableAfterRevert(table, selected[..|selected| - 1], heightFactor);
      var name := selected[|selected| - 1];
      if name != "root" && LookupExtra(t, name).Some? then ScaleStoredY(t, LookupExtra(t, name).value, heightFactor) else t
  }

  /** The actions of one revert, as written: each bone sees the table as the earlier bones left it. */
  function RevertActions(table: seq<(string, ExtraBone)>, dnaMatrices: map<string, BoneMatrix>, heightFactor: real, selected: seq<string>)
    : (actions: seq<BoneAction>)
    ensures |actions| == |selected|
    decreases |selected|
  {
    if |selected| == 0 then []
    else
      var front := selected[..|selected| - 1];
      RevertActions(table, dnaMatrices, heightFactor, front)
        + [RevertAction(TableAfterRevert(table, front, heightFactor), dnaMatrices, heightFactor, selected[|selected| - 1])]
  }

  lemma RevertSnoc(table: seq<(string, ExtraBone)>, dnaMatrices: map<string, BoneMatrix>, heightFactor: real,
                   selected: seq<string>, i: nat)
    requires i < |selected|
    ensures var t := TableAfterRevert(table, selected[..i], heightFactor);
      var name := selected[i];
      && RevertActions(table, dnaMatrices, heightFactor, selected[..i + 1])
         == RevertActions(table, dnaMatrices, heightFactor, selected[..i]) + [RevertAction(t, dnaMatrices, heightFactor, name)]
      && TableAfterRevert(table, selected[..i + 1], heightFactor)
         == if name != "root" && LookupExtra(t, name).Some? then ScaleStoredY(t, LookupExtra(t, name).value, heightFactor) else t
  {
    assert selected[..i + 1][..i] == selected[..i];
    assert selected[..i + 1][i] == selected[i];
  }

  /**
   * `revert_bone_transforms_to_dna` as written: nothing without a head rig;
   * otherwise one action per selected bone, and the stored default of every
   * selected extra bone is rescaled in place.
   */
  method RevertBoneTransforms(table: ExtraBoneTable, hasHeadRig: bool, selected: seq<string>,
                              dnaMatrices: map<string, BoneMatrix>, heightFactor: real)
    returns (actions: seq<BoneAction>)
    modifies table
    ensures !hasHeadRig ==> actions == [] && table.entries == old(table.entries)
    ensures hasHeadRig ==> actions == RevertActions(old(table.entries), dnaMatrices, heightFactor, selected)
    ensures hasHeadRig ==> table.entries == TableAfterRevert(old(table.entries), selected, heightFactor)
  {
    actions := [];
    if !hasHeadRig {
      return;
    }
    var i := 0;
    while i < |selected|
      invariant i <= |selected|
      invariant actions == RevertActions(old(table.entries), dnaMatrices, heightFactor, selected[..i])
      invariant table.entries == TableAfterRevert(old(table.entries), selected[..i], heightFactor)
    {
      var name := selected[i];
      RevertSnoc(old(table.entries), dnaMatrices, heightFactor, selected, i);
      ghost var before := table.entries;
      var extra := LookupExtra(table.entries, name);
      if name == "root" {
        actions := actions + [SetWorldMatrix];
      } else if extra.Some? {
        var k := extra.value;
        var e := table.entries[k].1;
        table.entries := ScaleStoredY(table.entries, k, heightFactor);
        assert table.entries[k].1 == ExtraBone(ScaleY(e.location, heightFactor), e.rotation);
        var location := table.entries[k].1.location;
        assert RotXPos90(location) == ExtraTranslation(e.location, heightFactor);
        assert RevertAction(before, dnaMatrices, heightFactor, name) == SetExtraDefault(RotXPos90(location), e.rotation);
        actions := actions + [SetExtraDefault(RotXPos90(location), e.rotation)];
      } else if name in dnaMatrices {
        actions := actions + [SetDnaMatrix(dnaMatrices[name])];
      } else {
        actions := actions + [Unchanged];
      }
      i := i + 1;
    }
    assert selected[..i] == selected;
  }

  /**
   * Reverting the same extra bone in two successive calls does not give the
   * same matrix: the second call scales the already scaled default again,
   * so its height is the stored y times the factor squared.
   */
  lemma RevertTwiceCompounds(table: seq<(string, ExtraBone)>, dnaMatrices: map<string, BoneMatrix>, heightFactor: real, name: string)
    requires name != "root" && LookupExtra(table, name).Some?
    ensures var e := table[LookupExtra(table, name).value].1;
      var first := RevertActions(table, dnaMatrices, heightFactor, [name]);
      var second := RevertActions(TableAfterRevert(table, [name], heightFactor), dnaMatrices, heightFactor, [name]);
      && first == [SetExtraDefault(ExtraTranslation(e.location, heightFactor), e.rotation)]
      && second == [SetExtraDefault(ExtraTranslation(ScaleY(e.location, heightFactor), heightFactor), e.rotation)]
      && (heightFactor != 0.0 && heightFactor != 1.0 && e.location.y != 0.0 ==> first != second)
  {
    var k := LookupExtra(table, name).value;
    var e := table[k].1;
    var t1 := TableAfterRevert(table, [name], heightFactor);
    assert [name][..0] == [];
    assert [name][0] == name;
    assert TableAfterRevert(table, [], heightFactor) == table;
    assert TableAfterRevert(t1, [], heightFactor) == t1;
    assert t1 == ScaleStoredY(table, k, heightFactor);
    LookupExtraSameNames(table, t1, name);
    assert RevertActions(table, dnaMatrices, heightFactor, [name]) == [RevertAction(table, dnaMatrices, heightFactor, name)];
    assert RevertActions(t1, dnaMatrices, heightFactor, [name]) == [RevertAction(t1, dnaMatrices, heightFactor, name)];
    if heightFactor != 0.0 && heightFactor != 1.0 && e.location.y != 0.0 {
      ScaledTwiceDiffers(e.location.y, heightFactor);
      var once := ExtraTranslation(e.location, heightFactor);
      var scaled := ScaleY(e.location, heightFactor);
      var twice := ExtraTranslation(scaled, heightFactor);
      assert once.z == e.location.y * heightFactor;
      assert scaled.y == e.location.y * heightFactor;
      assert twice.z == e.location.y * heightFactor * heightFactor;
      assert once.z != twice.z;
    }
  }

  lemma ScaledTwiceDiffers(y: real, f: real)
    requires f != 0.0 && f != 1.0 && y != 0.0
    ensures y * f * f != y * f
  {
    assert y * f != 0.0;
    assert (y * f) * f - (y * f) == (y * f) * (f - 1.0);
  }

  /** Rescaling a stored location keeps every name, so lookups find the same entry. */
  lemma {:induction false} LookupExtraSameNames(a: seq<(string, ExtraBone)>, b: seq<(string, ExtraBone)>, name: string)
    requires |a| == |b| && forall j :: 0 <= j < |a| ==> a[j].0 == b[j].0
    ensures LookupExtra(a, name) == LookupExtra(b, name)
    decreases |a|
  {
    if |a| > 0 && a[|a| - 1].0 != name {
      LookupExtraSameNames(a[..|a| - 1], b[..|b| - 1], name);
    }
  }

  /** Reverting other bones leaves a bone's entry, and where the lookup finds it, as they were. */
  lemma {:induction false} TableAfterRevertOthers(table: seq<(string, ExtraBone)>, selected: seq<string>, heightFactor: real, name: string)
    requires name !in selected
    ensures LookupExtra(TableAfterRevert(table, selected, heightFactor), name) == LookupExtra(table, name)
    ensures LookupExtra(table, name).Some? ==>
      TableAfterRevert(table, selected, heightFactor)[LookupExtra(table, name).value] == table[LookupExtra(table, name).value]
    decreases |selected|
  {
    if |selected| > 0 {
      var front := selected[..|selected| - 1];
      var other := selected[|selected| - 1];
      assert name !in front && name != other by {
        assert forall x :: x in front ==> x in selected;
      }
      TableAfterRevertOthers(table, front, heightFactor, name);
      var t := TableAfterRevert(table, front, heightFactor);
      if other != "root" && LookupExtra(t, other).Some? {
        LookupExtraSameNames(t, ScaleStoredY(t, LookupExtra(t, other).value, heightFactor), name);
      }
    }
  }

  /**
   * Within one call, with every bone selected once, the as-written revert
   * gives each bone the action of the untouched table: the damage only shows
   * in later calls.
   */
  lemma {:induction false} RevertActionsDistinct(table: seq<(string, ExtraBone)>, dnaMatrices: map<string, BoneMatrix>,
                                               heightFactor: real, selected: seq<string>, i: nat)
    requires forall a, b :: 0 <= a < b < |selected| ==> selected[a] != selected[b]
    requires i < |selected|
    ensures RevertActions(table, dnaMatrices, heightFactor, selected)[i] == RevertAction(table, dnaMatrices, heightFactor, selected[i])
    decreases |selected|
  {
    var front := selected[..|selected| - 1];
    if i < |selected| - 1 {
      RevertActionsDistinct(table, dnaMatrices, heightFactor, front, i);
    } else {
      var name := selected[i];
      assert name !in front;
      TableAfterRevertOthers(table, front, heightFactor, name);
    }
  }

  /** The intended revert: the default is scaled on a copy, so the table is left as it was. */
  method RevertBoneTransformsOnCopy(table: ExtraBoneTable, hasHeadRig: bool, selected: seq<string>,
                                   dnaMatrices: map<string, BoneMatrix>, heightFactor: real)
    returns (actions: seq<BoneAction>)
    ensures !hasHeadRig ==> actions == []
    ensures hasHeadRig ==> |actions| == |selected|
    ensures hasHeadRig ==> forall i :: 0 <= i < |selected| ==>
      actions[i] == RevertAction(table.entries, dnaMatrices, heightFactor, selected[i])
  {
    actions := [];
    if !hasHeadRig {
      return;
    }
    var i := 0;
    while i < |selected|
      invariant i <= |selected|
      invariant |actions| == i
      invariant forall j :: 0 <= j < i ==> actions[j] == RevertAction(table.entries, dnaMatrices, heightFactor, selected[j])
    {
      var name := selected[i];
      var extra := LookupExtra(table.entries, name);
      if name == "root" {
        actions := actions + [SetWorldMatrix];
      } else if extra.Some? {
        var e := table.entries[extra.value].1;
        var location := Vec3(e.location.x, e.location.y * heightFactor, e.location.z);
        actions := actions + [SetExtraDefault(RotXPos90(location), e.rotation)];
      } else if name in dnaMatrices {
        actions := actions + [SetDnaMatrix(dnaMatrices[name])];
      } else {
        actions := actions + [Unchanged];
      }
      i := i + 1;
    }
  }
}
