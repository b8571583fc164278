/**
 * Facial animation import (`utilities/action.py`): keyframes written onto a
 * pose bone's fcurve, curve names read from a JSON file, and curves read from
 * the takes of an imported FBX file.
 *
 * Blender's actions are objects the importers change in place, so `Action`,
 * `Armature` and the action library are classes; the name and path mappings
 * are functions.
 */
module ActionUtil {
  import opened Wrappers
  import opened Seqs
  import opened Text
  import opened DnaIo

  // ---------------------------------------------------------------------
  // Keyframes on one bone channel
  // ---------------------------------------------------------------------

  datatype Keyframe = Keyframe(frame: real, value: real)

  /** An fcurve: the property it drives, the component index and its points. */
  datatype FCurve = FCurve(dataPath: string, index: Option<nat>, points: seq<Keyframe>)

  /** The property a curve drives and the factor its values are multiplied by. */
  datatype Target = Target(path: string, scale: real)

  /** World-space controls are scaled down and inverted. */
  const WorldControlScale: real := -0.01

  /**
   * The data-path mapping of `set_keys_on_bone`: no path (or an empty one)
   * means location, unscaled; `rotation` means Euler rotation; any other path
   * is lower-cased; every given path is scaled by `WorldControlScale`.
   */
  function CurveTarget(dataPath: Option<string>): (t: Target)
    ensures dataPath.None? || dataPath == Some("") <==> t == Target("location", 1.0)
    ensures dataPath == Some("rotation") ==> t == Target("rotation_euler", WorldControlScale)
    ensures dataPath.Some? && dataPath.value !in {"", "rotation"}
      ==> t == Target(Lower(dataPath.value), WorldControlScale)
  {
    match dataPath
    case None => Target("location", 1.0)
    case Some(p) =>
      if p == "" then Target("location", 1.0)
      else if p == "rotation" then Target("rotation_euler", WorldControlScale)
      else Target(Lower(p), WorldControlScale)
  }

  /** The component index of an axis letter, in either case. */
  function AxisIndex(axis: string): (i: Option<nat>)
    ensures i.Some? <==> Lower(axis) in {"x", "y", "z"}
    ensures i.Some? ==> i.value < 3
  {
    var a := Lower(axis);
    if a == "x" then Some(0)
    else if a == "y" then Some(1)
    else if a == "z" then Some(2)
    else None
  }

  lemma AxisIndexIgnoresCase(axis: string)
    ensures AxisIndex(axis) == AxisIndex(Lower(axis))
    ensures AxisIndex(Upper(axis)) == AxisIndex(axis)
  {
    LowerIdempotent(axis);
    assert Lower(Upper(axis)) == Lower(axis);
  }

  /** `pose.bones["<bone>"].<path>`: the bone property an fcurve drives. */
  function BonePath(bone: string, path: string): string {
    "pose.bones[\"" + bone + "\"]." + path
  }

  /** The keys, each value multiplied by `scale`. */
  function Scaled(keys: seq<(real, real)>, scale: real): (points: seq<Keyframe>)
    ensures |points| == |keys|
    ensures forall i :: 0 <= i < |keys| ==> points[i] == Keyframe(keys[i].0, keys[i].1 * scale)
  {
    seq(|keys|, i requires 0 <= i < |keys| => Keyframe(keys[i].0, keys[i].1 * scale))
  }

  /** The fcurve `set_keys_on_bone` creates for one bone channel. */
  function KeyedCurve(bone: string, dataPath: Option<string>, axis: string, keys: seq<(real, real)>): FCurve {
    var t := CurveTarget(dataPath);
    FCurve(BonePath(bone, t.path), AxisIndex(axis), Scaled(keys, t.scale))
  }

  /** Location keys keep their values; keys on a named path are scaled and inverted. */
  lemma KeyedCurveValues(bone: string, dataPath: Option<string>, axis: string, keys: seq<(real, real)>)
    ensures |KeyedCurve(bone, dataPath, axis, keys).points| == |keys|
    ensures dataPath.None? ==>
      forall i :: 0 <= i < |keys| ==> KeyedCurve(bone, dataPath, axis, keys).points[i].value == keys[i].1
    ensures dataPath.Some? && dataPath.value != "" ==>
      forall i :: 0 <= i < |keys| ==> KeyedCurve(bone, dataPath, axis, keys).points[i].value * -100.0 == keys[i].1
    ensures forall i :: 0 <= i < |keys| ==> KeyedCurve(bone, dataPath, axis, keys).points[i].frame == keys[i].0
  {
  }

  class Action {
    const name: string
    var fcurves: seq<FCurve>

    constructor(name: string)
      ensures this.name == name && fcurves == []
    {
      this.name := name;
      fcurves := [];
    }

    /**
     * `set_keys_on_bone`: a new fcurve on the bone's channel with one point
     * per key, in order, each at the key's frame with the scaled value.
     */
    method SetKeysOnBone(bone: string, dataPath: Option<string>, axis: string, keys: seq<(real, real)>)
      modifies this
      ensures fcurves == old(fcurves) + [KeyedCurve(bone, dataPath, axis, keys)]
    {
      var target := CurveTarget(dataPath);
      var index := AxisIndex(axis);
      var points := seq(|keys|, _ => Keyframe(0.0, 0.0));
      var i := 0;
      while i < |keys|
        invariant 0 <= i <= |keys| && |points| == |keys|
        invariant forall j :: 0 <= j < i ==> points[j] == Keyframe(keys[j].0, keys[j].1 * target.scale)
      {
        points := points[i := Keyframe(keys[i].0, keys[i].1 * target.scale)];
        i := i + 1;
      }
      assert points == Scaled(keys, target.scale);
      fcurves := fcurves + [FCurve(BonePath(bone, target.path), index, points)];
    }

    method RemoveAllCurves()
      modifies this
      ensures fcurves == []
    {
      fcurves := [];
    }
  }

  /** The armature the imported action is assigned to. */
  class Armature {
    var hasAnimationData: bool
    var action: Action?
    /** The rotation mode of each pose bone. */
    var rotationModes: seq<string>

    constructor(rotationModes: seq<string>)
      ensures !hasAnimationData && action == null && this.rotationModes == rotationModes
    {
      hasAnimationData := false;
      action := null;
      this.rotationModes := rotationModes;
    }

    /** The armature gets animation data, and the action is assigned to it. */
    method AssignAction(action: Action)
      modifies this
      ensures hasAnimationData && this.action == action
      ensures rotationModes == old(rotationModes)
    {
      hasAnimationData := true;
      this.action := action;
    }
  }

  /** `bpy.data.actions`, looked up by name. */
  class ActionLibrary {
    var actions: map<string, Action>

    constructor()
      ensures actions == map[]
    {
      actions := map[];
    }

    /** Each action is stored under its own name. */
    predicate Valid()
      reads this
    {
      forall n :: n in actions ==> actions[n].name == n
    }

    /** `bpy.data.actions.remove` of any action by that name, then `bpy.data.actions.new`. */
    method Recreate(name: string) returns (action: Action)
      requires Valid()
      modifies this
      ensures Valid()
      ensures fresh(action) && action.name == name && action.fcurves == []
      ensures actions == old(actions)[name := action]
    {
      action := new Action(name);
      actions := actions[name := action];
    }
  }

  /** Every pose bone set to Euler XYZ rotation. */
  method UseEulerXyz(armature: Armature)
    modifies armature
    ensures armature.rotationModes == seq(|old(armature.rotationModes)|, _ => "XYZ")
    ensures armature.hasAnimationData == old(armature.hasAnimationData)
    ensures armature.action == old(armature.action)
  {
    var i := 0;
    while i < |armature.rotationModes|
      invariant 0 <= i <= |armature.rotationModes| == |old(armature.rotationModes)|
      invariant forall j :: 0 <= j < i ==> armature.rotationModes[j] == "XYZ"
      invariant armature.hasAnimationData == old(armature.hasAnimationData)
      invariant armature.action == old(armature.action)
    {
      armature.rotationModes := armature.rotationModes[i := "XYZ"];
      i := i + 1;
    }
  }

  // ---------------------------------------------------------------------
  // JSON import
  // ---------------------------------------------------------------------

  /** What a JSON curve name gives: a bone, an optional data path and an axis. */
  datatype CurveArgs = CurveArgs(bone: string, dataPath: Option<string>, axis: string)

  /**
   * The curve-name parsing of `import_action_from_json`: `bone.path.axis`,
   * `bone.axis`, or a bare bone name keyed on Y; any other number of pieces,
   * or an empty bone or axis, does not parse.
   */
  function ParseCurveName(name: string): (r: Option<CurveArgs>)
    ensures r.Some? ==> r.value.bone != "" && r.value.axis != ""
    ensures r.Some? ==> '.' !in r.value.bone && '.' !in r.value.axis
    ensures |Split(name, '.')| > 3 ==> r.None?
    ensures r.Some? && r.value.dataPath.Some? ==>
      name == r.value.bone + "." + r.value.dataPath.value + "." + r.value.axis
    ensures r.Some? && r.value.dataPath.None? && r.value.axis != "Y" ==>
      name == r.value.bone + "." + r.value.axis
  {
    var chunks := Split(name, '.');
    SplitPiecesHaveNoSeparator(name, '.');
    JoinSplit(name, '.');
    var parsed :=
      if |chunks| == 3 then
        assert Join(chunks, ".") == chunks[0] + "." + chunks[1] + "." + chunks[2] by {
          assert chunks[1..][1..] == [chunks[2]];
          assert Join(chunks[1..], ".") == chunks[1] + "." + chunks[2];
        }
        Some(CurveArgs(chunks[0], Some(chunks[1]), chunks[2]))
      else if |chunks| == 2 then
        assert Join(chunks, ".") == chunks[0] + "." + chunks[1];
        Some(CurveArgs(chunks[0], None, chunks[1]))
      else if |chunks| == 1 then
        Some(CurveArgs(name, None, "Y"))
      else None;
    if parsed.Some? && parsed.value.bone != "" && parsed.value.axis != "" then parsed else None
  }

  /** The curve names the JSON exporter writes parse back to their parts. */
  lemma {:induction false} ParseCurveNameRoundTrip(bone: string, path: string, axis: string)
    requires bone != "" && axis != ""
    requires '.' !in bone && '.' !in path && '.' !in axis
    ensures ParseCurveName(bone + "." + path + "." + axis) == Some(CurveArgs(bone, Some(path), axis))
    ensures ParseCurveName(bone + "." + axis) == Some(CurveArgs(bone, None, axis))
    ensures ParseCurveName(bone) == Some(CurveArgs(bone, None, "Y"))
  {
    SplitWithoutSeparator(bone, '.');
    SplitWithoutSeparator(path, '.');
    SplitWithoutSeparator(axis, '.');
    SplitConcat(path, '.', axis);
    SplitConcat(bone, '.', path + "." + axis);
    assert bone + "." + path + "." + axis == bone + ['.'] + (path + ['.'] + axis);
    SplitConcat(bone, '.', axis);
  }

  function ParseFailure(name: string): string {
    "failed to parse args from curve " + name
  }

  /** What the JSON import produces: the fcurves written and the errors logged. */
  datatype JsonImport = JsonImport(fcurves: seq<FCurve>, errors: seq<string>)

  /** The curves of a JSON file, in file order: one fcurve per parsed name, one error per other name. */
  function JsonCurves(entries: seq<(string, seq<(real, real)>)>): (r: JsonImport)
    ensures |r.fcurves| + |r.errors| == |entries|
    decreases |entries|
  {
    if |entries| == 0 then JsonImport([], [])
    else
      var prev := JsonCurves(entries[..|entries| - 1]);
      var (name, keys) := entries[|entries| - 1];
      match ParseCurveName(name)
      case Some(a) => JsonImport(prev.fcurves + [KeyedCurve(a.bone, a.dataPath, a.axis, keys)], prev.errors)
      case None => JsonImport(prev.fcurves, prev.errors + [ParseFailure(name)])
  }

  lemma JsonCurvesSnoc(entries: seq<(string, seq<(real, real)>)>, i: nat)
    requires i < |entries|
    ensures var prev := JsonCurves(entries[..i]);
      JsonCurves(entries[..i + 1]) ==
        match ParseCurveName(entries[i].0)
        case Some(a) => JsonImport(prev.fcurves + [KeyedCurve(a.bone, a.dataPath, a.axis, entries[i].1)], prev.errors)
        case None => JsonImport(prev.fcurves, prev.errors + [ParseFailure(entries[i].0)])
  {
    assert entries[..i + 1][..i] == entries[..i];
  }

  /** Every curve of a file whose names all parse is written, and nothing is logged. */
  lemma {:induction false} JsonCurvesAllParsed(entries: seq<(string, seq<(real, real)>)>)
    requires forall i :: 0 <= i < |entries| ==> ParseCurveName(entries[i].0).Some?
    ensures JsonCurves(entries).errors == []
    ensures |JsonCurves(entries).fcurves| == |entries|
    ensures forall i :: 0 <= i < |entries| ==>
      var a := ParseCurveName(entries[i].0).value;
      JsonCurves(entries).fcurves[i] == KeyedCurve(a.bone, a.dataPath, a.axis, entries[i].1)
    decreases |entries|
  {
    if |entries| > 0 {
      var init := entries[..|entries| - 1];
      JsonCurvesAllParsed(init);
    }
  }

  /** The JSON import's action name: the file name up to its first `.`. */
  function JsonActionName(path: string): (n: string)
    ensures '.' !in n
  {
    SplitPiecesHaveNoSeparator(Basename(path), '.');
    Split(Basename(path), '.')[0]
  }

  lemma JsonActionNameOfFile(folder: string, stem: string, extension: string)
    requires '/' !in stem && '/' !in extension && '.' !in stem
    ensures JsonActionName(folder + "/" + stem + "." + extension) == stem
  {
    var name := stem + "." + extension;
    SplitWithoutSeparator(name, '/');
    SplitConcat(folder, '/', name);
    assert folder + "/" + stem + "." + extension == folder + ['/'] + name;
    SplitConcat(stem, '.', extension);
    SplitWithoutSeparator(stem, '.');
  }

  /** The JSON file's curves written onto the action, in file order. */
  method WriteJsonCurves(action: Action, entries: seq<(string, seq<(real, real)>)>) returns (errors: seq<string>)
    modifies action
    ensures action.fcurves == old(action.fcurves) + JsonCurves(entries).fcurves
    ensures errors == JsonCurves(entries).errors
  {
    errors := [];
    var i := 0;
    while i < |entries|
      invariant 0 <= i <= |entries|
      invariant action.fcurves == old(action.fcurves) + JsonCurves(entries[..i]).fcurves
      invariant errors == JsonCurves(entries[..i]).errors
    {
      JsonCurvesSnoc(entries, i);
      var (curveName, keys) := entries[i];
      var args := ParseCurveName(curveName);
      if args.Some? {
        ghost var done := JsonCurves(entries[..i]).fcurves;
        action.SetKeysOnBone(args.value.bone, args.value.dataPath, args.value.axis, keys);
        AppendAssociative(old(action.fcurves), done, [KeyedCurve(args.value.bone, args.value.dataPath, args.value.axis, keys)]);
      } else {
        errors := errors + [ParseFailure(curveName)];
      }
      i := i + 1;
    }
    assert entries[..i] == entries;
  }

  /**
   * `import_action_from_json`: the action named after the file (reused when
   * the library has one, created otherwise) is emptied and then receives the
   * file's curves in order; every pose bone is switched to Euler XYZ and the
   * action is assigned to the armature. Names that do not parse are logged.
   */
  method ImportActionFromJson(
    library: ActionLibrary, armature: Armature, path: string, entries: seq<(string, seq<(real, real)>)>)
    returns (action: Action, errors: seq<string>)
    requires library.Valid()
    modifies library, armature, library.actions.Values
    ensures library.Valid()
    ensures action.name == JsonActionName(path)
    ensures JsonActionName(path) in old(library.actions) ==> action == old(library.actions)[JsonActionName(path)]
    ensures JsonActionName(path) !in old(library.actions) ==> fresh(action)
    ensures library.actions == old(library.actions)[JsonActionName(path) := action]
    ensures action.fcurves == JsonCurves(entries).fcurves
    ensures errors == JsonCurves(entries).errors
    ensures armature.hasAnimationData && armature.action == action
    ensures armature.rotationModes == seq(|old(armature.rotationModes)|, _ => "XYZ")
    ensures forall a :: a in old(library.actions.Values) && a != action ==> a.fcurves == old(a.fcurves)
  {
    armature.hasAnimationData := true;
    var name := JsonActionName(path);
    if name in library.actions {
      action := library.actions[name];
    } else {
      action := new Action(name);
      library.actions := library.actions[name := action];
    }
    action.RemoveAllCurves();
    UseEulerXyz(armature);
    errors := WriteJsonCurves(action, entries);
    armature.action := action;
  }

  // ---------------------------------------------------------------------
  // FBX import
  // ---------------------------------------------------------------------

  /** The suffix of the takes an Unreal FBX export holds. */
  const TakePostfix: string := "|Unreal Take|Base Layer"

  /** An action present once the FBX file is imported. */
  datatype TakeAction = TakeAction(name: string, fcurves: seq<FCurve>)

  /** The curve name of a take: the action name without the take suffix, up to its first `.`. */
  function FbxCurveName(actionName: string): (n: string)
    ensures '.' !in n
  {
    var stripped := ReplaceAll(actionName, TakePostfix, "");
    SplitPiecesHaveNoSeparator(stripped, '.');
    Split(stripped, '.')[0]
  }

  /** A take named after a curve gives that curve's name back. */
  lemma FbxCurveNameOfTake(curve: string)
    requires '|' !in curve && '.' !in curve
    ensures FbxCurveName(curve + TakePostfix) == curve
  {
    ReplaceAllTrailing(curve, TakePostfix);
    SplitWithoutSeparator(curve, '.');
  }

  /** The axis letter of a component index; indices past z have none. */
  function FbxAxis(index: Option<nat>): (axis: Option<string>)
    ensures axis.Some? <==> index.Some? && index.value < 3
  {
    match index
    case Some(0) => Some("x")
    case Some(1) => Some("y")
    case Some(2) => Some("z")
    case _ => None
  }

  /** The FBX axis letters map back to the component they came from. */
  lemma FbxAxisRoundTrip(index: nat)
    requires index < 3
    ensures AxisIndex(FbxAxis(Some(index)).value) == Some(index)
  {
    assert Lower("x") == "x" && Lower("y") == "y" && Lower("z") == "z";
  }

  /** A curve of the FBX file: curve name, data path and axis letter. */
  type CurveKey = (string, string, Option<string>)

  function PointPairs(points: seq<Keyframe>): (keys: seq<(real, real)>)
    ensures |keys| == |points|
    ensures forall i :: 0 <= i < |points| ==> keys[i] == (points[i].frame, points[i].value)
  {
    seq(|points|, i requires 0 <= i < |points| => (points[i].frame, points[i].value))
  }

  /** The take's fcurves recorded under the curve name, a later fcurve on the same channel winning. */
  function WithTakeCurves(curves: map<CurveKey, seq<(real, real)>>, curve: string, fcurves: seq<FCurve>)
    : (r: map<CurveKey, seq<(real, real)>>)
    ensures forall k :: k in r && k.0 != curve ==> k in curves && r[k] == curves[k]
    ensures forall k :: k in curves ==> k in r
    decreases |fcurves|
  {
    if |fcurves| == 0 then curves
    else
      var f := fcurves[|fcurves| - 1];
      WithTakeCurves(curves, curve, fcurves[..|fcurves| - 1])[(curve, f.dataPath, FbxAxis(f.index)) := PointPairs(f.points)]
  }

  /** The curves with every entry of one curve name dropped. */
  function WithoutCurve(curves: map<CurveKey, seq<(real, real)>>, curve: string): (r: map<CurveKey, seq<(real, real)>>)
    ensures forall k :: k in r <==> k in curves && k.0 != curve
  {
    map k | k in curves && k.0 != curve :: curves[k]
  }

  /**
   * The curves `get_animation_curves_from_fbx` collects from the actions, in
   * order: a take replaces whatever an earlier take of the same curve name
   * recorded; other actions are ignored.
   */
  function FbxCurves(actions: seq<TakeAction>): map<CurveKey, seq<(real, real)>>
    decreases |actions|
  {
    if |actions| == 0 then map[]
    else
      var prev := FbxCurves(actions[..|actions| - 1]);
      var a := actions[|actions| - 1];
      if EndsWith(a.name, TakePostfix) then
        var curve := FbxCurveName(a.name);
        WithTakeCurves(WithoutCurve(prev, curve), curve, a.fcurves)
      else prev
  }

  /** Every collected curve comes from a take whose curve name it carries. */
  lemma {:induction false} FbxCurvesFromTakes(actions: seq<TakeAction>, k: CurveKey)
    requires k in FbxCurves(actions)
    ensures exists i :: 0 <= i < |actions| && EndsWith(actions[i].name, TakePostfix) && FbxCurveName(actions[i].name) == k.0
    decreases |actions|
  {
    var init := actions[..|actions| - 1];
    var a := actions[|actions| - 1];
    if EndsWith(a.name, TakePostfix) && FbxCurveName(a.name) == k.0 {
    } else {
      FbxCurvesFromTakes(init, k);
      var i :| 0 <= i < |init| && EndsWith(init[i].name, TakePostfix) && FbxCurveName(init[i].name) == k.0;
      assert actions[i] == init[i];
    }
  }

  /** The last take of a curve name alone decides that curve's entries: which channels it has and their keyframes. */
  lemma LastTakeWins(actions: seq<TakeAction>, take: TakeAction)
    requires EndsWith(take.name, TakePostfix)
    ensures forall k: CurveKey :: k.0 == FbxCurveName(take.name) ==>
      (k in FbxCurves(actions + [take]) <==> k in WithTakeCurves(map[], k.0, take.fcurves))
    ensures forall k: CurveKey :: k.0 == FbxCurveName(take.name) && k in FbxCurves(actions + [take]) ==>
      FbxCurves(actions + [take])[k] == WithTakeCurves(map[], k.0, take.fcurves)[k]
  {
    var all := actions + [take];
    assert all[..|all| - 1] == actions;
    var curve := FbxCurveName(take.name);
    forall k: CurveKey | k.0 == curve
      ensures k in FbxCurves(all) <==> k in WithTakeCurves(map[], curve, take.fcurves)
      ensures k in FbxCurves(all) ==> FbxCurves(all)[k] == WithTakeCurves(map[], curve, take.fcurves)[k]
    {
      TakeCurvesAgree(WithoutCurve(FbxCurves(actions), curve), map[], curve, take.fcurves, k);
    }
  }

  /** Two starting maps without a channel of the take's curve name record the same entry for it. */
  lemma {:induction false} TakeCurvesAgree(
    c1: map<CurveKey, seq<(real, real)>>, c2: map<CurveKey, seq<(real, real)>>, curve: string, fcurves: seq<FCurve>, k: CurveKey)
    requires k.0 == curve && k !in c1 && k !in c2
    ensures k in WithTakeCurves(c1, curve, fcurves) <==> k in WithTakeCurves(c2, curve, fcurves)
    ensures k in WithTakeCurves(c1, curve, fcurves) ==> WithTakeCurves(c1, curve, fcurves)[k] == WithTakeCurves(c2, curve, fcurves)[k]
    decreases |fcurves|
  {
    if |fcurves| > 0 {
      TakeCurvesAgree(c1, c2, curve, fcurves[..|fcurves| - 1], k);
    }
  }

  /** A channel the take has holds the keyframes of the take's last fcurve on it. */
  lemma {:induction false} TakeCurvesLast(curves: map<CurveKey, seq<(real, real)>>, curve: string, fcurves: seq<FCurve>, i: nat)
    requires i < |fcurves|
    requires forall j :: i < j < |fcurves| ==>
      (fcurves[j].dataPath, FbxAxis(fcurves[j].index)) != (fcurves[i].dataPath, FbxAxis(fcurves[i].index))
    ensures var k := (curve, fcurves[i].dataPath, FbxAxis(fcurves[i].index));
      k in WithTakeCurves(curves, curve, fcurves) && WithTakeCurves(curves, curve, fcurves)[k] == PointPairs(fcurves[i].points)
    decreases |fcurves|
  {
    var init := fcurves[..|fcurves| - 1];
    if i < |fcurves| - 1 {
      assert forall j :: i < j < |init| ==> init[j] == fcurves[j];
      TakeCurvesLast(curves, curve, init, i);
    }
  }

  lemma {:induction false} TakeCurvesKeys(
    curves: map<CurveKey, seq<(real, real)>>, curve: string, fcurves: seq<FCurve>, k: CurveKey)
    requires k.0 == curve && k !in curves
    ensures k in WithTakeCurves(curves, curve, fcurves) <==>
      exists i :: 0 <= i < |fcurves| && k == (curve, fcurves[i].dataPath, FbxAxis(fcurves[i].index))
    decreases |fcurves|
  {
    if |fcurves| > 0 {
      var init := fcurves[..|fcurves| - 1];
      TakeCurvesKeys(curves, curve, init, k);
      if exists i :: 0 <= i < |init| && k == (curve, init[i].dataPath, FbxAxis(init[i].index)) {
        var i :| 0 <= i < |init| && k == (curve, init[i].dataPath, FbxAxis(init[i].index));
        assert fcurves[i] == init[i];
      }
    }
  }

  /** The fcurves of one take, recorded in order. */
  method RecordTake(curves: map<CurveKey, seq<(real, real)>>, curve: string, fcurves: seq<FCurve>)
    returns (r: map<CurveKey, seq<(real, real)>>)
    ensures r == WithTakeCurves(curves, curve, fcurves)
  {
    r := curves;
    var j := 0;
    while j < |fcurves|
      invariant 0 <= j <= |fcurves|
      invariant r == WithTakeCurves(curves, curve, fcurves[..j])
    {
      assert fcurves[..j + 1][..j] == fcurves[..j];
      var f := fcurves[j];
      r := r[(curve, f.dataPath, FbxAxis(f.index)) := PointPairs(f.points)];
      j := j + 1;
    }
    assert fcurves[..j] == fcurves;
  }

  /**
   * `get_animation_curves_from_fbx`, from the actions present once the file
   * is imported; removing the imported objects and actions afterwards is
   * left to the caller.
   */
  method GetAnimationCurvesFromFbx(actions: seq<TakeAction>) returns (curves: map<CurveKey, seq<(real, real)>>)
    ensures curves == FbxCurves(actions)
  {
    curves := map[];
    var i := 0;
    while i < |actions|
      invariant 0 <= i <= |actions|
      invariant curves == FbxCurves(actions[..i])
    {
      assert actions[..i + 1][..i] == actions[..i];
      var a := actions[i];
      if EndsWith(a.name, TakePostfix) {
        var curve := FbxCurveName(a.name);
        curves := WithoutCurve(curves, curve);
        curves := RecordTake(curves, curve, a.fcurves);
      }
      i := i + 1;
    }
    assert actions[..i] == actions;
  }

  /** The fcurve the FBX import writes for one collected curve. */
  function FbxFCurve(k: CurveKey, keys: seq<(real, real)>): FCurve
    requires k.2.Some?
  {
    KeyedCurve(k.0, Some(k.1), k.2.value, keys)
  }

  /** The fcurves the FBX import writes for the curves in `order`, in that order. */
  function FbxFCurves(order: seq<CurveKey>, curves: map<CurveKey, seq<(real, real)>>): (fs: seq<FCurve>)
    requires forall j :: 0 <= j < |order| ==> order[j] in curves && order[j].2.Some?
    ensures |fs| == |order|
    ensures forall j :: 0 <= j < |order| ==> fs[j] == FbxFCurve(order[j], curves[order[j]])
  {
    seq(|order|, j requires 0 <= j < |order| => FbxFCurve(order[j], curves[order[j]]))
  }

  /** Writing one more curve appends its fcurve. */
  lemma FbxFCurvesSnoc(order: seq<CurveKey>, curves: map<CurveKey, seq<(real, real)>>, i: nat)
    requires i < |order|
    requires forall j :: 0 <= j < |order| ==> order[j] in curves
    requires forall j :: 0 <= j <= i ==> order[j].2.Some?
    ensures FbxFCurves(order[..i + 1], curves) == FbxFCurves(order[..i], curves) + [FbxFCurve(order[i], curves[order[i]])]
  {
  }

  /** One fcurve per curve of the dictionary, each carrying that curve's keys, and no other fcurve. */
  predicate OneFCurvePerCurve(fcurves: seq<FCurve>, curves: map<CurveKey, seq<(real, real)>>)
    requires forall k :: k in curves ==> k.2.Some?
  {
    && |fcurves| == |curves|
    && (forall k :: k in curves ==> FbxFCurve(k, curves[k]) in fcurves)
    && (forall f :: f in fcurves ==> exists k :: k in curves && f == FbxFCurve(k, curves[k]))
  }

  /** Every curve listed in `order` has its fcurve among those written for `order`. */
  lemma FbxFCurvesHaveEach(fs: seq<FCurve>, order: seq<CurveKey>, curves: map<CurveKey, seq<(real, real)>>)
    requires forall k :: k in curves ==> k.2.Some? && k in order
    requires |fs| == |order|
    requires forall j :: 0 <= j < |order| ==> order[j] in curves && fs[j] == FbxFCurve(order[j], curves[order[j]])
    ensures forall k :: k in curves ==> FbxFCurve(k, curves[k]) in fs
  {
    forall k | k in curves
      ensures FbxFCurve(k, curves[k]) in fs
    {
      var i :| 0 <= i < |order| && order[i] == k;
      assert fs[i] == FbxFCurve(k, curves[k]);
    }
  }

  /** Every fcurve written for `order` is the fcurve of some curve. */
  lemma FbxFCurvesOnlyCurves(fs: seq<FCurve>, order: seq<CurveKey>, curves: map<CurveKey, seq<(real, real)>>)
    requires |fs| == |order|
    requires forall j :: 0 <= j < |order| ==> order[j] in curves && order[j].2.Some?
    requires forall j :: 0 <= j < |order| ==> fs[j] == FbxFCurve(order[j], curves[order[j]])
    ensures forall f :: f in fs ==> exists k :: k in curves && k.2.Some? && f == FbxFCurve(k, curves[k])
  {
    forall f | f in fs
      ensures exists k :: k in curves && k.2.Some? && f == FbxFCurve(k, curves[k])
    {
      var i :| 0 <= i < |fs| && fs[i] == f;
      assert order[i] in curves && order[i].2.Some? && f == FbxFCurve(order[i], curves[order[i]]);
    }
  }

  /** Writing the curves in any order that lists each once gives one fcurve per curve. */
  lemma FbxFCurvesCover(fs: seq<FCurve>, order: seq<CurveKey>, curves: map<CurveKey, seq<(real, real)>>)
    requires |order| == |curves|
    requires forall k :: k in order <==> k in curves
    requires forall k :: k in curves ==> k.2.Some?
    requires fs == FbxFCurves(order, curves)
    ensures OneFCurvePerCurve(fs, curves)
  {
    FbxFCurvesHaveEach(fs, order, curves);
    FbxFCurvesOnlyCurves(fs, order, curves);
  }

  /** The collected curves in the order the dictionary yields them, each once. */
  method CurveOrder(curves: map<CurveKey, seq<(real, real)>>) returns (order: seq<CurveKey>)
    ensures |order| == |curves|
    ensures forall k :: k in order <==> k in curves
    ensures forall i, j :: 0 <= i < j < |order| ==> order[i] != order[j]
  {
    var remaining := curves.Keys;
    order := [];
    while remaining != {}
      invariant remaining <= curves.Keys
      invariant forall k :: k in order <==> k in curves && k !in remaining
      invariant |order| + |remaining| == |curves|
      invariant forall i, j :: 0 <= i < j < |order| ==> order[i] != order[j]
      decreases |remaining|
    {
      var k :| k in remaining;
      order := order + [k];
      remaining := remaining - {k};
    }
  }

  /**
   * One fcurve per collected curve, in the dictionary's order; a curve
   * without an axis letter stops the writing with an `AttributeError`.
   */
  method WriteFbxCurves(action: Action, curves: map<CurveKey, seq<(real, real)>>)
    returns (err: Option<Exception>, order: seq<CurveKey>)
    modifies action
    ensures |order| == |curves| && forall k :: k in order <==> k in curves
    ensures forall i, j :: 0 <= i < j < |order| ==> order[i] != order[j]
    ensures err.None? <==> forall k :: k in curves ==> k.2.Some?
    ensures err.Some? ==> err.value == AttributeError("lower")
    ensures err.None? ==> action.fcurves == old(action.fcurves) + FbxFCurves(order, curves)
  {
    order := CurveOrder(curves);
    err := None;
    var i := 0;
    while i < |order| && err.None?
      invariant 0 <= i <= |order|
      invariant forall j :: 0 <= j < i ==> order[j].2.Some?
      invariant err.Some? ==> i < |order| && order[i].2.None?
      invariant err.Some? ==> err.value == AttributeError("lower")
      invariant action.fcurves == old(action.fcurves) + FbxFCurves(order[..i], curves)
      decreases |order| - i, if err.None? then 1 else 0
    {
      var k := order[i];
      if k.2.None? {
        err := Some(AttributeError("lower"));
      } else {
        ghost var done := FbxFCurves(order[..i], curves);
        FbxFCurvesSnoc(order, curves, i);
        action.SetKeysOnBone(k.0, Some(k.1), k.2.value, curves[k]);
        AppendAssociative(old(action.fcurves), done, [FbxFCurve(k, curves[k])]);
        i := i + 1;
      }
    }
    if err.None? {
      assert order[..i] == order;
    }
  }

  /**
   * The action named `name` is removed and created anew and receives one
   * fcurve per collected curve; a curve whose component has no axis letter
   * stops the writing with an `AttributeError`.
   */
  method WriteFbxAction(library: ActionLibrary, name: string, curves: map<CurveKey, seq<(real, real)>>)
    returns (err: Option<Exception>, action: Action)
    requires library.Valid()
    modifies library
    ensures library.Valid()
    ensures fresh(action) && action.name == name
    ensures library.actions == old(library.actions)[name := action]
    ensures err.None? <==> forall k :: k in curves ==> k.2.Some?
    ensures err.Some? ==> err.value == AttributeError("lower")
    ensures err.None? ==> OneFCurvePerCurve(action.fcurves, curves)
  {
    action := library.Recreate(name);
    var order;
    err, order := WriteFbxCurves(action, curves);
    if err.None? {
      FbxFCurvesCover(action.fcurves, order, curves);
    }
  }

  /**
   * `import_action_from_fbx`: the action named after the file's stem is
   * removed and created anew, receives one fcurve per collected curve and is
   * assigned to the armature. A curve whose component has no axis letter
   * stops the import with an `AttributeError` before the armature is touched.
   * The order of the curves is not modelled.
   */
  method ImportActionFromFbx(
    library: ActionLibrary, armature: Armature, path: string, actions: seq<TakeAction>)
    returns (err: Option<Exception>, action: Action)
    requires library.Valid()
    modifies library, armature
    ensures library.Valid()
    ensures fresh(action) && action.name == Stem(path)
    ensures library.actions == old(library.actions)[Stem(path) := action]
    ensures err.None? <==> forall k :: k in FbxCurves(actions) ==> k.2.Some?
    ensures err.Some? ==> err.value == AttributeError("lower")
    ensures err.Some? ==> armature.action == old(armature.action) && armature.hasAnimationData == old(armature.hasAnimationData)
    ensures err.None? ==> armature.hasAnimationData && armature.action == action
    ensures err.None? ==> OneFCurvePerCurve(action.fcurves, FbxCurves(actions))
    ensures armature.rotationModes == old(armature.rotationModes)
  {
    var curves := GetAnimationCurvesFromFbx(actions);
    err, action := WriteFbxAction(library, Stem(path), curves);
    if err.None? {
      armature.AssignAction(action);
    }
  }
}
