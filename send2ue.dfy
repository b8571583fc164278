/**
 * The add-on's extension to the Send to Unreal exporter
 * (`resources/send2ue/meta_human_dna_extension.py`): hooks that run around
 * the export of the head mesh to rename its asset, export its LODs one file
 * at a time, validate the Unreal paths first and switch the extension off
 * afterwards.
 *
 * The extension, the window-manager flag, the scene's selection and the
 * exporter's asset data are objects the hooks change in place, so they are
 * classes; the rig-logic instance a hook reads is a value.
 */
module Send2UeExtension {
  import opened Wrappers
  import opened Seqs
  import opened Text
  import opened DnaIo
  import opened Geometry

  /** An entry of the instance's head output list. */
  datatype OutputItem = OutputItem(sceneObject: Option<string>, included: bool, lodIndex: int)

  /** A material slot and the Unreal material instance it maps to. */
  datatype SlotMapping = SlotMapping(name: string, assetPath: string)

  /** The fields of the active rig-logic instance the hooks read. */
  datatype Instance = Instance(
    name: string,
    headMesh: Option<string>,
    headRig: string,
    headMaterial: Option<string>,
    outputFolder: string,
    contentFolder: string,
    outputHeadItems: seq<OutputItem>,
    blueprintPath: string,
    controlRigPath: string,
    animBpPath: string,
    levelSequencePath: string,
    copyAssets: bool,
    materialSlots: seq<SlotMapping>)

  /** The extension's own properties. */
  class MetaHumanDna {
    var enabled: bool
    var meshObjectName: string
    var assetPath: string

    constructor()
      ensures !enabled && meshObjectName == "" && assetPath == ""
    {
      enabled := false;
      meshObjectName := "";
      assetPath := "";
    }
  }

  /** The add-on's window-manager properties the hooks switch. */
  class WindowManager {
    var evaluateDependencyGraph: bool

    constructor()
      ensures evaluateDependencyGraph
    {
      evaluateDependencyGraph := true;
    }
  }

  /** The scene objects by name, their selection and visibility, and the files exported so far. */
  class Scene {
    const objects: set<string>
    var selected: set<string>
    var hidden: set<string>
    /** Each LOD export: the LOD index and the objects selected for it. */
    var exports: seq<(int, set<string>)>

    constructor(objects: set<string>, hidden: set<string>)
      ensures this.objects == objects && this.hidden == hidden && selected == {} && exports == []
    {
      this.objects := objects;
      this.hidden := hidden;
      selected := {};
      exports := [];
    }
  }

  /** The exporter's data for the asset being sent. */
  class AssetData {
    /** `_mesh_object_name`, when the exporter set it. */
    var meshObjectName: Option<string>
    var filePath: string
    var assetFolder: string
    var assetPath: string
    var lods: map<string, string>
    var skip: bool

    constructor(meshObjectName: Option<string>, filePath: string)
      ensures this.meshObjectName == meshObjectName && this.filePath == filePath
      ensures assetFolder == "" && assetPath == "" && lods == map[] && !skip
    {
      this.meshObjectName := meshObjectName;
      this.filePath := filePath;
      assetFolder := "";
      assetPath := "";
      lods := map[];
      skip := false;
    }
  }

  // ---------------------------------------------------------------------
  // pre_operation
  // ---------------------------------------------------------------------

  datatype PoseBone = PoseBone(name: string, isLeaf: bool, location: Vec3)

  /** The face board's pose bones. */
  class FaceBoard {
    var bones: seq<PoseBone>

    constructor(bones: seq<PoseBone>)
      ensures this.bones == bones
    {
      this.bones := bones;
    }
  }

  /** A control is reset when it is a leaf bone named `CTRL_…`. */
  predicate IsControl(b: PoseBone) {
    b.isLeaf && StartsWith(b.name, "CTRL_")
  }

  function Neutral(b: PoseBone): (r: PoseBone)
    ensures r.name == b.name && r.isLeaf == b.isLeaf
    ensures IsControl(b) ==> r.location == Zero
    ensures !IsControl(b) ==> r == b
  {
    if IsControl(b) then b.(location := Zero) else b
  }

  lemma NeutralIdempotent(b: PoseBone)
    ensures Neutral(Neutral(b)) == Neutral(b)
  {
  }

  /**
   * `pre_operation`: dependency-graph evaluation is switched off and, when
   * there is an active instance, every face-board control is put back at
   * the origin. `instance` is None without an active instance, and otherwise
   * holds the instance's face board (null when it has none, where reading
   * its pose raises). Re-evaluating the rig is not part of this model.
   */
  method PreOperation(wm: WindowManager, instance: Option<FaceBoard?>) returns (err: Option<Exception>)
    modifies wm, if instance.Some? then instance.value else null
    ensures !wm.evaluateDependencyGraph
    ensures err.Some? <==> instance.Some? && instance.value == null
    ensures err.Some? ==> err.value == AttributeError("pose")
    ensures instance.Some? && instance.value != null ==>
      var board := instance.value;
      && |board.bones| == |old(board.bones)|
      && forall i :: 0 <= i < |board.bones| ==> board.bones[i] == Neutral(old(board.bones)[i])
  {
    wm.evaluateDependencyGraph := false;
    err := None;
    if instance.Some? {
      var faceBoard := instance.value;
      if faceBoard == null {
        return Some(AttributeError("pose"));
      }
      var i := 0;
      while i < |faceBoard.bones|
        invariant 0 <= i <= |faceBoard.bones| == |old(faceBoard.bones)|
        invariant forall j :: 0 <= j < i ==> faceBoard.bones[j] == Neutral(old(faceBoard.bones)[j])
        invariant forall j :: i <= j < |faceBoard.bones| ==> faceBoard.bones[j] == old(faceBoard.bones)[j]
        invariant !wm.evaluateDependencyGraph
      {
        if IsControl(faceBoard.bones[i]) {
          faceBoard.bones := faceBoard.bones[i := faceBoard.bones[i].(location := Zero)];
        }
        i := i + 1;
      }
    }
  }

  // ---------------------------------------------------------------------
  // pre_validations
  // ---------------------------------------------------------------------

  /** The instance's asset-path properties, in the order they are validated. */
  const AssetPathProperties: seq<string> :=
    ["unreal_blueprint_asset_path", "unreal_face_control_rig_asset_path", "unreal_face_anim_bp_asset_path"]

  /** The first formatting error of a sequence of checks. */
  function FirstError(errors: seq<Option<string>>): (r: Option<string>)
    ensures r.None? <==> forall i :: 0 <= i < |errors| ==> errors[i].None?
    ensures r.Some? ==> r in errors
    decreases |errors|
  {
    if |errors| == 0 then None
    else if errors[0].Some? then errors[0]
    else FirstError(errors[1..])
  }

  /** An error after only passing checks is the first error. */
  lemma {:induction false} FirstErrorAt(errors: seq<Option<string>>, i: nat)
    requires i < |errors| && errors[i].Some?
    requires forall j :: 0 <= j < i ==> errors[j].None?
    ensures FirstError(errors) == errors[i]
    decreases i
  {
    if i > 0 {
      FirstErrorAt(errors[1..], i - 1);
    }
  }

  lemma {:induction false} FirstErrorAppend(a: seq<Option<string>>, b: seq<Option<string>>)
    ensures FirstError(a + b) == if FirstError(a).Some? then FirstError(a) else FirstError(b)
    decreases |a|
  {
    if |a| > 0 {
      assert (a + b)[1..] == a[1..] + b;
      FirstErrorAppend(a[1..], b);
    } else {
      assert a + b == b;
    }
  }

  /** Checks the errors in order and returns the first. */
  method ScanErrors(errors: seq<Option<string>>) returns (r: Option<string>)
    ensures r == FirstError(errors)
  {
    r := None;
    var i := 0;
    while i < |errors| && r.None?
      invariant 0 <= i <= |errors|
      invariant forall j :: 0 <= j < i ==> errors[j].None?
      invariant r.Some? ==> i < |errors| && r == errors[i]
      decreases |errors| - i, if r.None? then 1 else 0
    {
      if errors[i].Some? {
        r := errors[i];
      } else {
        i := i + 1;
      }
    }
    if r.Some? {
      FirstErrorAt(errors, i);
    }
  }

  /**
   * `pre_validations`: with the extension enabled and an instance that has a
   * head mesh, the content folder, then the three asset paths, then every
   * material slot's path are checked, and the first formatting error is
   * reported and stops the export. The formatter's own result for each check
   * is a parameter: `folderError`, `assetErrors` in the order of
   * `AssetPathProperties`, and `slotErrors` in the order of the slots.
   */
  method PreValidations(
    ext: MetaHumanDna, instance: Option<Instance>,
    folderError: Option<string>, assetErrors: seq<Option<string>>, slotErrors: seq<Option<string>>)
    returns (ok: bool, reported: Option<string>)
    requires |assetErrors| == |AssetPathProperties|
    requires instance.Some? ==> |slotErrors| == |instance.value.materialSlots|
    ensures var checked := ext.enabled && instance.Some? && instance.value.headMesh.Some?;
      reported == (if checked then FirstError([folderError] + assetErrors + slotErrors) else None)
    ensures ok <==> reported.None?
  {
    ok := true;
    reported := None;
    if ext.enabled && instance.Some? && instance.value.headMesh.Some? {
      FirstErrorAppend([folderError], assetErrors);
      FirstErrorAppend([folderError] + assetErrors, slotErrors);
      if folderError.Some? {
        reported := folderError;
      } else {
        reported := ScanErrors(assetErrors);
        if reported.None? {
          reported := ScanErrors(slotErrors);
        }
      }
      ok := reported.None?;
    }
  }

  // ---------------------------------------------------------------------
  // pre_mesh_export
  // ---------------------------------------------------------------------

  /** The exported mesh is the instance's head mesh (an unknown name reads as no object). */
  predicate IsHeadMesh(instance: Option<Instance>, meshObjectName: string, objects: set<string>) {
    instance.Some? && instance.value.headMesh == (if meshObjectName in objects then Some(meshObjectName) else None)
  }

  /** The scene objects of included output items whose LOD index is in `lods`. */
  function Chosen(items: seq<OutputItem>, lods: set<int>): (r: set<string>)
    ensures forall o :: o in r <==>
      exists i :: 0 <= i < |items| && items[i].sceneObject == Some(o) && items[i].included && items[i].lodIndex in lods
    decreases |items|
  {
    if |items| == 0 then {}
    else
      var prev := Chosen(items[..|items| - 1], lods);
      var it := items[|items| - 1];
      assert forall i :: 0 <= i < |items| - 1 ==> items[..|items| - 1][i] == items[i];
      if it.sceneObject.Some? && it.included && it.lodIndex in lods then prev + {it.sceneObject.value} else prev
  }

  /** Every chosen object is made visible and selected. */
  method SelectItems(scene: Scene, items: seq<OutputItem>, lods: set<int>)
    modifies scene
    ensures scene.selected == old(scene.selected) + Chosen(items, lods)
    ensures scene.hidden == old(scene.hidden) - Chosen(items, lods)
    ensures scene.exports == old(scene.exports)
  {
    var i := 0;
    while i < |items|
      invariant 0 <= i <= |items|
      invariant scene.selected == old(scene.selected) + Chosen(items[..i], lods)
      invariant scene.hidden == old(scene.hidden) - Chosen(items[..i], lods)
      invariant scene.exports == old(scene.exports)
    {
      assert items[..i + 1][..i] == items[..i];
      var it := items[i];
      if it.sceneObject.Some? && it.included && it.lodIndex in lods {
        scene.hidden := scene.hidden - {it.sceneObject.value};
        scene.selected := scene.selected + {it.sceneObject.value};
      }
      i := i + 1;
    }
    assert items[..i] == items;
  }

  /** The non-empty pieces of a `/`-separated path. */
  function Segments(pieces: seq<string>): (r: seq<string>)
    ensures forall i :: 0 <= i < |r| ==> r[i] != "" && r[i] in pieces
    decreases |pieces|
  {
    if |pieces| == 0 then []
    else (if pieces[0] != "" then [pieces[0]] else []) + Segments(pieces[1..])
  }

  lemma {:induction false} SegmentsAppend(a: seq<string>, b: seq<string>)
    ensures Segments(a + b) == Segments(a) + Segments(b)
    decreases |a|
  {
    if |a| > 0 {
      assert (a + b)[1..] == a[1..] + b;
      SegmentsAppend(a[1..], b);
    } else {
      assert a + b == b;
    }
  }

  lemma {:induction false} SegmentsOfSegments(pieces: seq<string>)
    requires forall i :: 0 <= i < |pieces| ==> pieces[i] != ""
    ensures Segments(pieces) == pieces
    decreases |pieces|
  {
    if |pieces| > 0 {
      SegmentsOfSegments(pieces[1..]);
      assert [pieces[0]] + pieces[1..] == pieces;
    }
  }

  /**
   * The Unreal folder of the exported asset: the content folder's non-empty
   * segments between a leading and a trailing `/`; an empty folder gives `//`.
   */
  function AssetFolder(contentFolder: string): string {
    "/" + Join(Segments(Split(contentFolder, '/')), "/") + "/"
  }

  /** The pieces of a normalised folder: its segments between two empty ends. */
  lemma AssetFolderPieces(segs: seq<string>)
    ensures Split("/" + Join(segs, "/") + "/", '/') == [""] + Split(Join(segs, "/"), '/') + [""]
  {
    var joined := Join(segs, "/");
    assert "/" + joined + "/" == "" + ['/'] + (joined + ['/'] + "");
    SplitConcat("", '/', joined + ['/'] + "");
    SplitConcat(joined, '/', "");
  }

  lemma SegmentsOfFolderPieces(segs: seq<string>)
    requires forall i :: 0 <= i < |segs| ==> segs[i] != "" && '/' !in segs[i]
    ensures Segments([""] + Split(Join(segs, "/"), '/') + [""]) == segs
  {
    var pieces := Split(Join(segs, "/"), '/');
    SegmentsAppend([""] + pieces, [""]);
    SegmentsAppend([""], pieces);
    if |segs| == 0 {
      assert pieces == [""];
    } else {
      SplitJoin(segs, '/');
      SegmentsOfSegments(segs);
    }
  }

  /** Normalising a folder that is already normalised changes nothing. */
  lemma AssetFolderIdempotent(contentFolder: string)
    ensures AssetFolder(AssetFolder(contentFolder)) == AssetFolder(contentFolder)
  {
    var segs := Segments(Split(contentFolder, '/'));
    SplitPiecesHaveNoSeparator(contentFolder, '/');
    assert forall i :: 0 <= i < |segs| ==> segs[i] != "" && '/' !in segs[i];
    AssetFolderPieces(segs);
    SegmentsOfFolderPieces(segs);
  }

  /** The export file: `<output folder>/export/<instance name><extension>`. */
  function ExportFilePath(instance: Instance, extension: string): string {
    instance.outputFolder + "/export/" + instance.name + extension
  }

  /**
   * `pre_mesh_export`: for the head mesh only, the selection becomes the
   * included output items of LOD 0 or without a LOD (made visible), and the
   * asset is renamed after the instance: its file, its Unreal folder and its
   * Unreal asset path.
   */
  method PreMeshExport(ext: MetaHumanDna, asset: AssetData, scene: Scene, instance: Option<Instance>)
    modifies asset, scene
    ensures var proceed := ext.enabled && IsHeadMesh(instance, old(asset.meshObjectName).GetOr(""), scene.objects);
      !proceed ==> unchanged(asset) && unchanged(scene)
    ensures var proceed := ext.enabled && IsHeadMesh(instance, old(asset.meshObjectName).GetOr(""), scene.objects);
      proceed ==>
        var inst := instance.value;
        && scene.selected == Chosen(inst.outputHeadItems, {-1, 0})
        && scene.hidden == old(scene.hidden) - Chosen(inst.outputHeadItems, {-1, 0})
        && scene.exports == old(scene.exports)
        && asset.filePath == ExportFilePath(inst, Extension(old(asset.filePath)))
        && asset.assetFolder == AssetFolder(inst.contentFolder)
        && asset.assetPath == AssetFolder(inst.contentFolder) + inst.name
        && asset.lods == old(asset.lods) && asset.skip == old(asset.skip)
        && asset.meshObjectName == old(asset.meshObjectName)
  {
    if ext.enabled && IsHeadMesh(instance, asset.meshObjectName.GetOr(""), scene.objects) {
      var inst := instance.value;
      scene.selected := {};
      SelectItems(scene, inst.outputHeadItems, {-1, 0});
      var extension := Extension(asset.filePath);
      var folder := AssetFolder(inst.contentFolder);
      asset.assetFolder := folder;
      asset.filePath := ExportFilePath(inst, extension);
      asset.assetPath := folder + inst.name;
    }
  }

  /** `post_mesh_export`: the exporter skips its own LOD export when the asset has LOD files. */
  method PostMeshExport(ext: MetaHumanDna, asset: AssetData)
    modifies asset
    ensures asset.skip == (if ext.enabled && |old(asset.lods)| > 0 then true else old(asset.skip))
    ensures asset.lods == old(asset.lods) && asset.filePath == old(asset.filePath)
    ensures asset.assetPath == old(asset.assetPath) && asset.assetFolder == old(asset.assetFolder)
    ensures asset.meshObjectName == old(asset.meshObjectName)
  {
    if ext.enabled && |asset.lods| > 0 {
      asset.skip := true;
    }
  }

  // ---------------------------------------------------------------------
  // pre_import
  // ---------------------------------------------------------------------

  /** The LOD indices of the included output items, first-seen order, each once, without 0 and -1. */
  function LodOrder(items: seq<OutputItem>): (order: seq<int>)
    ensures forall k :: 0 <= k < |order| ==> order[k] != 0 && order[k] != -1
    ensures forall j, k :: 0 <= j < k < |order| ==> order[j] != order[k]
    decreases |items|
  {
    if |items| == 0 then []
    else
      var prev := LodOrder(items[..|items| - 1]);
      var it := items[|items| - 1];
      if it.sceneObject.Some? && it.included && it.lodIndex != 0 && it.lodIndex != -1 && it.lodIndex !in prev
      then prev + [it.lodIndex]
      else prev
  }

  /** A LOD index is listed exactly when some included item with an object has it. */
  lemma {:induction false} LodOrderMembers(items: seq<OutputItem>, lod: int)
    ensures lod in LodOrder(items) <==>
      lod != 0 && lod != -1 &&
      exists i :: 0 <= i < |items| && items[i].sceneObject.Some? && items[i].included && items[i].lodIndex == lod
    decreases |items|
  {
    if |items| > 0 {
      var init := items[..|items| - 1];
      LodOrderMembers(init, lod);
      assert forall i :: 0 <= i < |init| ==> init[i] == items[i];
    }
  }

  /** The LODs seen in a prefix of the list come first, in the same order. */
  lemma {:induction false} LodOrderFirstSeen(items: seq<OutputItem>, n: nat)
    requires n <= |items|
    ensures LodOrder(items[..n]) <= LodOrder(items)
    decreases |items| - n
  {
    if n < |items| {
      LodOrderFirstSeen(items, n + 1);
      assert items[..n + 1][..n] == items[..n];
    } else {
      assert items[..n] == items;
    }
  }

  function IntToString(i: int): string {
    if i < 0 then "-" + NatToString(-i) else NatToString(i)
  }

  /** `<folder>/<stem>_lod<i>_mesh.fbx`, beside the main file, for the LOD index written as `index`. */
  function LodFilePath(mainFile: string, index: string): string {
    SiblingPath(mainFile, Stem(mainFile) + "_lod" + index + "_mesh.fbx")
  }

  /** The LOD indices of `order`, as text. */
  function LodKeys(order: seq<int>): (keys: set<string>)
    ensures forall k :: 0 <= k < |order| ==> IntToString(order[k]) in keys
    ensures forall key :: key in keys ==> exists k :: 0 <= k < |order| && key == IntToString(order[k])
  {
    set lod | lod in order :: IntToString(lod)
  }

  /** The `lods` entries for the LODs in order, keyed by the index as text. */
  function LodFiles(mainFile: string, order: seq<int>): (lods: map<string, string>)
    ensures lods.Keys == LodKeys(order)
    ensures forall key :: key in lods ==> lods[key] == LodFilePath(mainFile, key)
  {
    map key | key in LodKeys(order) :: LodFilePath(mainFile, key)
  }

  /** One more LOD adds (or rewrites) its own entry and keeps the others. */
  lemma LodFilesAppend(mainFile: string, order: seq<int>, lod: int)
    ensures LodFiles(mainFile, order + [lod]) ==
      LodFiles(mainFile, order)[IntToString(lod) := LodFilePath(mainFile, IntToString(lod))]
  {
    assert LodKeys(order + [lod]) == LodKeys(order) + {IntToString(lod)};
  }

  /** The LOD indices and their files, collected in one pass over the output list. */
  method CollectLods(items: seq<OutputItem>, mainFile: string) returns (order: seq<int>, lods: map<string, string>)
    ensures order == LodOrder(items)
    ensures lods == LodFiles(mainFile, order)
  {
    order := [];
    lods := map[];
    var i := 0;
    while i < |items|
      invariant 0 <= i <= |items|
      invariant order == LodOrder(items[..i])
      invariant lods == LodFiles(mainFile, order)
    {
      assert items[..i + 1][..i] == items[..i];
      var it := items[i];
      if it.sceneObject.Some? && it.included {
        var lod := it.lodIndex;
        if lod != 0 && lod != -1 && lod !in order {
          assert (order + [lod])[..|order|] == order;
          LodFilesAppend(mainFile, order, lod);
          order := order + [lod];
          lods := lods[IntToString(lod) := LodFilePath(mainFile, IntToString(lod))];
        }
      }
      i := i + 1;
    }
    assert items[..i] == items;
  }

  /** One export per LOD other than 0: the LOD's objects and the head rig selected. */
  function LodExports(items: seq<OutputItem>, headRig: string, order: seq<int>): seq<(int, set<string>)>
    decreases |order|
  {
    if |order| == 0 then []
    else
      var prev := LodExports(items, headRig, order[..|order| - 1]);
      var lod := order[|order| - 1];
      if lod == 0 then prev else prev + [(lod, Chosen(items, {lod}) + {headRig})]
  }

  /** For the LODs of an output list, exactly one export per LOD, in order. */
  lemma {:induction false} LodExportsOfOutput(items: seq<OutputItem>, headRig: string, order: seq<int>)
    requires forall k :: 0 <= k < |order| ==> order[k] != 0
    ensures |LodExports(items, headRig, order)| == |order|
    ensures forall k :: 0 <= k < |order| ==>
      LodExports(items, headRig, order)[k] == (order[k], Chosen(items, {order[k]}) + {headRig})
    decreases |order|
  {
    if |order| > 0 {
      var init := order[..|order| - 1];
      LodExportsOfOutput(items, headRig, init);
    }
  }

  /** Everything some LOD export made visible. */
  function Exported(items: seq<OutputItem>, headRig: string, order: seq<int>): set<string>
    decreases |order|
  {
    if |order| == 0 then {}
    else
      var prev := Exported(items, headRig, order[..|order| - 1]);
      var lod := order[|order| - 1];
      if lod == 0 then prev else prev + Chosen(items, {lod}) + {headRig}
  }

  lemma LodExportsSnoc(items: seq<OutputItem>, headRig: string, order: seq<int>, i: nat)
    requires i < |order|
    ensures LodExports(items, headRig, order[..i + 1]) ==
      if order[i] == 0 then LodExports(items, headRig, order[..i])
      else LodExports(items, headRig, order[..i]) + [(order[i], Chosen(items, {order[i]}) + {headRig})]
    ensures Exported(items, headRig, order[..i + 1]) ==
      if order[i] == 0 then Exported(items, headRig, order[..i])
      else Exported(items, headRig, order[..i]) + Chosen(items, {order[i]}) + {headRig}
  {
    assert order[..i + 1][..i] == order[..i];
  }

  /** One LOD export: only the LOD's objects and the head rig selected and visible, then exported. */
  method ExportLod(scene: Scene, items: seq<OutputItem>, headRig: string, lod: int)
    modifies scene
    ensures scene.selected == Chosen(items, {lod}) + {headRig}
    ensures scene.hidden == old(scene.hidden) - (Chosen(items, {lod}) + {headRig})
    ensures scene.exports == old(scene.exports) + [(lod, Chosen(items, {lod}) + {headRig})]
  {
    scene.selected := {};
    SelectItems(scene, items, {lod});
    scene.hidden := scene.hidden - {headRig};
    scene.selected := scene.selected + {headRig};
    scene.exports := scene.exports + [(lod, scene.selected)];
  }

  /** The LOD files exported one after the other. */
  method ExportLods(scene: Scene, items: seq<OutputItem>, headRig: string, order: seq<int>)
    modifies scene
    ensures scene.exports == old(scene.exports) + LodExports(items, headRig, order)
    ensures scene.hidden == old(scene.hidden) - Exported(items, headRig, order)
    ensures |order| > 0 && order[|order| - 1] != 0 ==>
      scene.selected == Chosen(items, {order[|order| - 1]}) + {headRig}
  {
    var i := 0;
    while i < |order|
      invariant 0 <= i <= |order|
      invariant scene.exports == old(scene.exports) + LodExports(items, headRig, order[..i])
      invariant scene.hidden == old(scene.hidden) - Exported(items, headRig, order[..i])
      invariant i > 0 && order[i - 1] != 0 ==> scene.selected == Chosen(items, {order[i - 1]}) + {headRig}
    {
      var lod := order[i];
      LodExportsSnoc(items, headRig, order, i);
      if lod != 0 {
        ghost var done := LodExports(items, headRig, order[..i]);
        ExportLod(scene, items, headRig, lod);
        AppendAssociative(old(scene.exports), done, [(lod, Chosen(items, {lod}) + {headRig})]);
      }
      i := i + 1;
    }
    assert order[..i] == order;
  }

  /**
   * `pre_import`: for the head mesh only, the asset's `lods` become one file
   * per LOD index of the output list (other than 0 and -1), `skip` is reset,
   * and each of those LODs is exported with its objects and the head rig
   * selected.
   */
  method PreImport(ext: MetaHumanDna, asset: AssetData, scene: Scene, instance: Option<Instance>)
    modifies asset, scene
    ensures var proceed := ext.enabled && IsHeadMesh(instance, old(asset.meshObjectName).GetOr(""), scene.objects);
      !proceed ==> unchanged(asset) && unchanged(scene)
    ensures var proceed := ext.enabled && IsHeadMesh(instance, old(asset.meshObjectName).GetOr(""), scene.objects);
      proceed ==>
        var inst := instance.value;
        var order := LodOrder(inst.outputHeadItems);
        && asset.lods == LodFiles(old(asset.filePath), order)
        && !asset.skip
        && asset.filePath == old(asset.filePath) && asset.assetPath == old(asset.assetPath)
        && asset.assetFolder == old(asset.assetFolder) && asset.meshObjectName == old(asset.meshObjectName)
        && scene.exports == old(scene.exports) + LodExports(inst.outputHeadItems, inst.headRig, order)
        && scene.hidden == old(scene.hidden) - Exported(inst.outputHeadItems, inst.headRig, order)
  {
    if ext.enabled && IsHeadMesh(instance, asset.meshObjectName.GetOr(""), scene.objects) {
      var inst := instance.value;
      var order, lods := CollectLods(inst.outputHeadItems, asset.filePath);
      asset.lods := lods;
      asset.skip := false;
      ExportLods(scene, inst.outputHeadItems, inst.headRig, order);
    }
  }

  /** `post_import`: the imported mesh and its asset path are remembered for `post_operation`. */
  method PostImport(ext: MetaHumanDna, asset: AssetData)
    modifies ext
    ensures ext.enabled == old(ext.enabled)
    ensures ext.enabled ==> ext.meshObjectName == asset.meshObjectName.GetOr("") && ext.assetPath == asset.assetPath
    ensures !ext.enabled ==> ext.meshObjectName == old(ext.meshObjectName) && ext.assetPath == old(ext.assetPath)
  {
    if ext.enabled {
      ext.meshObjectName := asset.meshObjectName.GetOr("");
      ext.assetPath := asset.assetPath;
    }
  }

  // ---------------------------------------------------------------------
  // post_operation
  // ---------------------------------------------------------------------

  /** The arguments of the remote face update sent to Unreal. */
  datatype RemoteUpdate = RemoteUpdate(
    assetPath: string,
    dnaPath: string,
    materialName: string,
    controlRigPath: string,
    animBpPath: string,
    blueprintPath: string,
    levelSequencePath: string,
    copyAssets: bool,
    materials: map<string, string>)

  /** No slot after position `i` has the name of slot `i`. */
  predicate LastOfName(slots: seq<SlotMapping>, i: nat)
    requires i < |slots|
  {
    forall j :: i < j < |slots| ==> slots[j].name != slots[i].name
  }

  /** Material slot name to material instance path; a later slot of the same name wins. */
  function SlotPaths(slots: seq<SlotMapping>): (m: map<string, string>)
    ensures forall i :: 0 <= i < |slots| ==> slots[i].name in m
    ensures forall name :: name in m ==> exists i :: 0 <= i < |slots| && slots[i].name == name && m[name] == slots[i].assetPath
    decreases |slots|
  {
    if |slots| == 0 then map[]
    else
      var init := slots[..|slots| - 1];
      assert forall i :: 0 <= i < |init| ==> init[i] == slots[i];
      SlotPaths(init)[slots[|slots| - 1].name := slots[|slots| - 1].assetPath]
  }

  /** For a repeated slot name the dictionary holds the path of its last slot. */
  lemma {:induction false} SlotPathsLastWins(slots: seq<SlotMapping>, i: nat)
    requires i < |slots| && LastOfName(slots, i)
    ensures SlotPaths(slots)[slots[i].name] == slots[i].assetPath
    decreases |slots|
  {
    var init := slots[..|slots| - 1];
    if i < |init| {
      assert slots[|slots| - 1].name != slots[i].name;
      assert forall j :: 0 <= j < |init| ==> init[j] == slots[j];
      SlotPathsLastWins(init, i);
    }
  }

  /** The update sent for the instance after the import. */
  function FaceUpdate(assetPath: string, inst: Instance): (u: RemoteUpdate)
    ensures u.dnaPath == inst.outputFolder + "/export/" + inst.name + ".dna"
    ensures u.materialName == inst.headMaterial.GetOr("")
  {
    RemoteUpdate(
      assetPath, ExportFilePath(inst, ".dna"), inst.headMaterial.GetOr(""),
      inst.controlRigPath, inst.animBpPath, inst.blueprintPath, inst.levelSequencePath,
      inst.copyAssets, SlotPaths(inst.materialSlots))
  }

  /**
   * `post_operation` as written: the head material is read from the active
   * instance before the check that there is one, so with the extension
   * enabled and no active instance the hook raises, and the two lines that
   * switch the extension off and dependency-graph evaluation back on are
   * never reached.
   */
  method PostOperationAsWritten(
    ext: MetaHumanDna, wm: WindowManager, instance: Option<Instance>, objects: set<string>)
    returns (err: Option<Exception>, update: Option<RemoteUpdate>)
    modifies ext, wm
    ensures err.Some? <==> old(ext.enabled) && instance.None?
    ensures err.Some? ==> err.value == AttributeError("head_material")
    ensures err.Some? ==> ext.enabled && wm.evaluateDependencyGraph == old(wm.evaluateDependencyGraph)
    ensures err.None? ==> !ext.enabled && wm.evaluateDependencyGraph
    ensures err.None? ==>
      (update == if old(ext.enabled) && IsHeadMesh(instance, old(ext.meshObjectName), objects)
                 then Some(FaceUpdate(old(ext.assetPath), instance.value)) else None)
  {
    err := None;
    update := None;
    if ext.enabled {
      if instance.None? {
        err := Some(AttributeError("head_material"));
      } else if IsHeadMesh(instance, ext.meshObjectName, objects) {
        update := Some(FaceUpdate(ext.assetPath, instance.value));
      }
    }
    if err.None? {
      ext.enabled := false;
      wm.evaluateDependencyGraph := true;
    }
  }

  /**
   * `post_operation` with the instance checked before it is read: the face
   * update is sent when the enabled extension exported the head mesh, and the
   * extension always ends switched off with dependency-graph evaluation on.
   */
  method PostOperation(ext: MetaHumanDna, wm: WindowManager, instance: Option<Instance>, objects: set<string>)
    returns (update: Option<RemoteUpdate>)
    modifies ext, wm
    ensures !ext.enabled && wm.evaluateDependencyGraph
    ensures update ==
      (if old(ext.enabled) && IsHeadMesh(instance, old(ext.meshObjectName), objects)
       then Some(FaceUpdate(old(ext.assetPath), instance.value)) else None)
    ensures ext.meshObjectName == old(ext.meshObjectName) && ext.assetPath == old(ext.assetPath)
  {
    update := None;
    if ext.enabled && IsHeadMesh(instance, ext.meshObjectName, objects) {
      update := Some(FaceUpdate(ext.assetPath, instance.value));
    }
    ext.enabled := false;
    wm.evaluateDependencyGraph := true;
  }
}
