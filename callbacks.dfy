/**
 * The property callbacks of the add-on's panels: the active rig-logic
 * instance, the topology-group dropdowns, LOD visibility, the material
 * preview switch, the copied-instance name, the Send to Unreal template list
 * and the head LOD dropdown.
 */
module Callbacks {
  import opened Wrappers
  import opened Seqs
  import opened Text
  import opened DnaIo
  import opened Operators

  // ---------------------------------------------------------------------
  // The active rig-logic instance
  // ---------------------------------------------------------------------

  /**
   * `get_active_rig_logic`: nothing for an empty list, otherwise the entry
   * at the active index, read with Python indexing (negative counts from the
   * end; an index outside the list fails).
   */
  function ActiveRigLogic<T>(items: seq<T>, activeIndex: int): (r: Result<Option<T>, Exception>)
    ensures r == Ok(None) <==> |items| == 0
    ensures r.Err? <==> |items| > 0 && !(-|items| <= activeIndex < |items|)
    ensures r.Err? ==> r.error == IndexError(activeIndex)
    ensures 0 <= activeIndex < |items| ==> r == Ok(Some(items[activeIndex]))
    ensures r.Ok? && r.value.Some? ==> r.value.value in items
  {
    if |items| == 0 then Ok(None)
    else if -|items| <= activeIndex < |items| then Ok(Some(items[PyIndex(activeIndex, |items|)]))
    else Err(IndexError(activeIndex))
  }

  /** After an add, the active instance is the one just added. */
  lemma ActiveAfterAdd<T>(items: seq<T>, active: int, x: T)
    requires MinInt(|items|, active + 1) >= 0
    ensures ActiveRigLogic(Inserted(items, MinInt(|items|, active + 1), x), MinInt(|items|, active + 1)) == Ok(Some(x))
  {
    AddedEntryIsActive(items, active, x);
  }

  // ---------------------------------------------------------------------
  // Topology-group dropdowns
  // ---------------------------------------------------------------------

  /** An enum item: identifier, display name and description. */
  datatype EnumItem = EnumItem(identifier: string, name: string, description: string)

  const TopoPrefix := "TOPO_GROUP_"

  /** The words of a group name after every `TOPO_GROUP_` is removed, each capitalized, joined by spaces. */
  function TopoLabel(groupName: string): string {
    var words := Split(ReplaceAll(groupName, TopoPrefix, ""), '_');
    Join(seq(|words|, i requires 0 <= i < |words| => Capitalize(words[i])), " ")
  }

  lemma CaseMappingKeepsUnderscoreOut(s: string)
    requires '_' !in s
    ensures '_' !in Capitalize(s)
  {
    if |s| > 0 {
      assert s[0] in s;
      assert forall i :: 1 <= i < |s| ==> s[1..][i - 1] == s[i];
      assert forall i :: 0 <= i < |s| - 1 ==> Lower(s[1..])[i] == LowerChar(s[i + 1]);
    }
  }

  lemma {:induction false} JoinAvoids(parts: seq<string>, sep: string, c: char)
    requires forall i :: 0 <= i < |parts| ==> c !in parts[i]
    requires c !in sep
    ensures c !in Join(parts, sep)
    decreases |parts|
  {
    if |parts| > 1 {
      JoinAvoids(parts[1..], sep, c);
    }
  }

  /** A topology label is words separated by spaces: no underscore is left in it. */
  lemma TopoLabelHasNoUnderscore(groupName: string)
    ensures '_' !in TopoLabel(groupName)
  {
    var words := Split(ReplaceAll(groupName, TopoPrefix, ""), '_');
    SplitPiecesHaveNoSeparator(ReplaceAll(groupName, TopoPrefix, ""), '_');
    var caps := seq(|words|, i requires 0 <= i < |words| => Capitalize(words[i]));
    forall i | 0 <= i < |words| ensures '_' !in caps[i] {
      CaseMappingKeepsUnderscoreOut(words[i]);
    }
    JoinAvoids(caps, " ", '_');
  }

  function TopoItem(groupName: string, meshKind: string): EnumItem {
    EnumItem(groupName, TopoLabel(groupName),
             "Select vertices assigned to " + groupName + " on the active " + meshKind + " mesh")
  }

  /** The names kept by `keep`, each turned into its dropdown item, in vertex-group order. */
  function TopoItems(groupNames: seq<string>, meshKind: string, highLevel: seq<string>, mode: TopoMode): (r: seq<EnumItem>)
    ensures |r| <= |groupNames|
  {
    if |groupNames| == 0 then []
    else
      var last := groupNames[|groupNames| - 1];
      var before := TopoItems(groupNames[..|groupNames| - 1], meshKind, highLevel, mode);
      if StartsWith(last, TopoPrefix) && KeptIn(mode, last, highLevel) then before + [TopoItem(last, meshKind)] else before
  }

  /** Every item listed is a topology group of the mesh that the mode keeps. */
  lemma {:induction false} TopoItemsKept(groupNames: seq<string>, meshKind: string, highLevel: seq<string>, mode: TopoMode)
    ensures forall i :: 0 <= i < |TopoItems(groupNames, meshKind, highLevel, mode)| ==>
      var item := TopoItems(groupNames, meshKind, highLevel, mode)[i];
      StartsWith(item.identifier, TopoPrefix) && KeptIn(mode, item.identifier, highLevel)
      && item == TopoItem(item.identifier, meshKind) && item.identifier in groupNames
    decreases |groupNames|
  {
    if |groupNames| > 0 {
      var init := groupNames[..|groupNames| - 1];
      TopoItemsKept(init, meshKind, highLevel, mode);
      assert forall n :: n in init ==> n in groupNames;
    }
  }

  /** Which topology groups a dropdown lists: all of them (head), or the body's high-level ones or the rest. */
  datatype TopoMode = AllGroups | HighLevelOnly | DetailOnly

  predicate IsHighLevel(groupName: string, highLevel: seq<string>) {
    exists k :: 0 <= k < |highLevel| && EndsWith(groupName, highLevel[k])
  }

  predicate KeptIn(mode: TopoMode, groupName: string, highLevel: seq<string>) {
    match mode
    case AllGroups => true
    case HighLevelOnly => IsHighLevel(groupName, highLevel)
    case DetailOnly => !IsHighLevel(groupName, highLevel)
  }

  lemma TopoItemsSnoc(groupNames: seq<string>, meshKind: string, highLevel: seq<string>, mode: TopoMode)
    requires |groupNames| > 0
    ensures var last := groupNames[|groupNames| - 1];
      TopoItems(groupNames, meshKind, highLevel, mode) ==
        TopoItems(groupNames[..|groupNames| - 1], meshKind, highLevel, mode)
        + (if StartsWith(last, TopoPrefix) && KeptIn(mode, last, highLevel) then [TopoItem(last, meshKind)] else [])
  {
  }

  lemma MultisetSnocSplit(high: seq<EnumItem>, detail: seq<EnumItem>, all: seq<EnumItem>,
                          toHigh: seq<EnumItem>, toDetail: seq<EnumItem>)
    requires multiset(high) + multiset(detail) == multiset(all)
    ensures multiset(high + toHigh) + multiset(detail + toDetail) == multiset(all + (toHigh + toDetail))
  {
  }

  /** Each topology group goes to exactly one of the body's two modes, so their items add up to all of them. */
  lemma {:induction false} BodyModesSplit(groupNames: seq<string>, highLevel: seq<string>)
    ensures multiset(TopoItems(groupNames, "body", highLevel, HighLevelOnly))
            + multiset(TopoItems(groupNames, "body", highLevel, DetailOnly))
            == multiset(TopoItems(groupNames, "body", highLevel, AllGroups))
    decreases |groupNames|
  {
    if |groupNames| > 0 {
      var init := groupNames[..|groupNames| - 1];
      var last := groupNames[|groupNames| - 1];
      BodyModesSplit(init, highLevel);
      TopoItemsSnoc(groupNames, "body", highLevel, HighLevelOnly);
      TopoItemsSnoc(groupNames, "body", highLevel, DetailOnly);
      TopoItemsSnoc(groupNames, "body", highLevel, AllGroups);
      if StartsWith(last, TopoPrefix) {
        var item := [TopoItem(last, "body")];
        var high, detail, all :=
          TopoItems(init, "body", highLevel, HighLevelOnly), TopoItems(init, "body", highLevel, DetailOnly),
          TopoItems(init, "body", highLevel, AllGroups);
        if IsHighLevel(last, highLevel) {
          MultisetSnocSplit(high, detail, all, item, []);
        } else {
          MultisetSnocSplit(high, detail, all, [], item);
        }
      }
    }
  }

  /** The body's two modes split the topology groups between them: every group is in exactly one. */
  lemma BodyModesPartition(groupNames: seq<string>, highLevel: seq<string>)
    ensures multiset(TopoItems(groupNames, "body", highLevel, HighLevelOnly))
            + multiset(TopoItems(groupNames, "body", highLevel, DetailOnly))
            == multiset(TopoItems(groupNames, "body", highLevel, AllGroups))
    ensures forall i, j :: 0 <= i < |TopoItems(groupNames, "body", highLevel, HighLevelOnly)|
                           && 0 <= j < |TopoItems(groupNames, "body", highLevel, DetailOnly)| ==>
              TopoItems(groupNames, "body", highLevel, HighLevelOnly)[i].identifier
              != TopoItems(groupNames, "body", highLevel, DetailOnly)[j].identifier
  {
    BodyModesSplit(groupNames, highLevel);
    TopoItemsKept(groupNames, "body", highLevel, HighLevelOnly);
    TopoItemsKept(groupNames, "body", highLevel, DetailOnly);
  }

  /** `sort(key=lambda x: x[0])`, stable: insertion by identifier. */
  function InsertById(x: EnumItem, s: seq<EnumItem>): (r: seq<EnumItem>)
    ensures multiset(r) == multiset(s) + multiset{x}
    ensures |r| == |s| + 1
  {
    if |s| == 0 then [x]
    else if LessEq(x.identifier, s[0].identifier) then [x] + s
    else
      assert s == [s[0]] + s[1..];
      [s[0]] + InsertById(x, s[1..])
  }

  function SortById(s: seq<EnumItem>): (r: seq<EnumItem>)
    ensures multiset(r) == multiset(s)
  {
    if |s| == 0 then []
    else
      assert s == [s[0]] + s[1..];
      InsertById(s[0], SortById(s[1..]))
  }

  predicate SortedById(s: seq<EnumItem>) {
    forall i :: 0 <= i < |s| - 1 ==> LessEq(s[i].identifier, s[i + 1].identifier)
  }

  lemma {:induction false} InsertKeepsSorted(x: EnumItem, s: seq<EnumItem>)
    requires SortedById(s)
    ensures SortedById(InsertById(x, s))
    ensures |s| > 0 ==> InsertById(x, s)[0] == x || InsertById(x, s)[0] == s[0]
    decreases |s|
  {
    if |s| > 0 && !LessEq(x.identifier, s[0].identifier) {
      LessEqTotal(x.identifier, s[0].identifier);
      InsertKeepsSorted(x, s[1..]);
    }
  }

  /** The dropdown comes out in identifier order, holding exactly the collected items. */
  lemma {:induction false} SortByIdSorted(s: seq<EnumItem>)
    ensures SortedById(SortById(s))
    ensures multiset(SortById(s)) == multiset(s)
    decreases |s|
  {
    if |s| > 0 {
      SortByIdSorted(s[1..]);
      InsertKeepsSorted(s[0], SortById(s[1..]));
    }
  }

  /** The loop of the topology-group getters: the groups the mode keeps, in vertex-group order. */
  method CollectTopoItems(names: seq<string>, meshKind: string, highLevel: seq<string>, mode: TopoMode)
    returns (collected: seq<EnumItem>)
    ensures collected == TopoItems(names, meshKind, highLevel, mode)
  {
    collected := [];
    var i := 0;
    while i < |names|
      invariant 0 <= i <= |names|
      invariant collected == TopoItems(names[..i], meshKind, highLevel, mode)
    {
      var name := names[i];
      TopoItemsSnoc(names[..i + 1], meshKind, highLevel, mode);
      assert names[..i + 1][..i] == names[..i];
      // KeptIn is the getter's check for the mode: every group, only the
      // high-level ones, or only the others.
      if StartsWith(name, TopoPrefix) && KeptIn(mode, name, highLevel) {
        collected := collected + [TopoItem(name, meshKind)];
      }
      i := i + 1;
    }
    assert names[..i] == names;
  }

  /**
   * `get_head_mesh_topology_groups` / `get_body_mesh_topology_groups`: the
   * loop collects the `TOPO_GROUP_` vertex groups the mode keeps, then the
   * list is sorted by identifier. `groupNames` is None when there is no
   * active instance or it has no such mesh.
   */
  method MeshTopologyGroups(groupNames: Option<seq<string>>, meshKind: string, highLevel: seq<string>, mode: TopoMode)
    returns (items: seq<EnumItem>)
    ensures groupNames.None? ==> items == []
    ensures groupNames.Some? ==> items == SortById(TopoItems(groupNames.value, meshKind, highLevel, mode))
  {
    var collected := [];
    if groupNames.Some? {
      collected := CollectTopoItems(groupNames.value, meshKind, highLevel, mode);
    }
    items := SortById(collected);
  }

  // ---------------------------------------------------------------------
  // LOD visibility
  // ---------------------------------------------------------------------

  /** A scene object as `set_active_lod` sees it. */
  datatype SceneEntry = SceneEntry(name: string, isMesh: bool, hidden: bool)

  class Scene {
    var objects: seq<SceneEntry>

    constructor(objects: seq<SceneEntry>)
      ensures this.objects == objects
    {
      this.objects := objects;
    }
  }

  /** The stored properties of one rig-logic instance that the LOD callback touches. */
  class InstanceProperties {
    const name: string
    var activeLod: nat

    constructor(name: string, activeLod: nat)
      ensures this.name == name && this.activeLod == activeLod
    {
      this.name := name;
      this.activeLod := activeLod;
    }
  }

  function LodSuffix(lod: nat): string {
    "_lod" + NatToString(lod) + "_mesh"
  }

  /** The eye-shell, eye-edge, cartilage and saliva meshes, which stay hidden at every LOD. */
  function IgnoredLodMeshes(instance: string, lod: nat): seq<string> {
    [instance + "_eyeshell" + LodSuffix(lod), instance + "_eyeEdge" + LodSuffix(lod),
     instance + "_cartilage" + LodSuffix(lod), instance + "_saliva" + LodSuffix(lod)]
  }

  predicate ShownAtLod(name: string, instance: string, lod: nat) {
    EndsWith(name, LodSuffix(lod)) && name !in IgnoredLodMeshes(instance, lod)
  }

  /** What `set_active_lod` does to one object: the instance's meshes are hidden unless they belong to the LOD. */
  function LodVisibility(e: SceneEntry, instance: string, lod: nat): (r: SceneEntry)
    ensures r.name == e.name && r.isMesh == e.isMesh
    ensures StartsWith(e.name, instance) && e.isMesh ==> (r.hidden <==> !ShownAtLod(e.name, instance, lod))
    ensures !(StartsWith(e.name, instance) && e.isMesh) ==> r == e
  {
    if StartsWith(e.name, instance) && e.isMesh then e.(hidden := !ShownAtLod(e.name, instance, lod)) else e
  }

  /** Choosing the same LOD again changes nothing, whatever was visible before. */
  lemma LodVisibilityIdempotent(e: SceneEntry, instance: string, lod: nat, other: bool)
    ensures LodVisibility(LodVisibility(e, instance, lod), instance, lod) == LodVisibility(e, instance, lod)
    ensures LodVisibility(e.(hidden := other), instance, lod).hidden == LodVisibility(e, instance, lod).hidden
              || !(StartsWith(e.name, instance) && e.isMesh)
  {
  }

  /** `set_active_lod`: stores the value, then updates the visibility of every scene object in turn. */
  method SetActiveLod(props: InstanceProperties, scene: Scene, lod: nat)
    modifies props, scene
    ensures props.activeLod == lod
    ensures |scene.objects| == |old(scene.objects)|
    ensures forall i :: 0 <= i < |scene.objects| ==>
              scene.objects[i] == LodVisibility(old(scene.objects)[i], props.name, lod)
  {
    props.activeLod := lod;
    var i := 0;
    ghost var before := scene.objects;
    while i < |scene.objects|
      invariant 0 <= i <= |scene.objects| == |before|
      invariant props.activeLod == lod
      invariant forall k :: 0 <= k < i ==> scene.objects[k] == LodVisibility(before[k], props.name, lod)
      invariant forall k :: i <= k < |scene.objects| ==> scene.objects[k] == before[k]
    {
      var e := scene.objects[i];
      if StartsWith(e.name, props.name) && e.isMesh {
        var ignored := IgnoredLodMeshes(props.name, lod);
        e := e.(hidden := true);
        if EndsWith(e.name, LodSuffix(lod)) && e.name !in ignored {
          e := e.(hidden := false);
        }
      }
      scene.objects := scene.objects[i := e];
      i := i + 1;
    }
  }

  // ---------------------------------------------------------------------
  // Material preview
  // ---------------------------------------------------------------------

  /** The three switch factors of a texture-logic node group. */
  class NodeGroup {
    var colorOrOther: real
    var maskOrNormal: real
    var colorOrTopology: real

    constructor(colorOrOther: real, maskOrNormal: real, colorOrTopology: real)
      ensures this.colorOrOther == colorOrOther && this.maskOrNormal == maskOrNormal
      ensures this.colorOrTopology == colorOrTopology
    {
      this.colorOrOther := colorOrOther;
      this.maskOrNormal := maskOrNormal;
      this.colorOrTopology := colorOrTopology;
    }

    /** Sets the factors for a preview value: combined, masks, normals, topology; other values leave them. */
    method ApplyPreview(value: int)
      modifies this
      ensures PreviewFactors(value).Some? ==>
                (colorOrOther, maskOrNormal, colorOrTopology) == PreviewFactors(value).value
      ensures PreviewFactors(value).None? ==>
                colorOrOther == old(colorOrOther) && maskOrNormal == old(maskOrNormal)
                && colorOrTopology == old(colorOrTopology)
    {
      if value == 0 {
        colorOrOther, maskOrNormal, colorOrTopology := 0.0, 0.0, 0.0;
      } else if value == 1 {
        colorOrOther, maskOrNormal, colorOrTopology := 1.0, 1.0, 0.0;
      } else if value == 2 {
        colorOrOther, maskOrNormal, colorOrTopology := 1.0, 0.0, 0.0;
      } else if value == 3 {
        colorOrOther, maskOrNormal, colorOrTopology := 0.0, 0.0, 1.0;
      }
    }
  }

  /** (color_or_other, mask_or_normal, color_or_topology) for each preview: combined, masks, normals, topology. */
  function PreviewFactors(value: int): Option<(real, real, real)> {
    if value == 0 then Some((0.0, 0.0, 0.0))
    else if value == 1 then Some((1.0, 1.0, 0.0))
    else if value == 2 then Some((1.0, 0.0, 0.0))
    else if value == 3 then Some((0.0, 0.0, 1.0))
    else None
  }

  /** Each of the four previews is its own combination of switches. */
  lemma PreviewFactorsDistinct(a: int, b: int)
    requires PreviewFactors(a).Some? && PreviewFactors(b).Some?
    ensures PreviewFactors(a) == PreviewFactors(b) <==> a == b
  {
  }

  class PreviewProperties {
    var activeMaterialPreview: int

    constructor(value: int)
      ensures activeMaterialPreview == value
    {
      activeMaterialPreview := value;
    }
  }

  /**
   * `set_active_material_preview`: stores the value, then sets the head
   * node group's factors and then the body's; a missing node group ends the
   * callback there, so a missing head group leaves the body group untouched.
   */
  method SetActiveMaterialPreview(props: PreviewProperties, head: NodeGroup?, body: NodeGroup?, value: int)
    modifies props, head, body
    ensures props.activeMaterialPreview == value
    ensures head != null && PreviewFactors(value).Some? ==>
              (head.colorOrOther, head.maskOrNormal, head.colorOrTopology) == PreviewFactors(value).value
    ensures head != null && body != null && PreviewFactors(value).Some? ==>
              (body.colorOrOther, body.maskOrNormal, body.colorOrTopology) == PreviewFactors(value).value
    ensures head == null && body != null ==>
              body.colorOrOther == old(body.colorOrOther) && body.maskOrNormal == old(body.maskOrNormal)
              && body.colorOrTopology == old(body.colorOrTopology)
  {
    props.activeMaterialPreview := value;
    if head != null {
      head.ApplyPreview(value);
      if body != null {
        body.ApplyPreview(value);
      }
    }
  }

  // ---------------------------------------------------------------------
  // Copied instance name
  // ---------------------------------------------------------------------

  /**
   * `get_copied_rig_logic_instance_name`: a stored value wins; otherwise
   * `<name>_copy` for an instance with both a head and a body mesh, the
   * instance's own name when one of them is missing, and '' with no instance.
   */
  function CopiedInstanceName(stored: Option<string>, instance: RigLogicInstance?): (r: string)
    ensures stored.Some? ==> r == stored.value
    ensures stored.None? && instance == null ==> r == ""
    ensures stored.None? && instance != null ==> StartsWith(r, instance.name)
    ensures stored.None? && instance != null ==>
              (r == instance.name <==> instance.headMesh == null || instance.bodyMesh == null)
  {
    if stored.Some? then stored.value
    else if instance != null && instance.headMesh != null && instance.bodyMesh != null then
      assert (instance.name + "_copy")[..|instance.name|] == instance.name;
      instance.name + "_copy"
    else if instance != null then instance.name
    else ""
  }

  // ---------------------------------------------------------------------
  // Send to Unreal templates
  // ---------------------------------------------------------------------

  datatype TemplateItem = TemplateItem(identifier: string, name: string, description: string, icon: string, index: int)

  const DefaultTemplateDescription: string :=
    "The Send to Unreal Settings template that will be used for exporting from blender and importing to unreal"

  function DefaultTemplate(defaultName: string): TemplateItem {
    TemplateItem(defaultName, "Meta-Human DNA", DefaultTemplateDescription, "NONE", 0)
  }

  /** The other templates: the default's name left out, each moved one index down the list. */
  function ShiftedTemplates(items: seq<TemplateItem>, defaultName: string): (r: seq<TemplateItem>)
    ensures |r| <= |items|
    ensures forall j :: 0 <= j < |r| ==> r[j].identifier != defaultName
  {
    if |items| == 0 then []
    else
      var before := ShiftedTemplates(items[..|items| - 1], defaultName);
      var last := items[|items| - 1];
      if last.identifier != defaultName then before + [last.(index := last.index + 1)] else before
  }

  /** Every listed template comes from the other add-on, shifted by one, and every other template is listed. */
  lemma {:induction false} ShiftedTemplatesMembers(items: seq<TemplateItem>, defaultName: string)
    ensures forall j :: 0 <= j < |ShiftedTemplates(items, defaultName)| ==>
              exists k :: 0 <= k < |items|
                          && ShiftedTemplates(items, defaultName)[j] == items[k].(index := items[k].index + 1)
    ensures forall k :: 0 <= k < |items| && items[k].identifier != defaultName ==>
              items[k].(index := items[k].index + 1) in ShiftedTemplates(items, defaultName)
  {
    if |items| > 0 {
      var init := items[..|items| - 1];
      ShiftedTemplatesMembers(init, defaultName);
      var before := ShiftedTemplates(init, defaultName);
      var r := ShiftedTemplates(items, defaultName);
      assert forall k :: 0 <= k < |items| - 1 ==> init[k] == items[k];
      assert before <= r;
      forall j | 0 <= j < |r|
        ensures exists k :: 0 <= k < |items| && r[j] == items[k].(index := items[k].index + 1)
      {
        if j < |before| {
          var k :| 0 <= k < |init| && before[j] == init[k].(index := init[k].index + 1);
          assert r[j] == items[k].(index := items[k].index + 1);
        } else {
          assert r[j] == items[|items| - 1].(index := items[|items| - 1].index + 1);
        }
      }
    } else {
      assert ShiftedTemplates(items, defaultName) == [];
    }
  }

  /** A template of the other add-on that is kept: any but the add-on's own default. */
  function IsOtherTemplate(defaultName: string): TemplateItem -> bool {
    (item: TemplateItem) => item.identifier != defaultName
  }

  /**
   * The other add-on's templates keep their order: the `j`-th one listed is
   * its `j`-th template that is not the default, with the index one higher.
   */
  lemma {:induction false} ShiftedTemplatesInOrder(items: seq<TemplateItem>, defaultName: string)
    ensures var kept := IndicesWhere(items, IsOtherTemplate(defaultName));
      && |ShiftedTemplates(items, defaultName)| == |kept|
      && forall j :: 0 <= j < |kept| ==>
           ShiftedTemplates(items, defaultName)[j] == items[kept[j]].(index := items[kept[j]].index + 1)
  {
    if |items| > 0 {
      var init := items[..|items| - 1];
      ShiftedTemplatesInOrder(init, defaultName);
      assert forall k :: 0 <= k < |init| ==> init[k] == items[k];
      assert IsOtherTemplate(defaultName)(items[|items| - 1]) <==> items[|items| - 1].identifier != defaultName;
    }
  }

  lemma ShiftedTemplatesSnoc(all: seq<TemplateItem>, i: nat, defaultName: string)
    requires i < |all|
    ensures ShiftedTemplates(all[..i + 1], defaultName) ==
      if all[i].identifier != defaultName then ShiftedTemplates(all[..i], defaultName) + [all[i].(index := all[i].index + 1)]
      else ShiftedTemplates(all[..i], defaultName)
  {
    assert all[..i + 1][..i] == all[..i];
  }

  /** The loop of `get_send2ue_settings_templates` over the other add-on's items. */
  method ShiftTemplates(all: seq<TemplateItem>, defaultName: string) returns (others: seq<TemplateItem>)
    ensures others == ShiftedTemplates(all, defaultName)
  {
    others := [];
    var i := 0;
    while i < |all|
      invariant 0 <= i <= |all|
      invariant others == ShiftedTemplates(all[..i], defaultName)
    {
      var item := all[i];
      ShiftedTemplatesSnoc(all, i, defaultName);
      if item.identifier != defaultName {
        others := others + [item.(index := item.index + 1)];
      }
      i := i + 1;
    }
    assert all[..i] == all;
  }

  /**
   * `get_send2ue_settings_templates`: the add-on's own template first, at
   * index 0, then the Send to Unreal dropdown's items (None when that add-on
   * is not installed) through the loop.
   */
  method Send2UeSettingsTemplates(defaultName: string, installed: Option<seq<TemplateItem>>)
    returns (items: seq<TemplateItem>)
    ensures |items| >= 1 && items[0] == DefaultTemplate(defaultName)
    ensures installed.None? ==> items == [DefaultTemplate(defaultName)]
    ensures installed.Some? ==> items[1..] == ShiftedTemplates(installed.value, defaultName)
    ensures installed.Some? ==>
      var kept := IndicesWhere(installed.value, IsOtherTemplate(defaultName));
      && |items| == |kept| + 1
      && forall j :: 0 <= j < |kept| ==>
           items[j + 1] == installed.value[kept[j]].(index := installed.value[kept[j]].index + 1)
  {
    var others := [];
    if installed.Some? {
      others := ShiftTemplates(installed.value, defaultName);
      ShiftedTemplatesInOrder(installed.value, defaultName);
    }
    items := [DefaultTemplate(defaultName)] + others;
    assert items[1..] == others;
  }

  /** The default template is listed once, at index 0, whatever the other add-on offers. */
  lemma DefaultTemplateOnce(defaultName: string, others: seq<TemplateItem>, items: seq<TemplateItem>)
    requires |items| >= 1 && items[0] == DefaultTemplate(defaultName)
    requires items[1..] == ShiftedTemplates(others, defaultName)
    ensures forall j :: 0 <= j < |items| ==> (items[j].identifier == defaultName <==> j == 0)
  {
    forall j | 0 < j < |items| ensures items[j].identifier != defaultName {
      assert items[j] == items[1..][j - 1];
    }
  }

  // ---------------------------------------------------------------------
  // Head LOD dropdown
  // ---------------------------------------------------------------------

  function LodItem(i: nat): EnumItem {
    EnumItem("lod" + NatToString(i), "LOD " + NatToString(i), "Displays only LOD " + NatToString(i))
  }

  /** The scene object name of a head LOD mesh: `<instance>_head_lod<i>_mesh`. */
  function HeadLodMeshName(instance: string, i: nat): string {
    instance + "_head_lod" + NatToString(i) + "_mesh"
  }

  /** The LODs below `count` whose head mesh is in the scene: each of them once, ascending. */
  function ExistingLods(instance: string, count: nat, objects: set<string>): (lods: seq<nat>)
    ensures StrictlyIncreasing(lods)
    ensures forall j :: 0 <= j < |lods| ==> lods[j] < count && HeadLodMeshName(instance, lods[j]) in objects
    ensures forall i: nat :: i < count && HeadLodMeshName(instance, i) in objects ==> i in lods
  {
    if count == 0 then []
    else
      var before := ExistingLods(instance, count - 1, objects);
      if HeadLodMeshName(instance, count - 1) in objects then before + [count - 1] else before
  }

  /** The loop's items: one `lod<i>` item per existing head LOD mesh below `count`, in LOD order. */
  function ExistingLodItems(instance: string, count: nat, objects: set<string>): (r: seq<EnumItem>)
    ensures |r| == |ExistingLods(instance, count, objects)|
    ensures forall j :: 0 <= j < |r| ==> r[j] == LodItem(ExistingLods(instance, count, objects)[j])
  {
    if count == 0 then []
    else
      var before := ExistingLodItems(instance, count - 1, objects);
      if HeadLodMeshName(instance, count - 1) in objects then before + [LodItem(count - 1)] else before
  }

  /**
   * `get_head_mesh_lod_items`: one item per existing head LOD mesh of the
   * active instance (`instance` is None without one); an empty result is
   * replaced by a single `lod0` item, so the list is never empty.
   */
  method HeadMeshLodItems(instance: Option<string>, lodCount: nat, objects: set<string>) returns (items: seq<EnumItem>)
    ensures |items| >= 1
    ensures instance.None? ==> items == [LodItem(0)]
    ensures instance.Some? ==>
              items == (if ExistingLodItems(instance.value, lodCount, objects) == [] then [LodItem(0)]
                        else ExistingLodItems(instance.value, lodCount, objects))
  {
    items := [];
    if instance.Some? {
      var i := 0;
      while i < lodCount
        invariant 0 <= i <= lodCount
        invariant items == ExistingLodItems(instance.value, i, objects)
      {
        if HeadLodMeshName(instance.value, i) in objects {
          items := items + [LodItem(i)];
        }
        i := i + 1;
      }
    }
    if items == [] {
      items := [LodItem(0)];
    }
  }
}
