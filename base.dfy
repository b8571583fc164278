/**
 * The parts of the rig-logic component base that are not scene plumbing:
 * the unit modifiers read from the DNA, left/right bone mirroring, the UV
 * check before a conversion, deleting an empty rig-logic instance and the
 * alternate texture-file lookup.
 */
module ComponentBase {
  import opened Wrappers
  import opened Geometry
  import opened Text
  import opened DnaIo
  import opened Operators

  // ---------------------------------------------------------------------
  // Unit modifiers
  // ---------------------------------------------------------------------

  /** `math.pi`, as the constant the angle modifier divides by. */
  const Pi: real := 3.141592653589793

  /**
   * `linear_modifier`: the factor from the DNA's translation unit to scene
   * units. `scaleFactor` stands for the add-on's SCALE_FACTOR constant.
   */
  function LinearModifier(unitName: string, scaleFactor: real): (lm: real)
    requires scaleFactor != 0.0
    ensures Lower(unitName) == "cm" ==> lm * scaleFactor == 1.0
    ensures Lower(unitName) != "cm" ==> lm == 1.0
  {
    if Lower(unitName) == "cm" then 1.0 / scaleFactor
    else if Lower(unitName) == "m" then 1.0
    else 1.0
  }

  /** `angle_modifier`: degrees give 180/pi, radians pi/180, any other unit 1. */
  function AngleModifier(unitName: string): (am: real)
    ensures Lower(unitName) == "degrees" ==> am * Pi == 180.0
    ensures Lower(unitName) == "radians" ==> am * 180.0 == Pi
    ensures Lower(unitName) != "degrees" && Lower(unitName) != "radians" ==> am == 1.0
  {
    if Lower(unitName) == "degrees" then 180.0 / Pi
    else if Lower(unitName) == "radians" then Pi / 180.0
    else 1.0
  }

  /** Both modifiers only look at the unit name in lower case. */
  lemma UnitModifiersIgnoreCase(unitName: string, scaleFactor: real)
    requires scaleFactor != 0.0
    ensures LinearModifier(Lower(unitName), scaleFactor) == LinearModifier(unitName, scaleFactor)
    ensures AngleModifier(Lower(unitName)) == AngleModifier(unitName)
  {
    LowerIdempotent(unitName);
  }

  // ---------------------------------------------------------------------
  // Bone sides and mirror names
  // ---------------------------------------------------------------------

  datatype Side = Left | Right | Unsided

  function Opposite(s: Side): Side {
    match s
    case Left => Right
    case Right => Left
    case Unsided => Unsided
  }

  /** The side a bone is counted on: `_l` suffix, `FACIAL_L` prefix, `_r` suffix, `FACIAL_R` prefix, in that order. */
  function SideOf(name: string): Side {
    if EndsWith(name, "_l") || StartsWith(name, "FACIAL_L") then Left
    else if EndsWith(name, "_r") || StartsWith(name, "FACIAL_R") then Right
    else Unsided
  }

  /**
   * The bone a selected bone is mirrored onto. A `_l` suffix is swapped
   * through `rsplit('_l', 1)` and a `FACIAL_L` prefix through a replace of
   * its first occurrence; the right side is symmetric.
   */
  function MirrorName(name: string): (r: Option<string>)
    ensures r.Some? <==> SideOf(name) != Unsided
    ensures EndsWith(name, "_l") ==> r == Some(name[..|name| - 2] + "_r")
    ensures !EndsWith(name, "_l") && StartsWith(name, "FACIAL_L") ==> r == Some("FACIAL_R" + name[8..])
    ensures SideOf(name) == Right && EndsWith(name, "_r") ==> r == Some(name[..|name| - 2] + "_l")
    ensures SideOf(name) == Right && !EndsWith(name, "_r") ==> r == Some("FACIAL_L" + name[8..])
    ensures r.Some? ==> |r.value| == |name| && r.value != name
  {
    if EndsWith(name, "_l") then
      ReplaceLastOfSuffix(name[..|name| - 2], "_l", "_r");
      assert name[..|name| - 2] + "_l" == name;
      Some(ReplaceLast(name, "_l", "_r"))
    else if StartsWith(name, "FACIAL_L") then
      ReplaceFirstOfPrefix("FACIAL_L", name[8..], "FACIAL_R");
      assert "FACIAL_L" + name[8..] == name;
      Some(ReplaceFirst(name, "FACIAL_L", "FACIAL_R"))
    else if EndsWith(name, "_r") then
      ReplaceLastOfSuffix(name[..|name| - 2], "_r", "_l");
      assert name[..|name| - 2] + "_r" == name;
      Some(ReplaceLast(name, "_r", "_l"))
    else if StartsWith(name, "FACIAL_R") then
      ReplaceFirstOfPrefix("FACIAL_R", name[8..], "FACIAL_L");
      assert "FACIAL_R" + name[8..] == name;
      Some(ReplaceFirst(name, "FACIAL_R", "FACIAL_L"))
    else None
  }

  /** How many of the four side markers a name carries. */
  function MarkerCount(name: string): nat {
    (if EndsWith(name, "_l") then 1 else 0) + (if StartsWith(name, "FACIAL_L") then 1 else 0)
    + (if EndsWith(name, "_r") then 1 else 0) + (if StartsWith(name, "FACIAL_R") then 1 else 0)
  }

  /** Swapping a two-letter side suffix cannot change whether a `FACIAL_L`/`FACIAL_R` prefix is present. */
  lemma PrefixIgnoresSuffixSwap(p: string, pre: string)
    requires pre == "FACIAL_L" || pre == "FACIAL_R"
    ensures StartsWith(p + "_l", pre) <==> StartsWith(p + "_r", pre)
  {
    if |p| >= 7 {
      assert (p + "_l")[..8] == (p + "_r")[..8];
    } else if |p| == 6 {
      assert (p + "_l")[..8][7] == 'l';
      assert (p + "_r")[..8][7] == 'r';
    }
  }

  /** Swapping the `FACIAL_L`/`FACIAL_R` prefix cannot change whether a `_l`/`_r` suffix is present. */
  lemma SuffixIgnoresPrefixSwap(q: string, suf: string)
    requires suf == "_l" || suf == "_r"
    ensures EndsWith("FACIAL_L" + q, suf) <==> EndsWith("FACIAL_R" + q, suf)
  {
    var a, b := "FACIAL_L" + q, "FACIAL_R" + q;
    if |q| >= 2 {
      assert a[|a| - 2..] == q[|q| - 2..] == b[|b| - 2..];
    } else {
      assert a[|a| - 2..][0] != '_' || a[|a| - 2..][1] == 'L';
      assert b[|b| - 2..][0] != '_' || b[|b| - 2..][1] == 'R';
    }
  }

  /** The suffix case of `MirrorNameInvolutive`: `<p>_l` and `<p>_r` mirror onto each other. */
  lemma MirrorSuffixSwap(p: string, from: string, to: string)
    requires (from == "_l" && to == "_r") || (from == "_r" && to == "_l")
    requires MarkerCount(p + from) == 1
    ensures MirrorName(p + from) == Some(p + to)
    ensures MarkerCount(p + to) == 1
    ensures SideOf(p + to) == Opposite(SideOf(p + from))
    ensures MirrorName(p + to) == Some(p + from)
  {
    PrefixIgnoresSuffixSwap(p, "FACIAL_L");
    PrefixIgnoresSuffixSwap(p, "FACIAL_R");
    var a, b := p + from, p + to;
    assert a[|a| - 2..] == from && a[..|a| - 2] == p;
    assert b[|b| - 2..] == to && b[..|b| - 2] == p;
  }

  /** The prefix case of `MirrorNameInvolutive`: `FACIAL_L<q>` and `FACIAL_R<q>` mirror onto each other. */
  lemma MirrorPrefixSwap(q: string, from: string, to: string)
    requires (from == "FACIAL_L" && to == "FACIAL_R") || (from == "FACIAL_R" && to == "FACIAL_L")
    requires MarkerCount(from + q) == 1
    ensures MirrorName(from + q) == Some(to + q)
    ensures MarkerCount(to + q) == 1
    ensures SideOf(to + q) == Opposite(SideOf(from + q))
    ensures MirrorName(to + q) == Some(from + q)
  {
    SuffixIgnoresPrefixSwap(q, "_l");
    SuffixIgnoresPrefixSwap(q, "_r");
    var a, b := from + q, to + q;
    assert a[..8] == from && a[8..] == q;
    assert b[..8] == to && b[8..] == q;
  }

  /**
   * Mirroring a name with exactly one side marker lands on a name with
   * exactly one marker on the other side, and mirroring that gives the
   * original back.
   */
  lemma MirrorNameInvolutive(name: string)
    requires MarkerCount(name) == 1
    ensures MirrorName(name).Some?
    ensures MarkerCount(MirrorName(name).value) == 1
    ensures SideOf(MirrorName(name).value) == Opposite(SideOf(name))
    ensures MirrorName(MirrorName(name).value) == Some(name)
  {
    if EndsWith(name, "_l") || EndsWith(name, "_r") {
      var p := name[..|name| - 2];
      assert name == p + name[|name| - 2..];
      if EndsWith(name, "_l") {
        MirrorSuffixSwap(p, "_l", "_r");
      } else {
        MirrorSuffixSwap(p, "_r", "_l");
      }
    } else {
      var q := name[8..];
      assert name == name[..8] + q;
      if StartsWith(name, "FACIAL_L") {
        MirrorPrefixSwap(q, "FACIAL_L", "FACIAL_R");
      } else {
        MirrorPrefixSwap(q, "FACIAL_R", "FACIAL_L");
      }
    }
  }

  // ---------------------------------------------------------------------
  // Mirroring the selected pose bones
  // ---------------------------------------------------------------------

  /** A pose bone's matrix, as its translation and the 3x3 rotation-and-scale block. */
  datatype PoseMatrix = PoseMatrix(translation: Vec3, basis: seq<seq<real>>)

  /** `Matrix.Translation(location)`: no rotation, unit scale. */
  function TranslationMatrix(location: Vec3): PoseMatrix {
    PoseMatrix(location, [[1.0, 0.0, 0.0], [0.0, 1.0, 0.0], [0.0, 0.0, 1.0]])
  }

  /** A location reflected through the YZ plane: x negated. */
  function MirrorX(v: Vec3): (r: Vec3)
    ensures r.x + v.x == 0.0 && r.y == v.y && r.z == v.z
  {
    Vec3(-v.x, v.y, v.z)
  }

  /** The head rig: the pose matrix of every bone by name, and which bones are selected. */
  class HeadRig {
    var poses: map<string, PoseMatrix>
    var selectedBones: set<string>

    constructor(poses: map<string, PoseMatrix>, selectedBones: set<string>)
      ensures this.poses == poses && this.selectedBones == selectedBones
    {
      this.poses := poses;
      this.selectedBones := selectedBones;
    }
  }

  function MissingBoneMessage(name: string): string {
    "Could not find bone " + name
  }

  /**
   * `_mirror_bone_to`: the target bone, when the rig has it, gets a plain
   * translation matrix at the source bone's location with x negated;
   * otherwise an error is logged and nothing is returned.
   */
  method MirrorBoneTo(rig: HeadRig?, fromName: string, toName: string) returns (mirrored: bool, error: Option<string>)
    requires rig != null ==> fromName in rig.poses
    modifies rig
    ensures mirrored <==> rig != null && toName in old(rig.poses)
    ensures mirrored ==> error.None?
                         && rig.poses == old(rig.poses)[toName := TranslationMatrix(MirrorX(old(rig.poses)[fromName].translation))]
    ensures !mirrored ==> error == Some(MissingBoneMessage(toName))
    ensures rig != null && !mirrored ==> rig.poses == old(rig.poses)
    ensures rig != null ==> rig.selectedBones == old(rig.selectedBones)
  {
    mirrored, error := false, None;
    if rig != null {
      var location := MirrorX(rig.poses[fromName].translation);
      if toName in rig.poses {
        rig.poses := rig.poses[toName := TranslationMatrix(location)];
        mirrored := true;
      }
    }
    if !mirrored {
      error := Some(MissingBoneMessage(toName));
    }
  }

  /** The selected bones that are not on the rig's ignored list, in selection order. */
  function Unignored(selected: seq<string>, ignored: set<string>): (kept: seq<string>)
    ensures forall i :: 0 <= i < |kept| ==> kept[i] !in ignored && kept[i] in selected
    ensures forall i :: 0 <= i < |selected| && selected[i] !in ignored ==> selected[i] in kept
  {
    if |selected| == 0 then []
    else (if selected[0] in ignored then [] else [selected[0]]) + Unignored(selected[1..], ignored)
  }

  /** How many of `names` are counted on `side`. */
  function CountSide(names: seq<string>, side: Side): (n: nat)
    ensures n <= |names|
  {
    if |names| == 0 then 0
    else CountSide(names[..|names| - 1], side) + (if SideOf(names[|names| - 1]) == side then 1 else 0)
  }

  /** No bone is counted on a side exactly when none of the names is on it. */
  lemma {:induction false} CountSideZero(names: seq<string>, side: Side)
    ensures CountSide(names, side) == 0 <==> forall i :: 0 <= i < |names| ==> SideOf(names[i]) != side
    decreases |names|
  {
    if |names| > 0 {
      var init := names[..|names| - 1];
      CountSideZero(init, side);
      assert forall i :: 0 <= i < |init| ==> init[i] == names[i];
    }
  }

  /** The rig as the mirror loop leaves it: poses, selection and the errors logged for missing targets. */
  datatype MirrorState = MirrorState(poses: map<string, PoseMatrix>, selection: set<string>, log: seq<string>)

  /** One iteration of the mirror loop for the bone `name`. */
  function MirrorStep(st: MirrorState, name: string): MirrorState
    requires name in st.poses
  {
    match MirrorName(name)
    case None => st
    case Some(target) =>
      if target in st.poses then
        MirrorState(st.poses[target := TranslationMatrix(MirrorX(st.poses[name].translation))],
                    st.selection + {target}, st.log)
      else MirrorState(st.poses, st.selection, st.log + [MissingBoneMessage(target)])
  }

  /** The mirror loop over `names`, in order; a bone that several names mirror onto keeps the last one. */
  function MirrorAll(st: MirrorState, names: seq<string>): (r: MirrorState)
    requires forall n :: n in names ==> n in st.poses
    ensures r.poses.Keys == st.poses.Keys
    ensures st.selection <= r.selection
  {
    if |names| == 0 then st
    else
      var before := MirrorAll(st, names[..|names| - 1]);
      MirrorStep(before, names[|names| - 1])
  }

  const MirroredMessage := "Bones mirrored successfully!"

  function SameSideMessage(left: nat, right: nat): string {
    "Selected bones must all be on the same side! Your selection has " + NatToString(left)
    + " on the left and " + NatToString(right) + " on the right."
  }

  lemma CountSideSnoc(names: seq<string>, i: nat, side: Side)
    requires i < |names|
    ensures CountSide(names[..i + 1], side) == CountSide(names[..i], side) + (if SideOf(names[i]) == side then 1 else 0)
  {
    assert names[..i + 1][..i] == names[..i];
  }

  /** The counting loop: how many bones are on the left and how many on the right. */
  method CountSides(names: seq<string>) returns (left: nat, right: nat)
    ensures left == CountSide(names, Left) && right == CountSide(names, Right)
  {
    left, right := 0, 0;
    var i := 0;
    while i < |names|
      invariant 0 <= i <= |names|
      invariant left == CountSide(names[..i], Left) && right == CountSide(names[..i], Right)
    {
      // SideOf is the loop's if/elif chain over the four markers.
      var side := SideOf(names[i]);
      CountSideSnoc(names, i, Left);
      CountSideSnoc(names, i, Right);
      if side == Left {
        left := left + 1;
      } else if side == Right {
        right := right + 1;
      }
      i := i + 1;
    }
    assert names[..i] == names;
  }

  /** The mirror loop: each bone in turn onto its counterpart, which becomes selected when it exists. */
  method MirrorEach(rig: HeadRig, names: seq<string>) returns (missing: seq<string>)
    requires forall n :: n in names ==> n in rig.poses
    modifies rig
    ensures MirrorState(rig.poses, rig.selectedBones, missing)
            == MirrorAll(MirrorState(old(rig.poses), old(rig.selectedBones), []), names)
  {
    missing := [];
    ghost var start := MirrorState(rig.poses, rig.selectedBones, []);
    var i := 0;
    while i < |names|
      invariant 0 <= i <= |names|
      invariant MirrorState(rig.poses, rig.selectedBones, missing) == MirrorAll(start, names[..i])
    {
      var name := names[i];
      assert names[..i + 1][..i] == names[..i];
      var target := MirrorName(name);
      if target.Some? {
        var mirrored, error := MirrorBoneTo(rig, name, target.value);
        if mirrored {
          rig.selectedBones := rig.selectedBones + {target.value};
        } else {
          missing := missing + [error.value];
        }
      }
      i := i + 1;
    }
    assert names[..i] == names;
  }

  /**
   * `mirror_selected_bones`: the selected bones that are not ignored are
   * counted per side; a selection with bones on both sides is refused and
   * nothing moves; otherwise each is mirrored onto its counterpart, which
   * becomes selected. Without a head rig nothing happens, and the call still
   * reports success. `ignored` stands for the rig's ignored-bone list and
   * `missing` for the errors logged.
   */
  method MirrorSelectedBones(rig: HeadRig?, selected: seq<string>, ignored: set<string>)
    returns (ok: bool, message: string, missing: seq<string>)
    requires rig != null ==> forall n :: n in selected ==> n in rig.poses
    modifies rig
    ensures rig == null ==> ok && message == MirroredMessage && missing == []
    ensures rig != null ==>
      (var kept := Unignored(selected, ignored);
       var left := CountSide(kept, Left);
       var right := CountSide(kept, Right);
       (ok <==> left == 0 || right == 0)
       && (!ok ==> message == SameSideMessage(left, right) && missing == []
                   && rig.poses == old(rig.poses) && rig.selectedBones == old(rig.selectedBones))
       && (ok ==> message == MirroredMessage
                  && MirrorState(rig.poses, rig.selectedBones, missing)
                     == MirrorAll(MirrorState(old(rig.poses), old(rig.selectedBones), []), kept)))
  {
    missing := [];
    ok, message := true, MirroredMessage;
    if rig != null {
      var kept := Unignored(selected, ignored);
      var left, right := CountSides(kept);
      if left > 0 && right > 0 {
        ok, message := false, SameSideMessage(left, right);
      } else {
        missing := MirrorEach(rig, kept);
      }
    }
  }

  /** Only the bones some name is mirrored onto change; every other bone keeps its matrix. */
  lemma {:induction false} MirrorAllUntargeted(st: MirrorState, names: seq<string>, bone: string)
    requires forall n :: n in names ==> n in st.poses
    requires bone in st.poses
    requires forall i :: 0 <= i < |names| ==> MirrorName(names[i]) != Some(bone)
    ensures MirrorAll(st, names).poses[bone] == st.poses[bone]
  {
    if |names| > 0 {
      MirrorAllUntargeted(st, names[..|names| - 1], bone);
    }
  }

  /**
   * When every selected bone is either unsided or carries exactly one marker
   * of the same side, each counterpart that exists ends up at its source
   * bone's original location with x negated: no source is overwritten
   * before it is read.
   */
  lemma {:induction false} MirrorAllOneSide(st: MirrorState, names: seq<string>, side: Side)
    requires side != Unsided
    requires forall n :: n in names ==> n in st.poses
    requires forall i :: 0 <= i < |names| ==>
               SideOf(names[i]) == Unsided || (MarkerCount(names[i]) == 1 && SideOf(names[i]) == side)
    ensures forall i :: 0 <= i < |names| && MirrorName(names[i]).Some? && MirrorName(names[i]).value in st.poses ==>
              MirrorAll(st, names).poses[MirrorName(names[i]).value]
              == TranslationMatrix(MirrorX(st.poses[names[i]].translation))
  {
    if |names| > 0 {
      var prefix := names[..|names| - 1];
      var last := names[|names| - 1];
      assert forall n :: n in prefix ==> n in names;
      MirrorAllOneSide(st, prefix, side);
      var before := MirrorAll(st, prefix);
      forall i | 0 <= i < |prefix| && MirrorName(prefix[i]).Some?
        ensures MirrorName(prefix[i]) != Some(last)
      {
        assert prefix[i] == names[i];
        MirrorNameInvolutive(prefix[i]);
      }
      MirrorAllUntargeted(st, prefix, last);
      if MirrorName(last).Some? {
        MirrorNameInvolutive(last);
        forall i | 0 <= i < |prefix| && MirrorName(prefix[i]) == MirrorName(last)
          ensures prefix[i] == last
        {
          assert prefix[i] == names[i];
          MirrorNameInvolutive(prefix[i]);
        }
      }
      forall i | 0 <= i < |names| && MirrorName(names[i]).Some? && MirrorName(names[i]).value in st.poses
        ensures MirrorAll(st, names).poses[MirrorName(names[i]).value]
                == TranslationMatrix(MirrorX(st.poses[names[i]].translation))
      {
        if i < |names| - 1 {
          assert names[i] == prefix[i];
        }
      }
    }
  }

  // ---------------------------------------------------------------------
  // UV check before a conversion
  // ---------------------------------------------------------------------

  datatype ConversionFailure =
    | NoMeshData
    | WrongUvLayerCount
    | NoActiveUvLayer
    | UvMismatch(differences: nat)

  function Distance(a: nat, b: nat): nat {
    if a >= b then a - b else b - a
  }

  /**
   * The checks of `validate_conversion`, in order. `uvCounts` and
   * `dnaUvCounts` are how many distinct U and V values the mesh and the
   * template DNA's mesh 0 have once values within the tolerance are merged.
   */
  function CheckConversion(hasData: bool, uvLayerCount: nat, hasActiveLayer: bool,
                           uvCounts: (nat, nat), dnaUvCounts: (nat, nat)): (r: Option<ConversionFailure>)
    ensures r.None? <==> hasData && uvLayerCount == 1 && hasActiveLayer && uvCounts == dnaUvCounts
    ensures r == Some(NoMeshData) <==> !hasData
    ensures r == Some(WrongUvLayerCount) <==> hasData && uvLayerCount != 1
    ensures r == Some(NoActiveUvLayer) <==> hasData && uvLayerCount == 1 && !hasActiveLayer
    ensures r.Some? && r.value.UvMismatch? ==>
              r.value.differences > 0
              && r.value.differences == Distance(uvCounts.0, dnaUvCounts.0) + Distance(uvCounts.1, dnaUvCounts.1)
  {
    if !hasData then Some(NoMeshData)
    else if uvLayerCount != 1 then Some(WrongUvLayerCount)
    else if !hasActiveLayer then Some(NoActiveUvLayer)
    else if uvCounts.0 != dnaUvCounts.0 || uvCounts.1 != dnaUvCounts.1 then
      Some(UvMismatch(Distance(uvCounts.0, dnaUvCounts.0) + Distance(uvCounts.1, dnaUvCounts.1)))
    else None
  }

  function FailureMessage(meshName: string, f: ConversionFailure): string {
    match f
    case NoMeshData =>
      "The mesh \"" + meshName + "\" has no data! Please provide a valid mesh object."
    case WrongUvLayerCount =>
      "The mesh \"" + meshName + "\" must have exactly one UV layer! Please ensure the mesh has a single UV map."
    case NoActiveUvLayer =>
      "The mesh \"" + meshName + "\" has no active UV layer! Please ensure the mesh has an active UV map."
    case UvMismatch(d) =>
      "UV validation failed! The mesh \"" + meshName + "\" has " + NatToString(d)
      + " UV values that do not match the layout in the template DNA file. Did you select the correct component? "
      + "Right-click the \"Convert Selected to DNA\" button to see the online manual that shows "
      + "the correct UV layout. Otherwise, disable the UV validation or adjust the tolerance value."
  }

  /** `validate_conversion`: (True, success) exactly when every check passes, otherwise the first failure's message. */
  function ValidateConversion(meshName: string, hasData: bool, uvLayerCount: nat, hasActiveLayer: bool,
                              uvCounts: (nat, nat), dnaUvCounts: (nat, nat)): (r: (bool, string))
    ensures r.0 <==> hasData && uvLayerCount == 1 && hasActiveLayer && uvCounts == dnaUvCounts
    ensures r.0 ==> r.1 == "Validation successful!"
    ensures !r.0 ==> exists f :: r.1 == FailureMessage(meshName, f)
  {
    match CheckConversion(hasData, uvLayerCount, hasActiveLayer, uvCounts, dnaUvCounts)
    case None => (true, "Validation successful!")
    case Some(f) => (false, FailureMessage(meshName, f))
  }

  // ---------------------------------------------------------------------
  // Deleting an empty rig-logic instance
  // ---------------------------------------------------------------------

  predicate HasNoObjects(instance: RigLogicInstance) {
    instance.headMesh == null && instance.headRig == null && instance.bodyMesh == null && instance.bodyRig == null
  }

  /**
   * `_delete_rig_logic_instance`: only an instance with no head mesh, head
   * rig, body mesh or body rig is removed, from the active index; the active
   * index then becomes min(active, new length - 1).
   */
  method DeleteRigLogicInstance(list: UiList<RigLogicInstance>, instance: RigLogicInstance)
    returns (err: Option<Exception>)
    modifies list
    ensures !HasNoObjects(instance) ==> err.None? && list.items == old(list.items)
                                        && list.activeIndex == old(list.activeIndex)
    ensures HasNoObjects(instance) ==> (err.None? <==> 0 <= old(list.activeIndex) < |old(list.items)|)
    ensures HasNoObjects(instance) && err.None? ==>
              list.items == Removed(old(list.items), old(list.activeIndex))
              && list.activeIndex == MinInt(old(list.activeIndex), |list.items| - 1)
    ensures err.Some? ==> list.items == old(list.items) && list.activeIndex == old(list.activeIndex)
  {
    err := None;
    if HasNoObjects(instance) {
      err := RemoveEntry(list, list.activeIndex);
    }
  }

  // ---------------------------------------------------------------------
  // Alternate texture files
  // ---------------------------------------------------------------------

  /** `maps_folder / file`. */
  function MapsPath(folder: string, file: string): string {
    folder + "/" + file
  }

  /** The alternate paths in the order they are tried: per extension, lower case first, then upper case. */
  function Candidates(folder: string, alternate: string, extensions: seq<string>): (r: seq<string>)
    ensures |r| == 2 * |extensions|
    ensures forall k :: 0 <= k < |extensions| ==>
              r[2 * k] == MapsPath(folder, alternate + Lower(extensions[k]))
              && r[2 * k + 1] == MapsPath(folder, alternate + Upper(extensions[k]))
  {
    if |extensions| == 0 then []
    else
      var rest := Candidates(folder, alternate, extensions[1..]);
      assert forall k :: 1 <= k < |extensions| ==> extensions[1..][k - 1] == extensions[k];
      [MapsPath(folder, alternate + Lower(extensions[0])), MapsPath(folder, alternate + Upper(extensions[0]))] + rest
  }

  /** The first path of the list that exists. */
  function FirstExisting(paths: seq<string>, existing: set<string>): (r: Option<string>)
    ensures r.Some? ==> r.value in existing
    ensures r.Some? ==> (exists k :: 0 <= k < |paths| && paths[k] == r.value
                                     && forall j :: 0 <= j < k ==> paths[j] !in existing)
    ensures r.None? ==> forall k :: 0 <= k < |paths| ==> paths[k] !in existing
  {
    if |paths| == 0 then None
    else if paths[0] in existing then Some(paths[0])
    else
      var r := FirstExisting(paths[1..], existing);
      assert forall k :: 1 <= k < |paths| ==> paths[1..][k - 1] == paths[k];
      if r.Some? then
        var k :| 0 <= k < |paths[1..]| && paths[1..][k] == r.value && forall j :: 0 <= j < k ==> paths[1..][j] !in existing;
        assert paths[k + 1] == r.value;
        r
      else r
  }

  /** The extension loop: lower-case, then upper-case, for each extension in turn, returning the first that exists. */
  function TryExtensions(folder: string, alternate: string, extensions: seq<string>, existing: set<string>): Option<string> {
    if |extensions| == 0 then None
    else
      var lower := MapsPath(folder, alternate + Lower(extensions[0]));
      var upper := MapsPath(folder, alternate + Upper(extensions[0]));
      if lower in existing then Some(lower)
      else if upper in existing then Some(upper)
      else TryExtensions(folder, alternate, extensions[1..], existing)
  }

  lemma {:induction false} TryExtensionsFirstCandidate(folder: string, alternate: string, extensions: seq<string>,
                                                      existing: set<string>)
    ensures TryExtensions(folder, alternate, extensions, existing)
            == FirstExisting(Candidates(folder, alternate, extensions), existing)
  {
    if |extensions| > 0 {
      TryExtensionsFirstCandidate(folder, alternate, extensions[1..], existing);
      var c := Candidates(folder, alternate, extensions);
      assert c[2..] == Candidates(folder, alternate, extensions[1..]);
      assert c[1..][1..] == c[2..];
    }
  }

  /**
   * `_get_alternate_image_path`: an existing file is kept; otherwise, when
   * the mapping has a non-empty alternate name for the file name, the first
   * existing candidate is returned; otherwise the original path. `existing`
   * stands for the files on disk.
   */
  function AlternateImagePath(imageFile: string, fileName: string, mapsFolder: string, mapping: map<string, string>,
                              extensions: seq<string>, existing: set<string>): (r: string)
    ensures imageFile in existing ==> r == imageFile
    ensures r != imageFile ==> r in existing
    ensures imageFile !in existing && fileName in mapping && mapping[fileName] != "" ==>
              r == (match FirstExisting(Candidates(mapsFolder, mapping[fileName], extensions), existing)
                    case Some(p) => p
                    case None => imageFile)
  {
    if imageFile !in existing && fileName in mapping && mapping[fileName] != "" then
      TryExtensionsFirstCandidate(mapsFolder, mapping[fileName], extensions, existing);
      match TryExtensions(mapsFolder, mapping[fileName], extensions, existing)
      case Some(p) => p
      case None => imageFile
    else imageFile
  }
}
