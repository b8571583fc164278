/**
 * The Unreal-side level-sequence helpers
 * (`resources/unreal/meta_human_dna_utilities/level_sequence.py`): the path
 * of a binding in the sequence's hierarchy, the keyframes of a channel, the
 * keyframes of every curve of a binding, and the asset path of a new level
 * sequence.
 *
 * The sequence is given as its bindings; each binding carries the names of
 * itself and its ancestors, innermost first, and its tracks.
 */
module LevelSequence {
  import opened Wrappers
  import opened Text
  import opened DnaIo

  // ---------------------------------------------------------------------
  // Binding paths
  // ---------------------------------------------------------------------

  /**
   * The path `_get_binding_path` builds, walking up from `names[k]` with the
   * path so far in `acc`: while the parent has a non-empty name it is put in
   * front. A node past the end of `names` has an empty name.
   */
  function PathFrom(names: seq<string>, k: nat, acc: string): string
    requires k < |names|
    decreases |names| - k
  {
    var parentName := if k + 1 < |names| then names[k + 1] else "";
    if parentName != "" then PathFrom(names, k + 1, parentName + "/" + acc) else acc
  }

  /** The path of a binding whose own name and ancestors' names are `names`, innermost first. */
  function BindingPath(names: seq<string>): string
    requires |names| > 0
  {
    PathFrom(names, 0, names[0])
  }

  function Reverse(s: seq<string>): (r: seq<string>)
    ensures |r| == |s|
    ensures forall i :: 0 <= i < |s| ==> r[i] == s[|s| - 1 - i]
  {
    seq(|s|, i requires 0 <= i < |s| => s[|s| - 1 - i])
  }

  /** How far the walk goes: the first position after `k` whose name is empty, or the end. */
  function WalkEnd(names: seq<string>, k: nat): (m: nat)
    requires k < |names|
    ensures k < m <= |names|
    ensures forall j :: k < j < m ==> names[j] != ""
    ensures m < |names| ==> names[m] == ""
    decreases |names| - k
  {
    if k + 1 < |names| && names[k + 1] != "" then WalkEnd(names, k + 1) else k + 1
  }

  lemma JoinReverseStep(names: seq<string>, k: nat)
    requires k + 1 < |names|
    ensures Join(Reverse(names[..k + 2]), "/") == names[k + 1] + "/" + Join(Reverse(names[..k + 1]), "/")
  {
    var r := Reverse(names[..k + 2]);
    assert r[1..] == Reverse(names[..k + 1]);
  }

  lemma {:induction false} PathFromJoins(names: seq<string>, k: nat)
    requires k < |names|
    ensures PathFrom(names, k, Join(Reverse(names[..k + 1]), "/")) == Join(Reverse(names[..WalkEnd(names, k)]), "/")
    decreases |names| - k
  {
    if k + 1 < |names| && names[k + 1] != "" {
      JoinReverseStep(names, k);
      PathFromJoins(names, k + 1);
    }
  }

  /**
   * A binding's path is the names from its outermost ancestor reached
   * without passing an empty name, down to the binding, joined by `/`.
   */
  lemma BindingPathJoins(names: seq<string>)
    requires |names| > 0
    ensures BindingPath(names) == Join(Reverse(names[..WalkEnd(names, 0)]), "/")
  {
    assert Join(Reverse(names[..1]), "/") == names[0];
    PathFromJoins(names, 0);
  }

  /** A binding whose parent has an empty name is known by its own name alone. */
  lemma BindingPathOfTopLevel(names: seq<string>)
    requires |names| > 0
    requires |names| == 1 || names[1] == ""
    ensures BindingPath(names) == names[0]
  {
  }

  // ---------------------------------------------------------------------
  // Keyframes
  // ---------------------------------------------------------------------

  datatype ChannelKey = ChannelKey(frame: int, value: real)
  datatype Channel = Channel(name: string, keys: seq<ChannelKey>)
  datatype Section = Section(channels: seq<Channel>)
  datatype Track = Track(sections: seq<Section>)
  datatype Binding = Binding(names: seq<string>, tracks: seq<Track>)

  /** The keyframes of a channel as (frame, value) pairs. */
  function KeyPairs(keys: seq<ChannelKey>): (r: seq<(int, real)>)
    ensures |r| == |keys|
    ensures forall i :: 0 <= i < |keys| ==> r[i] == (keys[i].frame, keys[i].value)
  {
    seq(|keys|, i requires 0 <= i < |keys| => (keys[i].frame, keys[i].value))
  }

  /** `get_keyframes_from_channel`: one (frame, value) pair per key, in key order. */
  method KeyframesFromChannel(channel: Channel) returns (keys: seq<(int, real)>)
    ensures keys == KeyPairs(channel.keys)
  {
    keys := [];
    var i := 0;
    while i < |channel.keys|
      invariant 0 <= i <= |channel.keys|
      invariant |keys| == i
      invariant forall j :: 0 <= j < i ==> keys[j] == (channel.keys[j].frame, channel.keys[j].value)
    {
      var key := channel.keys[i];
      keys := keys + [(key.frame, key.value)];
      i := i + 1;
    }
  }

  /** The curve a channel keys: its name without the last `_` segment. */
  function CurveKey(channelName: string): string {
    var parts := Split(channelName, '_');
    Join(parts[..|parts| - 1], "_")
  }

  /** The name of a channel `<curve>_<component>` keys `<curve>`. */
  lemma CurveKeyOfChannel(curve: string, component: string)
    requires '_' !in component
    ensures CurveKey(curve + "_" + component) == curve
  {
    SplitConcat(curve, '_', component);
    assert curve + "_" + component == curve + ['_'] + component;
    SplitWithoutSeparator(component, '_');
    var parts := Split(curve + "_" + component, '_');
    assert parts[..|parts| - 1] == Split(curve, '_');
    JoinSplit(curve, '_');
  }

  /** The curves of a section, in channel order; channels without keys are skipped and a later channel wins. */
  function CurveKeyframes(channels: seq<Channel>): (data: map<string, seq<(int, real)>>)
    ensures forall c :: c in data ==> |data[c]| > 0
    decreases |channels|
  {
    if |channels| == 0 then map[]
    else
      var prev := CurveKeyframes(channels[..|channels| - 1]);
      var ch := channels[|channels| - 1];
      if |ch.keys| > 0 then prev[CurveKey(ch.name) := KeyPairs(ch.keys)] else prev
  }

  /** A curve is recorded exactly when some channel with keys names it. */
  lemma {:induction false} CurveKeyframesKeys(channels: seq<Channel>, curve: string)
    ensures curve in CurveKeyframes(channels) <==>
      exists i :: 0 <= i < |channels| && |channels[i].keys| > 0 && CurveKey(channels[i].name) == curve
    decreases |channels|
  {
    if |channels| > 0 {
      var init := channels[..|channels| - 1];
      CurveKeyframesKeys(init, curve);
      assert forall i :: 0 <= i < |init| ==> init[i] == channels[i];
    }
  }

  /** The last keyed channel of a curve decides its keyframes. */
  lemma {:induction false} CurveKeyframesLastWins(channels: seq<Channel>, i: nat)
    requires i < |channels| && |channels[i].keys| > 0
    requires forall j :: i < j < |channels| ==>
      |channels[j].keys| == 0 || CurveKey(channels[j].name) != CurveKey(channels[i].name)
    ensures CurveKey(channels[i].name) in CurveKeyframes(channels)
    ensures CurveKeyframes(channels)[CurveKey(channels[i].name)] == KeyPairs(channels[i].keys)
    decreases |channels|
  {
    if i < |channels| - 1 {
      var init := channels[..|channels| - 1];
      assert init[i] == channels[i];
      CurveKeyframesLastWins(init, i);
    }
  }

  /** The keyframes of a section's channels, one channel at a time. */
  method SectionKeyframes(section: Section) returns (data: map<string, seq<(int, real)>>)
    ensures data == CurveKeyframes(section.channels)
  {
    data := map[];
    var channels := section.channels;
    var i := 0;
    while i < |channels|
      invariant 0 <= i <= |channels|
      invariant data == CurveKeyframes(channels[..i])
    {
      assert channels[..i + 1][..i] == channels[..i];
      var keyframes := KeyframesFromChannel(channels[i]);
      var curve := CurveKey(channels[i].name);
      if |keyframes| > 0 {
        data := data[curve := keyframes];
      }
      i := i + 1;
    }
    assert channels[..i] == channels;
  }

  /** The binding the sequence's path table gives for a path: the last binding with that path. */
  function FindBinding(bindings: seq<Binding>, path: string): (r: Option<Binding>)
    requires forall i :: 0 <= i < |bindings| ==> |bindings[i].names| > 0
    ensures r.Some? ==> r.value in bindings && BindingPath(r.value.names) == path
    ensures r.None? <==> forall i :: 0 <= i < |bindings| ==> BindingPath(bindings[i].names) != path
    decreases |bindings|
  {
    if |bindings| == 0 then None
    else
      var last := bindings[|bindings| - 1];
      if BindingPath(last.names) == path then Some(last)
      else FindBinding(bindings[..|bindings| - 1], path)
  }

  /**
   * `get_sequence_track_keyframes`: the curves of the first section of the
   * first track of the binding at the path; nothing for an unknown path; an
   * `IndexError` when that binding has no track or its track no section.
   */
  method SequenceTrackKeyframes(bindings: seq<Binding>, bindingPath: string)
    returns (r: Result<map<string, seq<(int, real)>>, Exception>)
    requires forall i :: 0 <= i < |bindings| ==> |bindings[i].names| > 0
    ensures FindBinding(bindings, bindingPath).None? ==> r == Ok(map[])
    ensures FindBinding(bindings, bindingPath).Some? ==>
      var b := FindBinding(bindings, bindingPath).value;
      if |b.tracks| == 0 || |b.tracks[0].sections| == 0 then r == Err(IndexError(0))
      else r == Ok(CurveKeyframes(b.tracks[0].sections[0].channels))
  {
    var binding := FindBinding(bindings, bindingPath);
    if binding.None? {
      r := Ok(map[]);
    } else if |binding.value.tracks| == 0 || |binding.value.tracks[0].sections| == 0 {
      r := Err(IndexError(0));
    } else {
      var data := SectionKeyframes(binding.value.tracks[0].sections[0]);
      r := Ok(data);
    }
  }

  // ---------------------------------------------------------------------
  // New level sequences
  // ---------------------------------------------------------------------

  /** The asset path `create_level_sequence` asks for: the content folder between `/`s, then the name. */
  function LevelSequencePath(contentFolder: string, name: string): string {
    "/" + Join(Split(contentFolder, '/'), "/") + "/" + name
  }

  /** The folder is used as given, so a folder that starts with `/` gives a path starting `//`. */
  lemma LevelSequencePathKeepsFolder(contentFolder: string, name: string)
    ensures LevelSequencePath(contentFolder, name) == "/" + contentFolder + "/" + name
    ensures StartsWith(contentFolder, "/") ==> StartsWith(LevelSequencePath(contentFolder, name), "//")
  {
    JoinSplit(contentFolder, '/');
    var p := LevelSequencePath(contentFolder, name);
    if StartsWith(contentFolder, "/") {
      assert p[..2] == "//";
    }
  }
}
