// dna_io/misc.py: the error paths of the DNA reader and writer factories,
// and `create_shape_key`, which turns one DNA blend-shape target into a
// locked shape key (and a matching vertex group) on a mesh object.

module DnaMisc {
  import opened Geometry
  import opened Wrappers
  import opened Seqs
  import opened Text
  import opened DnaIo

  // ------------------------------------------------------------- factories

  /** The stream reader `get_dna_reader` hands back. */
  datatype StreamReader = BinaryStreamReader(dataLayer: string) | JsonStreamReader

  datatype StreamWriter = BinaryStreamWriter | JsonStreamWriter

  function InvalidFormat(fileFormat: string): Exception {
    ValueError("Invalid file format '" + fileFormat + "'. Must be 'binary' or 'json'.")
  }

  /**
   * `get_dna_reader`: `fileExists` says whether the file is there and `readOk`
   * is the library status after `read()`, whose message is `status`.
   */
  function GetDnaReader(path: string, fileFormat: string, dataLayer: string, fileExists: bool, readOk: bool, status: string)
    : (r: Result<StreamReader, Exception>)
    ensures !fileExists ==> r == Err(FileNotFoundError(path))
    ensures fileExists && Lower(fileFormat) != "json" && Lower(fileFormat) != "binary" ==> r == Err(InvalidFormat(fileFormat))
    ensures r.Ok? <==> fileExists && (Lower(fileFormat) == "json" || Lower(fileFormat) == "binary") && readOk
    ensures r.Ok? ==> (r.value == JsonStreamReader <==> Lower(fileFormat) == "json")
    ensures r.Ok? && r.value.BinaryStreamReader? ==> r.value.dataLayer == dataLayer
    ensures fileExists && (Lower(fileFormat) == "json" || Lower(fileFormat) == "binary") && !readOk ==>
      r == Err(RuntimeError(LoadFailed(status)))
  {
    if !fileExists then Err(FileNotFoundError(path))
    else
      var reader :=
        if Lower(fileFormat) == "json" then Ok(JsonStreamReader)
        else if Lower(fileFormat) == "binary" then Ok(BinaryStreamReader(dataLayer))
        else Err(InvalidFormat(fileFormat));
      if reader.Err? then reader
      else if !readOk then Err(RuntimeError(LoadFailed(status)))
      else reader
  }

  /** `get_dna_writer`: only the format can be rejected; nothing is read. */
  function GetDnaWriter(fileFormat: string): (r: Result<StreamWriter, Exception>)
    ensures r.Ok? <==> Lower(fileFormat) == "json" || Lower(fileFormat) == "binary"
    ensures r.Ok? ==> (r.value == JsonStreamWriter <==> Lower(fileFormat) == "json")
    ensures r.Err? ==> r.error == InvalidFormat(fileFormat)
  {
    if Lower(fileFormat) == "json" then Ok(JsonStreamWriter)
    else if Lower(fileFormat) == "binary" then Ok(BinaryStreamWriter)
    else Err(InvalidFormat(fileFormat))
  }

  /** The format is matched case-insensitively, by reader and writer alike. */
  lemma FormatCaseInsensitive(path: string, fileFormat: string, dataLayer: string, fileExists: bool, readOk: bool, status: string)
    ensures GetDnaReader(path, fileFormat, dataLayer, fileExists, readOk, status).Ok?
        == GetDnaReader(path, Lower(fileFormat), dataLayer, fileExists, readOk, status).Ok?
    ensures GetDnaReader(path, fileFormat, dataLayer, fileExists, readOk, status).Ok? ==>
      GetDnaReader(path, fileFormat, dataLayer, fileExists, readOk, status)
        == GetDnaReader(path, Lower(fileFormat), dataLayer, fileExists, readOk, status)
    ensures GetDnaWriter(fileFormat).Ok? == GetDnaWriter(Lower(fileFormat)).Ok?
  {
    LowerIdempotent(fileFormat);
  }

  // -------------------------------------------------------- create_shape_key

  /** A shape key block: its name, one coordinate per mesh vertex, and its lock flag. */
  datatype ShapeKey = ShapeKey(name: string, coords: seq<Vec3>, locked: bool)

  /** A vertex group: its name and the weight of each member vertex. */
  datatype VertexGroup = VertexGroup(name: string, weights: map<nat, real>)

  /** One row of `zip(vertex_indices, delta_xs, delta_ys, delta_zs)`. */
  datatype Entry = Entry(vertex: nat, delta: Vec3)

  /** The target's rows, stopping at the shortest of its four arrays. */
  function Entries(t: BlendShapeTarget): (es: seq<Entry>)
    ensures |es| == Min(|t.vertexIndices|, |Zip3(t.deltaXs, t.deltaYs, t.deltaZs)|)
    ensures forall k :: 0 <= k < |es| ==>
      es[k] == Entry(t.vertexIndices[k], Vec3(t.deltaXs[k], t.deltaYs[k], t.deltaZs[k]))
  {
    var ds := Zip3(t.deltaXs, t.deltaYs, t.deltaZs);
    seq(Min(|t.vertexIndices|, |ds|), k requires 0 <= k < Min(|t.vertexIndices|, |ds|) => Entry(t.vertexIndices[k], ds[k]))
  }

  function Min(a: nat, b: nat): nat { if a <= b then a else b }

  /** A DNA delta (Y-up) scaled by the linear modifier and rotated -90 degrees about X into Blender's Z-up frame. */
  function ImportedDelta(d: Vec3, lm: real): (r: Vec3)
    ensures r == Vec3(lm * d.x, lm * d.z, -(lm * d.y))
  {
    RotXNeg90(Scale(lm, d))
  }

  /** The coordinate loop: each in-range row sets its vertex to base plus the imported delta; an out-of-range row is skipped. */
  function ApplyEntries(coords: seq<Vec3>, base: seq<Vec3>, es: seq<Entry>, lm: real): (r: seq<Vec3>)
    requires |coords| == |base|
    ensures |r| == |coords|
    decreases |es|
  {
    if |es| == 0 then coords
    else
      var acc := ApplyEntries(coords, base, es[..|es| - 1], lm);
      var e := es[|es| - 1];
      if e.vertex < |base| then acc[e.vertex := Add(base[e.vertex], ImportedDelta(e.delta, lm))] else acc
  }

  /** The offset list: the in-range rows, in DNA order, whose scaled delta is longer than the threshold. */
  function OffsetIndices(n: nat, es: seq<Entry>, lm: real, threshold: real): (r: seq<nat>)
    decreases |es|
  {
    if |es| == 0 then []
    else
      var acc := OffsetIndices(n, es[..|es| - 1], lm, threshold);
      var e := es[|es| - 1];
      if e.vertex < n && LongerThan(Scale(lm, e.delta), threshold) then acc + [e.vertex] else acc
  }

  /** A vertex that no row names keeps the coordinate the key was created with. */
  lemma {:induction false} ApplyEntriesUntouched(coords: seq<Vec3>, base: seq<Vec3>, es: seq<Entry>, lm: real, v: nat)
    requires |coords| == |base| && v < |base|
    requires forall k :: 0 <= k < |es| ==> es[k].vertex != v
    ensures ApplyEntries(coords, base, es, lm)[v] == coords[v]
    decreases |es|
  {
    if |es| > 0 {
      var front := es[..|es| - 1];
      assert forall k :: 0 <= k < |front| ==> front[k] == es[k];
      ApplyEntriesUntouched(coords, base, front, lm, v);
    }
  }

  /**
   * A vertex named by rows ends at base plus the imported delta of the LAST
   * such row: an out-of-range row in between affects nothing, and the rows
   * after it still apply.
   */
  lemma {:induction false} ApplyEntriesLastRow(coords: seq<Vec3>, base: seq<Vec3>, es: seq<Entry>, lm: real, k: nat)
    requires |coords| == |base| && k < |es| && es[k].vertex < |base|
    requires forall j :: k < j < |es| ==> es[j].vertex != es[k].vertex
    ensures ApplyEntries(coords, base, es, lm)[es[k].vertex] == Add(base[es[k].vertex], ImportedDelta(es[k].delta, lm))
    decreases |es|
  {
    var front := es[..|es| - 1];
    if k < |es| - 1 {
      assert forall j :: 0 <= j < |front| ==> front[j] == es[j];
      ApplyEntriesLastRow(coords, base, front, lm, k);
    }
  }

  /** A row that goes into the offset list: in range, with a scaled delta longer than the threshold. */
  function IsOffsetRow(n: nat, lm: real, threshold: real): Entry -> bool {
    (e: Entry) => e.vertex < n && LongerThan(Scale(lm, e.delta), threshold)
  }

  /**
   * The offset list holds exactly the in-range indices whose scaled delta
   * exceeds the threshold, all of them below `n`. More precisely it is the
   * vertex of every such row, in DNA row order, a vertex named by several
   * such rows appearing once per row (`IndicesWhereMeaning` states that the
   * rows are increasing and that none is missed).
   */
  lemma {:induction false} OffsetIndicesMeaning(n: nat, es: seq<Entry>, lm: real, threshold: real)
    ensures forall v :: v in OffsetIndices(n, es, lm, threshold) <==>
      exists k :: 0 <= k < |es| && es[k].vertex == v && v < n && LongerThan(Scale(lm, es[k].delta), threshold)
    ensures |OffsetIndices(n, es, lm, threshold)| <= |es|
    ensures var rows := IndicesWhere(es, IsOffsetRow(n, lm, threshold));
      && |OffsetIndices(n, es, lm, threshold)| == |rows|
      && forall j :: 0 <= j < |rows| ==> OffsetIndices(n, es, lm, threshold)[j] == es[rows[j]].vertex
    decreases |es|
  {
    if |es| > 0 {
      var front := es[..|es| - 1];
      OffsetIndicesMeaning(n, front, lm, threshold);
      assert forall k :: 0 <= k < |front| ==> front[k] == es[k];
      var last := |es| - 1;
      assert IsOffsetRow(n, lm, threshold)(es[last]) <==>
        es[last].vertex < n && LongerThan(Scale(lm, es[last].delta), threshold);
      forall v | exists k :: 0 <= k < |es| && es[k].vertex == v && v < n && LongerThan(Scale(lm, es[k].delta), threshold)
        ensures v in OffsetIndices(n, es, lm, threshold)
      {
        var k :| 0 <= k < |es| && es[k].vertex == v && v < n && LongerThan(Scale(lm, es[k].delta), threshold);
        if k < last {
          assert front[k] == es[k];
        }
      }
    }
  }

  predicate UniqueKeyNames(keys: seq<ShapeKey>) {
    forall i, j :: 0 <= i < j < |keys| ==> keys[i].name != keys[j].name
  }

  predicate UniqueGroupNames(groups: seq<VertexGroup>) {
    forall i, j :: 0 <= i < j < |groups| ==> groups[i].name != groups[j].name
  }

  /** `shape_key_remove` of the key with the given name, if any: the others keep their order. */
  function WithoutKey(keys: seq<ShapeKey>, name: string): (r: seq<ShapeKey>)
    ensures forall k :: k in r <==> k in keys && k.name != name
  {
    if |keys| == 0 then []
    else WithoutKey(keys[..|keys| - 1], name) + (if keys[|keys| - 1].name != name then [keys[|keys| - 1]] else [])
  }

  function WithoutGroup(groups: seq<VertexGroup>, name: string): (r: seq<VertexGroup>)
    ensures forall g :: g in r <==> g in groups && g.name != name
  {
    if |groups| == 0 then []
    else WithoutGroup(groups[..|groups| - 1], name) + (if groups[|groups| - 1].name != name then [groups[|groups| - 1]] else [])
  }

  /** Removing a name and adding one key under it leaves names unique, with exactly one key under that name. */
  lemma {:induction false} ReplaceKeyKeepsUnique(keys: seq<ShapeKey>, key: ShapeKey)
    requires UniqueKeyNames(keys)
    ensures UniqueKeyNames(WithoutKey(keys, key.name) + [key])
    decreases |keys|
  {
    if |keys| > 0 {
      var front := keys[..|keys| - 1];
      ReplaceKeyKeepsUnique(front, key);
      var r := WithoutKey(front, key.name);
      var last := keys[|keys| - 1];
      if last.name != key.name {
        assert forall k :: k in r ==> k in front;
        assert forall i :: 0 <= i < |front| ==> front[i].name != last.name;
        var r2 := r + [last] + [key];
        assert WithoutKey(keys, key.name) + [key] == r2;
        forall i, j | 0 <= i < j < |r2|
          ensures r2[i].name != r2[j].name
        {
          if j == |r2| - 1 {
            assert r2[i] in WithoutKey(keys, key.name);
          } else if j == |r2| - 2 {
            assert r2[i] in r;
          } else {
            assert (r + [key])[i] == r2[i] && (r + [key])[j] == r2[j];
          }
        }
      } else {
        assert WithoutKey(keys, key.name) == r;
      }
    }
  }

  lemma {:induction false} ReplaceGroupKeepsUnique(groups: seq<VertexGroup>, group: VertexGroup)
    requires UniqueGroupNames(groups)
    ensures UniqueGroupNames(WithoutGroup(groups, group.name) + [group])
    decreases |groups|
  {
    if |groups| > 0 {
      var front := groups[..|groups| - 1];
      ReplaceGroupKeepsUnique(front, group);
      var r := WithoutGroup(front, group.name);
      var last := groups[|groups| - 1];
      if last.name != group.name {
        assert forall g :: g in r ==> g in front;
        assert forall i :: 0 <= i < |front| ==> front[i].name != last.name;
        var r2 := r + [last] + [group];
        assert WithoutGroup(groups, group.name) + [group] == r2;
        forall i, j | 0 <= i < j < |r2|
          ensures r2[i].name != r2[j].name
        {
          if j == |r2| - 1 {
            assert r2[i] in WithoutGroup(groups, group.name);
          } else if j == |r2| - 2 {
            assert r2[i] in r;
          } else {
            assert (r + [group])[i] == r2[i] && (r + [group])[j] == r2[j];
          }
        }
      } else {
        assert WithoutGroup(groups, group.name) == r;
      }
    }
  }

  /** Every member of the list at weight 1.0, as `vertex_group.add(..., 1.0, 'REPLACE')` leaves a fresh group. */
  function FullWeights(indices: seq<nat>): (w: map<nat, real>)
    ensures forall v :: v in w <==> v in indices
    ensures forall v :: v in w ==> w[v] == 1.0
  {
    map v | v in indices :: 1.0
  }

  /** The loop of `create_shape_key` over the target's rows: the key's coordinates and the offset list. */
  method ApplyTargetRows(mix: seq<Vec3>, vertices: seq<Vec3>, es: seq<Entry>, lm: real, threshold: real)
    returns (coords: seq<Vec3>, offsets: seq<nat>)
    requires |mix| == |vertices|
    ensures coords == ApplyEntries(mix, vertices, es, lm)
    ensures offsets == OffsetIndices(|vertices|, es, lm, threshold)
  {
    coords := mix;
    offsets := [];
    var i := 0;
    while i < |es|
      invariant i <= |es|
      invariant coords == ApplyEntries(mix, vertices, es[..i], lm)
      invariant offsets == OffsetIndices(|vertices|, es[..i], lm, threshold)
    {
      assert es[..i + 1][..i] == es[..i];
      var e := es[i];
      if e.vertex < |vertices| {
        coords := coords[e.vertex := Add(vertices[e.vertex], ImportedDelta(e.delta, lm))];
        if LongerThan(Scale(lm, e.delta), threshold) {
          offsets := offsets + [e.vertex];
        }
      }
      i := i + 1;
    }
    assert es[..i] == es;
  }

  /** A mesh object as `create_shape_key` sees it. */
  class MeshObject {
    var name: string
    /** `data.vertices[i].co`. */
    var vertices: seq<Vec3>
    /** `data.shape_keys.key_blocks`, each with one coordinate per vertex. */
    var keyBlocks: seq<ShapeKey>
    var vertexGroups: seq<VertexGroup>
    /** `active_shape_key_index`. */
    var activeShapeKeyIndex: int

    /** What Blender maintains: key blocks match the vertex count, and key and group names are unique. */
    predicate Valid()
      reads this
    {
      && (forall k :: 0 <= k < |keyBlocks| ==> |keyBlocks[k].coords| == |vertices|)
      && UniqueKeyNames(keyBlocks)
      && UniqueGroupNames(vertexGroups)
    }

    constructor(name: string, vertices: seq<Vec3>)
      ensures Valid()
      ensures this.name == name && this.vertices == vertices && keyBlocks == [] && vertexGroups == []
      ensures activeShapeKeyIndex == 0
    {
      this.name := name;
      this.vertices := vertices;
      keyBlocks := [];
      vertexGroups := [];
      activeShapeKeyIndex := 0;
    }

    /**
     * `create_shape_key`: replaces any key named `<prefix><name>` by a new one
     * made from `mix` (the evaluated shape `shape_key_add` copies), applies
     * the target's rows to it, recreates the vertex group
     * `<groupPrefix><name>` from the offset list, and locks the new key.
     * A mesh without key blocks has no `data.shape_keys`, so the first
     * lookup raises AttributeError and nothing changes.
     */
    method CreateShapeKey(target: BlendShapeTarget, keyName: string, prefix: string, groupPrefix: string,
                          lm: real, threshold: real, mix: seq<Vec3>)
      returns (err: Option<Exception>, key: ShapeKey, offsets: seq<nat>)
      requires Valid() && |mix| == |vertices|
      modifies this
      ensures Valid()
      ensures vertices == old(vertices) && name == old(name) && activeShapeKeyIndex == old(activeShapeKeyIndex)
      ensures err.Some? <==> |old(keyBlocks)| == 0
      ensures err.Some? ==>
        err.value == AttributeError("key_blocks") && keyBlocks == old(keyBlocks) && vertexGroups == old(vertexGroups)
      ensures err.None? ==>
        && key == ShapeKey(prefix + keyName, ApplyEntries(mix, vertices, Entries(target), lm), true)
        && offsets == OffsetIndices(|vertices|, Entries(target), lm, threshold)
        && keyBlocks == WithoutKey(old(keyBlocks), prefix + keyName) + [key]
        && vertexGroups == WithoutGroup(old(vertexGroups), groupPrefix + keyName)
                           + [VertexGroup(groupPrefix + keyName, FullWeights(offsets))]
    {
      var shapeKeyName := prefix + keyName;
      if |keyBlocks| == 0 {
        return Some(AttributeError("key_blocks")), ShapeKey(shapeKeyName, [], false), [];
      }
      err := None;
      keyBlocks := WithoutKey(keyBlocks, shapeKeyName);
      var coords;
      coords, offsets := ApplyTargetRows(mix, vertices, Entries(target), lm, threshold);
      var groupName := groupPrefix + keyName;
      vertexGroups := WithoutGroup(vertexGroups, groupName) + [VertexGroup(groupName, FullWeights(offsets))];
      key := ShapeKey(shapeKeyName, coords, true);
      keyBlocks := keyBlocks + [key];
      ReplaceKeyKeepsUnique(old(keyBlocks), key);
      ReplaceGroupKeepsUnique(old(vertexGroups), VertexGroup(groupName, FullWeights(offsets)));
    }
  }
}
