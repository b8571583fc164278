/**
 * The vertex-array helpers of the mesh utilities: offsetting and centring
 * vertices, zeroing the x of the vertices on the mirror plane, bounding-box
 * extents, the closest vertex, vertex-group membership and the LOD index
 * read from an object name.
 */
module MeshUtil {
  import opened Wrappers
  import opened Geometry
  import opened Text
  import opened DnaIo
  import Operators

  /** One mesh vertex: its coordinate, whether it is selected, and its weight in each vertex group it belongs to. */
  datatype MeshVertex = MeshVertex(co: Vec3, selected: bool, groups: map<nat, real>)

  /** A mesh's vertex coordinates, which the bmesh round trip (`from_mesh` … `to_mesh`) writes back. */
  class MeshData {
    var coords: seq<Vec3>

    constructor(coords: seq<Vec3>)
      ensures this.coords == coords
    {
      this.coords := coords;
    }
  }

  // ---------------------------------------------------------------------
  // Offsetting listed vertices
  // ---------------------------------------------------------------------

  predicate ValidIndices(indices: seq<int>, n: nat) {
    forall k :: 0 <= k < |indices| ==> -(n as int) <= indices[k] < n
  }

  /** The vertices after each listed index, in turn, is moved by `offset`. */
  function OffsetAll(coords: seq<Vec3>, indices: seq<int>, offset: Vec3): (r: seq<Vec3>)
    requires ValidIndices(indices, |coords|)
    ensures |r| == |coords|
  {
    if |indices| == 0 then coords
    else
      var before := OffsetAll(coords, indices[..|indices| - 1], offset);
      var v := Operators.PyIndex(indices[|indices| - 1], |coords|);
      before[v := Add(before[v], offset)]
  }

  /** How many entries of `indices` name vertex `v` (a negative index counts from the end). */
  function Occurrences(indices: seq<int>, v: nat, n: nat): nat
    requires ValidIndices(indices, n)
  {
    if |indices| == 0 then 0
    else Occurrences(indices[..|indices| - 1], v, n) + (if Operators.PyIndex(indices[|indices| - 1], n) == v then 1 else 0)
  }

  /** Each vertex moves by the offset once per time it is listed; an unlisted vertex stays where it is. */
  lemma {:induction false} OffsetAllCounts(coords: seq<Vec3>, indices: seq<int>, offset: Vec3, v: nat)
    requires ValidIndices(indices, |coords|)
    requires v < |coords|
    ensures OffsetAll(coords, indices, offset)[v]
            == Add(coords[v], Scale(Occurrences(indices, v, |coords|) as real, offset))
  {
    if |indices| > 0 {
      var init := indices[..|indices| - 1];
      OffsetAllCounts(coords, init, offset, v);
      var c := Occurrences(init, v, |coords|) as real;
      if Operators.PyIndex(indices[|indices| - 1], |coords|) == v {
        AddScaleStep(coords[v], c, offset);
      }
    }
  }

  /** Adding the offset once more after `c` times is adding it `c + 1` times. */
  lemma AddScaleStep(p: Vec3, c: real, offset: Vec3)
    ensures Add(Add(p, Scale(c, offset)), offset) == Add(p, Scale(c + 1.0, offset))
  {
    assert (c + 1.0) * offset.x == c * offset.x + offset.x;
    assert (c + 1.0) * offset.y == c * offset.y + offset.y;
    assert (c + 1.0) * offset.z == c * offset.z + offset.z;
  }

  /**
   * `update_vertex_positions`: each listed vertex of a bmesh copy is moved by
   * `offset`, then the copy is written back. An index outside the vertex
   * list fails before the write-back, so the mesh is left as it was.
   */
  method UpdateVertexPositions(mesh: MeshData, indices: seq<int>, offset: Vec3) returns (err: Option<Exception>)
    modifies mesh
    ensures err.None? <==> ValidIndices(indices, |old(mesh.coords)|)
    ensures err.None? ==> mesh.coords == OffsetAll(old(mesh.coords), indices, offset)
    ensures err.Some? ==> mesh.coords == old(mesh.coords)
    ensures err.Some? ==> err.value.IndexError? && err.value.index in indices
                          && !(-|old(mesh.coords)| <= err.value.index < |old(mesh.coords)|)
  {
    var coords := mesh.coords;
    var n := |coords|;
    err := None;
    var i := 0;
    while i < |indices| && err.None?
      invariant 0 <= i <= |indices|
      invariant |coords| == n
      invariant err.None? ==> ValidIndices(indices[..i], n) && coords == OffsetAll(mesh.coords, indices[..i], offset)
      invariant err.Some? ==> err.value.IndexError? && err.value.index in indices && !(-n <= err.value.index < n)
    {
      var index := indices[i];
      assert indices[..i + 1][..i] == indices[..i];
      if -n <= index < n {
        var v := Operators.PyIndex(index, n);
        coords := coords[v := Add(coords[v], offset)];
      } else {
        err := Some(IndexError(index));
      }
      i := i + 1;
    }
    if err.None? {
      assert indices[..i] == indices;
      mesh.coords := coords;
    }
  }

  // ---------------------------------------------------------------------
  // The mirror plane
  // ---------------------------------------------------------------------

  /** The default half-width of the band around x = 0 that counts as the middle. */
  const MiddleThreshold: real := 0.001

  predicate InMiddle(v: Vec3, threshold: real) {
    -threshold < v.x < threshold
  }

  /** One vertex after `zero_x_on_middle_vertices`: x snapped to 0 inside the band, nothing else changed. */
  function ZeroMiddleX(v: Vec3, threshold: real): (r: Vec3)
    ensures r.y == v.y && r.z == v.z
    ensures InMiddle(v, threshold) ==> r.x == 0.0
    ensures !InMiddle(v, threshold) ==> r == v
  {
    if InMiddle(v, threshold) then v.(x := 0.0) else v
  }

  /** `zero_x_on_middle_vertices`: every vertex strictly inside the band gets x = 0, through a bmesh copy. */
  method ZeroXOnMiddleVertices(mesh: MeshData, threshold: real)
    modifies mesh
    ensures |mesh.coords| == |old(mesh.coords)|
    ensures forall i :: 0 <= i < |mesh.coords| ==> mesh.coords[i] == ZeroMiddleX(old(mesh.coords)[i], threshold)
  {
    var coords := mesh.coords;
    var i := 0;
    while i < |coords|
      invariant 0 <= i <= |coords| == |mesh.coords|
      invariant forall k :: 0 <= k < i ==> coords[k] == ZeroMiddleX(mesh.coords[k], threshold)
      invariant forall k :: i <= k < |coords| ==> coords[k] == mesh.coords[k]
    {
      if -threshold < coords[i].x < threshold {
        coords := coords[i := coords[i].(x := 0.0)];
      }
      i := i + 1;
    }
    mesh.coords := coords;
  }

  /** Zeroing the middle twice is zeroing it once. */
  lemma ZeroMiddleXIdempotent(v: Vec3, threshold: real)
    ensures ZeroMiddleX(ZeroMiddleX(v, threshold), threshold) == ZeroMiddleX(v, threshold)
    ensures InMiddle(ZeroMiddleX(v, threshold), threshold) <==> InMiddle(v, threshold)
  {
  }

  /** The indices of the vertices strictly inside the band, ascending. */
  function MiddleIndices(coords: seq<Vec3>, threshold: real): (r: seq<nat>)
    ensures forall k :: 0 <= k < |r| ==> r[k] < |coords| && InMiddle(coords[r[k]], threshold)
    ensures forall k, l :: 0 <= k < l < |r| ==> r[k] < r[l]
    ensures forall i :: 0 <= i < |coords| && InMiddle(coords[i], threshold) ==> i in r
  {
    if |coords| == 0 then []
    else
      var before := MiddleIndices(coords[..|coords| - 1], threshold);
      assert forall i :: 0 <= i < |coords| - 1 ==> coords[..|coords| - 1][i] == coords[i];
      if InMiddle(coords[|coords| - 1], threshold) then before + [|coords| - 1] else before
  }

  /** `get_middle_vertices`: the loop collects the middle vertices in vertex order. */
  method GetMiddleVertices(mesh: MeshData) returns (verts: seq<nat>)
    ensures verts == MiddleIndices(mesh.coords, MiddleThreshold)
  {
    verts := [];
    var i := 0;
    while i < |mesh.coords|
      invariant 0 <= i <= |mesh.coords|
      invariant verts == MiddleIndices(mesh.coords[..i], MiddleThreshold)
    {
      assert mesh.coords[..i + 1][..i] == mesh.coords[..i];
      if MiddleThreshold > mesh.coords[i].x > -MiddleThreshold {
        verts := verts + [i];
      }
      i := i + 1;
    }
    assert mesh.coords[..i] == mesh.coords;
  }

  function ZeroedCoords(coords: seq<Vec3>, threshold: real): (r: seq<Vec3>)
    ensures |r| == |coords|
    ensures forall i :: 0 <= i < |coords| ==> r[i] == ZeroMiddleX(coords[i], threshold)
  {
    seq(|coords|, i requires 0 <= i < |coords| => ZeroMiddleX(coords[i], threshold))
  }

  /** Zeroing the middle does not change which vertices are in the middle. */
  lemma {:induction false} MiddleIndicesAfterZeroing(coords: seq<Vec3>, threshold: real)
    ensures MiddleIndices(ZeroedCoords(coords, threshold), threshold) == MiddleIndices(coords, threshold)
  {
    if |coords| > 0 {
      var init := coords[..|coords| - 1];
      MiddleIndicesAfterZeroing(init, threshold);
      assert ZeroedCoords(coords, threshold)[..|coords| - 1] == ZeroedCoords(init, threshold);
      ZeroMiddleXIdempotent(coords[|coords| - 1], threshold);
    }
  }

  // ---------------------------------------------------------------------
  // Centres
  // ---------------------------------------------------------------------

  function SumOf(vs: seq<Vec3>): Vec3 {
    if |vs| == 0 then Zero else Add(SumOf(vs[..|vs| - 1]), vs[|vs| - 1])
  }

  /** The component-wise mean. */
  function Mean(vs: seq<Vec3>): Vec3
    requires |vs| > 0
  {
    Div(SumOf(vs), |vs| as real)
  }

  function Translated(vs: seq<Vec3>, offset: Vec3): (r: seq<Vec3>)
    ensures |r| == |vs|
    ensures forall i :: 0 <= i < |vs| ==> r[i] == Add(vs[i], offset)
  {
    seq(|vs|, i requires 0 <= i < |vs| => Add(vs[i], offset))
  }

  lemma {:induction false} SumOfTranslated(vs: seq<Vec3>, offset: Vec3)
    ensures SumOf(Translated(vs, offset)) == Add(SumOf(vs), Scale(|vs| as real, offset))
  {
    if |vs| > 0 {
      var init := vs[..|vs| - 1];
      SumOfTranslated(init, offset);
      assert Translated(vs, offset)[..|vs| - 1] == Translated(init, offset);
      var s := SumOf(init);
      var last := vs[|vs| - 1];
      AddScaleStep(Add(s, last), |init| as real, offset);
      assert SumOf(Translated(vs, offset)) == Add(Add(s, Scale(|init| as real, offset)), Add(last, offset));
    }
  }

  lemma DivideShifted(a: real, n: real, b: real)
    requires n != 0.0
    ensures (a + n * b) / n == a / n + b
  {
    assert (a / n + b) * n == a + n * b;
  }

  lemma DivideShiftedVec(s: Vec3, n: real, offset: Vec3)
    requires n != 0.0
    ensures Div(Add(s, Scale(n, offset)), n) == Add(Div(s, n), offset)
  {
    DivideShifted(s.x, n, offset.x);
    DivideShifted(s.y, n, offset.y);
    DivideShifted(s.z, n, offset.z);
  }

  /** Moving every point by an offset moves their centre by that offset. */
  lemma MeanOfTranslated(vs: seq<Vec3>, offset: Vec3)
    requires |vs| > 0
    ensures Mean(Translated(vs, offset)) == Add(Mean(vs), offset)
  {
    SumOfTranslated(vs, offset);
    DivideShiftedVec(SumOf(vs), |vs| as real, offset);
  }

  /** The coordinates of the selected vertices, in vertex order. */
  function SelectedCoords(vertices: seq<MeshVertex>): (r: seq<Vec3>)
    ensures |r| <= |vertices|
  {
    if |vertices| == 0 then []
    else
      var before := SelectedCoords(vertices[..|vertices| - 1]);
      if vertices[|vertices| - 1].selected then before + [vertices[|vertices| - 1].co] else before
  }

  /** The summing loop of the two centre functions. */
  method SumLoop(vs: seq<Vec3>) returns (sum: Vec3)
    ensures sum == SumOf(vs)
  {
    var sumX, sumY, sumZ := 0.0, 0.0, 0.0;
    var i := 0;
    while i < |vs|
      invariant 0 <= i <= |vs|
      invariant Vec3(sumX, sumY, sumZ) == SumOf(vs[..i])
    {
      assert vs[..i + 1][..i] == vs[..i];
      sumX, sumY, sumZ := sumX + vs[i].x, sumY + vs[i].y, sumZ + vs[i].z;
      i := i + 1;
    }
    assert vs[..i] == vs;
    sum := Vec3(sumX, sumY, sumZ);
  }

  /** `get_center_of_selected_vertices`: the origin when nothing is selected, otherwise the selection's mean. */
  method CenterOfSelectedVertices(vertices: seq<MeshVertex>) returns (center: Vec3)
    ensures |SelectedCoords(vertices)| == 0 ==> center == Zero
    ensures |SelectedCoords(vertices)| > 0 ==> center == Mean(SelectedCoords(vertices))
  {
    var selected := SelectedCoords(vertices);
    if |selected| == 0 {
      center := Zero;
    } else {
      var sum := SumLoop(selected);
      center := Div(sum, |selected| as real);
    }
  }

  /** `get_center_of_vectors`: the mean; with no vectors the division by zero raises. */
  method CenterOfVectors(vectors: seq<Vec3>) returns (r: Result<Vec3, Exception>)
    ensures |vectors| == 0 ==> r == Err(ZeroDivisionError)
    ensures |vectors| > 0 ==> r == Ok(Mean(vectors))
  {
    var sum := SumLoop(vectors);
    if |vectors| == 0 {
      r := Err(ZeroDivisionError);
    } else {
      r := Ok(Div(sum, |vectors| as real));
    }
  }

  // ---------------------------------------------------------------------
  // Bounding boxes
  // ---------------------------------------------------------------------

  function MaxOf(xs: seq<real>): (m: real)
    requires |xs| > 0
    ensures m in xs && forall i :: 0 <= i < |xs| ==> xs[i] <= m
  {
    if |xs| == 1 then xs[0]
    else
      var rest := MaxOf(xs[1..]);
      assert forall i :: 1 <= i < |xs| ==> xs[1..][i - 1] == xs[i];
      if xs[0] >= rest then xs[0] else rest
  }

  function MinOf(xs: seq<real>): (m: real)
    requires |xs| > 0
    ensures m in xs && forall i :: 0 <= i < |xs| ==> m <= xs[i]
  {
    if |xs| == 1 then xs[0]
    else
      var rest := MinOf(xs[1..]);
      assert forall i :: 1 <= i < |xs| ==> xs[1..][i - 1] == xs[i];
      if xs[0] <= rest then xs[0] else rest
  }

  function Xs(corners: seq<Vec3>): (r: seq<real>)
    ensures |r| == |corners| && forall i :: 0 <= i < |corners| ==> r[i] == corners[i].x
  {
    seq(|corners|, i requires 0 <= i < |corners| => corners[i].x)
  }

  function Zs(corners: seq<Vec3>): (r: seq<real>)
    ensures |r| == |corners| && forall i :: 0 <= i < |corners| ==> r[i] == corners[i].z
  {
    seq(|corners|, i requires 0 <= i < |corners| => corners[i].z)
  }

  /** `get_bounding_box_width`: 0 without a bounding box, otherwise the spread of the corners' x, never negative. */
  function BoundingBoxWidth(boundBox: seq<Vec3>): (w: real)
    ensures w >= 0.0
    ensures |boundBox| == 0 ==> w == 0.0
    ensures |boundBox| > 0 ==> forall i :: 0 <= i < |boundBox| ==> MinOf(Xs(boundBox)) <= boundBox[i].x <= MinOf(Xs(boundBox)) + w
    ensures |boundBox| > 0 ==> exists i, j :: 0 <= i < |boundBox| && 0 <= j < |boundBox| && w == boundBox[i].x - boundBox[j].x
  {
    if |boundBox| == 0 then 0.0
    else
      var xs := Xs(boundBox);
      var i :| 0 <= i < |xs| && xs[i] == MaxOf(xs);
      var j :| 0 <= j < |xs| && xs[j] == MinOf(xs);
      MaxOf(xs) - MinOf(xs)
  }

  /** `get_bounding_box_height`: the same spread over z. */
  function BoundingBoxHeight(boundBox: seq<Vec3>): (h: real)
    ensures h >= 0.0
    ensures |boundBox| == 0 ==> h == 0.0
    ensures |boundBox| > 0 ==> forall i :: 0 <= i < |boundBox| ==> MinOf(Zs(boundBox)) <= boundBox[i].z <= MinOf(Zs(boundBox)) + h
    ensures |boundBox| > 0 ==> exists i, j :: 0 <= i < |boundBox| && 0 <= j < |boundBox| && h == boundBox[i].z - boundBox[j].z
  {
    if |boundBox| == 0 then 0.0
    else
      var zs := Zs(boundBox);
      var i :| 0 <= i < |zs| && zs[i] == MaxOf(zs);
      var j :| 0 <= j < |zs| && zs[j] == MinOf(zs);
      MaxOf(zs) - MinOf(zs)
  }

  const EmptyMinMessage := "min() arg is an empty sequence"
  const EmptyMaxMessage := "max() arg is an empty sequence"

  /** `get_bounding_box_left_x`: the smallest x of the world-space corners. */
  function BoundingBoxLeftX(worldCorners: seq<Vec3>): (r: Result<real, Exception>)
    ensures r.Err? <==> |worldCorners| == 0
    ensures r.Err? ==> r.error == ValueError(EmptyMinMessage)
    ensures r.Ok? ==> r.value in Xs(worldCorners) && forall i :: 0 <= i < |worldCorners| ==> r.value <= worldCorners[i].x
  {
    if |worldCorners| == 0 then Err(ValueError(EmptyMinMessage)) else Ok(MinOf(Xs(worldCorners)))
  }

  /** `get_bounding_box_right_x`: the largest x of the world-space corners. */
  function BoundingBoxRightX(worldCorners: seq<Vec3>): (r: Result<real, Exception>)
    ensures r.Err? <==> |worldCorners| == 0
    ensures r.Err? ==> r.error == ValueError(EmptyMaxMessage)
    ensures r.Ok? ==> r.value in Xs(worldCorners) && forall i :: 0 <= i < |worldCorners| ==> worldCorners[i].x <= r.value
  {
    if |worldCorners| == 0 then Err(ValueError(EmptyMaxMessage)) else Ok(MaxOf(Xs(worldCorners)))
  }

  /** The left edge is never to the right of the right edge, and their distance is the width of the same corners. */
  lemma LeftOfRight(corners: seq<Vec3>)
    requires |corners| > 0
    ensures BoundingBoxLeftX(corners).value <= BoundingBoxRightX(corners).value
    ensures BoundingBoxRightX(corners).value - BoundingBoxLeftX(corners).value == BoundingBoxWidth(corners)
  {
    assert corners[0].x in Xs(corners);
  }

  /** `get_bounding_box_center`: the corner sum divided by 8, the mean of the eight corners of a bounding box. */
  function BoundingBoxCenter(worldCorners: seq<Vec3>): (c: Vec3)
    ensures |worldCorners| == 8 ==> c == Mean(worldCorners)
  {
    Div(SumOf(worldCorners), 8.0)
  }

  // ---------------------------------------------------------------------
  // Closest vertex
  // ---------------------------------------------------------------------

  function DistanceSq(a: Vec3, b: Vec3): real {
    LengthSq(Sub(a, b))
  }

  /** The index `min` settles on: the first vertex of smallest squared distance. */
  function ClosestIndex(vertices: seq<Vec3>, position: Vec3): (k: nat)
    requires |vertices| > 0
    ensures k < |vertices|
    ensures forall j :: 0 <= j < |vertices| ==> DistanceSq(position, vertices[k]) <= DistanceSq(position, vertices[j])
    ensures forall j :: 0 <= j < k ==> DistanceSq(position, vertices[j]) > DistanceSq(position, vertices[k])
  {
    if |vertices| == 1 then 0
    else
      var b := ClosestIndex(vertices[..|vertices| - 1], position);
      var last := |vertices| - 1;
      assert forall j :: 0 <= j < last ==> vertices[..last][j] == vertices[j];
      if DistanceSq(position, vertices[last]) < DistanceSq(position, vertices[b]) then last else b
  }

  /** `find_closest_vertex`: a vertex nearest to `position`, the first one on a tie; an empty list fails as `min` does. */
  function FindClosestVertex(vertices: seq<Vec3>, position: Vec3): (r: Result<Vec3, Exception>)
    ensures r.Err? <==> |vertices| == 0
    ensures r.Err? ==> r.error == ValueError(EmptyMinMessage)
    ensures r.Ok? ==> r.value in vertices
    ensures r.Ok? ==> forall j :: 0 <= j < |vertices| ==> DistanceSq(position, r.value) <= DistanceSq(position, vertices[j])
  {
    if |vertices| == 0 then Err(ValueError(EmptyMinMessage))
    else Ok(vertices[ClosestIndex(vertices, position)])
  }

  // ---------------------------------------------------------------------
  // Vertex groups
  // ---------------------------------------------------------------------

  predicate InGroupAtLeast(v: MeshVertex, group: nat, threshold: real) {
    group in v.groups && v.groups[group] >= threshold
  }

  /** The indices of the vertices in `group` with weight at least `threshold`, ascending. */
  function GroupMembers(vertices: seq<MeshVertex>, group: nat, threshold: real): (r: seq<nat>)
    ensures forall k :: 0 <= k < |r| ==> r[k] < |vertices| && InGroupAtLeast(vertices[r[k]], group, threshold)
    ensures forall k, l :: 0 <= k < l < |r| ==> r[k] < r[l]
    ensures forall i :: 0 <= i < |vertices| && InGroupAtLeast(vertices[i], group, threshold) ==> i in r
  {
    if |vertices| == 0 then []
    else
      var last := |vertices| - 1;
      var before := GroupMembers(vertices[..last], group, threshold);
      assert forall i :: 0 <= i < last ==> vertices[..last][i] == vertices[i];
      if InGroupAtLeast(vertices[last], group, threshold) then before + [last] else before
  }

  /** `get_vertex_group_vertices`: nothing for a missing group (`group` is its index, None when absent). */
  function VertexGroupVertices(vertices: seq<MeshVertex>, group: Option<nat>, threshold: real): (r: seq<nat>)
    ensures group.None? ==> r == []
    ensures group.Some? ==> forall i :: 0 <= i < |vertices| ==> (i in r <==> InGroupAtLeast(vertices[i], group.value, threshold))
    ensures forall k, l :: 0 <= k < l < |r| ==> r[k] < r[l]
  {
    if group.None? then [] else GroupMembers(vertices, group.value, threshold)
  }

  // ---------------------------------------------------------------------
  // LOD index
  // ---------------------------------------------------------------------

  /**
   * `get_lod_index`: `search` is what `re.search(LOD_REGEX, name)` gives:
   * None for no match, otherwise the match's groups (a group that took no
   * part is None). Only the last character of the last group is read.
   */
  function LodIndex(search: Option<seq<Option<string>>>): (r: Result<int, Exception>)
    ensures search.None? <==> r == Ok(-1)
    ensures r.Ok? ==> -1 <= r.value <= 9
    ensures search.Some? && |search.value| == 0 ==> r == Err(IndexError(-1))
  {
    if search.None? then Ok(-1)
    else if |search.value| == 0 then Err(IndexError(-1))
    else
      match search.value[|search.value| - 1]
      case None => Err(TypeError("'NoneType' object is not subscriptable"))
      case Some(lod) =>
        if |lod| == 0 then Err(IndexError(-1))
        else
          match DigitValue(lod[|lod| - 1])
          case None => Err(ValueError("invalid literal for int() with base 10: '" + [lod[|lod| - 1]] + "'"))
          case Some(d) => Ok(d)
  }

  /** A last group ending in a digit gives that digit, whatever precedes it (so `lod12` reads as 2). */
  lemma LodIndexLastDigitOnly(groups: seq<Option<string>>, prefix: string, d: nat)
    requires d < 10
    ensures LodIndex(Some(groups + [Some(prefix + [DigitChar(d)])])) == Ok(d)
  {
    var lod := prefix + [DigitChar(d)];
    assert (groups + [Some(lod)])[|groups|] == Some(lod);
    assert lod[|lod| - 1] == DigitChar(d);
  }
}
