// operators.py: the list operators (add, remove, move) on Blender collection
// properties, the modal progress queue, locking the other shape keys, the
// re-import of one shape key from the DNA file, and the bake checks.

module Operators {
  import opened Wrappers
  import opened Geometry
  import opened Text
  import opened DnaIo
  import opened DnaMisc
  import Calibrator
  import Head

  // ------------------------------------------------------------ list edits

  /** The list with entry `i` taken out. */
  function Removed<T>(s: seq<T>, i: nat): (r: seq<T>)
    requires i < |s|
    ensures |r| == |s| - 1
    ensures forall k :: 0 <= k < i ==> r[k] == s[k]
    ensures forall k :: i <= k < |r| ==> r[k] == s[k + 1]
  {
    s[..i] + s[i + 1..]
  }

  /** The list with `x` put in at position `i`. */
  function Inserted<T>(s: seq<T>, i: nat, x: T): (r: seq<T>)
    requires i <= |s|
    ensures |r| == |s| + 1
    ensures r[i] == x
    ensures forall k :: 0 <= k < i ==> r[k] == s[k]
    ensures forall k :: i < k < |r| ==> r[k] == s[k - 1]
  {
    s[..i] + [x] + s[i..]
  }

  /** `collection.move(from, to)`: the entry is taken out and put back in at `to`. */
  function Moved<T>(s: seq<T>, from: nat, to: nat): (r: seq<T>)
    requires from < |s| && to < |s|
    ensures |r| == |s|
  {
    Inserted(Removed(s, from), to, s[from])
  }

  /** Moving reorders the list and nothing else: the moved entry is at `to`, and the others keep their relative order. */
  lemma MovedMeaning<T>(s: seq<T>, from: nat, to: nat)
    requires from < |s| && to < |s|
    ensures Moved(s, from, to)[to] == s[from]
    ensures Removed(Moved(s, from, to), to) == Removed(s, from)
    ensures multiset(Moved(s, from, to)) == multiset(s)
  {
    var r := Removed(s, from);
    assert s == s[..from] + [s[from]] + s[from + 1..];
    assert r == s[..from] + s[from + 1..];
    assert Moved(s, from, to) == r[..to] + [s[from]] + r[to..];
    assert r == r[..to] + r[to..];
    assert Removed(Moved(s, from, to), to) == r[..to] + r[to..];
    calc {
      multiset(Moved(s, from, to));
      multiset(r[..to]) + multiset([s[from]]) + multiset(r[to..]);
      multiset(r) + multiset([s[from]]);
      multiset(s[..from]) + multiset(s[from + 1..]) + multiset([s[from]]);
      multiset(s);
    }
  }

  /** A move is undone by the move back. */
  lemma MovedBack<T>(s: seq<T>, from: nat, to: nat)
    requires from < |s| && to < |s|
    ensures Moved(Moved(s, from, to), to, from) == s
  {
    MovedMeaning(s, from, to);
    var m := Moved(s, from, to);
    assert Moved(m, to, from) == Inserted(Removed(s, from), from, s[from]);
    assert s == s[..from] + [s[from]] + s[from + 1..];
  }

  /** Moving to a neighbouring position swaps the two entries. */
  lemma MovedNeighbourSwaps<T>(s: seq<T>, from: nat, to: nat)
    requires from < |s| && to < |s| && (to == from + 1 || from == to + 1)
    ensures Moved(s, from, to) == s[from := s[to]][to := s[from]]
  {
  }

  /** Appending, then moving the new last entry to `i`, inserts it at `i`. */
  lemma AppendThenMove<T>(s: seq<T>, x: T, i: nat)
    requires i <= |s|
    ensures Moved(s + [x], |s|, i) == Inserted(s, i, x)
  {
    assert Removed(s + [x], |s|) == s;
  }

  /**
   * A Blender collection property with its active-index property. A
   * position outside the list makes `remove` and `move` fail with an error
   * and leave the collection as it was.
   */
  class UiList<T> {
    var items: seq<T>
    var activeIndex: int

    constructor(items: seq<T>, activeIndex: int)
      ensures this.items == items && this.activeIndex == activeIndex
    {
      this.items := items;
      this.activeIndex := activeIndex;
    }

    /** `collection.remove(i)`. */
    method RemoveAt(i: int) returns (err: Option<Exception>)
      modifies this
      ensures err.None? <==> 0 <= i < |old(items)|
      ensures err.None? ==> items == Removed(old(items), i)
      ensures err.Some? ==> err == Some(IndexError(i)) && items == old(items)
      ensures activeIndex == old(activeIndex)
    {
      if 0 <= i < |items| {
        items := Removed(items, i);
        err := None;
      } else {
        err := Some(IndexError(i));
      }
    }

    /** `collection.add()`: a new default entry at the end. */
    method Append(x: T)
      modifies this
      ensures items == old(items) + [x] && activeIndex == old(activeIndex)
    {
      items := items + [x];
    }

    /** `collection.move(from, to)`. */
    method MoveEntry(from: int, to: int) returns (err: Option<Exception>)
      modifies this
      ensures err.None? <==> 0 <= from < |old(items)| && 0 <= to < |old(items)|
      ensures err.None? ==> items == Moved(old(items), from, to)
      ensures err.Some? ==> err == Some(IndexError(if 0 <= from < |old(items)| then to else from)) && items == old(items)
      ensures activeIndex == old(activeIndex)
    {
      if !(0 <= from < |items|) {
        err := Some(IndexError(from));
      } else if !(0 <= to < |items|) {
        err := Some(IndexError(to));
      } else {
        items := Moved(items, from, to);
        err := None;
      }
    }
  }

  function MinInt(a: int, b: int): int { if a <= b then a else b }

  /**
   * The remove operators: the entry at `active` goes, and the active index
   * becomes min(active, new length - 1), so -1 once the list is empty.
   */
  method RemoveEntry<T>(list: UiList<T>, active: int) returns (err: Option<Exception>)
    modifies list
    ensures err.None? <==> 0 <= active < |old(list.items)|
    ensures err.None? ==> list.items == Removed(old(list.items), active)
                          && list.activeIndex == MinInt(active, |list.items| - 1)
    ensures err.Some? ==> list.items == old(list.items) && list.activeIndex == old(list.activeIndex)
  {
    err := list.RemoveAt(active);
    if err.None? {
      list.activeIndex := MinInt(active, |list.items| - 1);
    }
  }

  /** After a remove the active index points into the list, unless the list became empty. */
  lemma RemovedActiveInRange(n: nat, active: nat)
    requires active < n
    ensures n - 1 == 0 ==> MinInt(active, n - 1 - 1) == -1
    ensures n - 1 > 0 ==> 0 <= MinInt(active, n - 1 - 1) < n - 1
  {
  }

  /**
   * The rig-logic remove: the instance is first looked up with Python
   * indexing (a negative index counts from the end), so only an index
   * outside -n .. n-1 fails there; the collection's `remove` then rejects a
   * negative index. (The instance's objects, images and collections are
   * deleted in between; that is not part of this model.)
   */
  method RemoveInstanceEntry<T>(list: UiList<T>, active: int) returns (err: Option<Exception>)
    modifies list
    ensures !(-|old(list.items)| <= active < |old(list.items)|) ==> err == Some(IndexError(active))
    ensures err.None? <==> 0 <= active < |old(list.items)|
    ensures err.None? ==> list.items == Removed(old(list.items), active)
                          && list.activeIndex == MinInt(active, |list.items| - 1)
    ensures err.Some? ==> list.items == old(list.items) && list.activeIndex == old(list.activeIndex)
  {
    if !(-|list.items| <= active < |list.items|) {
      return Some(IndexError(active));
    }
    err := RemoveEntry(list, active);
  }

  /**
   * The add operators: a new entry is appended and moved to
   * min(length, active + 1), which becomes the active index. An active
   * index below -1 gives a negative position: the move fails and the new
   * entry stays at the end.
   */
  method AddEntry<T>(list: UiList<T>, active: int, x: T) returns (err: Option<Exception>)
    modifies list
    ensures var to := MinInt(|old(list.items)|, active + 1);
      && (to >= 0 ==> err.None? && list.items == Inserted(old(list.items), to, x) && list.activeIndex == to)
      && (to < 0 ==> err == Some(IndexError(to)) && list.items == old(list.items) + [x]
                     && list.activeIndex == old(list.activeIndex))
  {
    var to := MinInt(|list.items|, active + 1);
    ghost var before := list.items;
    list.Append(x);
    err := list.MoveEntry(|list.items| - 1, to);
    if err.None? {
      AppendThenMove(before, x, to);
      list.activeIndex := to;
    }
  }

  /** The new entry is the active one, and the old entries keep their order around it. */
  lemma AddedEntryIsActive<T>(s: seq<T>, active: int, x: T)
    requires MinInt(|s|, active + 1) >= 0
    ensures var to := MinInt(|s|, active + 1);
      && Inserted(s, to, x)[to] == x
      && Removed(Inserted(s, to, x), to) == s
  {
    var to := MinInt(|s|, active + 1);
    assert Removed(Inserted(s, to, x), to) == s[..to] + s[to..];
  }

  // ------------------------------------------------------ moving instances

  /** A scene object; only its x location matters to the move. */
  class SceneObject {
    var x: real

    constructor(x: real)
      ensures this.x == x
    {
      this.x := x;
    }
  }

  /** A rig-logic instance and the scene objects it points at (none where unset). */
  class RigLogicInstance {
    const name: string
    const headMesh: SceneObject?
    const headRig: SceneObject?
    const bodyMesh: SceneObject?
    const bodyRig: SceneObject?
    const faceBoard: SceneObject?

    constructor(name: string, headMesh: SceneObject?, headRig: SceneObject?, bodyMesh: SceneObject?,
                bodyRig: SceneObject?, faceBoard: SceneObject?)
      ensures this.name == name && this.headMesh == headMesh && this.headRig == headRig
      ensures this.bodyMesh == bodyMesh && this.bodyRig == bodyRig && this.faceBoard == faceBoard
    {
      this.name := name;
      this.headMesh := headMesh;
      this.headRig := headRig;
      this.bodyMesh := bodyMesh;
      this.bodyRig := bodyRig;
      this.faceBoard := faceBoard;
    }
  }

  datatype Direction = Up | Down

  function Delta(d: Direction): int {
    match d
    case Down => 1
    case Up => -1
  }

  /** `(active + delta) % len`, Python's remainder with a positive divisor: always a position in the list. */
  function MoveTarget(active: int, d: Direction, n: nat): (t: int)
    requires n > 0
    ensures 0 <= t < n
  {
    (active + Delta(d)) % n
  }

  /** Moving wraps at the ends and otherwise goes to the neighbour. */
  lemma MoveTargetWraps(active: int, d: Direction, n: nat)
    requires n > 0 && 0 <= active < n
    ensures d == Down && active == n - 1 ==> MoveTarget(active, d, n) == 0
    ensures d == Up && active == 0 ==> MoveTarget(active, d, n) == n - 1
    ensures d == Down && active < n - 1 ==> MoveTarget(active, d, n) == active + 1
    ensures d == Up && active > 0 ==> MoveTarget(active, d, n) == active - 1
  {
    var x := active + Delta(d);
    if x == n {
      ModSelf(n);
    } else if x == -1 {
      ModOfShifted(-1, n);
    } else {
      ModSmall(x, n);
    }
  }

  lemma ModSmall(x: int, n: nat)
    requires 0 <= x < n
    ensures x % n == x
  {
  }

  lemma ModSelf(n: nat)
    requires n > 0
    ensures n % n == 0
  {
  }

  lemma ModOfShifted(x: int, n: nat)
    requires n > 0 && -(n as int) <= x < 0
    ensures x % n == x + n
  {
  }

  /** Every scene object reference the instances hold: what a move may change. */
  function RigObjects(items: seq<RigLogicInstance>): set<SceneObject?> {
    (set i | i in items :: i.headRig) + (set i | i in items :: i.bodyRig) + (set i | i in items :: i.faceBoard)
  }

  /** No two of these references are the same object. */
  predicate Distinct4(a: SceneObject?, b: SceneObject?, c: SceneObject?, d: SceneObject?) {
    a != b && a != c && a != d && b != c && b != d && c != d
  }

  /** Python indexing: a negative index counts from the end. */
  function PyIndex(i: int, n: nat): nat
    requires -(n as int) <= i < n
  {
    if i < 0 then i + n else i
  }

  /** A reference that is unset or is not the other object. */
  predicate Apart(a: SceneObject?, b: SceneObject?) {
    a == null || a != b
  }

  /** Two different instances whose set references are all different objects. */
  predicate NoSharedObjects(f: RigLogicInstance, t: RigLogicInstance) {
    && f != t
    && Apart(f.bodyRig, t.bodyRig) && Apart(f.bodyRig, f.headRig) && Apart(f.bodyRig, t.headRig)
    && Apart(f.bodyRig, f.faceBoard) && Apart(f.bodyRig, t.faceBoard)
    && Apart(t.bodyRig, f.headRig) && Apart(t.bodyRig, t.headRig) && Apart(t.bodyRig, f.faceBoard) && Apart(t.bodyRig, t.faceBoard)
    && Apart(f.headRig, t.headRig) && Apart(f.headRig, f.faceBoard) && Apart(f.headRig, t.faceBoard)
    && Apart(t.headRig, f.faceBoard) && Apart(t.headRig, t.faceBoard)
    && Apart(f.faceBoard, t.faceBoard)
  }

  /** As `NoSharedObjects` with every reference set, except that the two instances share one face board. */
  predicate SharedFaceBoard(f: RigLogicInstance, t: RigLogicInstance) {
    && f != t
    && f.bodyRig != null && t.bodyRig != null && f.headRig != null && t.headRig != null
    && f.faceBoard != null && t.faceBoard == f.faceBoard
    && Distinct4(f.bodyRig, t.bodyRig, f.headRig, t.headRig)
    && f.faceBoard != f.bodyRig && f.faceBoard != t.bodyRig && f.faceBoard != f.headRig && f.faceBoard != t.headRig
  }

  predicate BothBodyRigs(f: RigLogicInstance, t: RigLogicInstance) {
    f.bodyRig != null && t.bodyRig != null
  }

  predicate BothHeadRigs(f: RigLogicInstance, t: RigLogicInstance) {
    f.headRig != null && t.headRig != null
  }

  /** The exchange reads `location` of an unset reference: a missing head rig or face board in the branch taken. */
  predicate ExchangeFails(f: RigLogicInstance, t: RigLogicInstance) {
    || (BothBodyRigs(f, t) && (t.headRig == null || f.headRig == null || t.faceBoard == null || f.faceBoard == null))
    || (!BothBodyRigs(f, t) && BothHeadRigs(f, t) && (t.faceBoard == null || f.faceBoard == null))
  }

  /**
   * What the location exchange from instance `f` to instance `t` does to the
   * x locations, the assignments before a failing one included:
   * - with a body rig on both, the body rigs exchange their x, the head
   *   rigs take the body rigs' x, and each face board is shifted by the
   *   difference, as far as the references are set;
   * - otherwise with a head rig on both, the same with the head rigs;
   * - otherwise nothing moves;
   * - an instance moved onto itself keeps every location except that its
   *   head rig takes its body rig's x.
   */
  twostate predicate LocationsExchanged(f: RigLogicInstance, t: RigLogicInstance)
    reads f.bodyRig, t.bodyRig, f.headRig, t.headRig, f.faceBoard, t.faceBoard
  {
    && (NoSharedObjects(f, t) && BothBodyRigs(f, t) ==>
          var fromX, toX := old(f.bodyRig.x), old(t.bodyRig.x);
          && f.bodyRig.x == toX && t.bodyRig.x == fromX
          && (t.headRig != null ==> t.headRig.x == fromX)
          && (f.headRig != null ==> f.headRig.x == if t.headRig != null then toX else old(f.headRig.x))
          && (t.faceBoard != null ==>
                t.faceBoard.x == if BothHeadRigs(f, t) then old(t.faceBoard.x) + (fromX - toX) else old(t.faceBoard.x))
          && (f.faceBoard != null ==>
                f.faceBoard.x == if BothHeadRigs(f, t) && t.faceBoard != null then old(f.faceBoard.x) + (toX - fromX)
                                 else old(f.faceBoard.x)))
    && (NoSharedObjects(f, t) && !BothBodyRigs(f, t) && BothHeadRigs(f, t) ==>
          var fromX, toX := old(f.headRig.x), old(t.headRig.x);
          && f.headRig.x == toX && t.headRig.x == fromX
          && (f.bodyRig != null ==> f.bodyRig.x == old(f.bodyRig.x))
          && (t.bodyRig != null ==> t.bodyRig.x == old(t.bodyRig.x))
          && (t.faceBoard != null ==> t.faceBoard.x == old(t.faceBoard.x) + (fromX - toX))
          && (f.faceBoard != null ==>
                f.faceBoard.x == if t.faceBoard != null then old(f.faceBoard.x) + (toX - fromX) else old(f.faceBoard.x)))
    && (SharedFaceBoard(f, t) ==>
          && f.bodyRig.x == old(t.bodyRig.x) && t.bodyRig.x == old(f.bodyRig.x)
          && f.headRig.x == old(t.bodyRig.x) && t.headRig.x == old(f.bodyRig.x)
          && f.faceBoard.x == old(f.faceBoard.x))
    && (!BothBodyRigs(f, t) && !BothHeadRigs(f, t) ==>
          forall o: SceneObject :: o in {f.headRig, f.bodyRig, f.faceBoard, t.headRig, t.bodyRig, t.faceBoard} ==> o.x == old(o.x))
    && (f == t && f.bodyRig != null ==>
          && f.bodyRig.x == old(f.bodyRig.x)
          && (f.headRig != null ==> f.headRig.x == old(f.bodyRig.x))
          && (f.faceBoard != null && f.faceBoard != f.headRig ==> f.faceBoard.x == old(f.faceBoard.x)))
    && (f == t && f.bodyRig == null ==>
          forall o: SceneObject :: o in {f.headRig, f.faceBoard} ==> o.x == old(o.x))
  }

  /**
   * The location exchange of the move operator, from instance `f` to
   * instance `t`. A reference that is unset where the code reads it raises,
   * leaving the assignments made before it in place.
   */
  method ExchangeLocations(f: RigLogicInstance, t: RigLogicInstance) returns (err: Option<Exception>)
    modifies f.headRig, f.bodyRig, f.faceBoard, t.headRig, t.bodyRig, t.faceBoard
    ensures LocationsExchanged(f, t)
    ensures err.Some? <==> ExchangeFails(f, t)
    ensures err.Some? ==> err.value == AttributeError("location")
  {
    err := None;
    if f.bodyRig != null && t.bodyRig != null {
      var toX := t.bodyRig.x;
      var fromX := f.bodyRig.x;
      t.bodyRig.x := fromX;
      f.bodyRig.x := toX;
      if t.headRig == null { return Some(AttributeError("location")); }
      t.headRig.x := fromX;
      if f.headRig == null { return Some(AttributeError("location")); }
      f.headRig.x := toX;
      if t.faceBoard == null { return Some(AttributeError("location")); }
      t.faceBoard.x := t.faceBoard.x + (fromX - toX);
      if f.faceBoard == null { return Some(AttributeError("location")); }
      f.faceBoard.x := f.faceBoard.x + (toX - fromX);
    } else if f.headRig != null && t.headRig != null {
      var toX := t.headRig.x;
      var fromX := f.headRig.x;
      t.headRig.x := fromX;
      f.headRig.x := toX;
      if t.faceBoard == null { return Some(AttributeError("location")); }
      t.faceBoard.x := t.faceBoard.x + (fromX - toX);
      if f.faceBoard == null { return Some(AttributeError("location")); }
      f.faceBoard.x := f.faceBoard.x + (toX - fromX);
    }
  }

  /** The references an instance pair holds: what an exchange between them may move. */
  function Refs(f: RigLogicInstance, t: RigLogicInstance): set<SceneObject?> {
    {f.headRig, f.bodyRig, f.faceBoard, t.headRig, t.bodyRig, t.faceBoard}
  }

  /**
   * The move operator: the target is the neighbour in the given direction,
   * wrapping at the ends; the rigs' locations are exchanged with the
   * target's (`LocationsExchanged`), then the entry moves there and becomes
   * active. A failed exchange, or a negative index the list's `move`
   * rejects, leaves the list as it was but keeps the locations already
   * changed; no other rig object moves.
   */
  method MoveInstanceEntry(list: UiList<RigLogicInstance>, active: int, d: Direction)
    returns (err: Option<Exception>, from: Option<RigLogicInstance>, target: Option<RigLogicInstance>)
    modifies list, RigObjects(list.items)
    ensures |old(list.items)| == 0 ==> err == Some(ZeroDivisionError) && from.None?
    ensures |old(list.items)| > 0 && !(-(|old(list.items)| as int) <= active < |old(list.items)|) ==>
      err == Some(IndexError(active)) && from.None?
    ensures from.Some? <==> |old(list.items)| > 0 && -(|old(list.items)| as int) <= active < |old(list.items)|
    ensures from.Some? ==>
      && from.value == old(list.items)[PyIndex(active, |old(list.items)|)]
      && target.Some? && target.value == old(list.items)[MoveTarget(active, d, |old(list.items)|)]
    ensures from.Some? ==> LocationsExchanged(from.value, target.value)
    ensures from.Some? && ExchangeFails(from.value, target.value) ==> err == Some(AttributeError("location"))
    ensures from.Some? && !ExchangeFails(from.value, target.value) ==> (err.None? <==> 0 <= active)
    ensures from.None? ==> forall o: SceneObject :: o in RigObjects(old(list.items)) ==> o.x == old(o.x)
    ensures from.Some? ==>
      forall o: SceneObject :: o in RigObjects(old(list.items)) && o !in Refs(from.value, target.value) ==> o.x == old(o.x)
    ensures err.None? ==> 0 <= active < |old(list.items)|
    ensures err.None? ==> list.items == Moved(old(list.items), active, MoveTarget(active, d, |old(list.items)|))
                          && list.activeIndex == MoveTarget(active, d, |old(list.items)|)
    ensures err.Some? ==> list.items == old(list.items) && list.activeIndex == old(list.activeIndex)
  {
    from, target := None, None;
    var n := |list.items|;
    if n == 0 {
      return Some(ZeroDivisionError), None, None;
    }
    var to := MoveTarget(active, d, n);
    if !(-(n as int) <= active < n) {
      return Some(IndexError(active)), None, None;
    }
    var f := list.items[PyIndex(active, n)];
    var t := list.items[to];
    from, target := Some(f), Some(t);
    assert f.headRig in RigObjects(list.items) && f.bodyRig in RigObjects(list.items) && f.faceBoard in RigObjects(list.items);
    assert t.headRig in RigObjects(list.items) && t.bodyRig in RigObjects(list.items) && t.faceBoard in RigObjects(list.items);
    err := ExchangeLocations(f, t);
    if err.Some? {
      return;
    }
    err := list.MoveEntry(active, to);
    if err.None? {
      list.activeIndex := to;
    }
  }

  // ------------------------------------------------------ progress queue

  datatype Event = Escape | Timer | OtherEvent

  datatype ModalStatus = RunningModal | PassThrough | Finished | Cancelled

  /** `(size - new_size) / size`: the share of the queue already run. */
  function Fraction(total: nat, remaining: nat): (p: real)
    requires remaining <= total
    ensures 0.0 <= p <= 1.0
    ensures remaining == total ==> p == 0.0
    ensures total > 0 && remaining == 0 ==> p == 1.0
  {
    if total == 0 then 0.0 else (total - remaining) as real / total as real
  }

  /** Running one more command never lowers the progress. */
  lemma FractionGrows(total: nat, remaining: nat)
    requires 0 < remaining <= total
    ensures Fraction(total, remaining - 1) > Fraction(total, remaining)
  {
    var t := total as real;
    var done := (total - remaining) as real;
    assert (total - (remaining - 1)) as real == done + 1.0;
    assert (done + 1.0) / t == done / t + 1.0 / t;
    assert 1.0 / t > 0.0;
  }

  /** `description.format(**kwargs)`: the `{name}` field filled with the command's name. */
  function Format(description: string, name: string): string {
    ReplaceAll(description, "{name}", name)
  }

  /**
   * The operator behind the shape-key import: the commands still queued,
   * the queue size when it was filled, the progress and description shown
   * in the window manager, whether the timer and the modal handler are
   * live, and the log of commands run so far, each with its formatted
   * description.
   */
  class ProgressQueueOperator {
    var queue: seq<Head.Command>
    var total: nat
    var progress: real
    var description: string
    var timerActive: bool
    var running: bool
    var executed: seq<(Head.Command, string)>

    /** While the operator runs, the progress is the share of the queue already taken. */
    predicate Valid()
      reads this
    {
      && |queue| <= total
      && 0.0 <= progress <= 1.0
      && (running ==> progress == Fraction(total, |queue|))
    }

    constructor()
      ensures Valid() && !running && !timerActive && queue == [] && executed == [] && progress == 0.0
    {
      queue := [];
      total := 0;
      progress := 0.0;
      description := "";
      timerActive := false;
      running := false;
      executed := [];
    }

    /**
     * `execute`: cancelled when validation fails; otherwise the timer is
     * added (before the head is looked up, so it stays on when there is no
     * head), and with a head the progress is reset and the queue filled.
     */
    method Execute(validated: bool, hasHead: bool, commands: seq<Head.Command>) returns (status: ModalStatus)
      requires Valid()
      modifies this
      ensures Valid()
      ensures !validated ==> status == Cancelled && queue == old(queue) && running == old(running)
                             && timerActive == old(timerActive) && progress == old(progress)
      ensures validated ==> timerActive
      ensures validated && !hasHead ==> status == Cancelled && queue == old(queue) && running == old(running)
                                        && progress == old(progress)
      ensures validated && hasHead ==> status == RunningModal && running && queue == commands
                                       && total == |commands| && progress == 0.0 && description == ""
      ensures executed == old(executed)
    {
      if !validated {
        return Cancelled;
      }
      timerActive := true;
      if hasHead {
        progress := 0.0;
        description := "";
        queue := commands;
        total := |queue|;
        running := true;
        return RunningModal;
      }
      return Cancelled;
    }

    /** `finish`: the timer goes and the progress shows complete. */
    method Finish() returns (status: ModalStatus)
      requires Valid()
      modifies this
      ensures Valid()
      ensures status == Finished && !timerActive && !running && progress == 1.0
      ensures queue == old(queue) && total == old(total) && executed == old(executed) && description == old(description)
    {
      timerActive := false;
      running := false;
      progress := 1.0;
      return Finished;
    }

    /**
     * `modal`: ESC finishes; a timer event finishes on an empty queue and
     * otherwise runs exactly the oldest command, shows its description with
     * `name` filled in, and sets the progress to the share now done; other
     * events pass through.
     */
    method Modal(event: Event, name: string) returns (status: ModalStatus)
      requires Valid() && running
      modifies this
      ensures Valid()
      ensures event == Escape || (event == Timer && old(queue) == []) ==>
        status == Finished && !running && !timerActive && progress == 1.0
        && queue == old(queue) && executed == old(executed)
      ensures event == Timer && old(queue) != [] ==>
        && status == PassThrough && running
        && queue == old(queue)[1..]
        && description == Format(old(queue)[0].description, name)
        && executed == old(executed) + [(old(queue)[0], description)]
        && progress == Fraction(total, |queue|) && progress > old(progress)
      ensures event == OtherEvent ==> status == PassThrough && unchanged(this)
      ensures total == old(total)
    {
      if event == Escape {
        status := Finish();
        return;
      }
      if event == Timer {
        if |queue| == 0 {
          status := Finish();
          return;
        }
        var command := queue[0];
        queue := queue[1..];
        FractionGrows(total, |queue| + 1);
        progress := Fraction(total, |queue|);
        description := Format(command.description, name);
        executed := executed + [(command, description)];
      }
      return PassThrough;
    }
  }

  // ---------------------------------------------------- shape-key editing

  /** `key_blocks.find(name)`: the first position of a key with that name, or -1. */
  function FindKey(keys: seq<ShapeKey>, name: string): (r: int)
    ensures -1 <= r < |keys|
    ensures r == -1 <==> forall k :: 0 <= k < |keys| ==> keys[k].name != name
    ensures r >= 0 ==> keys[r].name == name && forall k :: 0 <= k < r ==> keys[k].name != name
  {
    if |keys| == 0 then -1
    else if keys[0].name == name then 0
    else
      var r := FindKey(keys[1..], name);
      if r == -1 then -1 else r + 1
  }

  /** Each key locked exactly when its name differs from `name`. */
  function LockOthers(keys: seq<ShapeKey>, name: string): (r: seq<ShapeKey>)
    ensures |r| == |keys|
  {
    seq(|keys|, k requires 0 <= k < |keys| => keys[k].(locked := keys[k].name != name))
  }

  /** The locking loop over the key blocks, then the edited block unlocked. */
  method LockedBlocks(keys: seq<ShapeKey>, keyIndex: nat, shapeKeyName: string) returns (blocks: seq<ShapeKey>)
    requires keyIndex < |keys|
    ensures blocks == LockOthers(keys, shapeKeyName)[keyIndex := keys[keyIndex].(locked := false)]
  {
    ghost var locked := LockOthers(keys, shapeKeyName);
    blocks := keys;
    var k := 0;
    while k < |blocks|
      invariant k <= |blocks| == |keys|
      invariant blocks == locked[..k] + keys[k..]
    {
      var block := blocks[k];
      blocks := blocks[k := block.(locked := block.name != shapeKeyName)];
      assert blocks == locked[..k + 1] + keys[k + 1..];
      k := k + 1;
    }
    assert blocks == locked;
    blocks := blocks[keyIndex := blocks[keyIndex].(locked := false)];
  }

  /**
   * `lock_all_other_shape_keys`: every key block is locked unless it has
   * the edited name, then the edited block is unlocked and the active
   * index set to the first block with that name.
   */
  method LockAllOtherShapeKeys(mesh: MeshObject, keyIndex: nat, shapeKeyName: string)
    requires mesh.Valid() && keyIndex < |mesh.keyBlocks|
    modifies mesh
    ensures mesh.Valid()
    ensures mesh.keyBlocks == LockOthers(old(mesh.keyBlocks), shapeKeyName)[keyIndex := old(mesh.keyBlocks)[keyIndex].(locked := false)]
    ensures mesh.activeShapeKeyIndex == FindKey(old(mesh.keyBlocks), shapeKeyName)
    ensures mesh.vertices == old(mesh.vertices) && mesh.vertexGroups == old(mesh.vertexGroups) && mesh.name == old(mesh.name)
  {
    var blocks := LockedBlocks(mesh.keyBlocks, keyIndex, shapeKeyName);
    LockedKeysKeepNames(mesh.keyBlocks, blocks, shapeKeyName);
    mesh.keyBlocks := blocks;
    mesh.activeShapeKeyIndex := FindKey(blocks, shapeKeyName);
  }

  /** Changing only the lock flags keeps the names unique, the coordinates, and every lookup by name. */
  lemma LockedKeysKeepNames(a: seq<ShapeKey>, b: seq<ShapeKey>, name: string)
    requires |a| == |b| && forall k :: 0 <= k < |a| ==> b[k] == a[k].(locked := b[k].locked)
    ensures UniqueKeyNames(a) ==> UniqueKeyNames(b)
    ensures forall k :: 0 <= k < |a| ==> |b[k].coords| == |a[k].coords|
    ensures FindKey(b, name) == FindKey(a, name)
  {
    if FindKey(a, name) == -1 {
      assert FindKey(b, name) == -1;
    } else {
      assert FindKey(b, name) == FindKey(a, name);
    }
  }

  /**
   * When the block being edited is the one with that name (as the
   * operators arrange), it is the only unlocked block and it becomes the
   * active one; names and coordinates are untouched.
   */
  lemma LockAllOthersMeaning(keys: seq<ShapeKey>, keyIndex: nat, shapeKeyName: string)
    requires keyIndex < |keys| && keys[keyIndex].name == shapeKeyName && UniqueKeyNames(keys)
    ensures var r := LockOthers(keys, shapeKeyName)[keyIndex := keys[keyIndex].(locked := false)];
      && (forall k :: 0 <= k < |r| ==> r[k].name == keys[k].name && r[k].coords == keys[k].coords)
      && (forall k :: 0 <= k < |r| ==> (r[k].locked <==> k != keyIndex))
      && FindKey(keys, shapeKeyName) == keyIndex
  {
  }

  // ------------------------------------------------------------ re-import

  /** `name.split("__", 1)[-1]`: the text after the first `__`, or the whole name. */
  function ShortName(name: string): (s: string) {
    match Find(name, "__")
    case None => name
    case Some(i) => name[i + 2..]
  }

  /**
   * The short name of a key made by the import, `<mesh>__<channel>`, is the
   * channel name, as long as no `__` starts inside the mesh name or at its
   * last character.
   */
  lemma ShortNameOfImportedKey(mesh: string, channel: string)
    requires forall k: nat :: !OccursAt(mesh + "_", "__", k)
    ensures ShortName(mesh + "__" + channel) == channel
  {
    var s := mesh + "__" + channel;
    forall k: nat | k < |mesh|
      ensures !OccursAt(s, "__", k)
    {
      assert !OccursAt(mesh + "_", "__", k);
      assert s[k..k + 2] == (mesh + "_")[k..k + 2];
    }
    assert OccursAt(s, "__", |mesh|);
    FindFirst(s, "__", |mesh|);
    assert s[|mesh| + 2..] == channel;
  }

  /** A pattern found at `i` with no earlier occurrence is what `Find` returns. */
  lemma FindFirst(s: string, pat: string, i: nat)
    requires OccursAt(s, pat, i) && forall k: nat :: k < i ==> !OccursAt(s, pat, k)
    ensures Find(s, pat) == Some(i)
  {
  }

  /** The last position before `n` whose object has that name. */
  function LastNamedBefore(lookup: seq<(nat, string)>, name: string, n: nat): (k: Option<nat>)
    requires n <= |lookup|
    ensures k.Some? ==> k.value < n && lookup[k.value].1 == name
    ensures k.Some? ==> forall j :: k.value < j < n ==> lookup[j].1 != name
    ensures k.None? ==> forall i :: 0 <= i < n ==> lookup[i].1 != name
    decreases n
  {
    if n == 0 then None
    else if lookup[n - 1].1 == name then Some(n - 1)
    else LastNamedBefore(lookup, name, n - 1)
  }

  /** `{v.name: k for k, v in lookup.items()}.get(name)`: the last mesh index whose object has that name. */
  function MeshIndexOf(lookup: seq<(nat, string)>, name: string): (r: Option<nat>)
    ensures r.None? <==> forall i :: 0 <= i < |lookup| ==> lookup[i].1 != name
    ensures r.Some? ==> exists i :: (0 <= i < |lookup| && lookup[i] == (r.value, name)
                                     && forall j :: i < j < |lookup| ==> lookup[j].1 != name)
  {
    match LastNamedBefore(lookup, name, |lookup|)
    case None => None
    case Some(k) =>
      assert lookup[k] == (lookup[k].0, name);
      Some(lookup[k].0)
  }

  function ChannelName(r: DnaReader, m: nat, t: nat): string
    requires r.Valid() && m < |r.meshes| && t < |r.meshes[m].targets|
  {
    r.channelNames[r.meshes[m].targets[t].channelIndex]
  }

  /** The first target of mesh `m` whose channel has this name. */
  function FirstTargetNamed(r: DnaReader, m: nat, name: string, from: nat): (t: Option<nat>)
    requires r.Valid() && m < |r.meshes| && from <= |r.meshes[m].targets|
    ensures t.Some? ==> (from <= t.value < |r.meshes[m].targets| && ChannelName(r, m, t.value) == name
                         && forall j :: from <= j < t.value ==> ChannelName(r, m, j) != name)
    ensures t.None? ==> forall j :: from <= j < |r.meshes[m].targets| ==> ChannelName(r, m, j) != name
    decreases |r.meshes[m].targets| - from
  {
    if from == |r.meshes[m].targets| then None
    else if ChannelName(r, m, from) == name then Some(from)
    else FirstTargetNamed(r, m, name, from + 1)
  }

  /** A DNA delta scaled by the linear modifier and turned +90 degrees about X into Z-up. */
  function ReimportedDelta(d: Vec3, lm: real): (r: Vec3)
    ensures r == Vec3(lm * d.x, -(lm * d.z), lm * d.y)
  {
    RotXPos90(Scale(lm, d))
  }

  /** The re-import loop: each in-range row sets its vertex to the base vertex plus the re-imported delta. */
  function ReimportedCoords(coords: seq<Vec3>, base: seq<Vec3>, es: seq<Entry>, lm: real): (r: seq<Vec3>)
    requires |coords| == |base|
    ensures |r| == |coords|
    decreases |es|
  {
    if |es| == 0 then coords
    else
      var acc := ReimportedCoords(coords, base, es[..|es| - 1], lm);
      var e := es[|es| - 1];
      if e.vertex < |base| then acc[e.vertex := Add(base[e.vertex], ReimportedDelta(e.delta, lm))] else acc
  }

  /** A vertex named by rows ends at base plus the re-imported delta of the last such row. */
  lemma {:induction false} ReimportedLastRow(coords: seq<Vec3>, base: seq<Vec3>, es: seq<Entry>, lm: real, k: nat)
    requires |coords| == |base| && k < |es| && es[k].vertex < |base|
    requires forall j :: k < j < |es| ==> es[j].vertex != es[k].vertex
    ensures ReimportedCoords(coords, base, es, lm)[es[k].vertex] == Add(base[es[k].vertex], ReimportedDelta(es[k].delta, lm))
    decreases |es|
  {
    if k < |es| - 1 {
      var front := es[..|es| - 1];
      assert forall j :: 0 <= j < |front| ==> front[j] == es[j];
      ReimportedLastRow(coords, base, front, lm, k);
    }
  }

  /** A vertex no row names keeps its coordinate. */
  lemma {:induction false} ReimportedUntouched(coords: seq<Vec3>, base: seq<Vec3>, es: seq<Entry>, lm: real, v: nat)
    requires |coords| == |base| && v < |base|
    requires forall k :: 0 <= k < |es| ==> es[k].vertex != v
    ensures ReimportedCoords(coords, base, es, lm)[v] == coords[v]
    decreases |es|
  {
    if |es| > 0 {
      var front := es[..|es| - 1];
      assert forall k :: 0 <= k < |front| ==> front[k] == es[k];
      ReimportedUntouched(coords, base, front, lm, v);
    }
  }

  /**
   * Re-import then calibrate gives the DNA delta back: the calibrator's
   * delta of a re-imported vertex (turned -90 degrees, divided by the linear
   * modifier) is the delta that was re-imported.
   */
  lemma ReimportThenCalibrate(coords: seq<Vec3>, base: seq<Vec3>, es: seq<Entry>, lm: real, k: nat)
    requires lm != 0.0 && |coords| == |base| && k < |es| && es[k].vertex < |base|
    requires forall j :: k < j < |es| ==> es[j].vertex != es[k].vertex
    ensures Div(Calibrator.RawDelta(base, ReimportedCoords(coords, base, es, lm), es[k].vertex), lm) == es[k].delta
  {
    var v := es[k].vertex;
    var d := es[k].delta;
    ReimportedLastRow(coords, base, es, lm, k);
    assert Sub(Add(base[v], ReimportedDelta(d, lm)), base[v]) == ReimportedDelta(d, lm);
    RotationsCancel(Scale(lm, d));
    DivUndoesScale(lm, d);
  }

  lemma MulNeg(a: real, b: real)
    ensures a * -b == -(a * b)
  {
  }

  /** The imported delta, turned back by the export rotation, is the DNA delta scaled, with y and z negated. */
  lemma RotatedImportedDelta(d: Vec3, lm: real)
    ensures RotXNeg90(ImportedDelta(d, lm)) == Scale(lm, Vec3(d.x, -d.y, -d.z))
  {
    MulNeg(lm, d.y);
    MulNeg(lm, d.z);
  }

  /**
   * The import side is not inverted the same way: calibrating a key made by
   * `create_shape_key` gives the DNA delta with y and z negated.
   */
  lemma CreateThenCalibrate(coords: seq<Vec3>, base: seq<Vec3>, es: seq<Entry>, lm: real, k: nat)
    requires lm != 0.0 && |coords| == |base| && k < |es| && es[k].vertex < |base|
    requires forall j :: k < j < |es| ==> es[j].vertex != es[k].vertex
    ensures var d := es[k].delta;
      Div(Calibrator.RawDelta(base, ApplyEntries(coords, base, es, lm), es[k].vertex), lm) == Vec3(d.x, -d.y, -d.z)
  {
    var v := es[k].vertex;
    var d := es[k].delta;
    ApplyEntriesLastRow(coords, base, es, lm, k);
    assert Sub(Add(base[v], ImportedDelta(d, lm)), base[v]) == ImportedDelta(d, lm);
    RotatedImportedDelta(d, lm);
    DivUndoesScale(lm, Vec3(d.x, -d.y, -d.z));
  }

  datatype Report = NoReport | ErrorReport(message: string)

  datatype OperatorResult = OperatorFinished | OperatorCancelled(report: Report)

  /** The error reported when the edited mesh has no mesh index. */
  function MeshIndexMissing(meshName: string): Report {
    ErrorReport("The mesh index for \"" + meshName + "\" is not found")
  }

  /** The error reported when no target of the mesh has the short name. */
  function ShapeKeyMissing(shortName: string): Report {
    ErrorReport("The shape key \"" + shortName + "\" is not found in the DNA file")
  }

  /** The lookup loop over the mesh's targets, stopping at the first whose channel has the name. */
  method FindTarget(r: DnaReader, m: nat, name: string) returns (t: Option<nat>)
    requires r.Valid() && m < |r.meshes|
    ensures t == FirstTargetNamed(r, m, name, 0)
  {
    var index := 0;
    while index < |r.meshes[m].targets|
      invariant index <= |r.meshes[m].targets|
      invariant FirstTargetNamed(r, m, name, 0) == FirstTargetNamed(r, m, name, index)
    {
      if ChannelName(r, m, index) == name {
        return Some(index);
      }
      index := index + 1;
    }
    return None;
  }

  /** The coordinate loop of the re-import over the target's rows. */
  method ReimportRows(coords: seq<Vec3>, base: seq<Vec3>, es: seq<Entry>, lm: real) returns (result: seq<Vec3>)
    requires |coords| == |base|
    ensures result == ReimportedCoords(coords, base, es, lm)
  {
    result := coords;
    var i := 0;
    while i < |es|
      invariant i <= |es|
      invariant result == ReimportedCoords(coords, base, es[..i], lm)
    {
      assert es[..i + 1][..i] == es[..i];
      var e := es[i];
      if e.vertex < |base| {
        result := result[e.vertex := Add(base[e.vertex], ReimportedDelta(e.delta, lm))];
      }
      i := i + 1;
    }
    assert es[..i] == es;
  }

  /**
   * `ReImportThisShapeKey.execute`. Without an active head nothing happens.
   * `keyIndex` is what `validate` found (none: cancelled, it reported the
   * error). For any name other than `basisName` (`SHAPE_KEY_BASIS_NAME`),
   * `validate` has already made the found block the mesh's active shape key
   * before anything below can cancel. The mesh index comes from the inverted lookup; without neutral
   * shapes the first target named by the short name is re-applied to the
   * edited block from the mesh's vertices, and with neutral shapes the block
   * is reset to the vertices.
   */
  method ReImportThisShapeKey(hasHead: bool, mesh: MeshObject, keyIndex: Option<nat>, shapeKeyName: string,
                              basisName: string, lookup: seq<(nat, string)>, generateNeutral: bool, r: DnaReader, lm: real)
    returns (result: OperatorResult)
    requires mesh.Valid() && r.Valid()
    requires keyIndex.Some? ==> keyIndex.value < |mesh.keyBlocks|
    requires forall i :: 0 <= i < |lookup| ==> lookup[i].0 < |r.meshes|
    modifies mesh
    ensures mesh.Valid()
    ensures mesh.vertices == old(mesh.vertices) && mesh.vertexGroups == old(mesh.vertexGroups)
    ensures mesh.name == old(mesh.name)
    ensures hasHead && keyIndex.Some? && shapeKeyName != basisName ==> mesh.activeShapeKeyIndex == keyIndex.value
    ensures !hasHead || keyIndex.None? || shapeKeyName == basisName ==>
      mesh.activeShapeKeyIndex == old(mesh.activeShapeKeyIndex)
    ensures !hasHead ==> result == OperatorFinished && mesh.keyBlocks == old(mesh.keyBlocks)
    ensures hasHead && keyIndex.None? ==> result == OperatorCancelled(NoReport) && mesh.keyBlocks == old(mesh.keyBlocks)
    ensures hasHead && keyIndex.Some? && MeshIndexOf(lookup, mesh.name).None? ==>
      result == OperatorCancelled(MeshIndexMissing(mesh.name)) && mesh.keyBlocks == old(mesh.keyBlocks)
    ensures hasHead && keyIndex.Some? && MeshIndexOf(lookup, mesh.name).Some? ==>
      var k := keyIndex.value;
      var m := MeshIndexOf(lookup, mesh.name).value;
      var short := ShortName(shapeKeyName);
      var block := old(mesh.keyBlocks)[k];
      && (generateNeutral ==>
            result == OperatorFinished && mesh.keyBlocks == old(mesh.keyBlocks)[k := block.(coords := mesh.vertices)])
      && (!generateNeutral && FirstTargetNamed(r, m, short, 0).None? ==>
            result == OperatorCancelled(ShapeKeyMissing(short)) && mesh.keyBlocks == old(mesh.keyBlocks))
      && (!generateNeutral && FirstTargetNamed(r, m, short, 0).Some? ==>
            var t := r.meshes[m].targets[FirstTargetNamed(r, m, short, 0).value];
            result == OperatorFinished
            && mesh.keyBlocks == old(mesh.keyBlocks)[k := block.(coords := ReimportedCoords(block.coords, mesh.vertices, Entries(t), lm))])
  {
    if !hasHead {
      return OperatorFinished;
    }
    if keyIndex.None? {
      return OperatorCancelled(NoReport);
    }
    var k := keyIndex.value;
    if shapeKeyName != basisName {
      mesh.activeShapeKeyIndex := k;
    }
    var meshIndex := MeshIndexOf(lookup, mesh.name);
    if meshIndex.None? {
      return OperatorCancelled(MeshIndexMissing(mesh.name));
    }
    var m := meshIndex.value;
    assert m < |r.meshes|;
    var short := ShortName(shapeKeyName);
    var block := mesh.keyBlocks[k];
    var coords: seq<Vec3>;
    if !generateNeutral {
      var found := FindTarget(r, m, short);
      if found.None? {
        return OperatorCancelled(ShapeKeyMissing(short));
      }
      coords := ReimportRows(block.coords, mesh.vertices, Entries(r.meshes[m].targets[found.value]), lm);
    } else {
      coords := mesh.vertices;
    }
    ghost var before := mesh.keyBlocks;
    mesh.keyBlocks := mesh.keyBlocks[k := block.(coords := coords)];
    LockedKeysKeepNamesAt(before, k, coords);
    return OperatorFinished;
  }

  /** Replacing one block's coordinates by as many keeps the blocks well-formed. */
  lemma LockedKeysKeepNamesAt(keys: seq<ShapeKey>, k: nat, coords: seq<Vec3>)
    requires k < |keys|
    ensures UniqueKeyNames(keys) ==> UniqueKeyNames(keys[k := keys[k].(coords := coords)])
  {
  }

  // ------------------------------------------------------------------ bake

  datatype Channel = Location | Rotation | ScaleChannel

  datatype BakeOutcome = BakeCancelled(error: string) | BakeFinished(bake: Option<set<Channel>>)

  /** The channel set built from the three toggles. */
  function ChannelTypes(location: bool, rotation: bool, scale: bool): (cs: set<Channel>)
    ensures Location in cs <==> location
    ensures Rotation in cs <==> rotation
    ensures ScaleChannel in cs <==> scale
  {
    (if location then {Location} else {}) + (if rotation then {Rotation} else {}) + (if scale then {ScaleChannel} else {})
  }

  /**
   * `BakeAnimation.execute`: a start after the end is an error; otherwise the
   * bake runs with the enabled channels when there is a head with a rig, and
   * the operator finishes either way.
   */
  function BakeAnimation(startFrame: int, endFrame: int, hasHeadRig: bool, location: bool, rotation: bool, scale: bool)
    : (o: BakeOutcome)
    ensures o.BakeCancelled? <==> startFrame > endFrame
    ensures o.BakeFinished? ==> (o.bake.Some? <==> hasHeadRig)
    ensures o.BakeFinished? && o.bake.Some? ==> o.bake.value == ChannelTypes(location, rotation, scale)
  {
    if startFrame > endFrame then BakeCancelled("The start frame must be less than the end frame")
    else if hasHeadRig then BakeFinished(Some(ChannelTypes(location, rotation, scale)))
    else BakeFinished(None)
  }

  /** The channel set is exactly the enabled subset of the three. */
  lemma BakeChannelsExact(location: bool, rotation: bool, scale: bool, c: Channel)
    ensures c in ChannelTypes(location, rotation, scale) <==>
      (c == Location && location) || (c == Rotation && rotation) || (c == ScaleChannel && scale)
  {
  }
}
