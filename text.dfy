/**
 * The string operations the add-on relies on, written out with the semantics of
 * the host language's `str` methods: prefix/suffix tests, replace-all and
 * replace-first, splitting on a separator, joining, ASCII case mapping and the
 * code-point ordering used by `sort`.
 */
module Text {
  import opened Wrappers

  predicate StartsWith(s: string, p: string) {
    |p| <= |s| && s[..|p|] == p
  }

  predicate EndsWith(s: string, p: string) {
    |p| <= |s| && s[|s| - |p|..] == p
  }

  /** True when `pat` occurs in `s` at position `k`. */
  predicate OccursAt(s: string, pat: string, k: nat) {
    k + |pat| <= |s| && s[k..k + |pat|] == pat
  }

  /** The first position at or after `i` where `pat` occurs, as `str.find`. */
  function FindFrom(s: string, pat: string, i: nat): (r: Option<nat>)
    requires i <= |s|
    decreases |s| - i
    ensures r.Some? ==> i <= r.value && OccursAt(s, pat, r.value)
    ensures r.Some? ==> forall k :: i <= k < r.value ==> !OccursAt(s, pat, k)
    ensures r.None? ==> forall k :: i <= k ==> !OccursAt(s, pat, k)
  {
    if i + |pat| > |s| then None
    else if s[i..i + |pat|] == pat then Some(i)
    else FindFrom(s, pat, i + 1)
  }

  function Find(s: string, pat: string): Option<nat> {
    FindFrom(s, pat, 0)
  }

  /** `s.replace(pat, rep)`: every non-overlapping occurrence, scanning left to right. */
  function ReplaceAll(s: string, pat: string, rep: string): string
    requires |pat| > 0
    decreases |s|
  {
    if |s| < |pat| then s
    else if s[..|pat|] == pat then rep + ReplaceAll(s[|pat|..], pat, rep)
    else [s[0]] + ReplaceAll(s[1..], pat, rep)
  }

  /** `s.replace(pat, rep, 1)`: only the first occurrence. */
  function ReplaceFirst(s: string, pat: string, rep: string): string {
    match Find(s, pat)
    case None => s
    case Some(i) => s[..i] + rep + s[i + |pat|..]
  }

  lemma {:induction false} ReplaceAllAbsent(s: string, pat: string, rep: string)
    requires |pat| > 0
    requires forall k: nat :: !OccursAt(s, pat, k)
    ensures ReplaceAll(s, pat, rep) == s
    decreases |s|
  {
    if |s| >= |pat| {
      assert !OccursAt(s, pat, 0);
      forall k: nat ensures !OccursAt(s[1..], pat, k) {
        assert !OccursAt(s, pat, k + 1);
      }
      ReplaceAllAbsent(s[1..], pat, rep);
    }
  }

  lemma ReplaceFirstOfPrefix(p: string, rest: string, rep: string)
    requires |p| > 0
    ensures ReplaceFirst(p + rest, p, rep) == rep + rest
  {
    assert OccursAt(p + rest, p, 0) by { assert (p + rest)[..|p|] == p; }
    assert (p + rest)[|p|..] == rest;
  }

  /** The last position `k` with `k + |pat| <= end` where `pat` occurs, as `str.rfind` on `s[..end]`. */
  function RFindBefore(s: string, pat: string, end: nat): (r: Option<nat>)
    requires end <= |s|
    decreases end
    ensures r.Some? ==> r.value + |pat| <= end && OccursAt(s, pat, r.value)
    ensures r.Some? ==> forall k: nat :: r.value < k && k + |pat| <= end ==> !OccursAt(s, pat, k)
    ensures r.None? ==> forall k: nat :: k + |pat| <= end ==> !OccursAt(s, pat, k)
  {
    if end < |pat| then None
    else if s[end - |pat|..end] == pat then Some(end - |pat|)
    else RFindBefore(s, pat, end - 1)
  }

  /** `rep.join(s.rsplit(pat, 1))`: only the last occurrence replaced. */
  function ReplaceLast(s: string, pat: string, rep: string): string {
    match RFindBefore(s, pat, |s|)
    case None => s
    case Some(i) => s[..i] + rep + s[i + |pat|..]
  }

  lemma ReplaceLastOfSuffix(p: string, pat: string, rep: string)
    ensures ReplaceLast(p + pat, pat, rep) == p + rep
  {
    assert (p + pat)[|p|..|p| + |pat|] == pat;
    assert (p + pat)[..|p|] == p;
  }

  /** `s.split(c)`: the pieces between separators, empty pieces kept. */
  function Split(s: string, c: char): (parts: seq<string>)
    ensures |parts| >= 1
    decreases |s|
  {
    if |s| == 0 then [""]
    else if s[0] == c then [""] + Split(s[1..], c)
    else
      var rest := Split(s[1..], c);
      [[s[0]] + rest[0]] + rest[1..]
  }

  /** `sep.join(parts)`. */
  function Join(parts: seq<string>, sep: string): string
    decreases |parts|
  {
    if |parts| == 0 then ""
    else if |parts| == 1 then parts[0]
    else parts[0] + sep + Join(parts[1..], sep)
  }

  lemma {:induction false} SplitPiecesHaveNoSeparator(s: string, c: char)
    ensures forall i :: 0 <= i < |Split(s, c)| ==> c !in Split(s, c)[i]
    decreases |s|
  {
    if |s| > 0 {
      SplitPiecesHaveNoSeparator(s[1..], c);
    }
  }

  /** A string without the separator splits into itself alone. */
  lemma {:induction false} SplitWithoutSeparator(s: string, c: char)
    requires c !in s
    ensures Split(s, c) == [s]
    decreases |s|
  {
    if |s| > 0 {
      SplitWithoutSeparator(s[1..], c);
      assert [s[0]] + s[1..] == s;
    }
  }

  /** The pieces of `[x] + s` from the pieces `p` of `s`. */
  function ConsPiece(x: char, c: char, p: seq<string>): seq<string>
    requires |p| > 0
  {
    if x == c then [""] + p else [[x] + p[0]] + p[1..]
  }

  /** One step of `Split`: the first character either ends the first piece or extends it. */
  lemma SplitCons(x: char, s: string, c: char)
    ensures Split([x] + s, c) == ConsPiece(x, c, Split(s, c))
  {
    assert ([x] + s)[0] == x;
    assert ([x] + s)[1..] == s;
  }

  lemma ConsPieceAppend(x: char, c: char, p: seq<string>, q: seq<string>)
    requires |p| > 0
    ensures ConsPiece(x, c, p + q) == ConsPiece(x, c, p) + q
  {
    if x != c {
      assert (p + q)[0] == p[0];
      assert (p + q)[1..] == p[1..] + q;
    }
  }

  lemma SplitConcatStep(x: char, t: string, c: char, b: string)
    requires Split(t + [c] + b, c) == Split(t, c) + Split(b, c)
    ensures Split([x] + t + [c] + b, c) == Split([x] + t, c) + Split(b, c)
  {
    assert [x] + t + [c] + b == [x] + (t + [c] + b);
    SplitCons(x, t + [c] + b, c);
    SplitCons(x, t, c);
    ConsPieceAppend(x, c, Split(t, c), Split(b, c));
  }

  /** Splitting at a separator splits the two sides independently. */
  lemma {:induction false} SplitConcat(a: string, c: char, b: string)
    ensures Split(a + [c] + b, c) == Split(a, c) + Split(b, c)
    decreases |a|
  {
    if |a| == 0 {
      assert a + [c] + b == [c] + b;
      SplitCons(c, b, c);
    } else {
      SplitConcat(a[1..], c, b);
      SplitConcatStep(a[0], a[1..], c, b);
      assert [a[0]] + a[1..] == a;
    }
  }

  /** Removing a suffix pattern whose first character the rest never uses. */
  lemma {:induction false} ReplaceAllTrailing(s: string, pat: string)
    requires |pat| > 0 && pat[0] !in s
    ensures ReplaceAll(s + pat, pat, "") == s
    decreases |s|
  {
    if |s| == 0 {
      assert (s + pat)[..|pat|] == pat;
      assert (s + pat)[|pat|..] == "";
    } else {
      assert (s + pat)[..|pat|][0] == s[0];
      assert (s + pat)[1..] == s[1..] + pat;
      ReplaceAllTrailing(s[1..], pat);
      assert [s[0]] + s[1..] == s;
    }
  }

  /** Joining the pieces of a split with the same separator gives back the string. */
  lemma {:induction false} JoinSplit(s: string, c: char)
    ensures Join(Split(s, c), [c]) == s
    decreases |s|
  {
    if |s| > 0 {
      var rest := Split(s[1..], c);
      JoinSplit(s[1..], c);
      if s[0] == c {
        assert Split(s, c) == [""] + rest;
        if |rest| == 1 {
          assert Join(Split(s, c), [c]) == "" + [c] + rest[0];
        } else {
          assert ([""] + rest)[1..] == rest;
        }
      } else {
        var parts := Split(s, c);
        assert parts == [[s[0]] + rest[0]] + rest[1..];
        if |rest| > 1 {
          assert parts[1..] == rest[1..];
          assert Join(rest, [c]) == rest[0] + [c] + Join(rest[1..], [c]);
        }
      }
    }
  }

  /** Splitting a join of separator-free pieces gives the pieces back. */
  lemma {:induction false} SplitJoin(parts: seq<string>, c: char)
    requires |parts| > 0
    requires forall i :: 0 <= i < |parts| ==> c !in parts[i]
    ensures Split(Join(parts, [c]), c) == parts
    decreases |parts|
  {
    if |parts| == 1 {
      SplitWithoutSeparator(parts[0], c);
    } else {
      SplitWithoutSeparator(parts[0], c);
      SplitJoin(parts[1..], c);
      SplitConcat(parts[0], c, Join(parts[1..], [c]));
      assert [parts[0]] + parts[1..] == parts;
    }
  }

  // ---------------------------------------------------------------------
  // Paths, as `os.path` and `pathlib` read a normalised POSIX path
  // ---------------------------------------------------------------------

  /** `os.path.basename`: the text after the last `/`. */
  function Basename(path: string): (name: string)
    ensures '/' !in name
  {
    var parts := Split(path, '/');
    SplitPiecesHaveNoSeparator(path, '/');
    parts[|parts| - 1]
  }

  /** `Path(path).stem`: the file name without its last suffix. */
  function Stem(path: string): (s: string)
    ensures '/' !in s
  {
    var name := Basename(path);
    match RFindBefore(name, ".", |name|)
    case Some(i) => if 0 < i < |name| - 1 then name[..i] else name
    case None => name
  }

  /**
   * The extension `os.path.splitext` splits off: from the last `.` of the
   * file name, unless only dots precede it.
   */
  function Extension(path: string): (e: string)
    ensures e == "" || e[0] == '.'
  {
    var name := Basename(path);
    match RFindBefore(name, ".", |name|)
    case Some(i) => if exists j :: 0 <= j < i && name[j] != '.' then name[i..] else ""
    case None => ""
  }

  /** `Path(path).parent / name`. */
  function SiblingPath(path: string, name: string): string {
    match RFindBefore(path, "/", |path|)
    case Some(i) => path[..i + 1] + name
    case None => name
  }

  lemma BasenameAfterSlash(folder: string, name: string)
    requires '/' !in name
    ensures Basename(folder + "/" + name) == name
  {
    SplitWithoutSeparator(name, '/');
    SplitConcat(folder, '/', name);
    assert folder + "/" + name == folder + ['/'] + name;
  }

  lemma LastDot(stem: string, extension: string)
    requires '.' !in extension
    ensures RFindBefore(stem + "." + extension, ".", |stem + "." + extension|) == Some(|stem|)
  {
    var name := stem + "." + extension;
    assert OccursAt(name, ".", |stem|);
    forall k: nat | |stem| < k && k + 1 <= |name|
      ensures !OccursAt(name, ".", k)
    {
      assert name[k] == extension[k - |stem| - 1];
    }
  }

  /** A file `<folder>/<stem>.<extension>` has that stem and that extension. */
  lemma FileNameParts(folder: string, stem: string, extension: string)
    requires '/' !in stem && '/' !in extension && '.' !in extension
    requires stem != "" && stem[0] != '.' && extension != ""
    ensures Basename(folder + "/" + stem + "." + extension) == stem + "." + extension
    ensures Stem(folder + "/" + stem + "." + extension) == stem
    ensures Extension(folder + "/" + stem + "." + extension) == "." + extension
  {
    var name := stem + "." + extension;
    assert folder + "/" + stem + "." + extension == folder + "/" + name;
    BasenameAfterSlash(folder, name);
    LastDot(stem, extension);
    assert name[0] != '.';
    assert name[..|stem|] == stem;
  }

  function LowerChar(ch: char): char {
    if 'A' <= ch <= 'Z' then (ch as int + 32) as char else ch
  }

  function UpperChar(ch: char): char {
    if 'a' <= ch <= 'z' then (ch as int - 32) as char else ch
  }

  function Lower(s: string): (r: string)
    ensures |r| == |s|
    ensures forall i :: 0 <= i < |s| ==> r[i] == LowerChar(s[i])
  {
    seq(|s|, i requires 0 <= i < |s| => LowerChar(s[i]))
  }

  lemma LowerIdempotent(s: string)
    ensures Lower(Lower(s)) == Lower(s)
  {
    assert forall i :: 0 <= i < |s| ==> LowerChar(LowerChar(s[i])) == LowerChar(s[i]);
  }

  function Upper(s: string): (r: string)
    ensures |r| == |s|
    ensures forall i :: 0 <= i < |s| ==> r[i] == UpperChar(s[i])
  {
    seq(|s|, i requires 0 <= i < |s| => UpperChar(s[i]))
  }

  /** `str.capitalize()` on ASCII: first character upper case, the rest lower case. */
  function Capitalize(s: string): (r: string)
    ensures |r| == |s|
    ensures |s| > 0 ==> r[0] == UpperChar(s[0]) && r[1..] == Lower(s[1..])
  {
    if |s| == 0 then "" else [UpperChar(s[0])] + Lower(s[1..])
  }

  /** Code-point lexicographic order, as the host compares strings. */
  predicate LessEq(a: string, b: string)
    decreases |a|
  {
    |a| == 0 || (|b| > 0 && (a[0] < b[0] || (a[0] == b[0] && LessEq(a[1..], b[1..]))))
  }

  lemma {:induction false} LessEqTotal(a: string, b: string)
    ensures LessEq(a, b) || LessEq(b, a)
    decreases |a|
  {
    if |a| > 0 && |b| > 0 && a[0] == b[0] {
      LessEqTotal(a[1..], b[1..]);
    }
  }

  lemma {:induction false} LessEqTransitive(a: string, b: string, c: string)
    requires LessEq(a, b) && LessEq(b, c)
    ensures LessEq(a, c)
    decreases |a|
  {
    if |a| > 0 && a[0] == b[0] && b[0] == c[0] {
      LessEqTransitive(a[1..], b[1..], c[1..]);
    }
  }

  lemma {:induction false} LessEqAntisymmetric(a: string, b: string)
    requires LessEq(a, b) && LessEq(b, a)
    ensures a == b
    decreases |a|
  {
    if |a| > 0 {
      LessEqAntisymmetric(a[1..], b[1..]);
      assert a == [a[0]] + a[1..];
      assert b == [b[0]] + b[1..];
    }
  }

  /** Decimal digits of a natural number, as `str(n)`. */
  function NatToString(n: nat): (r: string)
    ensures |r| > 0
    decreases n
  {
    if n < 10 then [DigitChar(n)] else NatToString(n / 10) + [DigitChar(n % 10)]
  }

  function DigitChar(d: nat): char
    requires d < 10
  {
    ('0' as int + d) as char
  }

  /** `int(ch)` on a single character: the digit's value, or nothing when it is not a digit. */
  function DigitValue(ch: char): (r: Option<nat>)
    ensures r.Some? ==> r.value < 10 && DigitChar(r.value) == ch
    ensures r.None? ==> forall d :: 0 <= d < 10 ==> DigitChar(d) != ch
  {
    if '0' <= ch <= '9' then Some(ch as int - '0' as int) else None
  }
}
