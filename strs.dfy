/** The `str` operations of Rust's standard library that the modelled code
    uses (`find`, `rfind`, `split`, `starts_with`, `trim`, `replace`), on
    `seq<char>`. */
module Strs {
  import opened Wrappers

  predicate StartsWith(s: string, p: string) { |p| <= |s| && s[..|p|] == p }

  predicate EndsWith(s: string, p: string) { |p| <= |s| && s[|s| - |p|..] == p }

  /** `rest` is what remains of `s` after something was read from its front. */
  predicate SuffixOf(rest: string, s: string) {
    |rest| <= |s| && rest == s[|s| - |rest|..]
  }

  lemma {:induction false} SuffixTrans(a: string, b: string, c: string)
    requires SuffixOf(a, b) && SuffixOf(b, c)
    ensures SuffixOf(a, c)
  {
    assert c[|c| - |b|..][|b| - |a|..] == c[|c| - |a|..];
  }

  lemma SuffixOfDrop(s: string, i: nat)
    requires i <= |s|
    ensures SuffixOf(s[i..], s)
  {
  }

  lemma SuffixOfConcat(a: string, b: string)
    ensures SuffixOf(b, a + b)
  {
    assert (a + b)[|a|..] == b;
  }

  /** The pieces of a text `a + (b + (c + d))` at their offsets. */
  lemma SlicesOf4(a: string, b: string, c: string, d: string)
    ensures (a + (b + (c + d)))[..|a|] == a
    ensures (a + (b + (c + d)))[|a|..] == b + (c + d)
    ensures (a + (b + (c + d)))[|a| + |b|..] == c + d
    ensures (a + (b + (c + d)))[|a| + |b|..|a| + |b| + |c|] == c
    ensures (a + (b + (c + d)))[|a| + |b| + |c|..] == d
  {
    var s := a + (b + (c + d));
    assert s[|a|..] == b + (c + d);
    assert s[|a| + |b|..] == (b + (c + d))[|b|..];
  }

  /** `s.find(c)`: the first index holding `c`. */
  function FindChar(s: string, c: char): (r: Option<nat>)
    ensures r.Some? ==> r.value < |s| && s[r.value] == c && c !in s[..r.value]
    ensures r.None? <==> c !in s
  {
    if |s| == 0 then None
    else if s[0] == c then Some(0)
    else match FindChar(s[1..], c)
      case None => None
      case Some(i) => assert s[1..][..i] == s[1..i + 1]; Some(i + 1)
  }

  /** `p` occurs in `s` at index `j`. */
  predicate OccursAt(s: string, p: string, j: int) {
    0 <= j && j + |p| <= |s| && s[j..j + |p|] == p
  }

  /** `s.find(p)` for a pattern string: the first index where `p` occurs. */
  function Find(s: string, p: string): (r: Option<nat>)
    ensures r.Some? ==> OccursAt(s, p, r.value)
    ensures r.Some? ==> forall j :: 0 <= j < r.value ==> !OccursAt(s, p, j)
    ensures r.None? ==> forall j :: 0 <= j ==> !OccursAt(s, p, j)
    decreases |s|
  {
    if |p| > |s| then None
    else if s[..|p|] == p then Some(0)
    else
      var r := Find(s[1..], p);
      forall j | 1 <= j ensures OccursAt(s, p, j) <==> OccursAt(s[1..], p, j - 1) {
        OccursShift(s, p, j);
      }
      match r
      case None => None
      case Some(i) => Some(i + 1)
  }

  /** An occurrence past the first character is one in the tail. */
  lemma {:induction false} OccursShift(s: string, p: string, j: int)
    requires 1 <= j && |s| >= 1
    ensures OccursAt(s, p, j) <==> OccursAt(s[1..], p, j - 1)
  {
    if j + |p| <= |s| {
      var u := s[j..j + |p|];
      var v := s[1..][j - 1..j - 1 + |p|];
      assert |u| == |v|;
      forall k | 0 <= k < |u| ensures u[k] == v[k] {
        assert u[k] == s[j + k];
        assert v[k] == s[1..][j - 1 + k] == s[j + k];
      }
      assert u == v;
    }
  }

  /** `s.rfind(pred)`: the last index whose character satisfies `pred`. */
  function RFindWhere(s: string, pred: char -> bool): (r: Option<nat>)
    ensures r.Some? ==> r.value < |s| && pred(s[r.value])
    ensures r.Some? ==> forall j :: r.value < j < |s| ==> !pred(s[j])
    ensures r.None? ==> forall j :: 0 <= j < |s| ==> !pred(s[j])
  {
    if |s| == 0 then None
    else if pred(s[|s| - 1]) then Some(|s| - 1)
    else RFindWhere(s[..|s| - 1], pred)
  }

  /** `s.split(c)`: the pieces between occurrences of `c`; always at least one. */
  function Split(s: string, c: char): (r: seq<string>)
    ensures |r| >= 1
    ensures forall k :: 0 <= k < |r| ==> c !in r[k]
    decreases |s|
  {
    match FindChar(s, c)
    case None => [s]
    case Some(i) => [s[..i]] + Split(s[i + 1..], c)
  }

  /** The pieces joined back with `c` between them. */
  function Join(parts: seq<string>, c: char): string
    requires |parts| >= 1
  {
    if |parts| == 1 then parts[0] else parts[0] + [c] + Join(parts[1..], c)
  }

  lemma {:induction false} SplitJoin(s: string, c: char)
    ensures Join(Split(s, c), c) == s
    decreases |s|
  {
    var f := FindChar(s, c);
    if f.Some? {
      var i := f.value;
      assert Split(s, c) == [s[..i]] + Split(s[i + 1..], c);
      SplitJoin(s[i + 1..], c);
      assert s == s[..i] + [c] + s[i + 1..];
    }
  }

  lemma {:induction false} JoinSplit(parts: seq<string>, c: char)
    requires |parts| >= 1
    requires forall k :: 0 <= k < |parts| ==> c !in parts[k]
    ensures Split(Join(parts, c), c) == parts
    decreases |parts|
  {
    var s := Join(parts, c);
    if |parts| == 1 {
      assert FindChar(s, c).None?;
    } else {
      var rest := Join(parts[1..], c);
      assert s == parts[0] + [c] + rest;
      var i := |parts[0]|;
      assert s[i] == c;
      assert s[..i] == parts[0];
      assert FindChar(s, c) == Some(i);
      assert s[i + 1..] == rest;
      JoinSplit(parts[1..], c);
    }
  }

  /** The first index whose character satisfies `pred`. */
  function FindWhere(s: string, pred: char -> bool): (r: Option<nat>)
    ensures r.Some? ==> r.value < |s| && pred(s[r.value])
    ensures r.Some? ==> forall j :: 0 <= j < r.value ==> !pred(s[j])
    ensures r.None? ==> forall j :: 0 <= j < |s| ==> !pred(s[j])
  {
    if |s| == 0 then None
    else if pred(s[0]) then Some(0)
    else match FindWhere(s[1..], pred)
      case None => None
      case Some(i) => Some(i + 1)
  }

  /** `s.split(pred)`: the pieces between the characters satisfying `pred`;
      always at least one. */
  function SplitWhere(s: string, pred: char -> bool): (r: seq<string>)
    ensures |r| >= 1
    decreases |s|
  {
    match FindWhere(s, pred)
    case None => [s]
    case Some(i) => [s[..i]] + SplitWhere(s[i + 1..], pred)
  }

  /** A text without a separator is a single piece. */
  lemma {:induction false} SplitWhereNone(s: string, pred: char -> bool)
    requires forall j :: 0 <= j < |s| ==> !pred(s[j])
    ensures SplitWhere(s, pred) == [s]
  {
  }

  /** Cutting at a first separator: the piece before it, then the rest split. */
  lemma {:induction false} SplitWhereCut(x: string, c: char, z: string, pred: char -> bool)
    requires pred(c) && forall j :: 0 <= j < |x| ==> !pred(x[j])
    ensures SplitWhere(x + [c] + z, pred) == [x] + SplitWhere(z, pred)
  {
    var s := x + [c] + z;
    forall j | 0 <= j < |x| ensures !pred(s[j]) {
      assert s[j] == x[j];
    }
    assert s[|x|] == c;
    assert FindWhere(s, pred) == Some(|x|);
    assert s[..|x|] == x && s[|x| + 1..] == z;
  }

  /** A text that neither starts nor ends with white space is its own trim. */
  lemma {:induction false} TrimKeeps(s: string)
    requires |s| > 0 && !IsWhitespace(s[0]) && !IsWhitespace(s[|s| - 1])
    ensures Trim(s) == s
  {
  }

  /** Trailing white space after such a text is trimmed away. */
  lemma {:induction false} TrimDropsLast(s: string, c: char)
    requires |s| > 0 && !IsWhitespace(s[0]) && !IsWhitespace(s[|s| - 1]) && IsWhitespace(c)
    ensures Trim(s + [c]) == s
  {
    var t := s + [c];
    assert TrimStart(t) == t;
    assert t[..|t| - 1] == s;
    assert TrimEnd(t) == TrimEnd(s) == s;
  }

  /** Every character satisfying `pred` replaced by `sub`. */
  function ReplaceWhere(s: string, pred: char -> bool, sub: char): (r: string)
    ensures |r| == |s|
    ensures forall i :: 0 <= i < |s| ==> r[i] == (if pred(s[i]) then sub else s[i])
  {
    if |s| == 0 then "" else [if pred(s[0]) then sub else s[0]] + ReplaceWhere(s[1..], pred, sub)
  }

  /** Unicode `White_Space`, as used by `char::is_whitespace` and `str::trim`. */
  predicate IsWhitespace(c: char) {
    var n := c as int;
    (0x09 <= n <= 0x0D) || n == 0x20 || n == 0x85 || n == 0xA0 || n == 0x1680
    || (0x2000 <= n <= 0x200A) || n == 0x2028 || n == 0x2029 || n == 0x202F
    || n == 0x205F || n == 0x3000
  }

  function TrimStart(s: string): (r: string)
    ensures |r| <= |s| && r == s[|s| - |r|..]
    ensures |r| > 0 ==> !IsWhitespace(r[0])
    ensures forall i :: 0 <= i < |s| - |r| ==> IsWhitespace(s[i])
  {
    if |s| > 0 && IsWhitespace(s[0]) then TrimStart(s[1..]) else s
  }

  function TrimEnd(s: string): (r: string)
    ensures |r| <= |s| && r == s[..|r|]
    ensures |r| > 0 ==> !IsWhitespace(r[|r| - 1])
    ensures forall i :: |r| <= i < |s| ==> IsWhitespace(s[i])
  {
    if |s| > 0 && IsWhitespace(s[|s| - 1]) then TrimEnd(s[..|s| - 1]) else s
  }

  /** `s.trim()`: leading and trailing white space removed. */
  function Trim(s: string): string { TrimEnd(TrimStart(s)) }

  /** Looking for `c` past a prefix that does not hold it. */
  lemma {:induction false} FindCharConcat(a: string, b: string, c: char)
    requires c !in a
    ensures FindChar(b, c).None? ==> FindChar(a + b, c).None?
    ensures FindChar(b, c).Some? ==> FindChar(a + b, c) == Some(|a| + FindChar(b, c).value)
  {
    var s := a + b;
    match FindChar(b, c)
    case None =>
      forall j | 0 <= j < |s| ensures s[j] != c {
        if j < |a| {
          assert s[j] == a[j] && a[j] in a;
        } else {
          assert s[j] == b[j - |a|] && b[j - |a|] in b;
        }
      }
      assert c !in s;
    case Some(i) =>
      forall j | 0 <= j < |a| + i ensures s[j] != c {
        if j < |a| {
          assert s[j] == a[j] && a[j] in a;
        } else {
          assert s[j] == b[j - |a|] == b[..i][j - |a|] && b[..i][j - |a|] in b[..i];
        }
      }
      assert s[|a| + i] == b[i];
      FindCharAt(s, c, |a| + i);
  }

  /** `find` returns the first index holding `c`. */
  lemma {:induction false} FindCharAt(s: string, c: char, k: nat)
    requires k < |s| && s[k] == c
    requires forall i :: 0 <= i < k ==> s[i] != c
    ensures FindChar(s, c) == Some(k)
  {
    assert s[k] in s;
  }

  /** Cutting `x + [c] + z` at its first `c` gives back `x` and `z`. */
  lemma {:induction false} CutAt(x: string, c: char, z: string)
    requires c !in x
    ensures FindChar(x + [c] + z, c) == Some(|x|)
    ensures (x + [c] + z)[..|x|] == x && (x + [c] + z)[|x| + 1..] == z
  {
    var s := x + [c] + z;
    forall i | 0 <= i < |x| ensures s[i] != c {
      assert s[i] == x[i];
    }
    FindCharAt(s, c, |x|);
  }

  /** Splitting at a first separator: the piece before it, then the rest split. */
  lemma {:induction false} SplitCut(x: string, c: char, z: string)
    requires c !in x
    ensures Split(x + [c] + z, c) == [x] + Split(z, c)
  {
    CutAt(x, c, z);
  }

  /** A text without the separator is a single piece. */
  lemma {:induction false} SplitNone(s: string, c: char)
    requires c !in s
    ensures Split(s, c) == [s]
  {
  }

  lemma {:induction false} ConcatAssoc<T>(a: seq<T>, b: seq<T>, c: seq<T>)
    ensures (a + b) + c == a + (b + c)
  {
  }

  lemma {:induction false} ConcatAssoc3<T>(a: seq<T>, b: seq<T>, c: seq<T>, e: seq<T>)
    ensures ((a + b) + c) + e == a + ((b + c) + e)
  {
  }

  /** `find` returns the first occurrence: one at `k` with none before it. */
  lemma {:induction false} FindFirst(s: string, p: string, k: nat)
    requires OccursAt(s, p, k)
    requires forall j :: 0 <= j < k ==> !OccursAt(s, p, j)
    ensures Find(s, p) == Some(k)
  {
  }

  /** A pattern whose first character is not in `x` is first found after `x`. */
  lemma {:induction false} FindAfter(x: string, p: string, z: string)
    requires |p| > 0 && p[0] !in x
    ensures Find(x + p + z, p) == Some(|x|)
  {
    var s := x + p + z;
    forall j | 0 <= j < |x| ensures !OccursAt(s, p, j) {
      assert s[j] == x[j];
      if j + |p| <= |s| {
        assert s[j..j + |p|][0] == s[j];
      }
    }
    assert s[|x|..|x| + |p|] == p;
    FindFirst(s, p, |x|);
  }

  lemma {:induction false} HeadOfStart(s: string, p: string)
    requires |p| > 0 && StartsWith(s, p)
    ensures |s| > 0 && s[0] == p[0]
  {
    assert s[..|p|][0] == s[0];
  }

  lemma {:induction false} OtherHead(s: string, p: string)
    requires |p| > 0 && (|s| == 0 || s[0] != p[0])
    ensures !StartsWith(s, p)
  {
    if |s| >= |p| {
      assert s[..|p|][0] == s[0];
    }
  }

  lemma {:induction false} StartsWithConcat(a: string, b: string, p: string)
    requires |p| <= |a|
    ensures StartsWith(a + b, p) == StartsWith(a, p)
  {
    assert (a + b)[..|p|] == a[..|p|];
  }
}
