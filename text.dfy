/**
 * The Python string operations the chat flow relies on: `startswith`, the
 * substring test `m in s`, `s.split(m)`, `s.replace(m, "")` and `s.strip()`.
 */
module Text {
  import opened Optional

  /** `s.startswith(p)` */
  predicate StartsWith(s: string, p: string) {
    |p| <= |s| && s[..|p|] == p
  }

  /** The marker `m` occurs in `s` starting at index `j`. */
  predicate OccursAt(s: string, m: string, j: int) {
    0 <= j && j + |m| <= |s| && s[j..j + |m|] == m
  }

  /** Python's substring test `m in s`. */
  predicate Contains(s: string, m: string) {
    exists j :: 0 <= j <= |s| - |m| && OccursAt(s, m, j)
  }

  /** The index of the first occurrence of `m` in `s` at or after index `k`;
      that it is an occurrence, and the first, is `IndexFromIsFirst`. */
  function IndexFrom(s: string, m: string, k: nat): (r: Option<nat>)
    requires m != ""
    ensures r.Some? ==> k <= r.value && r.value + |m| <= |s|
    decreases |s| - k
  {
    if k + |m| > |s| then None
    else if s[k..k + |m|] == m then Some(k)
    else IndexFrom(s, m, k + 1)
  }

  /** What is found is an occurrence, and none is skipped: none lies between
      `k` and the index found, and none at all from `k` on when nothing is found. */
  lemma {:induction false} IndexFromIsFirst(s: string, m: string, k: nat)
    requires m != ""
    ensures IndexFrom(s, m, k).Some? ==> OccursAt(s, m, IndexFrom(s, m, k).value)
    ensures forall j :: k <= j && (IndexFrom(s, m, k).None? || j < IndexFrom(s, m, k).value) ==> !OccursAt(s, m, j)
    decreases |s| - k
  {
    if k + |m| <= |s| && s[k..k + |m|] != m {
      IndexFromIsFirst(s, m, k + 1);
    }
  }

  /** `s.find(m)`, with "not found" as `None`. */
  function IndexOf(s: string, m: string): (r: Option<nat>)
    requires m != ""
    ensures r.Some? ==> r.value + |m| <= |s|
  {
    IndexFrom(s, m, 0)
  }

  /** The search finds the first occurrence, and finds one exactly when the
      marker occurs. */
  lemma IndexOfIsFirst(s: string, m: string)
    requires m != ""
    ensures IndexOf(s, m).None? <==> !Contains(s, m)
    ensures IndexOf(s, m).Some? ==> OccursAt(s, m, IndexOf(s, m).value)
    ensures IndexOf(s, m).Some? ==> forall j :: 0 <= j < IndexOf(s, m).value ==> !OccursAt(s, m, j)
  {
    IndexFromIsFirst(s, m, 0);
  }

  /** `s.split(m)` for a non-empty separator. */
  function Split(s: string, m: string): (parts: seq<string>)
    requires m != ""
    ensures |parts| >= 1
    decreases |s|
  {
    match IndexOf(s, m)
    case None => [s]
    case Some(i) => [s[..i]] + Split(s[i + |m|..], m)
  }

  /** `m.join(parts)` */
  function Join(parts: seq<string>, m: string): (joined: string)
    requires |parts| >= 1
    decreases |parts|
  {
    if |parts| == 1 then parts[0] else parts[0] + m + Join(parts[1..], m)
  }

  /** `"".join(parts)` */
  function Concat(parts: seq<string>): (joined: string)
    decreases |parts|
  {
    if parts == [] then "" else parts[0] + Concat(parts[1..])
  }

  /** `s.replace(m, "")`: every occurrence, scanned left to right, is dropped. */
  function RemoveAll(s: string, m: string): (r: string)
    requires m != ""
    decreases |s|
  {
    match IndexOf(s, m)
    case None => s
    case Some(i) => s[..i] + RemoveAll(s[i + |m|..], m)
  }

  /** Splitting and joining again gives back the original text. */
  lemma {:induction false} JoinSplit(s: string, m: string)
    requires m != ""
    ensures Join(Split(s, m), m) == s
    decreases |s|
  {
    var found := IndexOf(s, m);
    if found.Some? {
      var i := found.value;
      var rest := s[i + |m|..];
      var parts := Split(rest, m);
      JoinSplit(rest, m);
      IndexOfIsFirst(s, m);
      assert Split(s, m) == [s[..i]] + parts;
      assert ([s[..i]] + parts)[1..] == parts;
      assert Join(Split(s, m), m) == s[..i] + m + rest;
      Recompose(s, m, i);
    }
  }

  /** Text around an occurrence of the marker is put back together by
      concatenation. */
  lemma Recompose(s: string, m: string, i: nat)
    requires OccursAt(s, m, i)
    ensures s[..i] + m + s[i + |m|..] == s
  {
    assert s[..i + |m|] == s[..i] + m;
    assert s[..i + |m|] + s[i + |m|..] == s;
  }

  /** A piece cut off before the first occurrence holds no occurrence. */
  lemma PrefixBeforeFirstIsFree(s: string, m: string, i: nat)
    requires m != "" && i <= |s|
    requires forall j :: 0 <= j < i ==> !OccursAt(s, m, j)
    ensures !Contains(s[..i], m)
  {
    forall j | OccursAt(s[..i], m, j)
      ensures OccursAt(s, m, j)
    {
      assert s[..i][j..j + |m|] == s[j..j + |m|];
    }
  }

  /** No piece of a split holds the separator, and there is more than one
      piece exactly when the separator occurs. */
  lemma {:induction false} SplitPartsFree(s: string, m: string)
    requires m != ""
    ensures forall k :: 0 <= k < |Split(s, m)| ==> !Contains(Split(s, m)[k], m)
    ensures |Split(s, m)| > 1 <==> Contains(s, m)
    decreases |s|
  {
    IndexOfIsFirst(s, m);
    match IndexOf(s, m)
    case None =>
    case Some(i) =>
      var rest := s[i + |m|..];
      SplitPartsFree(rest, m);
      PrefixBeforeFirstIsFree(s, m, i);
      assert Split(s, m) == [s[..i]] + Split(rest, m);
  }

  /** `s.replace(m, "")` is `"".join(s.split(m))`. */
  lemma {:induction false} RemoveAllIsConcatOfSplit(s: string, m: string)
    requires m != ""
    ensures RemoveAll(s, m) == Concat(Split(s, m))
    decreases |s|
  {
    match IndexOf(s, m)
    case None =>
    case Some(i) =>
      var rest := s[i + |m|..];
      RemoveAllIsConcatOfSplit(rest, m);
      assert Split(s, m)[1..] == Split(rest, m);
  }

  /** Each removal takes away exactly one copy of the marker. */
  lemma {:induction false} RemoveAllLength(s: string, m: string)
    requires m != ""
    ensures |RemoveAll(s, m)| + (|Split(s, m)| - 1) * |m| == |s|
    decreases |s|
  {
    var found := IndexOf(s, m);
    if found.Some? {
      var i := found.value;
      var rest := s[i + |m|..];
      RemoveAllLength(rest, m);
      assert RemoveAll(s, m) == s[..i] + RemoveAll(rest, m);
      var n := |Split(rest, m)| - 1;
      assert |Split(s, m)| - 1 == n + 1;
      assert (n + 1) * |m| == n * |m| + |m|;
    }
  }

  /** Text free of the marker is left untouched by `replace`. */
  lemma RemoveAllWithoutMarker(s: string, m: string)
    requires m != "" && !Contains(s, m)
    ensures RemoveAll(s, m) == s
  {
    IndexOfIsFirst(s, m);
  }

  /**
   * Removing the occurrences does not leave the marker-free text that one
   * might expect: when one copy of the marker sits inside another, taking
   * it out joins the outer halves into a new copy.
   */
  lemma RemoveAllCanRebuildMarker(m: string)
    requires |m| >= 2
    requires !OccursAt(m[..1] + m + m[1..], m, 0)
    ensures RemoveAll(m[..1] + m + m[1..], m) == m
  {
    var a, b := m[..1], m[1..];
    FoundAfterOne(a, m, b);
    ShortTextKept(b, m);
    TakeDrop(m, 1);
  }

  /** With one character in front, the first occurrence is at index 1. */
  lemma FoundAfterOne(a: string, m: string, b: string)
    requires |a| == 1 && m != ""
    requires !OccursAt(a + m + b, m, 0)
    ensures IndexOf(a + m + b, m) == Some(1)
    ensures RemoveAll(a + m + b, m) == a + RemoveAll(b, m)
  {
    ThreeSlices(a, m, b);
    assert IndexFrom(a + m + b, m, 1) == Some(1);
  }

  /** Text shorter than the marker is left as it is. */
  lemma ShortTextKept(b: string, m: string)
    requires m != "" && |b| < |m|
    ensures RemoveAll(b, m) == b
  {
  }

  lemma TakeDrop(m: string, k: nat)
    requires k <= |m|
    ensures m[..k] + m[k..] == m
  {
  }

  /** The three parts of a concatenation are recovered by slicing. */
  lemma ThreeSlices(a: string, m: string, b: string)
    ensures (a + m + b)[..|a|] == a
    ensures (a + m + b)[|a|..|a| + |m|] == m
    ensures (a + m + b)[|a| + |m|..] == b
  {
  }

  /** Python's `str.isspace()` for one character. */
  predicate IsSpace(c: char) {
    var n := c as int;
    (9 <= n <= 13) || (28 <= n <= 32) || n == 0x85 || n == 0xA0 || n == 0x1680
    || (0x2000 <= n <= 0x200A) || n == 0x2028 || n == 0x2029 || n == 0x202F
    || n == 0x205F || n == 0x3000
  }

  /** `s.lstrip()` */
  function LStrip(s: string): (r: string)
    ensures |r| <= |s| && r == s[|s| - |r|..]
    ensures r == [] || !IsSpace(r[0])
    ensures forall k :: 0 <= k < |s| - |r| ==> IsSpace(s[k])
    decreases |s|
  {
    if |s| > 0 && IsSpace(s[0]) then LStrip(s[1..]) else s
  }

  /** `s.rstrip()` */
  function RStrip(s: string): (r: string)
    ensures |r| <= |s| && r == s[..|r|]
    ensures r == [] || !IsSpace(r[|r| - 1])
    ensures forall k :: |r| <= k < |s| ==> IsSpace(s[k])
    decreases |s|
  {
    if |s| > 0 && IsSpace(s[|s| - 1]) then RStrip(s[..|s| - 1]) else s
  }

  /** `s.strip()` */
  function Strip(s: string): (r: string) {
    LStrip(RStrip(s))
  }

  /** `strip()` keeps a contiguous middle of the text, drops only whitespace
      around it, and leaves no whitespace at either end. */
  lemma StripIsTrimmedMiddle(s: string) returns (i: nat, j: nat)
    ensures i <= j <= |s| && Strip(s) == s[i..j]
    ensures forall k :: 0 <= k < i ==> IsSpace(s[k])
    ensures forall k :: j <= k < |s| ==> IsSpace(s[k])
    ensures i < j ==> !IsSpace(s[i]) && !IsSpace(s[j - 1])
  {
    var t := RStrip(s);
    var r := LStrip(t);
    j := |t|;
    i := |t| - |r|;
    assert r == t[i..];
    assert t == s[..j];
    assert r == s[i..j];
    forall k | 0 <= k < i ensures IsSpace(s[k]) {
      assert s[k] == t[k];
    }
    if i < j {
      assert s[i] == r[0];
      assert s[j - 1] == r[|r| - 1];
    }
  }

  /** Stripping twice strips nothing more. */
  lemma StripIdempotent(s: string)
    ensures Strip(Strip(s)) == Strip(s)
  {
    var r := Strip(s);
    assert r == [] || (!IsSpace(r[0]) && !IsSpace(r[|r| - 1])) by {
      var i, j := StripIsTrimmedMiddle(s);
    }
    assert RStrip(r) == r;
    assert LStrip(r) == r;
  }

  /** A text that contains the marker splits into the text before its first
      occurrence and the pieces of the text after it. */
  lemma SplitAtFirst(s: string, m: string)
    requires m != "" && Contains(s, m)
    ensures IndexOf(s, m).Some?
    ensures var i := IndexOf(s, m).value;
      |Split(s, m)| > 1 && Split(s, m)[0] == s[..i] && Split(s, m)[1] == Split(s[i + |m|..], m)[0]
  {
    IndexOfIsFirst(s, m);
  }

  /** Text that neither starts nor ends with whitespace is left as it is. */
  lemma StripUnchanged(s: string)
    requires s == [] || (!IsSpace(s[0]) && !IsSpace(s[|s| - 1]))
    ensures Strip(s) == s
  {
    assert RStrip(s) == s;
  }

  /** A slice of marker-free text is marker-free. */
  lemma SliceKeepsOut(s: string, m: string, i: nat, j: nat)
    requires i <= j <= |s| && !Contains(s, m)
    ensures !Contains(s[i..j], m)
  {
    forall k | OccursAt(s[i..j], m, k)
      ensures OccursAt(s, m, i + k)
    {
      forall t | 0 <= t < |m|
        ensures s[i + k..i + k + |m|][t] == m[t]
      {
        assert s[i..j][k..k + |m|][t] == m[t];
      }
    }
  }

  /** Stripping cannot create a marker. */
  lemma StripKeepsOut(s: string, m: string)
    requires !Contains(s, m)
    ensures !Contains(Strip(s), m)
  {
    var i, j := StripIsTrimmedMiddle(s);
    SliceKeepsOut(s, m, i, j);
  }

  /** A text that lacks one of the marker's characters does not contain the marker. */
  lemma MissingCharExcludes(s: string, m: string, k: nat)
    requires k < |m| && m[k] !in s
    ensures !Contains(s, m)
  {
    forall j | 0 <= j <= |s| - |m|
      ensures !OccursAt(s, m, j)
    {
      assert s[j..j + |m|][k] == s[j + k];
    }
  }

  /** Joining two marker-free texts with a separator none of whose characters
      occurs in the marker gives a marker-free text. */
  lemma SeparatedStaysFree(a: string, sep: string, b: string, m: string)
    requires m != "" && sep != ""
    requires !Contains(a, m) && !Contains(b, m)
    requires forall k :: 0 <= k < |m| ==> m[k] !in sep
    ensures !Contains(a + sep + b, m)
  {
    var s := a + sep + b;
    forall j | 0 <= j <= |s| - |m|
      ensures !OccursAt(s, m, j)
    {
      if j + |m| <= |a| {
        assert s[j..j + |m|] == a[j..j + |m|] && !OccursAt(a, m, j);
      } else if j >= |a| + |sep| {
        var q := j - |a| - |sep|;
        assert s[j..j + |m|] == b[q..q + |m|] && !OccursAt(b, m, q);
      } else {
        var p := if j < |a| then |a| else j;
        assert s[p] == sep[p - |a|];
        assert s[j..j + |m|][p - j] != m[p - j];
      }
    }
  }
}
