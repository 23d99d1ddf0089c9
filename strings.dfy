/** The JavaScript string operations the app relies on: `includes`,
    `split` with a non-empty separator, and the UTF-16 code units behind
    `length` and `charCodeAt`. */
module Strings {
  import opened Wrappers

  /** `sep` occurs in `s` starting at index `i`. */
  predicate OccursAt(s: string, sep: string, i: nat)
  {
    i + |sep| <= |s| && s[i..i + |sep|] == sep
  }

  /** `s.includes(sep)`. */
  predicate Contains(s: string, sep: string)
  {
    exists i: nat :: i <= |s| && OccursAt(s, sep, i)
  }

  /** The first occurrence of `sep` in `s` at or after `from`. */
  function IndexFrom(s: string, sep: string, from: nat): (r: Option<nat>)
    requires from <= |s|
    ensures r.Some? ==> from <= r.value <= |s| && OccursAt(s, sep, r.value)
    ensures r.Some? ==> forall j: nat :: from <= j < r.value ==> !OccursAt(s, sep, j)
    ensures r.None? ==> forall j: nat :: from <= j <= |s| ==> !OccursAt(s, sep, j)
    decreases |s| - from
  {
    if OccursAt(s, sep, from) then Some(from)
    else if from == |s| then None
    else IndexFrom(s, sep, from + 1)
  }

  /** `s.indexOf(sep)`, with `None` for -1. */
  function IndexOf(s: string, sep: string): (r: Option<nat>)
    ensures r.Some? <==> Contains(s, sep)
    ensures r.Some? ==> OccursAt(s, sep, r.value)
    ensures r.Some? ==> forall j: nat :: j < r.value ==> !OccursAt(s, sep, j)
  {
    IndexFrom(s, sep, 0)
  }

  /** The inverse of `Split`: the parts glued back together with `sep`. */
  function Join(parts: seq<string>, sep: string): string
  {
    if |parts| == 0 then ""
    else if |parts| == 1 then parts[0]
    else parts[0] + sep + Join(parts[1..], sep)
  }

  /** `s.split(sep)` for a non-empty separator: cut at every occurrence,
      scanning from the left. */
  function Split(s: string, sep: string): (parts: seq<string>)
    requires |sep| > 0
    ensures |parts| >= 1
    ensures forall k :: 0 <= k < |parts| ==> !Contains(parts[k], sep)
    ensures Join(parts, sep) == s
    ensures |parts| >= 2 <==> Contains(s, sep)
    decreases |s|
  {
    match IndexOf(s, sep)
    case None => [s]
    case Some(i) =>
      var rest := Split(s[i + |sep|..], sep);
      NoOccurrenceBefore(s, sep, i);
      assert s == s[..i] + sep + s[i + |sep|..];
      [s[..i]] + rest
  }

  /** A prefix that ends before the first occurrence of `sep` does not
      contain `sep`. */
  lemma NoOccurrenceBefore(s: string, sep: string, i: nat)
    requires i <= |s|
    requires forall j: nat :: j < i ==> !OccursAt(s, sep, j)
    requires |sep| > 0
    ensures !Contains(s[..i], sep)
  {
    forall j: nat | j <= i && OccursAt(s[..i], sep, j)
      ensures false
    {
      assert s[..i][j..j + |sep|] == s[j..j + |sep|];
      assert OccursAt(s, sep, j);
    }
  }

  /** The first part of a split is the text before the first occurrence
      of the separator, or the whole string when there is none. */
  lemma {:induction false} SplitFirst(s: string, sep: string)
    requires |sep| > 0
    ensures IndexOf(s, sep).None? ==> Split(s, sep)[0] == s
    ensures IndexOf(s, sep).Some? ==> Split(s, sep)[0] == s[..IndexOf(s, sep).value]
  {
  }

  /** The scan is from the left: the first part ends at the first
      occurrence, and the rest is the split of what follows it. */
  lemma SplitAtFirst(s: string, sep: string)
    requires |sep| > 0 && Contains(s, sep)
    ensures var i := IndexOf(s, sep).value;
            Split(s, sep) == [s[..i]] + Split(s[i + |sep|..], sep)
  {
  }

  /** Text without a one-character separator, then the separator, then
      anything: the first part is that text. */
  lemma SplitFirstPart(head: string, sep: string, tail: string)
    requires |sep| == 1 && !Contains(head, sep)
    ensures Split(head + sep + tail, sep)[0] == head
  {
    var s := head + sep + tail;
    assert OccursAt(s, sep, |head|) by {
      assert s[|head|..|head| + |sep|] == sep;
    }
    forall j: nat | j < |head|
      ensures !OccursAt(s, sep, j)
    {
      assert s[j..j + 1] == head[j..j + 1];
      assert !OccursAt(head, sep, j);
    }
    assert IndexOf(s, sep) == Some(|head|);
    assert s[..|head|] == head;
    SplitFirst(s, sep);
  }

  /** An occurrence with no other character that could begin the
      separator cuts the string in two. */
  lemma SplitInTwo(s: string, sep: string, i: nat)
    requires |sep| > 0 && OccursAt(s, sep, i)
    requires forall j :: 0 <= j < i ==> s[j] != sep[0]
    requires forall j :: i + |sep| <= j < |s| ==> s[j] != sep[0]
    ensures Split(s, sep) == [s[..i], s[i + |sep|..]]
  {
    IndexOfAt(s, sep, i);
    var rest := s[i + |sep|..];
    NotContains(rest, sep);
    assert Split(rest, sep) == [rest];
  }

  /** The first occurrence is found when no earlier character could
      begin the separator. */
  lemma IndexOfAt(s: string, sep: string, i: nat)
    requires |sep| > 0 && OccursAt(s, sep, i)
    requires forall j :: 0 <= j < i ==> s[j] != sep[0]
    ensures IndexOf(s, sep) == Some(i)
  {
    var k := IndexOf(s, sep).value;
    assert s[k..k + |sep|][0] == s[k];
  }

  /** A string none of whose characters begins the separator does not
      contain it. */
  lemma NotContains(s: string, sep: string)
    requires |sep| > 0
    requires forall j :: 0 <= j < |s| ==> s[j] != sep[0]
    ensures !Contains(s, sep)
  {
    forall i: nat | i <= |s|
      ensures !OccursAt(s, sep, i)
    {
      if i + |sep| <= |s| {
        assert s[i..i + |sep|][0] == s[i];
      }
    }
  }

  /** The UTF-16 code units of one character (a surrogate pair above the
      Basic Multilingual Plane). */
  function CharUnits(c: char): (units: seq<int>)
    ensures 1 <= |units| <= 2
    ensures |units| == 1 <==> (c as int) < 0x10000
    ensures forall k :: 0 <= k < |units| ==> 0 <= units[k] < 0x10000
    ensures |units| == 1 ==> units[0] == c as int
    ensures |units| == 2 ==>
      0xD800 <= units[0] < 0xDC00 && 0xDC00 <= units[1] < 0xE000 &&
      0x10000 + (units[0] - 0xD800) * 0x400 + (units[1] - 0xDC00) == c as int
  {
    if (c as int) < 0x10000 then [c as int]
    else
      var v := c as int - 0x10000;
      [0xD800 + v / 0x400, 0xDC00 + v % 0x400]
  }

  /** The UTF-16 code units of a string: what `length` counts and what
      `charCodeAt` returns. */
  function CodeUnits(s: string): (units: seq<int>)
    ensures forall k :: 0 <= k < |units| ==> 0 <= units[k] < 0x10000
    ensures |units| >= |s|
    ensures (forall k :: 0 <= k < |s| ==> (s[k] as int) < 0x10000) ==> |units| == |s|
  {
    if s == [] then [] else CharUnits(s[0]) + CodeUnits(s[1..])
  }

  /** A single character contributes exactly its own code units. */
  lemma CodeUnitsOne(c: char)
    ensures CodeUnits([c]) == CharUnits(c)
  {
  }

  /** The code units of a concatenation are those of its parts, in order:
      so a character above the Basic Multilingual Plane adds two units
      wherever it stands. */
  lemma {:induction false} CodeUnitsAppend(a: string, b: string)
    ensures CodeUnits(a + b) == CodeUnits(a) + CodeUnits(b)
  {
    if a == [] {
      assert a + b == b;
    } else {
      assert (a + b)[1..] == a[1..] + b;
      CodeUnitsAppend(a[1..], b);
    }
  }

  /** An emoji above the Basic Multilingual Plane counts as two units:
      one emoji and two letters have length 4. */
  lemma AstralLength()
    ensures |CodeUnits("\U{1F600}ab")| == 4
    ensures CodeUnits("\U{1F600}ab") == [0xD83D, 0xDE00, 'a' as int, 'b' as int]
  {
  }

  /** Outside the surrogate-pair range every character is one code unit,
      equal to its code point. */
  lemma {:induction false} BmpCodeUnits(s: string)
    requires forall k :: 0 <= k < |s| ==> (s[k] as int) < 0x10000
    ensures |CodeUnits(s)| == |s|
    ensures forall k :: 0 <= k < |s| ==> CodeUnits(s)[k] == s[k] as int
  {
    if s != [] {
      BmpCodeUnits(s[1..]);
    }
  }
}
