/** The Python `str` operations the core relies on: strip, split, join, replace, lower. */
module Text {

  /** The characters Python's `str.isspace()` accepts. */
  predicate IsSpace(c: char) {
    || ('\U{9}' <= c <= '\U{D}')
    || ('\U{1C}' <= c <= '\U{20}')
    || c == '\U{85}' || c == '\U{A0}' || c == '\U{1680}'
    || ('\U{2000}' <= c <= '\U{200A}')
    || c == '\U{2028}' || c == '\U{2029}' || c == '\U{202F}' || c == '\U{205F}' || c == '\U{3000}'
  }

  predicate AllSpace(s: string) {
    forall i :: 0 <= i < |s| ==> IsSpace(s[i])
  }

  /** Neither end of `s` is whitespace. */
  predicate Trimmed(s: string) {
    s == [] || (!IsSpace(s[0]) && !IsSpace(s[|s| - 1]))
  }

  /** Index of the first `c` in `s`, or -1 (Python's `str.find`). */
  function IndexOf(s: string, c: char): (i: int)
    ensures -1 <= i < |s|
    ensures i >= 0 ==> s[i] == c
    ensures forall j :: 0 <= j < |s| && (i < 0 || j < i) ==> s[j] != c
  {
    if |s| == 0 then -1
    else if s[0] == c then 0
    else
      var k := IndexOf(s[1..], c);
      if k < 0 then -1 else k + 1
  }

  /** Index of the last `c` in `s`, or -1 (Python's `str.rfind`). */
  function LastIndexOf(s: string, c: char): (i: int)
    ensures -1 <= i < |s|
    ensures i >= 0 ==> s[i] == c
    ensures forall j :: i < j < |s| ==> s[j] != c
  {
    if |s| == 0 then -1
    else if s[|s| - 1] == c then |s| - 1
    else LastIndexOf(s[..|s| - 1], c)
  }

  /** `s.lstrip()`: the longest suffix of `s` that does not start with whitespace. */
  function StripLeft(s: string): (r: string)
    ensures |r| <= |s| && r == s[|s| - |r|..]
    ensures AllSpace(s[..|s| - |r|])
    ensures r == [] || !IsSpace(r[0])
  {
    if |s| > 0 && IsSpace(s[0]) then
      var rest := s[1..];
      var r := StripLeft(rest);
      assert s[|s| - |r|..] == rest[|rest| - |r|..];
      assert s[..|s| - |r|] == [s[0]] + rest[..|rest| - |r|];
      AllSpaceConcat([s[0]], rest[..|rest| - |r|]);
      r
    else s
  }

  /** `s.rstrip()`: the longest prefix of `s` that does not end with whitespace. */
  function StripRight(s: string): (r: string)
    ensures |r| <= |s| && r == s[..|r|]
    ensures AllSpace(s[|r|..])
    ensures r == [] || !IsSpace(r[|r| - 1])
  {
    if |s| > 0 && IsSpace(s[|s| - 1]) then
      var rest := s[..|s| - 1];
      var r := StripRight(rest);
      assert s[..|r|] == rest[..|r|];
      assert s[|r|..] == rest[|r|..] + [s[|s| - 1]];
      AllSpaceConcat(rest[|r|..], [s[|s| - 1]]);
      r
    else s
  }

  lemma AllSpaceConcat(a: string, b: string)
    requires AllSpace(a) && AllSpace(b)
    ensures AllSpace(a + b)
  {
    forall i | 0 <= i < |a + b| ensures IsSpace((a + b)[i]) {
      if i < |a| {
        assert (a + b)[i] == a[i];
      } else {
        assert (a + b)[i] == b[i - |a|];
      }
    }
  }

  /** `s.strip()`: `s` with its leading and trailing whitespace removed. */
  function Strip(s: string): (r: string)
    ensures Trimmed(r)
    ensures |r| <= |s|
  {
    var left := StripLeft(s);
    var r := StripRight(left);
    assert r == [] || r[0] == left[0];
    r
  }

  /** What `Strip` removes is whitespace at the two ends, and what it keeps is a slice of `s`. */
  lemma StripSlice(s: string) returns (a: nat)
    ensures a + |Strip(s)| <= |s|
    ensures s[a..a + |Strip(s)|] == Strip(s)
    ensures AllSpace(s[..a]) && AllSpace(s[a + |Strip(s)|..])
  {
    var left := StripLeft(s);
    var r := StripRight(left);
    assert r == Strip(s);
    a := |s| - |left|;
    SliceOfSuffix(s, a, left, |r|);
    assert s[a..a + |r|] == r;
    assert AllSpace(s[a + |r|..]);
  }

  /** Slicing a suffix `left == s[a..]` is slicing `s` shifted by `a`. */
  lemma SliceOfSuffix(s: string, a: nat, left: string, m: nat)
    requires a <= |s| && left == s[a..] && m <= |left|
    ensures s[a..a + m] == left[..m]
    ensures s[a + m..] == left[m..]
  {
  }

  /** Every character `Strip` keeps comes from `s`. */
  lemma StripKeepsOnlyCharsOf(s: string, c: char)
    requires c !in s
    ensures c !in Strip(s)
  {
    var a := StripSlice(s);
    var r := Strip(s);
    forall k | 0 <= k < |r| ensures r[k] != c {
      assert r[k] == s[a + k];
    }
  }

  /** Stripping a string that is already trimmed changes nothing. */
  lemma StripTrimmed(s: string)
    requires Trimmed(s)
    ensures Strip(s) == s
  {
  }

  /** `s.split(sep)` for a one-character separator. */
  function Split(s: string, sep: char): (parts: seq<string>)
    ensures |parts| >= 1
    ensures forall p <- parts :: sep !in p
    decreases |s|
  {
    var i := IndexOf(s, sep);
    if i < 0 then [s] else [s[..i]] + Split(s[i + 1..], sep)
  }

  /** `sep.join(parts)`. */
  function Join(parts: seq<string>, sep: char): string {
    if |parts| == 0 then ""
    else if |parts| == 1 then parts[0]
    else parts[0] + [sep] + Join(parts[1..], sep)
  }

  /** Joining the pieces of a split gives back the original text. */
  lemma {:induction false} JoinSplit(s: string, sep: char)
    ensures Join(Split(s, sep), sep) == s
    decreases |s|
  {
    var i := IndexOf(s, sep);
    if i >= 0 {
      var head, rest := s[..i], s[i + 1..];
      var parts := Split(rest, sep);
      JoinSplit(rest, sep);
      SplitAtFirst(s, sep, i);
      JoinCons(head, parts, sep);
      assert s == head + [sep] + rest;
    }
  }

  /** Splitting a join of separator-free pieces gives back the pieces. */
  lemma {:induction false} SplitJoin(parts: seq<string>, sep: char)
    requires |parts| >= 1
    requires forall p <- parts :: sep !in p
    ensures Split(Join(parts, sep), sep) == parts
  {
    var head := parts[0];
    assert head in parts;
    if |parts| > 1 {
      var tail := parts[1..];
      var rest := Join(tail, sep);
      var s := head + [sep] + rest;
      assert parts == [head] + tail;
      JoinCons(head, tail, sep);
      FirstSeparator(head, sep, rest);
      SplitAtFirst(s, sep, |head|);
      SplitJoin(tail, sep);
    } else {
      assert IndexOf(head, sep) < 0;
    }
  }

  /** Joining a head onto a non-empty list puts one separator between them. */
  lemma JoinCons(head: string, tail: seq<string>, sep: char)
    requires |tail| >= 1
    ensures Join([head] + tail, sep) == head + [sep] + Join(tail, sep)
  {
    assert ([head] + tail)[1..] == tail;
  }

  /** A split at the first separator, at index `i`, starts with the text before it. */
  lemma SplitAtFirst(s: string, sep: char, i: int)
    requires 0 <= i && IndexOf(s, sep) == i
    ensures Split(s, sep) == [s[..i]] + Split(s[i + 1..], sep)
  {
  }

  /** In `head + [sep] + rest`, when `head` has no separator, the first one follows `head`. */
  lemma FirstSeparator(head: string, sep: char, rest: string)
    requires sep !in head
    ensures IndexOf(head + [sep] + rest, sep) == |head|
    ensures (head + [sep] + rest)[..|head|] == head
    ensures (head + [sep] + rest)[|head| + 1..] == rest
  {
    var s := head + [sep] + rest;
    assert s[|head|] == sep;
    forall j | 0 <= j < |head| ensures s[j] != sep {
      assert s[j] == head[j];
    }
  }

  /** `s.replace(c, with)` for a one-character pattern: every `c` becomes `with`. */
  function ReplaceChar(s: string, c: char, with: string): (r: string)
    ensures c !in with ==> c !in r
    ensures forall d :: d in r ==> (d in s && d != c) || d in with
    ensures forall d :: d in s && d != c ==> d in r
    ensures c !in s ==> r == s
  {
    if s == [] then []
    else (if s[0] == c then with else [s[0]]) + ReplaceChar(s[1..], c, with)
  }

  function LowerChar(c: char): char {
    if 'A' <= c <= 'Z' then (c as int + 32) as char else c
  }

  /** `s.lower()` on ASCII letters; every other character is kept. */
  function Lower(s: string): (r: string)
    ensures |r| == |s|
    ensures forall i :: 0 <= i < |s| ==> r[i] == LowerChar(s[i])
  {
    seq(|s|, i requires 0 <= i < |s| => LowerChar(s[i]))
  }
}
