/** String operations of Python that the service relies on: `sep.join`, `str.strip`,
    `str.lower` and the `in` substring test. */
module Text {

  /** `sep.join(parts)`. */
  function Join(sep: string, parts: seq<string>): string
    decreases |parts|
  {
    if |parts| == 0 then ""
    else if |parts| == 1 then parts[0]
    else parts[0] + sep + Join(sep, parts[1..])
  }

  /** Where the `i`-th part starts inside `Join(sep, parts)`. */
  function Offset(sep: string, parts: seq<string>, i: nat): nat
    requires i <= |parts|
    decreases i
  {
    if i == 0 then 0 else |parts[0]| + |sep| + Offset(sep, parts[1..], i - 1)
  }

  /** Joining one more part adds the separator and that part at the end. */
  lemma {:induction false} JoinSnoc(sep: string, parts: seq<string>, x: string)
    requires parts != []
    ensures Join(sep, parts + [x]) == Join(sep, parts) + sep + x
    decreases |parts|
  {
    if |parts| == 1 {
      assert (parts + [x])[1..] == [x];
    } else {
      assert (parts + [x])[1..] == parts[1..] + [x];
      JoinSnoc(sep, parts[1..], x);
    }
  }

  /** Consecutive offsets are one part and one separator apart. */
  lemma {:induction false} OffsetNext(sep: string, parts: seq<string>, i: nat)
    requires i < |parts|
    ensures Offset(sep, parts, i + 1) == Offset(sep, parts, i) + |parts[i]| + |sep|
    decreases i
  {
    if i > 0 {
      OffsetNext(sep, parts[1..], i - 1);
    }
  }

  /** The `i`-th part appears, unchanged, at its offset, and a separator follows every part but
      the last, which ends the string: the joined string is the parts in order, one after
      another, with the separator between neighbours. */
  lemma {:induction false} JoinAt(sep: string, parts: seq<string>, i: nat)
    requires i < |parts|
    ensures Offset(sep, parts, i) + |parts[i]| <= |Join(sep, parts)|
    ensures Join(sep, parts)[Offset(sep, parts, i)..Offset(sep, parts, i) + |parts[i]|] == parts[i]
    ensures i + 1 < |parts| ==>
      Offset(sep, parts, i) + |parts[i]| + |sep| <= |Join(sep, parts)| &&
      Join(sep, parts)[Offset(sep, parts, i) + |parts[i]|..Offset(sep, parts, i) + |parts[i]| + |sep|] == sep
    ensures i + 1 == |parts| ==> Offset(sep, parts, i) + |parts[i]| == |Join(sep, parts)|
    decreases i
  {
    if |parts| > 1 {
      var head, rest := parts[0] + sep, Join(sep, parts[1..]);
      assert Join(sep, parts) == head + rest;
      if i == 0 {
        SplitSlice(head + rest, 0, |parts[0]|, |head|, parts[0], sep);
      } else {
        JoinAt(sep, parts[1..], i - 1);
        var o := Offset(sep, parts[1..], i - 1);
        assert Offset(sep, parts, i) == |head| + o;
        assert parts[1..][i - 1] == parts[i];
        SliceShift(head, rest, o, o + |parts[i]|);
        if i + 1 < |parts| {
          SliceShift(head, rest, o + |parts[i]|, o + |parts[i]| + |sep|);
        }
      }
    }
  }

  /** A slice that holds `a + b` splits into a slice holding `a` and one holding `b`. */
  lemma SplitSlice(s: string, lo: nat, mid: nat, hi: nat, a: string, b: string)
    requires lo <= mid <= hi <= |s| && s[lo..hi] == a + b && |a| == mid - lo
    ensures s[lo..mid] == a && s[mid..hi] == b
  {
    assert s[lo..mid] == s[lo..hi][..|a|];
    assert s[mid..hi] == s[lo..hi][|a|..];
  }

  lemma SliceShift(a: string, b: string, lo: nat, hi: nat)
    requires lo <= hi <= |b|
    ensures (a + b)[|a| + lo..|a| + hi] == b[lo..hi]
  {
  }

  /** Python's `str.isspace` for one character: the Unicode white-space characters. */
  predicate IsSpace(c: char) {
    c == ' ' || ('\t' <= c <= '\r') || ('\U{1C}' <= c <= '\U{1F}') || c == '\U{85}' ||
    c == '\U{A0}' || c == '\U{1680}' || ('\U{2000}' <= c <= '\U{200A}') ||
    c == '\U{2028}' || c == '\U{2029}' || c == '\U{202F}' || c == '\U{205F}' || c == '\U{3000}'
  }

  function TrimStart(s: string): string
    decreases |s|
  {
    if s != [] && IsSpace(s[0]) then TrimStart(s[1..]) else s
  }

  function TrimEnd(s: string): string
    decreases |s|
  {
    if s != [] && IsSpace(s[|s| - 1]) then TrimEnd(s[..|s| - 1]) else s
  }

  /** `s.strip()`: the longest infix of `s` that neither starts nor ends with white space. */
  function Strip(s: string): string {
    TrimEnd(TrimStart(s))
  }

  /** Stripping the left drops a prefix of white space, `s[..k]`, and leaves no white space at
      the start. */
  lemma {:induction false} TrimStartIsSuffix(s: string) returns (k: nat)
    ensures k <= |s| && TrimStart(s) == s[k..]
    ensures forall m :: 0 <= m < k ==> IsSpace(s[m])
    ensures TrimStart(s) != [] ==> !IsSpace(TrimStart(s)[0])
    decreases |s|
  {
    if s != [] && IsSpace(s[0]) {
      var rest := TrimStartIsSuffix(s[1..]);
      k := rest + 1;
      assert s[1..][rest..] == s[k..];
      forall m | 0 <= m < k ensures IsSpace(s[m]) {
        if m > 0 { assert s[m] == s[1..][m - 1]; }
      }
    } else {
      k := 0;
    }
  }

  /** Stripping the right drops a suffix of white space, `s[k..]`, and leaves no white space at
      the end. */
  lemma {:induction false} TrimEndIsPrefix(s: string) returns (k: nat)
    ensures k <= |s| && TrimEnd(s) == s[..k]
    ensures forall m :: k <= m < |s| ==> IsSpace(s[m])
    ensures TrimEnd(s) != [] ==> !IsSpace(TrimEnd(s)[|TrimEnd(s)| - 1])
    decreases |s|
  {
    if s != [] && IsSpace(s[|s| - 1]) {
      var t := s[..|s| - 1];
      k := TrimEndIsPrefix(t);
      assert t[..k] == s[..k];
      forall m | k <= m < |s| ensures IsSpace(s[m]) {
        if m < |s| - 1 { assert s[m] == t[m]; }
      }
    } else {
      k := |s|;
    }
  }

  /** What `strip` promises: it keeps the infix `s[i..j]`, removes only white space, from the
      two ends, and leaves no white space at either end. */
  lemma StripIsTrimmedInfix(s: string) returns (i: nat, j: nat)
    ensures i <= j <= |s| && Strip(s) == s[i..j]
    ensures forall m :: 0 <= m < i ==> IsSpace(s[m])
    ensures forall m :: j <= m < |s| ==> IsSpace(s[m])
    ensures Strip(s) != [] ==> !IsSpace(Strip(s)[0]) && !IsSpace(Strip(s)[|Strip(s)| - 1])
  {
    i := TrimStartIsSuffix(s);
    var t := s[i..];
    var k := TrimEndIsPrefix(t);
    j := i + k;
    assert t[..k] == s[i..j];
    forall m | j <= m < |s| ensures IsSpace(s[m]) {
      assert s[m] == t[m - i];
    }
    if Strip(s) != [] {
      assert Strip(s)[0] == t[0];
    }
  }

  /** Python's `str.lower` on the ASCII letters; other characters are kept. */
  function LowerChar(c: char): char {
    if 'A' <= c <= 'Z' then (c as int + 32) as char else c
  }

  function Lower(s: string): (r: string)
    ensures |r| == |s|
    ensures forall k :: 0 <= k < |s| ==> r[k] == LowerChar(s[k])
  {
    seq(|s|, k requires 0 <= k < |s| => LowerChar(s[k]))
  }

  /** `needle` occurs in `s` starting at position `i`. */
  predicate OccursAt(s: string, needle: string, i: int) {
    0 <= i && i + |needle| <= |s| && s[i..i + |needle|] == needle
  }

  /** `needle in s`, searched from the left. */
  function Contains(s: string, needle: string): bool
    decreases |s|
  {
    if needle <= s then true
    else if s == [] then false
    else Contains(s[1..], needle)
  }

  /** The search finds the needle exactly when it occurs at some position. */
  lemma ContainsIff(s: string, needle: string)
    ensures Contains(s, needle) <==> exists i :: OccursAt(s, needle, i)
  {
    if Contains(s, needle) {
      var i := ContainsFinds(s, needle);
    }
    if exists i :: OccursAt(s, needle, i) {
      var i :| OccursAt(s, needle, i);
      OccurrenceIsFound(s, needle, i);
    }
  }

  /** A successful search has a position where the needle occurs. */
  lemma {:induction false} ContainsFinds(s: string, needle: string) returns (i: nat)
    requires Contains(s, needle)
    ensures OccursAt(s, needle, i)
    decreases |s|
  {
    if needle <= s {
      i := 0;
    } else {
      var j := ContainsFinds(s[1..], needle);
      assert s[1..][j..j + |needle|] == s[j + 1..j + 1 + |needle|];
      i := j + 1;
    }
  }

  /** Every occurrence is found by the search. */
  lemma {:induction false} OccurrenceIsFound(s: string, needle: string, i: int)
    requires OccursAt(s, needle, i)
    ensures Contains(s, needle)
    decreases i
  {
    if !(needle <= s) {
      assert i > 0;
      assert s[1..][i - 1..i - 1 + |needle|] == s[i..i + |needle|];
      OccurrenceIsFound(s[1..], needle, i - 1);
    }
  }
}
