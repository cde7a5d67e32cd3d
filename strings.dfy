/**
 * The JavaScript string operations the core relies on: `includes`/`indexOf`,
 * `lastIndexOf`, `trim`, `toLowerCase`, `Array.prototype.join` and the `s || d`
 * idiom that replaces an empty string by a default.
 */
module Strings {
  import opened Wrappers

  /** `key` occurs in `text` starting at index `i`. */
  predicate OccursAt(text: string, key: string, i: int) {
    0 <= i && i + |key| <= |text| && text[i..i + |key|] == key
  }

  /** The leftmost occurrence of `key` in `text` at or after `from`, like `indexOf(key, from)`. */
  function IndexOf(text: string, key: string, from: nat): (r: Option<nat>)
    decreases |text| - from
    ensures r.Some? ==> from <= r.value && OccursAt(text, key, r.value)
    ensures r.Some? ==> forall j :: from <= j < r.value ==> !OccursAt(text, key, j)
    ensures r.None? ==> forall j :: from <= j ==> !OccursAt(text, key, j)
  {
    if from + |key| > |text| then None
    else if text[from..from + |key|] == key then Some(from)
    else IndexOf(text, key, from + 1)
  }

  /** `text.includes(key)`. */
  predicate Includes(text: string, key: string) {
    IndexOf(text, key, 0).Some?
  }

  lemma IncludesAt(text: string, key: string, i: int)
    requires OccursAt(text, key, i)
    ensures Includes(text, key)
  {
  }

  lemma IncludesSelf(s: string)
    ensures Includes(s, s)
  {
    assert s[0..|s|] == s;
    IncludesAt(s, s, 0);
  }

  /** An occurrence in `a` is one in `a + b`. */
  lemma IncludesLeft(a: string, b: string, key: string)
    requires Includes(a, key)
    ensures Includes(a + b, key)
  {
    var i := IndexOf(a, key, 0).value;
    assert (a + b)[i..i + |key|] == a[i..i + |key|];
    IncludesAt(a + b, key, i);
  }

  /** An occurrence in `b` is one in `a + b`. */
  lemma IncludesRight(a: string, b: string, key: string)
    requires Includes(b, key)
    ensures Includes(a + b, key)
  {
    var i := IndexOf(b, key, 0).value;
    assert (a + b)[|a| + i..|a| + i + |key|] == b[i..i + |key|];
    IncludesAt(a + b, key, |a| + i);
  }

  /** The index of the last `c` in `text`, like `lastIndexOf(c)`. */
  function LastIndexOf(text: string, c: char): (r: Option<nat>)
    ensures r.Some? ==> r.value < |text| && text[r.value] == c
    ensures r.Some? ==> forall j :: r.value < j < |text| ==> text[j] != c
    ensures r.None? ==> c !in text
  {
    if text == [] then None
    else if text[|text| - 1] == c then Some(|text| - 1)
    else LastIndexOf(text[..|text| - 1], c)
  }

  /** `s || d` for a string `s`: the empty string is falsy. */
  function OrElse(s: string, d: string): string {
    if s == "" then d else s
  }

  /** The white space and line terminators that `String.prototype.trim` strips. */
  predicate IsWhitespace(c: char) {
    || c == ' ' || c == '\t' || c == '\n' || c == '\r' || c == '\U{B}' || c == '\U{C}'
    || c == '\U{A0}' || c == '\U{1680}' || ('\U{2000}' <= c <= '\U{200A}')
    || c == '\U{2028}' || c == '\U{2029}' || c == '\U{202F}' || c == '\U{205F}'
    || c == '\U{3000}' || c == '\U{FEFF}'
  }

  function TrimStart(s: string): (r: string)
    ensures |r| <= |s| && r == s[|s| - |r|..]
    ensures forall i :: 0 <= i < |s| - |r| ==> IsWhitespace(s[i])
    ensures r == [] || !IsWhitespace(r[0])
  {
    if s != [] && IsWhitespace(s[0]) then TrimStart(s[1..]) else s
  }

  function TrimEnd(s: string): (r: string)
    ensures |r| <= |s| && r == s[..|r|]
    ensures forall i :: |r| <= i < |s| ==> IsWhitespace(s[i])
    ensures r == [] || !IsWhitespace(r[|r| - 1])
  {
    if s != [] && IsWhitespace(s[|s| - 1]) then TrimEnd(s[..|s| - 1]) else s
  }

  /** `s.trim()`: the result neither starts nor ends with white space. */
  function Trim(s: string): (r: string)
    ensures |r| <= |s|
    ensures r == [] || (!IsWhitespace(r[0]) && !IsWhitespace(r[|r| - 1]))
  {
    var t := TrimStart(s);
    var r := TrimEnd(t);
    assert r == [] || r[0] == t[0];
    r
  }

  /** The trim is one slice of `s`, starting where the leading white space ends. */
  lemma TrimIsSlice(s: string)
    ensures var i := |s| - |TrimStart(s)|;
      i + |Trim(s)| <= |s| && Trim(s) == s[i..i + |Trim(s)|]
  {
    var t := TrimStart(s);
    var r := TrimEnd(t);
    assert Trim(s) == r;
    var i := |s| - |t|;
    assert t == s[i..] && r == t[..|r|];
    SliceOfSuffix(s, i, |r|);
  }

  /** A prefix of a suffix is a slice. */
  lemma SliceOfSuffix(s: string, i: nat, n: nat)
    requires i + n <= |s|
    ensures s[i..][..n] == s[i..i + n]
  {
  }

  /** Only white space precedes the trim and only white space follows it. */
  lemma TrimCutsWhitespace(s: string)
    ensures forall j :: 0 <= j < |s| - |TrimStart(s)| ==> IsWhitespace(s[j])
    ensures forall j :: |s| - |TrimStart(s)| + |Trim(s)| <= j < |s| ==> IsWhitespace(s[j])
  {
    var t := TrimStart(s);
    var r := TrimEnd(t);
    assert Trim(s) == r;
    var i := |s| - |t|;
    forall j | i + |r| <= j < |s| ensures IsWhitespace(s[j]) {
      assert s[j] == t[j - i];
    }
  }

  /** A text that neither starts nor ends with white space is its own trim. */
  lemma TrimUnpadded(s: string)
    requires s != [] ==> !IsWhitespace(s[0]) && !IsWhitespace(s[|s| - 1])
    ensures Trim(s) == s
  {
  }

  /** Leading white space does not change the trim. */
  lemma TrimSkipsLeading(c: char, s: string)
    requires IsWhitespace(c)
    ensures Trim([c] + s) == Trim(s)
  {
    assert ([c] + s)[1..] == s;
  }

  /** ASCII case folding, the part of `toLowerCase` the lookups depend on. */
  function LowerChar(c: char): char {
    if 'A' <= c <= 'Z' then (c as int + 32) as char else c
  }

  /** Lower-casing leaves white space alone and leaves no upper-case letter. */
  lemma LowerCharFacts(c: char)
    ensures IsWhitespace(LowerChar(c)) <==> IsWhitespace(c)
    ensures !('A' <= LowerChar(c) <= 'Z')
  {
    if 'A' <= c <= 'Z' {
      assert 'a' <= LowerChar(c) <= 'z';
    }
  }

  function ToLower(s: string): (r: string)
    ensures |r| == |s|
    ensures forall i :: 0 <= i < |s| ==> r[i] == LowerChar(s[i])
  {
    if s == [] then [] else [LowerChar(s[0])] + ToLower(s[1..])
  }

  /** A text with no upper-case ASCII letter is its own lower-case form. */
  lemma ToLowerUnchanged(s: string)
    requires forall i :: 0 <= i < |s| ==> !('A' <= s[i] <= 'Z')
    ensures ToLower(s) == s
  {
    assert forall i :: 0 <= i < |s| ==> ToLower(s)[i] == s[i];
  }

  /** Lower-casing keeps white space where it was and leaves no upper-case letter. */
  lemma ToLowerFacts(s: string)
    ensures forall i :: 0 <= i < |s| ==> (IsWhitespace(ToLower(s)[i]) <==> IsWhitespace(s[i]))
    ensures forall i :: 0 <= i < |s| ==> !('A' <= ToLower(s)[i] <= 'Z')
  {
    forall i | 0 <= i < |s| ensures (IsWhitespace(ToLower(s)[i]) <==> IsWhitespace(s[i])) && !('A' <= ToLower(s)[i] <= 'Z') {
      LowerCharFacts(s[i]);
    }
  }

  /** Lower-casing twice is lower-casing once. */
  lemma ToLowerIdempotent(s: string)
    ensures ToLower(ToLower(s)) == ToLower(s)
  {
    assert forall i :: 0 <= i < |s| ==> ToLower(ToLower(s))[i] == ToLower(s)[i];
  }

  /** `parts.join(sep)`. */
  function Join(parts: seq<string>, sep: string): string {
    if |parts| == 0 then ""
    else if |parts| == 1 then parts[0]
    else parts[0] + sep + Join(parts[1..], sep)
  }

  /** What occurs in one part of a join occurs in the join. */
  lemma {:induction false} JoinIncludesPart(parts: seq<string>, sep: string, i: int, key: string)
    requires 0 <= i < |parts| && Includes(parts[i], key)
    ensures Includes(Join(parts, sep), key)
  {
    if |parts| > 1 {
      if i == 0 {
        IncludesLeft(parts[0], sep, key);
        IncludesLeft(parts[0] + sep, Join(parts[1..], sep), key);
      } else {
        JoinIncludesPart(parts[1..], sep, i - 1, key);
        IncludesRight(parts[0] + sep, Join(parts[1..], sep), key);
      }
    }
  }

  /** Every part of a join occurs in it. */
  lemma JoinIncludes(parts: seq<string>, sep: string, x: string)
    requires x in parts
    ensures Includes(Join(parts, sep), x)
  {
    var i :| 0 <= i < |parts| && parts[i] == x;
    IncludesSelf(x);
    JoinIncludesPart(parts, sep, i, x);
  }

  /** Texts that end in the same tail and are equal are equal before it. */
  lemma CancelTail(a: string, b: string, tail: string)
    requires a + tail == b + tail
    ensures a == b
  {
    assert |a| == |b|;
    assert a == (a + tail)[..|a|] && b == (b + tail)[..|b|];
  }

  /** A text is the prefix of itself followed by four more pieces. */
  lemma HeadOf5(head: string, r1: string, r2: string, r3: string, r4: string)
    ensures |head| <= |head + r1 + r2 + r3 + r4|
    ensures (head + r1 + r2 + r3 + r4)[..|head|] == head
  {
    assert head + r1 + r2 + r3 + r4 == head + (r1 + r2 + r3 + r4);
  }

  /** Inserting `block` between `head` and `tail` leaves both around it unchanged. */
  lemma Splice(head: string, block: string, tail: string)
    ensures |head| <= |head + tail|
    ensures head + block + tail == (head + tail)[..|head|] + block + (head + tail)[|head|..]
  {
    assert (head + tail)[..|head|] == head;
    assert (head + tail)[|head|..] == tail;
  }

  /** `Splice` where the text after the insertion point is itself three pieces. */
  lemma SpliceBefore3(head: string, block: string, r1: string, r2: string, r3: string)
    ensures |head| <= |head + r1 + r2 + r3|
    ensures head + block + r1 + r2 + r3 == (head + r1 + r2 + r3)[..|head|] + block + (head + r1 + r2 + r3)[|head|..]
  {
    assert head + r1 + r2 + r3 == head + (r1 + r2 + r3);
    assert head + block + r1 + r2 + r3 == head + block + (r1 + r2 + r3);
    Splice(head, block, r1 + r2 + r3);
  }

  /** With a non-empty separator, a join is empty only for `[]` and `[""]`. */
  lemma {:induction false} JoinEmpty(parts: seq<string>, sep: string)
    requires sep != ""
    ensures Join(parts, sep) == "" <==> parts == [] || parts == [""]
  {
    if |parts| > 1 {
      assert |Join(parts, sep)| >= |sep|;
    }
  }
}
