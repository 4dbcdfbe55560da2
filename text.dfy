/**
 * String primitives the two board servers rely on, as JavaScript defines them
 * for the ASCII text they handle: `toLowerCase`, `toUpperCase`,
 * `String.prototype.replace` with a one-character string pattern (which
 * replaces the FIRST occurrence only) and `Array.prototype.join`.
 * Strings are `seq<char>`.
 */
module Text {

  // ---------------------------------------------------------------------------
  // ASCII case mapping
  // ---------------------------------------------------------------------------

  predicate IsUpperAscii(c: char) { 'A' <= c <= 'Z' }
  predicate IsLowerAscii(c: char) { 'a' <= c <= 'z' }

  /** `toLowerCase` on one character, restricted to ASCII letters. */
  function LowerChar(c: char): (r: char)
    ensures !IsUpperAscii(r)
    ensures IsUpperAscii(c) ==> r as int == c as int + 32
    ensures !IsUpperAscii(c) ==> r == c
  {
    if IsUpperAscii(c) then (c as int + 32) as char else c
  }

  /** `toUpperCase` on one character, restricted to ASCII letters. */
  function UpperChar(c: char): (r: char)
    ensures !IsLowerAscii(r)
    ensures IsLowerAscii(c) ==> r as int == c as int - 32
    ensures !IsLowerAscii(c) ==> r == c
  {
    if IsLowerAscii(c) then (c as int - 32) as char else c
  }

  /** `s.toLowerCase()`: maps every character, keeps length and positions. */
  function Lower(s: string): (r: string)
    ensures |r| == |s|
    ensures forall i :: 0 <= i < |s| ==> r[i] == LowerChar(s[i])
  {
    seq(|s|, i requires 0 <= i < |s| => LowerChar(s[i]))
  }

  /** `s.toUpperCase()`: maps every character, keeps length and positions. */
  function Upper(s: string): (r: string)
    ensures |r| == |s|
    ensures forall i :: 0 <= i < |s| ==> r[i] == UpperChar(s[i])
  {
    seq(|s|, i requires 0 <= i < |s| => UpperChar(s[i]))
  }

  /** Lower-casing works character by character, so it distributes over concatenation. */
  lemma LowerOfConcat(a: string, b: string)
    ensures Lower(a + b) == Lower(a) + Lower(b)
  {
    assert forall i :: 0 <= i < |a + b| ==> Lower(a + b)[i] == (Lower(a) + Lower(b))[i];
  }

  /** Upper-casing works character by character, so it distributes over concatenation. */
  lemma UpperOfConcat(a: string, b: string)
    ensures Upper(a + b) == Upper(a) + Upper(b)
  {
    assert forall i :: 0 <= i < |a + b| ==> Upper(a + b)[i] == (Upper(a) + Upper(b))[i];
  }

  // ---------------------------------------------------------------------------
  // Replacing the first occurrence of a character
  // ---------------------------------------------------------------------------

  /** Position of the first `c` in `s`, if any (`s.indexOf(c)` with -1 as None). */
  function FirstIndex(s: string, c: char): (r: int)
    ensures -1 <= r < |s|
    ensures r == -1 <==> c !in s
    ensures r >= 0 ==> s[r] == c && c !in s[..r]
  {
    if s == [] then -1
    else if s[0] == c then 0
    else
      var k := FirstIndex(s[1..], c);
      assert s[1..][..if k < 0 then 0 else k] == s[1..if k < 0 then 1 else k + 1];
      if k < 0 then -1 else k + 1
  }

  /** Lower-casing moves no space: the first space stays where it was. */
  lemma {:induction false} LowerKeepsFirstSpace(s: string)
    ensures FirstIndex(Lower(s), ' ') == FirstIndex(s, ' ')
  {
    if s != [] {
      assert Lower(s)[1..] == Lower(s[1..]);
      LowerKeepsFirstSpace(s[1..]);
    }
  }

  /**
   * `s.replace(from, to)` for one-character string patterns: the first
   * occurrence of `from`, if any, becomes `to`; every other position, later
   * occurrences of `from` included, is kept; without a `from`, `s` is returned.
   */
  function ReplaceFirst(s: string, from: char, to: char): (r: string)
    ensures |r| == |s|
    ensures from !in s ==> r == s
    ensures from in s ==> r[FirstIndex(s, from)] == to
    ensures forall i :: 0 <= i < |s| && i != FirstIndex(s, from) ==> r[i] == s[i]
  {
    var k := FirstIndex(s, from);
    if k < 0 then s else s[..k] + [to] + s[k + 1..]
  }

  // ---------------------------------------------------------------------------
  // Joining
  // ---------------------------------------------------------------------------

  /** `parts.join(sep)`: the parts in order, with `sep` between neighbours. */
  function Join(parts: seq<string>, sep: string): (r: string)
    ensures parts == [] ==> r == []
    ensures |parts| == 1 ==> r == parts[0]
  {
    if parts == [] then []
    else if |parts| == 1 then parts[0]
    else parts[0] + sep + Join(parts[1..], sep)
  }

  /** Sum of the lengths of the parts. */
  function TotalLength(parts: seq<string>): (n: nat)
    ensures parts == [] ==> n == 0
  {
    if parts == [] then 0 else |parts[0]| + TotalLength(parts[1..])
  }

  /** The joined text has the parts' characters and one separator per gap. */
  lemma {:induction false} JoinLength(parts: seq<string>, sep: string)
    requires parts != []
    ensures |Join(parts, sep)| == TotalLength(parts) + (|parts| - 1) * |sep|
  {
    if |parts| > 1 {
      JoinLength(parts[1..], sep);
    }
  }

  /** Offset of part `i` inside `Join(parts, sep)`. */
  function Offset(parts: seq<string>, sep: string, i: nat): (n: nat)
    requires i <= |parts|
    ensures i == 0 ==> n == 0
  {
    if i == 0 then 0 else |parts[0]| + |sep| + Offset(parts[1..], sep, i - 1)
  }

  /** Part `i + 1` starts after part `i` and one separator. */
  lemma {:induction false} OffsetStep(parts: seq<string>, sep: string, i: nat)
    requires i + 1 <= |parts|
    ensures Offset(parts, sep, i + 1) == Offset(parts, sep, i) + |parts[i]| + |sep|
  {
    if i > 0 {
      OffsetStep(parts[1..], sep, i - 1);
    }
  }

  /**
   * Every part occurs, unchanged, at its own offset in the joined text: the
   * parts are recoverable in order and none is dropped, merged or repeated.
   */
  lemma {:induction false} JoinPartAt(parts: seq<string>, sep: string, i: nat)
    requires i < |parts|
    ensures Offset(parts, sep, i) + |parts[i]| <= |Join(parts, sep)|
    ensures Join(parts, sep)[Offset(parts, sep, i)..Offset(parts, sep, i) + |parts[i]|] == parts[i]
  {
    if i > 0 {
      var rest := Join(parts[1..], sep);
      JoinPartAt(parts[1..], sep, i - 1);
      SliceOfMiddle(parts[0] + sep, rest, [], Offset(parts[1..], sep, i - 1),
        Offset(parts[1..], sep, i - 1) + |parts[i]|);
      assert Join(parts, sep) == parts[0] + sep + rest + [];
    }
  }

  /** Between part `i` and part `i + 1` stands exactly the separator. */
  lemma {:induction false} JoinSeparatorAt(parts: seq<string>, sep: string, i: nat)
    requires i + 1 < |parts|
    ensures Offset(parts, sep, i) + |parts[i]| + |sep| <= |Join(parts, sep)|
    ensures Join(parts, sep)[Offset(parts, sep, i) + |parts[i]|..Offset(parts, sep, i) + |parts[i]| + |sep|] == sep
  {
    var rest := Join(parts[1..], sep);
    if i == 0 {
      assert Join(parts, sep) == parts[0] + sep + rest;
      SliceOfMiddle(parts[0], sep, rest, 0, |sep|);
      assert sep[0..|sep|] == sep;
    } else {
      var head := parts[0] + sep;
      assert Join(parts, sep) == head + rest + [];
      JoinSeparatorAt(parts[1..], sep, i - 1);
      assert parts[1..][i - 1] == parts[i];
      var o := Offset(parts[1..], sep, i - 1) + |parts[i]|;
      assert Offset(parts, sep, i) + |parts[i]| == |head| + o;
      SliceOfMiddle(head, rest, [], o, o + |sep|);
    }
  }

  /** `part` occurs in `hay` starting at position `at`. */
  predicate PartAt(hay: string, at: nat, part: string)
  {
    at + |part| <= |hay| && hay[at..at + |part|] == part
  }

  /** Inside `pre + Join(parts, sep) + post`, part `i` sits unchanged at `|pre|` plus its offset. */
  lemma JoinedPartInContext(pre: string, parts: seq<string>, sep: string, post: string, i: nat)
    requires i < |parts|
    ensures PartAt(pre + Join(parts, sep) + post, |pre| + Offset(parts, sep, i), parts[i])
  {
    var j, o := Join(parts, sep), Offset(parts, sep, i);
    JoinPartAt(parts, sep, i);
    assert o + |parts[i]| <= |j| && j[o..o + |parts[i]|] == parts[i];
    SliceOfMiddle(pre, j, post, o, o + |parts[i]|);
  }

  /**
   * Inside `pre + Join(parts, sep) + post`, the separator follows every part
   * but the last, and the next part starts right after it.
   */
  lemma JoinedSeparatorInContext(pre: string, parts: seq<string>, sep: string, post: string, i: nat)
    requires i + 1 < |parts|
    ensures PartAt(pre + Join(parts, sep) + post, |pre| + Offset(parts, sep, i) + |parts[i]|, sep)
    ensures Offset(parts, sep, i + 1) == Offset(parts, sep, i) + |parts[i]| + |sep|
  {
    var j, o := Join(parts, sep), Offset(parts, sep, i) + |parts[i]|;
    JoinSeparatorAt(parts, sep, i);
    OffsetStep(parts, sep, i);
    assert o + |sep| <= |j| && j[o..o + |sep|] == sep;
    SliceOfMiddle(pre, j, post, o, o + |sep|);
  }

  // ---------------------------------------------------------------------------
  // Substrings
  // ---------------------------------------------------------------------------

  /** `needle` occurs somewhere inside `hay`; used to state properties of rendered texts. */
  predicate IsInfix(needle: string, hay: string)
  {
    exists i :: 0 <= i <= |hay| && needle <= hay[i..]
  }

  /** A part that is written between a known prefix and suffix is found in the whole. */
  lemma InfixOfConcat(pre: string, needle: string, post: string)
    ensures IsInfix(needle, pre + needle + post)
  {
    var hay := pre + needle + post;
    assert hay[|pre|..] == needle + post;
  }

  /** A text that ends with a part contains it. */
  lemma InfixOfSuffix(pre: string, needle: string)
    ensures IsInfix(needle, pre + needle)
  {
    assert (pre + needle)[|pre|..] == needle;
  }

  /** What a text contains, any extension of it contains. */
  lemma InfixOfExtension(needle: string, hay: string, rest: string)
    requires IsInfix(needle, hay)
    ensures IsInfix(needle, hay + rest)
  {
    var i :| 0 <= i <= |hay| && needle <= hay[i..];
    assert (hay + rest)[i..] == hay[i..] + rest;
  }

  /** A three-part text starts with its first part and ends with its last. */
  lemma OuterParts(pre: string, mid: string, post: string)
    ensures pre <= pre + mid + post
    ensures EndsWith(pre + mid + post, post)
  {
    assert (pre + mid + post)[..|pre|] == pre;
    assert (pre + mid + post)[|pre + mid|..] == post;
  }

  /** Slicing inside the middle part of a three-part text slices that part. */
  lemma SliceOfMiddle(pre: string, mid: string, post: string, lo: nat, hi: nat)
    requires lo <= hi <= |mid|
    ensures (pre + mid + post)[|pre| + lo..|pre| + hi] == mid[lo..hi]
  {
  }

  /** `hay` ends with `tail`; used to state properties of rendered texts. */
  predicate EndsWith(hay: string, tail: string)
  {
    |tail| <= |hay| && hay[|hay| - |tail|..] == tail
  }

  /** `(${s})` inside a template literal. */
  function Parenthesized(s: string): string
  {
    "(" + s + ")"
  }

  /** `"${s}"` inside a template literal: the text between double quotes. */
  function Quoted(s: string): string
  {
    "\"" + s + "\""
  }
}
