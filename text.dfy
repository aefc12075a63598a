/**
 * The JavaScript string operations the core relies on: `trim`, `toLowerCase`
 * and `includes`, written out on `seq<char>`.
 */
module Text {

  /**
   * The characters `String.prototype.trim` removes: the ECMAScript WhiteSpace
   * code points (tab, vertical tab, form feed, the byte-order mark and the
   * space separators) and the LineTerminator code points.
   */
  predicate IsSpace(c: char)
    ensures c == ' ' || c == '\t' || c == '\n' || c == '\r' ==> IsSpace(c)
    ensures IsSpace(c) ==> !('a' <= c <= 'z' || 'A' <= c <= 'Z' || '0' <= c <= '9' || c == '"')
  {
    c == '\t' || c == '\n' || c == '\U{000B}' || c == '\U{000C}' || c == '\r' ||
    c == ' ' || c == '\U{00A0}' || c == '\U{1680}' ||
    ('\U{2000}' <= c <= '\U{200A}') ||
    c == '\U{2028}' || c == '\U{2029}' || c == '\U{202F}' || c == '\U{205F}' ||
    c == '\U{3000}' || c == '\U{FEFF}'
  }

  predicate AllSpace(s: string) {
    forall i :: 0 <= i < |s| ==> IsSpace(s[i])
  }

  /** `s` without its leading white space. */
  function TrimStart(s: string): (r: string)
    ensures |r| <= |s| && r == s[|s| - |r|..]
    ensures AllSpace(s[..|s| - |r|])
    ensures r == [] || !IsSpace(r[0])
  {
    if s != [] && IsSpace(s[0]) then TrimStart(s[1..]) else s
  }

  /** `s` without its trailing white space. */
  function TrimEnd(s: string): (r: string)
    ensures |r| <= |s| && r == s[..|r|]
    ensures AllSpace(s[|r|..])
    ensures r == [] || !IsSpace(r[|r| - 1])
  {
    if s != [] && IsSpace(s[|s| - 1]) then TrimEnd(s[..|s| - 1]) else s
  }

  /** JavaScript `s.trim()`: never longer than `s`, and free of white space at both ends. */
  function Trim(s: string): (r: string)
    ensures |r| <= |s|
    ensures r == [] || (!IsSpace(r[0]) && !IsSpace(r[|r| - 1]))
  {
    var t := TrimStart(s);
    var r := TrimEnd(t);
    assert r != [] ==> r[0] == t[0];
    r
  }

  /**
   * JavaScript `!s.trim()`: the empty string is blank, and a string that
   * starts with anything but white space is not.
   */
  predicate IsBlank(s: string)
    ensures s == [] ==> IsBlank(s)
    ensures s != [] && !IsSpace(s[0]) ==> !IsBlank(s)
  {
    var t := TrimStart(s);
    assert s != [] && !IsSpace(s[0]) ==> t == s && TrimEnd(t) != [] by {
      if s != [] && !IsSpace(s[0]) {
        assert t == s;
        assert s[0..] == s;
      }
    }
    Trim(s) == []
  }

  /** A string is blank exactly when every character of it is white space. */
  lemma BlankIffAllSpace(s: string)
    ensures IsBlank(s) <==> AllSpace(s)
  {
    var t := TrimStart(s);
    if IsBlank(s) {
      assert AllSpace(t) by { assert t[0..] == t; }
      assert t == [];
      assert s[..|s|] == s;
    }
  }

  /** `r` sits at index `i` of `s`, with nothing but white space before it and after it. */
  predicate SpaceAround(s: string, i: nat, r: string) {
    && i + |r| <= |s| && r == s[i..i + |r|]
    && AllSpace(s[..i]) && AllSpace(s[i + |r|..])
  }

  /**
   * What `trim` returns is the middle of the input: it starts where the
   * leading white space ends, and everything after it is white space.
   */
  lemma TrimIsMiddle(s: string)
    ensures SpaceAround(s, |s| - |TrimStart(s)|, Trim(s))
  {
    var t := TrimStart(s);
    var r := TrimEnd(t);
    assert Trim(s) == r;
    MiddleOfSuffix(s, t, r);
  }

  /** A prefix `r` of a suffix `t` of `s`, both cut off by white space, sits in `s` with white space around it. */
  lemma MiddleOfSuffix(s: string, t: string, r: string)
    requires |t| <= |s| && t == s[|s| - |t|..] && AllSpace(s[..|s| - |t|])
    requires |r| <= |t| && r == t[..|r|] && AllSpace(t[|r|..])
    ensures SpaceAround(s, |s| - |t|, r)
  {
    assert t[|r|..] == s[|s| - |t| + |r|..];
  }

  /** Trimming twice is trimming once. */
  lemma TrimIdempotent(s: string)
    ensures Trim(Trim(s)) == Trim(s)
  {
    var r := Trim(s);
    if r != [] {
      assert TrimStart(r) == r;
      assert TrimEnd(r) == r;
    }
  }

  /** JavaScript `toLowerCase` on one character, for the ASCII letters. */
  function LowerChar(c: char): char {
    if 'A' <= c <= 'Z' then (c as int + 32) as char else c
  }

  /** JavaScript `s.toLowerCase()`, ASCII letters only. */
  function Lower(s: string): (r: string)
    ensures |r| == |s|
    ensures forall i :: 0 <= i < |s| ==> r[i] == LowerChar(s[i])
  {
    if s == [] then [] else [LowerChar(s[0])] + Lower(s[1..])
  }

  /** Lowering leaves no upper-case ASCII letter behind, so it is idempotent. */
  lemma LowerIdempotent(s: string)
    ensures Lower(Lower(s)) == Lower(s)
  {
  }

  /** JavaScript `hay.includes(needle)`: `needle` occurs somewhere in `hay`. */
  predicate Contains(hay: string, needle: string)
    ensures Contains(hay, needle) ==> |needle| <= |hay|
  {
    needle <= hay || (hay != [] && Contains(hay[1..], needle))
  }

  /** An occurrence at a known offset is an occurrence. */
  lemma {:induction false} ContainsAt(hay: string, needle: string, k: nat)
    requires k + |needle| <= |hay| && hay[k..k + |needle|] == needle
    ensures Contains(hay, needle)
  {
    if k == 0 {
      assert needle == hay[..|needle|];
    } else {
      assert hay[1..][k - 1..k - 1 + |needle|] == hay[k..k + |needle|];
      ContainsAt(hay[1..], needle, k - 1);
    }
  }

  /** A string occurs in what it starts. */
  lemma ContainsPrefix(a: string, b: string)
    ensures Contains(a + b, a)
  {
    assert a <= a + b;
  }

  /** An occurrence in the end of a string is an occurrence in the string. */
  lemma {:induction false} ContainsAfter(a: string, b: string, needle: string)
    requires Contains(b, needle)
    ensures Contains(a + b, needle)
  {
    if a != [] {
      assert (a + b)[1..] == a[1..] + b;
      ContainsAfter(a[1..], b, needle);
    } else {
      assert a + b == b;
    }
  }

  /** An occurrence in the start of a string is an occurrence in the string. */
  lemma ContainsBefore(a: string, b: string, needle: string)
    requires Contains(a, needle)
    ensures Contains(a + b, needle)
  {
    var k := ContainsWitness(a, needle);
    assert (a + b)[k..k + |needle|] == a[k..k + |needle|];
    ContainsAt(a + b, needle, k);
  }

  /** Every occurrence is at some offset. */
  lemma {:induction false} ContainsWitness(hay: string, needle: string) returns (k: nat)
    requires Contains(hay, needle)
    ensures k + |needle| <= |hay| && hay[k..k + |needle|] == needle
  {
    if needle <= hay {
      k := 0;
    } else {
      var j := ContainsWitness(hay[1..], needle);
      k := j + 1;
      assert hay[1..][j..j + |needle|] == hay[k..k + |needle|];
    }
  }

  /** Lower-casing keeps an occurrence, lower-cased. */
  lemma ContainsLower(hay: string, needle: string)
    requires Contains(hay, needle)
    ensures Contains(Lower(hay), Lower(needle))
  {
    var k := ContainsWitness(hay, needle);
    assert Lower(hay)[k..k + |needle|] == Lower(needle);
    ContainsAt(Lower(hay), Lower(needle), k);
  }
}
