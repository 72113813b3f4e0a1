/** Small failure-compatible wrapper used across the model. */
module Wrappers {
  datatype Option<T> = None | Some(value: T)
}

/**
 * Text helpers shared by the JavaScript handlers and the Python responder.
 * They model the exact string operations the source relies on: prefix tests
 * (`startsWith`), substring search (Python `in`), ASCII case mapping
 * (`toUpperCase`, `lower`), Python's whitespace `strip` and `replace(u, '')`,
 * and the binary order MongoDB uses to sort string keys.
 */
module Strings {

  predicate StartsWith(s: string, p: string) {
    |p| <= |s| && s[..|p|] == p
  }

  /** `p` occurs in `s` starting at index `i`. */
  predicate OccursAt(s: string, p: string, i: int) {
    0 <= i && i + |p| <= |s| && s[i..i + |p|] == p
  }

  /** Python's `p in s` and JavaScript's `s.includes(p)`. */
  predicate Contains(s: string, p: string) {
    exists i | 0 <= i <= |s| :: OccursAt(s, p, i)
  }

  lemma OccursAtShift(s: string, p: string, i: int)
    requires |s| > 0 && i >= 0
    ensures OccursAt(s[1..], p, i) <==> OccursAt(s, p, i + 1)
  {
    if 0 <= i && i + |p| <= |s| - 1 {
      assert s[1..][i..i + |p|] == s[i + 1..i + 1 + |p|];
    }
  }

  // ---------------------------------------------------------------------
  // Case mapping (ASCII letters only)

  function UpperChar(c: char): char {
    if 'a' <= c <= 'z' then (c as int - 32) as char else c
  }

  function LowerChar(c: char): char {
    if 'A' <= c <= 'Z' then (c as int + 32) as char else c
  }

  /** `String.prototype.toUpperCase` on the ASCII range. */
  function ToUpper(s: string): (r: string)
    ensures |r| == |s|
    ensures forall i :: 0 <= i < |s| ==> r[i] == UpperChar(s[i])
    ensures forall i :: 0 <= i < |r| ==> !('a' <= r[i] <= 'z')
  {
    if s == [] then [] else [UpperChar(s[0])] + ToUpper(s[1..])
  }

  /** Python's `str.lower` on the ASCII range. */
  function ToLower(s: string): (r: string)
    ensures |r| == |s|
    ensures forall i :: 0 <= i < |s| ==> r[i] == LowerChar(s[i])
  {
    if s == [] then [] else [LowerChar(s[0])] + ToLower(s[1..])
  }

  lemma {:induction false} ToUpperIdempotent(s: string)
    ensures ToUpper(ToUpper(s)) == ToUpper(s)
  {
    if s != [] {
      ToUpperIdempotent(s[1..]);
      assert ToUpper(s)[1..] == ToUpper(s[1..]);
    }
  }

  /** Upper-casing loses nothing on text without upper-case letters: lower-casing gives it back. */
  lemma {:induction false} LowerOfUpper(s: string)
    requires forall i :: 0 <= i < |s| ==> !('A' <= s[i] <= 'Z')
    ensures ToLower(ToUpper(s)) == s
  {
    if s != [] {
      LowerOfUpper(s[1..]);
      assert ToUpper(s) == [UpperChar(s[0])] + ToUpper(s[1..]);
      assert ToLower(ToUpper(s)) == [LowerChar(UpperChar(s[0]))] + ToLower(ToUpper(s[1..]));
    }
  }

  // ---------------------------------------------------------------------
  // Python `str.strip()` without arguments

  /** The characters for which Python's `str.isspace()` is true. */
  predicate IsPySpace(c: char) {
    c in {'\U{0009}', '\U{000A}', '\U{000B}', '\U{000C}', '\U{000D}', '\U{001C}', '\U{001D}', '\U{001E}',
          '\U{001F}', '\U{0020}', '\U{0085}', '\U{00A0}', '\U{1680}', '\U{2000}', '\U{2001}', '\U{2002}',
          '\U{2003}', '\U{2004}', '\U{2005}', '\U{2006}', '\U{2007}', '\U{2008}', '\U{2009}', '\U{200A}',
          '\U{2028}', '\U{2029}', '\U{202F}', '\U{205F}', '\U{3000}'}
  }

  function StripLeft(s: string): (r: string)
    ensures |r| <= |s| && r == s[|s| - |r|..]
    ensures forall i :: 0 <= i < |s| - |r| ==> IsPySpace(s[i])
    ensures r != [] ==> !IsPySpace(r[0])
  {
    if s != [] && IsPySpace(s[0]) then StripLeft(s[1..]) else s
  }

  function StripRight(s: string): (r: string)
    ensures |r| <= |s| && r == s[..|r|]
    ensures forall i :: |r| <= i < |s| ==> IsPySpace(s[i])
    ensures r != [] ==> !IsPySpace(r[|r| - 1])
  {
    if s != [] && IsPySpace(s[|s| - 1]) then StripRight(s[..|s| - 1]) else s
  }

  /**
   * `s.strip()`: the longest slice of `s` that neither starts nor ends with
   * whitespace, obtained by dropping whitespace from both ends only.
   */
  function Strip(s: string): (r: string)
    ensures exists i, j :: 0 <= i <= j <= |s| && r == s[i..j]
                        && (forall k :: 0 <= k < i ==> IsPySpace(s[k]))
                        && (forall k :: j <= k < |s| ==> IsPySpace(s[k]))
    ensures r != [] ==> !IsPySpace(r[0]) && !IsPySpace(r[|r| - 1])
  {
    var left := StripLeft(s);
    var r := StripRight(left);
    var i := |s| - |left|;
    assert r == s[i..i + |r|];
    r
  }

  // ---------------------------------------------------------------------
  // Python `s.replace(u, '')`

  /**
   * Removes the non-overlapping occurrences of `u`, scanning left to right
   * and resuming after each removed occurrence, as Python's `replace` does.
   */
  function RemoveAll(s: string, u: string): (r: string)
    requires |u| > 0
    ensures |r| <= |s|
    decreases |s|
  {
    if |s| < |u| then s
    else if s[..|u|] == u then RemoveAll(s[|u|..], u)
    else [s[0]] + RemoveAll(s[1..], u)
  }

  /** Removal changes the text exactly when the text contains `u`. */
  lemma {:induction false} RemoveAllChangesIffContains(s: string, u: string)
    requires |u| > 0
    ensures RemoveAll(s, u) == s <==> !Contains(s, u)
    ensures Contains(s, u) ==> |RemoveAll(s, u)| <= |s| - |u|
    decreases |s|
  {
    if |s| < |u| {
      forall i | 0 <= i <= |s| ensures !OccursAt(s, u, i) {}
    } else if s[..|u|] == u {
      assert OccursAt(s, u, 0);
      RemoveAllChangesIffContains(s[|u|..], u);
    } else {
      RemoveAllChangesIffContains(s[1..], u);
      assert !OccursAt(s, u, 0);
      forall i | 0 <= i <= |s| - 1
        ensures OccursAt(s[1..], u, i) <==> OccursAt(s, u, i + 1)
      {
        OccursAtShift(s, u, i);
      }
      if Contains(s, u) {
        var i :| 0 <= i <= |s| && OccursAt(s, u, i);
        assert i >= 1;
        assert OccursAt(s[1..], u, i - 1);
      } else {
        forall i | 0 <= i <= |s| - 1 ensures !OccursAt(s[1..], u, i) {
          assert !OccursAt(s, u, i + 1);
        }
      }
      assert RemoveAll(s, u) == [s[0]] + RemoveAll(s[1..], u);
      if RemoveAll(s[1..], u) != s[1..] {
        assert ([s[0]] + RemoveAll(s[1..], u))[1..] == RemoveAll(s[1..], u);
      } else {
        assert [s[0]] + s[1..] == s;
      }
    }
  }

  // ---------------------------------------------------------------------
  // Binary string order (MongoDB `$sort` on string fields, JavaScript `<`)

  predicate LexLess(a: string, b: string) {
    if a == [] then b != []
    else if b == [] then false
    else if a[0] != b[0] then a[0] < b[0]
    else LexLess(a[1..], b[1..])
  }

  lemma {:induction false} LexLessIrreflexive(a: string)
    ensures !LexLess(a, a)
  {
    if a != [] {
      LexLessIrreflexive(a[1..]);
    }
  }
}
