/**
 * The two string facts the notes code relies on: JavaScript's `String.prototype.trim`
 * (used by every "is the content blank?" test) and `String.prototype.length`, which counts
 * UTF-16 code units rather than characters (used by the 120-character cap).
 */
module Text {

  /** The characters `trim` removes: ECMAScript WhiteSpace and LineTerminator code points. */
  predicate IsWhitespace(c: char)
  {
    var n := c as int;
    n == 0x09 || n == 0x0A || n == 0x0B || n == 0x0C || n == 0x0D || n == 0x20
    || n == 0xA0 || n == 0x1680 || (0x2000 <= n <= 0x200A) || n == 0x2028 || n == 0x2029
    || n == 0x202F || n == 0x205F || n == 0x3000 || n == 0xFEFF
  }

  /** Drops leading whitespace: the result is a suffix of `s`, everything dropped is whitespace. */
  function TrimStart(s: string): (r: string)
    ensures |r| <= |s| && r == s[|s| - |r|..]
    ensures forall i :: 0 <= i < |s| - |r| ==> IsWhitespace(s[i])
    ensures r == [] || !IsWhitespace(r[0])
    decreases |s|
  {
    if s != [] && IsWhitespace(s[0]) then TrimStart(s[1..]) else s
  }

  /** Drops trailing whitespace: the result is a prefix of `s`, everything dropped is whitespace. */
  function TrimEnd(s: string): (r: string)
    ensures |r| <= |s| && r == s[..|r|]
    ensures forall i :: |r| <= i < |s| ==> IsWhitespace(s[i])
    ensures r == [] || !IsWhitespace(r[|r| - 1])
    decreases |s|
  {
    if s != [] && IsWhitespace(s[|s| - 1]) then TrimEnd(s[..|s| - 1]) else s
  }

  /** `s.trim()`: a contiguous slice of `s` with no whitespace at either end. */
  function Trim(s: string): (r: string)
    ensures |r| <= |s|
    ensures r == [] || (!IsWhitespace(r[0]) && !IsWhitespace(r[|r| - 1]))
  {
    TrimEnd(TrimStart(s))
  }

  /** What `trim` keeps is the slice of `s` between a whitespace-only head and a whitespace-only tail. */
  lemma TrimIsSlice(s: string)
    ensures exists i, j :: 0 <= i <= j <= |s| && Trim(s) == s[i..j]
                           && (forall k :: 0 <= k < i ==> IsWhitespace(s[k]))
                           && (forall k :: j <= k < |s| ==> IsWhitespace(s[k]))
  {
    var i := |s| - |TrimStart(s)|;
    var j := i + |Trim(s)|;
    TrimSliceBounds(s, i, j);
  }

  /** `TrimIsSlice` at its witnesses: the head dropped by `TrimStart`, the tail dropped by `TrimEnd`. */
  lemma TrimSliceBounds(s: string, i: int, j: int)
    requires i == |s| - |TrimStart(s)| && j == i + |Trim(s)|
    ensures 0 <= i <= j <= |s| && Trim(s) == s[i..j]
    ensures forall k :: 0 <= k < i ==> IsWhitespace(s[k])
    ensures forall k :: j <= k < |s| ==> IsWhitespace(s[k])
  {
    var t := TrimStart(s);
    var r := TrimEnd(t);
    assert Trim(s) == r;
    assert t == s[i..];
    assert r == t[..|r|];
    forall k | j <= k < |s|
      ensures IsWhitespace(s[k])
    {
      assert s[k] == t[k - i];
      assert IsWhitespace(t[k - i]);
    }
  }

  /** The blank test of the source, `!s.trim()` / `s.trim() === ''`. */
  predicate IsBlank(s: string)
  {
    Trim(s) == []
  }

  /** Content is blank exactly when every character of it is whitespace (the empty string included). */
  lemma BlankIffAllWhitespace(s: string)
    ensures IsBlank(s) <==> forall i :: 0 <= i < |s| ==> IsWhitespace(s[i])
  {
    var t := TrimStart(s);
    if IsBlank(s) {
      assert TrimEnd(t) == [];
      assert t == [];
    }
  }

  /** JavaScript's `length`: characters outside the Basic Multilingual Plane take two UTF-16 code units. */
  function Utf16Length(s: string): (n: nat)
    ensures |s| <= n <= 2 * |s|
    ensures (forall i :: 0 <= i < |s| ==> (s[i] as int) < 0x10000) ==> n == |s|
  {
    if s == [] then 0
    else (if (s[0] as int) < 0x10000 then 1 else 2) + Utf16Length(s[1..])
  }
}
