/**
 * The two JavaScript string built-ins the component relies on:
 * `String.prototype.trim` (a text is blank when it trims to "") and
 * `String.prototype.length`, which counts UTF-16 code units.
 */
module JsString {

  /** The characters `trim` removes: ECMAScript WhiteSpace and LineTerminator. */
  predicate IsWhite(c: char) {
    c == '\t' || c == '\n' || c == '\U{B}' || c == '\U{C}' || c == '\r' || c == ' '
    || c == '\U{A0}' || c == '\U{1680}' || ('\U{2000}' <= c <= '\U{200A}')
    || c == '\U{2028}' || c == '\U{2029}' || c == '\U{202F}' || c == '\U{205F}'
    || c == '\U{3000}' || c == '\U{FEFF}'
  }

  /** `s.trim()`: `s` without its leading and trailing white space. */
  function Trim(s: string): (r: string)
    ensures r == [] <==> forall i | 0 <= i < |s| :: IsWhite(s[i])
    ensures r != [] ==> !IsWhite(r[0]) && !IsWhite(r[|r| - 1])
    ensures |r| <= |s|
    ensures (s == [] || (!IsWhite(s[0]) && !IsWhite(s[|s| - 1]))) ==> r == s
    decreases |s|
  {
    if s == [] then []
    else if IsWhite(s[0]) then Trim(s[1..])
    else if IsWhite(s[|s| - 1]) then Trim(s[..|s| - 1])
    else s
  }

  /** Everything of `s` before `i` and from `j` on is white space. */
  ghost predicate WhiteOutside(s: string, i: nat, j: nat) {
    i <= j <= |s|
    && (forall k | 0 <= k < i :: IsWhite(s[k]))
    && (forall k | j <= k < |s| :: IsWhite(s[k]))
  }

  /** `s.trim()` keeps a slice of `s`: what it drops at either end is white space. */
  lemma {:induction false} TrimRemovesWhiteEnds(s: string)
    ensures exists i: nat, j: nat :: WhiteOutside(s, i, j) && Trim(s) == s[i..j]
    decreases |s|
  {
    if s == [] {
      assert WhiteOutside(s, 0, 0) && Trim(s) == s[0..0];
    } else if IsWhite(s[0]) {
      var t := s[1..];
      TrimRemovesWhiteEnds(t);
      var i: nat, j: nat :| WhiteOutside(t, i, j) && Trim(t) == t[i..j];
      assert t[i..j] == s[i + 1..j + 1];
      assert WhiteOutside(s, i + 1, j + 1) by {
        forall k | 0 < k < i + 1 ensures IsWhite(s[k]) {
          assert s[k] == t[k - 1];
        }
        forall k | j + 1 <= k < |s| ensures IsWhite(s[k]) {
          assert s[k] == t[k - 1];
        }
      }
    } else if IsWhite(s[|s| - 1]) {
      var t := s[..|s| - 1];
      TrimRemovesWhiteEnds(t);
      var i: nat, j: nat :| WhiteOutside(t, i, j) && Trim(t) == t[i..j];
      assert t[i..j] == s[i..j];
      assert WhiteOutside(s, i, j) by {
        forall k | j <= k < |s| - 1 ensures IsWhite(s[k]) {
          assert s[k] == t[k];
        }
      }
    } else {
      assert WhiteOutside(s, 0, |s|) && Trim(s) == s[0..|s|];
    }
  }

  /** `!s.trim()`: the empty string is the only falsy string, so a text is blank when it is all white space. */
  predicate IsBlank(s: string): (b: bool)
    ensures b <==> forall i | 0 <= i < |s| :: IsWhite(s[i])
  {
    Trim(s) == []
  }

  /** `s.length`: a character outside the Basic Multilingual Plane takes two UTF-16 code units. */
  function Utf16Length(s: string): (n: nat)
    ensures |s| <= n <= 2 * |s|
    ensures (forall i | 0 <= i < |s| :: s[i] as int < 0x1_0000) ==> n == |s|
    ensures |s| == 1 ==> n == if s[0] as int < 0x1_0000 then 1 else 2
    ensures (forall i | 0 <= i < |s| :: s[i] as int >= 0x1_0000) ==> n == 2 * |s|
  {
    if s == [] then 0
    else (if s[0] as int < 0x1_0000 then 1 else 2) + Utf16Length(s[1..])
  }

  /** The `length` of a concatenation is the sum of the lengths, so it is the sum over its characters. */
  lemma {:induction false} Utf16LengthAppend(a: string, b: string)
    ensures Utf16Length(a + b) == Utf16Length(a) + Utf16Length(b)
  {
    if a == [] {
      assert a + b == b;
    } else {
      assert (a + b)[0] == a[0] && (a + b)[1..] == a[1..] + b;
      Utf16LengthAppend(a[1..], b);
    }
  }
}
