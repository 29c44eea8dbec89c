/**
 * The few JavaScript string operations the modelled code relies on:
 * `length` (UTF-16 code units), `trim()` and `toLowerCase()`.
 */
module JsString {

  /** Number of UTF-16 code units in `s`, which is what JavaScript's `length` reports:
      characters outside the Basic Multilingual Plane take two units. */
  function Utf16Length(s: string): (n: nat)
    ensures |s| <= n <= 2 * |s|
  {
    if s == [] then 0 else (if s[0] as int > 0xFFFF then 2 else 1) + Utf16Length(s[1..])
  }

  /** A string whose characters all lie in the Basic Multilingual Plane (Hangul, Latin, ...)
      has a JavaScript length equal to its number of characters. */
  lemma {:induction false} Utf16LengthOfBmp(s: string)
    requires forall i :: 0 <= i < |s| ==> s[i] as int <= 0xFFFF
    ensures Utf16Length(s) == |s|
  {
    if s != [] {
      Utf16LengthOfBmp(s[1..]);
    }
  }

  /** The characters ECMAScript's `trim` removes: WhiteSpace and LineTerminator. */
  predicate IsWhitespace(c: char)
  {
    || c == '\t' || c == '\n' || c == '\U{B}' || c == '\U{C}' || c == '\r' || c == ' '
    || c == '\U{A0}' || c == '\U{1680}' || ('\U{2000}' <= c <= '\U{200A}')
    || c == '\U{2028}' || c == '\U{2029}' || c == '\U{202F}' || c == '\U{205F}'
    || c == '\U{3000}' || c == '\U{FEFF}'
  }

  predicate AllWhitespace(s: string)
  {
    forall i :: 0 <= i < |s| ==> IsWhitespace(s[i])
  }

  function TrimStart(s: string): (r: string)
    ensures |r| <= |s| && r == s[|s| - |r|..]
    ensures AllWhitespace(s[..|s| - |r|])
    ensures r != [] ==> !IsWhitespace(r[0])
  {
    if s != [] && IsWhitespace(s[0]) then TrimStart(s[1..]) else s
  }

  function TrimEnd(s: string): (r: string)
    ensures |r| <= |s| && r == s[..|r|]
    ensures AllWhitespace(s[|r|..])
    ensures r != [] ==> !IsWhitespace(r[|r| - 1])
  {
    if s != [] && IsWhitespace(s[|s| - 1]) then TrimEnd(s[..|s| - 1]) else s
  }

  /** `String.prototype.trim`: the infix of `s` left after dropping whitespace at both ends. */
  function Trim(s: string): (r: string)
    ensures |r| <= |s|
    ensures exists i, j :: 0 <= i <= j <= |s| && r == s[i..j] && AllWhitespace(s[..i]) && AllWhitespace(s[j..])
    ensures r != [] ==> !IsWhitespace(r[0]) && !IsWhitespace(r[|r| - 1])
  {
    var t := TrimStart(s);
    var r := TrimEnd(t);
    SliceOfSuffix(s, |s| - |t|, |r|);
    r
  }

  /** Slicing a suffix is slicing the whole. */
  lemma SliceOfSuffix(s: string, i: nat, n: nat)
    requires i + n <= |s|
    ensures s[i..][..n] == s[i..i + n] && s[i..][n..] == s[i + n..]
  {
  }

  /** Trimming a trimmed string changes nothing. */
  lemma TrimIdempotent(s: string)
    ensures Trim(Trim(s)) == Trim(s)
  {
    var r := Trim(s);
    if r != [] {
      assert TrimStart(r) == r;
      assert TrimEnd(r) == r;
    }
  }

  lemma TrimUnfold(s: string)
    ensures Trim(s) == TrimEnd(TrimStart(s))
  {
  }

  /** Whitespace added around a string disappears again under `trim`. */
  lemma {:induction false} TrimIgnoresPadding(front: string, s: string, back: string)
    requires AllWhitespace(front) && AllWhitespace(back)
    ensures Trim(front + s + back) == Trim(s)
  {
    var t := front + s + back;
    assert t == front + (s + back);
    TrimStartIgnoresFront(front, s + back);
    TrimStartKeepsBack(s, back);
    TrimEndIgnoresBack(TrimStart(s), back);
    TrimUnfold(t);
    TrimUnfold(s);
    calc {
      Trim(t);
      TrimEnd(TrimStart(t));
      TrimEnd(TrimStart(s + back));
      TrimEnd(TrimStart(s) + back);
      TrimEnd(TrimStart(s));
      Trim(s);
    }
  }

  lemma {:induction false} TrimStartIgnoresFront(front: string, s: string)
    requires AllWhitespace(front)
    ensures TrimStart(front + s) == TrimStart(s)
  {
    if front != [] {
      var t := front + s;
      assert t[0] == front[0] && IsWhitespace(t[0]);
      assert t[1..] == front[1..] + s;
      assert TrimStart(t) == TrimStart(t[1..]);
      TrimStartIgnoresFront(front[1..], s);
    } else {
      assert front + s == s;
    }
  }

  lemma {:induction false} TrimStartKeepsBack(s: string, back: string)
    requires AllWhitespace(back)
    ensures TrimStart(s + back) == TrimStart(s) + back || (TrimStart(s) == [] && TrimStart(s + back) == [])
    ensures TrimEnd(TrimStart(s + back)) == TrimEnd(TrimStart(s) + back)
  {
    if s == [] {
      assert s + back == back;
      TrimStartIgnoresFront(back, []);
      assert back + [] == back;
      TrimEndIgnoresBack([], back);
    } else if IsWhitespace(s[0]) {
      assert (s + back)[1..] == s[1..] + back;
      TrimStartKeepsBack(s[1..], back);
    }
  }

  lemma {:induction false} TrimEndIgnoresBack(s: string, back: string)
    requires AllWhitespace(back)
    ensures TrimEnd(s + back) == TrimEnd(s)
  {
    if back != [] {
      var b := back[..|back| - 1];
      assert (s + back)[..|s + back| - 1] == s + b;
      TrimEndIgnoresBack(s, b);
    } else {
      assert s + back == s;
    }
  }

  /** ASCII case mapping of `toLowerCase`. */
  function LowerChar(c: char): char
  {
    if 'A' <= c <= 'Z' then (c as int + 32) as char else c
  }

  /** `String.prototype.toLowerCase`, restricted to the ASCII letters. */
  function ToLower(s: string): (r: string)
    ensures |r| == |s|
    ensures forall i :: 0 <= i < |s| ==> !('A' <= r[i] <= 'Z')
    ensures forall i :: 0 <= i < |s| && !('A' <= s[i] <= 'Z') ==> r[i] == s[i]
  {
    seq(|s|, i requires 0 <= i < |s| => LowerChar(s[i]))
  }

  /** Lower-casing is idempotent. */
  lemma ToLowerProperties(s: string)
    ensures ToLower(ToLower(s)) == ToLower(s)
  {
  }

  lemma LowerCharKeepsWhitespace(c: char)
    ensures IsWhitespace(LowerChar(c)) == IsWhitespace(c)
  {
  }

  /** Lower-casing neither creates nor removes whitespace at either end. */
  lemma LowerKeepsEnds(s: string)
    ensures s != [] ==> IsWhitespace(ToLower(s)[0]) == IsWhitespace(s[0])
    ensures s != [] ==> IsWhitespace(ToLower(s)[|s| - 1]) == IsWhitespace(s[|s| - 1])
  {
    if s != [] {
      LowerCharKeepsWhitespace(s[0]);
      LowerCharKeepsWhitespace(s[|s| - 1]);
    }
  }

  lemma {:induction false} TrimStartOfLower(s: string)
    ensures TrimStart(ToLower(s)) == ToLower(TrimStart(s))
  {
    if s != [] {
      LowerCharKeepsWhitespace(s[0]);
      assert ToLower(s)[1..] == ToLower(s[1..]);
      if IsWhitespace(s[0]) {
        TrimStartOfLower(s[1..]);
      }
    }
  }

  lemma {:induction false} TrimEndOfLower(s: string)
    ensures TrimEnd(ToLower(s)) == ToLower(TrimEnd(s))
  {
    if s != [] {
      LowerCharKeepsWhitespace(s[|s| - 1]);
      assert ToLower(s)[..|s| - 1] == ToLower(s[..|s| - 1]);
      if IsWhitespace(s[|s| - 1]) {
        TrimEndOfLower(s[..|s| - 1]);
      }
    }
  }

  /** `trim` and `toLowerCase` commute, so the order in which a schema applies them does not matter. */
  lemma {:induction false} TrimLowerCommute(s: string)
    ensures Trim(ToLower(s)) == ToLower(Trim(s))
  {
    TrimStartOfLower(s);
    TrimEndOfLower(TrimStart(s));
  }
}
