/**
 * The JavaScript string operations the dashboard relies on:
 * `toLowerCase`, `toUpperCase` (restricted to ASCII letters),
 * `trim` (the ECMAScript WhiteSpace and LineTerminator code points)
 * and `includes` (substring containment).
 */
module Text {

  /** A code point that ECMAScript's `String.prototype.trim` strips:
      WhiteSpace (TAB, VT, FF, ZWNBSP and every space separator) and LineTerminator (LF, CR, LS, PS). */
  predicate IsWhitespace(c: char) {
    || c == '\t' || c == '\n' || c == '\U{000B}' || c == '\U{000C}' || c == '\r'
    || c == ' ' || c == '\U{00A0}' || c == '\U{1680}' || ('\U{2000}' <= c <= '\U{200A}')
    || c == '\U{2028}' || c == '\U{2029}' || c == '\U{202F}' || c == '\U{205F}'
    || c == '\U{3000}' || c == '\U{FEFF}'
  }

  predicate IsUpper(c: char) { 'A' <= c <= 'Z' }

  predicate IsLower(c: char) { 'a' <= c <= 'z' }

  /** Lower-cases one ASCII letter; every other character is left alone. */
  function LowerChar(c: char): (d: char)
    ensures !IsUpper(d)
    ensures IsUpper(c) || d == c
    ensures IsWhitespace(d) <==> IsWhitespace(c)
  {
    if IsUpper(c) then (c as int - 'A' as int + 'a' as int) as char else c
  }

  /** Upper-cases one ASCII letter; every other character is left alone. */
  function UpperChar(c: char): (d: char)
    ensures !IsLower(d)
    ensures IsLower(c) || d == c
  {
    if IsLower(c) then (c as int - 'a' as int + 'A' as int) as char else c
  }

  /** `s.toLowerCase()`, restricted to ASCII letters. */
  function ToLower(s: string): (r: string)
    ensures |r| == |s|
    ensures forall i | 0 <= i < |s| :: r[i] == LowerChar(s[i])
  {
    if s == [] then [] else [LowerChar(s[0])] + ToLower(s[1..])
  }

  /** `s.toUpperCase()`, restricted to ASCII letters. */
  function ToUpper(s: string): (r: string)
    ensures |r| == |s|
    ensures forall i | 0 <= i < |s| :: r[i] == UpperChar(s[i])
  {
    if s == [] then [] else [UpperChar(s[0])] + ToUpper(s[1..])
  }

  /** `s.trimStart()`: drops the longest all-whitespace prefix. */
  function TrimStart(s: string): (r: string)
    ensures |r| <= |s| && r == s[|s| - |r|..]
    ensures forall i | 0 <= i < |s| - |r| :: IsWhitespace(s[i])
    ensures r == [] || !IsWhitespace(r[0])
  {
    if s != [] && IsWhitespace(s[0]) then TrimStart(s[1..]) else s
  }

  /** `s.trimEnd()`: drops the longest all-whitespace suffix. */
  function TrimEnd(s: string): (r: string)
    ensures |r| <= |s| && r == s[..|r|]
    ensures forall i | |r| <= i < |s| :: IsWhitespace(s[i])
    ensures r == [] || !IsWhitespace(r[|r| - 1])
  {
    if s != [] && IsWhitespace(s[|s| - 1]) then TrimEnd(s[..|s| - 1]) else s
  }

  /** `s.trim()`: the slice of `s` left after stripping whitespace from both ends. */
  function Trim(s: string): (r: string)
    ensures |r| <= |TrimStart(s)| <= |s|
    ensures r == s[|s| - |TrimStart(s)|..|s| - |TrimStart(s)| + |r|]
    ensures forall i | 0 <= i < |s| - |TrimStart(s)| :: IsWhitespace(s[i])
    ensures forall i | |s| - |TrimStart(s)| + |r| <= i < |s| :: IsWhitespace(s[i])
    ensures r == [] || (!IsWhitespace(r[0]) && !IsWhitespace(r[|r| - 1]))
  {
    TrimEnd(TrimStart(s))
  }

  /** `s.includes(q)`: `q` occurs in `s` at some offset. */
  predicate Contains(s: string, q: string) {
    q <= s || (s != [] && Contains(s[1..], q))
  }

  // ---------------------------------------------------------------------------
  // Lemmas
  // ---------------------------------------------------------------------------

  /** Lower-casing twice is lower-casing once. */
  lemma ToLowerIdempotent(s: string)
    ensures ToLower(ToLower(s)) == ToLower(s)
  {
    assert forall i | 0 <= i < |s| :: ToLower(ToLower(s))[i] == ToLower(s)[i];
  }

  /** A string is blank after `trim` exactly when every character of it is whitespace. */
  lemma TrimEmptyIffAllWhitespace(s: string)
    ensures Trim(s) == [] <==> forall i | 0 <= i < |s| :: IsWhitespace(s[i])
  {
    if Trim(s) != [] {
      var k := |s| - |TrimStart(s)|;
      assert s[k] == Trim(s)[0];
    }
  }

  /** Trimming twice is trimming once. */
  lemma TrimIdempotent(s: string)
    ensures Trim(Trim(s)) == Trim(s)
  {
    var t := Trim(s);
    if t != [] {
      assert TrimStart(t) == t;
      assert TrimEnd(t) == t;
    }
  }

  /** `trimStart` commutes with ASCII lower-casing, since no whitespace character is a letter. */
  lemma {:induction false} LowerTrimStartCommute(s: string)
    ensures ToLower(TrimStart(s)) == TrimStart(ToLower(s))
  {
    if s != [] {
      assert ToLower(s)[1..] == ToLower(s[1..]);
      LowerTrimStartCommute(s[1..]);
    }
  }

  /** `trimEnd` commutes with ASCII lower-casing. */
  lemma {:induction false} LowerTrimEndCommute(s: string)
    ensures ToLower(TrimEnd(s)) == TrimEnd(ToLower(s))
  {
    if s != [] {
      var n := |s| - 1;
      assert ToLower(s)[..n] == ToLower(s[..n]);
      LowerTrimEndCommute(s[..n]);
    }
  }

  /** Lower-casing then trimming (what the search box does) equals trimming then lower-casing. */
  lemma LowerTrimCommute(s: string)
    ensures ToLower(Trim(s)) == Trim(ToLower(s))
  {
    LowerTrimEndCommute(TrimStart(s));
    LowerTrimStartCommute(s);
  }

  /** `includes` agrees with the index-based reading: `q` is a prefix of some suffix of `s`. */
  lemma {:induction false} ContainsAt(s: string, q: string)
    ensures Contains(s, q) <==> exists i | 0 <= i <= |s| :: q <= s[i..]
  {
    if s == [] {
      if Contains(s, q) { assert q <= s[0..]; }
    } else {
      ContainsAt(s[1..], q);
      if exists i | 0 <= i <= |s| :: q <= s[i..] {
        var i :| 0 <= i <= |s| && q <= s[i..];
        if i == 0 {
          assert s[0..] == s;
        } else {
          assert s[1..][i - 1..] == s[i..];
        }
      }
      if Contains(s, q) {
        if q <= s {
          assert s[0..] == s;
        } else {
          var i :| 0 <= i <= |s| - 1 && q <= s[1..][i..];
          assert s[1..][i..] == s[i + 1..];
        }
      }
    }
  }

  /** A string contained in `s` is no longer than `s`; the empty string is contained in everything. */
  lemma {:induction false} ContainsBounds(s: string, q: string)
    ensures Contains(s, q) ==> |q| <= |s|
    ensures Contains(s, [])
  {
    if s != [] && !(q <= s) {
      ContainsBounds(s[1..], q);
    }
  }

  /** Containment is transitive: an occurrence of `m` in `s` holds every occurrence of `q` in `m`. */
  lemma {:induction false} ContainsTransitive(s: string, m: string, q: string)
    requires Contains(s, m) && Contains(m, q)
    ensures Contains(s, q)
  {
    if m <= s {
      PrefixContains(s, m, q);
    } else {
      ContainsTransitive(s[1..], m, q);
    }
  }

  /** If `m` is a prefix of `s`, whatever `m` contains, `s` contains. */
  lemma {:induction false} PrefixContains(s: string, m: string, q: string)
    requires m <= s && Contains(m, q)
    ensures Contains(s, q)
  {
    if q <= m {
      assert q <= s;
    } else {
      assert m[1..] <= s[1..];
      PrefixContains(s[1..], m[1..], q);
    }
  }

  /** Lower-casing both sides keeps an occurrence: the search is at least as permissive as exact matching. */
  lemma {:induction false} ContainsLower(s: string, q: string)
    requires Contains(s, q)
    ensures Contains(ToLower(s), ToLower(q))
  {
    if q <= s {
      assert ToLower(q) <= ToLower(s) by {
        forall i | 0 <= i < |q| ensures ToLower(q)[i] == ToLower(s)[i] {
          assert q[i] == s[i];
        }
      }
    } else {
      assert ToLower(s)[1..] == ToLower(s[1..]);
      ContainsLower(s[1..], q);
    }
  }

  /** A one-character string occurs in `s` exactly when that character does. */
  lemma {:induction false} ContainsChar(s: string, c: char)
    ensures Contains(s, [c]) <==> c in s
  {
    if s != [] {
      ContainsChar(s[1..], c);
      assert s == [s[0]] + s[1..];
    }
  }
}
