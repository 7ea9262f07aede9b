/**
 * The string operations the screens rely on, with the meaning JavaScript gives
 * them: `trim`, `toLowerCase` (restricted to ASCII letters) and `includes`.
 */
module Text {

  /** The ECMAScript WhiteSpace and LineTerminator code points, i.e. what `String.prototype.trim` strips. */
  predicate IsWhitespace(c: char)
  {
    c == '\t' || c == '\n' || c == '\U{B}' || c == '\U{C}' || c == '\r' || c == ' '
    || c == '\U{A0}' || c == '\U{1680}' || ('\U{2000}' <= c <= '\U{200A}')
    || c == '\U{2028}' || c == '\U{2029}' || c == '\U{202F}' || c == '\U{205F}'
    || c == '\U{3000}' || c == '\U{FEFF}'
  }

  predicate AllWhitespace(s: string)
  {
    forall i :: 0 <= i < |s| ==> IsWhitespace(s[i])
  }

  /** `toLowerCase` on one character, for the ASCII letters only. */
  function LowerChar(c: char): char
  {
    if 'A' <= c <= 'Z' then (c as int + 32) as char else c
  }

  function ToLower(s: string): (r: string)
    ensures |r| == |s|
    ensures forall i :: 0 <= i < |s| ==> r[i] == LowerChar(s[i])
  {
    seq(|s|, i requires 0 <= i < |s| => LowerChar(s[i]))
  }

  /** Lowering a character never turns whitespace into non-whitespace or back. */
  lemma LowerCharKeepsWhitespace(c: char)
    ensures IsWhitespace(LowerChar(c)) <==> IsWhitespace(c)
  {
  }

  /** Drops the leading whitespace of `s`. */
  function TrimStart(s: string): string
  {
    if s != [] && IsWhitespace(s[0]) then TrimStart(s[1..]) else s
  }

  /** Drops the trailing whitespace of `s`. */
  function TrimEnd(s: string): string
  {
    if s != [] && IsWhitespace(s[|s| - 1]) then TrimEnd(s[..|s| - 1]) else s
  }

  /** TrimStart returns a suffix of `s` that does not start with whitespace, after whitespace only. */
  lemma {:induction false} TrimStartSpec(s: string)
    ensures |TrimStart(s)| <= |s| && TrimStart(s) == s[|s| - |TrimStart(s)|..]
    ensures AllWhitespace(s[..|s| - |TrimStart(s)|])
    ensures TrimStart(s) == [] || !IsWhitespace(TrimStart(s)[0])
  {
    if s != [] && IsWhitespace(s[0]) {
      var r := TrimStart(s[1..]);
      TrimStartSpec(s[1..]);
      assert s[..|s| - |r|] == [s[0]] + s[1..][..|s| - 1 - |r|];
    }
  }

  /** TrimEnd returns a prefix of `s` that does not end with whitespace, before whitespace only. */
  lemma {:induction false} TrimEndSpec(s: string)
    ensures |TrimEnd(s)| <= |s| && TrimEnd(s) == s[..|TrimEnd(s)|]
    ensures AllWhitespace(s[|TrimEnd(s)|..])
    ensures TrimEnd(s) == [] || !IsWhitespace(TrimEnd(s)[|TrimEnd(s)| - 1])
  {
    if s != [] && IsWhitespace(s[|s| - 1]) {
      var r := TrimEnd(s[..|s| - 1]);
      TrimEndSpec(s[..|s| - 1]);
      assert s[|r|..] == s[..|s| - 1][|r|..] + [s[|s| - 1]];
    }
  }

  /** JavaScript's `s.trim()`. */
  function Trim(s: string): string
  {
    TrimEnd(TrimStart(s))
  }

  /** JavaScript's `!s.trim()`: nothing is left once whitespace is stripped. */
  predicate Blank(s: string)
  {
    Trim(s) == []
  }

  /** What `trim` returns neither starts nor ends with whitespace. */
  lemma TrimEdges(s: string)
    ensures Trim(s) == [] || (!IsWhitespace(Trim(s)[0]) && !IsWhitespace(Trim(s)[|Trim(s)| - 1]))
  {
    var t := TrimStart(s);
    var r := TrimEnd(t);
    TrimStartSpec(s);
    TrimEndSpec(t);
    assert Trim(s) == r;
    if r != [] {
      assert r[0] == t[0];
    }
  }

  lemma SplitAt(s: string, k: nat)
    requires k <= |s|
    ensures s == s[..k] + s[k..]
  {
  }

  /** What `trim` returns sits between two runs of whitespace that make up the rest of `s`. */
  lemma TrimParts(s: string) returns (before: string, after: string)
    ensures s == before + Trim(s) + after
    ensures AllWhitespace(before) && AllWhitespace(after)
  {
    var t := TrimStart(s);
    var r := TrimEnd(t);
    TrimStartSpec(s);
    TrimEndSpec(t);
    before := s[..|s| - |t|];
    after := t[|r|..];
    SplitAt(s, |s| - |t|);
    SplitAt(t, |r|);
    assert Trim(s) == r;
  }

  /** Leading whitespace is exactly what TrimStart removes. */
  lemma {:induction false} TrimStartUnique(a: string, m: string)
    requires AllWhitespace(a)
    requires m == [] || !IsWhitespace(m[0])
    ensures TrimStart(a + m) == m
    decreases |a|
  {
    if a != [] {
      assert (a + m)[1..] == a[1..] + m;
      TrimStartUnique(a[1..], m);
    } else {
      assert a + m == m;
    }
  }

  /** Trailing whitespace is exactly what TrimEnd removes. */
  lemma {:induction false} TrimEndUnique(m: string, b: string)
    requires AllWhitespace(b)
    requires m == [] || !IsWhitespace(m[|m| - 1])
    ensures TrimEnd(m + b) == m
    decreases |b|
  {
    if b != [] {
      assert (m + b)[..|m + b| - 1] == m + b[..|b| - 1];
      TrimEndUnique(m, b[..|b| - 1]);
    } else {
      assert m + b == m;
    }
  }

  /**
   * `trim` is determined by its meaning: whenever `s` is some whitespace, then a
   * text that neither starts nor ends with whitespace, then more whitespace,
   * `s.trim()` is that text.
   */
  lemma TrimUnique(a: string, m: string, b: string)
    requires AllWhitespace(a) && AllWhitespace(b)
    requires m == [] || (!IsWhitespace(m[0]) && !IsWhitespace(m[|m| - 1]))
    ensures Trim(a + m + b) == m
  {
    if m == [] {
      assert a + m + b == (a + b) + [];
      TrimStartUnique(a + b, []);
      assert TrimStart(a + m + b) == [];
    } else {
      assert a + m + b == a + (m + b);
      TrimStartUnique(a, m + b);
      TrimEndUnique(m, b);
    }
  }

  /** The result of `trim` is blank exactly when the whole string is whitespace. */
  lemma BlankIff(s: string)
    ensures Blank(s) <==> AllWhitespace(s)
  {
    var before, after := TrimParts(s);
    if Trim(s) == [] {
      assert s == before + after;
      forall i | 0 <= i < |s| ensures IsWhitespace(s[i]) {
        if i < |before| {
          assert s[i] == before[i];
        } else {
          assert s[i] == after[i - |before|];
        }
      }
    }
    if AllWhitespace(s) {
      assert s == s + [] + [];
      TrimUnique(s, [], []);
    }
  }

  /** Whitespace added around a string does not change what `trim` returns. */
  lemma TrimIgnoresPadding(a: string, s: string, b: string)
    requires AllWhitespace(a) && AllWhitespace(b)
    ensures Trim(a + s + b) == Trim(s)
  {
    var before, after := TrimParts(s);
    TrimEdges(s);
    assert a + s + b == (a + before) + Trim(s) + (after + b);
    TrimUnique(a + before, Trim(s), after + b);
  }

  /** Trimming twice is trimming once. */
  lemma TrimIdempotent(s: string)
    ensures Trim(Trim(s)) == Trim(s)
  {
    TrimEdges(s);
    assert Trim(s) == [] + Trim(s) + [];
    TrimUnique([], Trim(s), []);
  }

  lemma ToLowerConcat(a: string, b: string)
    ensures ToLower(a + b) == ToLower(a) + ToLower(b)
  {
  }

  lemma ToLowerAllWhitespace(a: string)
    requires AllWhitespace(a)
    ensures AllWhitespace(ToLower(a))
  {
    forall i | 0 <= i < |a| ensures IsWhitespace(ToLower(a)[i]) {
      LowerCharKeepsWhitespace(a[i]);
    }
  }

  /** `s.toLowerCase().trim()` and `s.trim().toLowerCase()` agree. */
  lemma TrimToLowerCommute(s: string)
    ensures Trim(ToLower(s)) == ToLower(Trim(s))
  {
    var before, after := TrimParts(s);
    var m := Trim(s);
    TrimEdges(s);
    ToLowerConcat(before, m);
    ToLowerConcat(before + m, after);
    ToLowerAllWhitespace(before);
    ToLowerAllWhitespace(after);
    if m != [] {
      LowerCharKeepsWhitespace(m[0]);
      LowerCharKeepsWhitespace(m[|m| - 1]);
    }
    TrimUnique(ToLower(before), ToLower(m), ToLower(after));
  }

  /** `t` occurs in `s` starting at index `i`. */
  ghost predicate OccursAt(s: string, t: string, i: int)
  {
    0 <= i && i + |t| <= |s| && s[i..i + |t|] == t
  }

  /** An occurrence not at index 0 is an occurrence in the tail, one index earlier. */
  lemma OccursInTail(s: string, t: string)
    requires |t| <= |s| && s[..|t|] != t
    ensures (exists i :: OccursAt(s, t, i)) <==> (exists i :: OccursAt(s[1..], t, i))
  {
    if i :| OccursAt(s[1..], t, i) {
      assert s[1..][i..i + |t|] == s[i + 1..i + 1 + |t|];
      assert OccursAt(s, t, i + 1);
    }
    if i :| OccursAt(s, t, i) {
      assert i != 0;
      assert s[1..][i - 1..i - 1 + |t|] == s[i..i + |t|];
      assert OccursAt(s[1..], t, i - 1);
    }
  }

  /** JavaScript's `s.includes(t)`: `t` occurs somewhere in `s` (the empty string occurs everywhere). */
  function Includes(s: string, t: string): (r: bool)
    ensures r <==> exists i :: OccursAt(s, t, i)
    decreases |s|
  {
    if |t| > |s| then false
    else if s[..|t|] == t then
      assert OccursAt(s, t, 0);
      true
    else
      OccursInTail(s, t);
      Includes(s[1..], t)
  }
}
