/** The few string operations the core relies on: `isBlank`, `trim` and
    `equalsIgnoreCase` (the last one restricted to ASCII letters). */
module Text {
  import opened Common

  /** A character `String.trim` removes: every code point up to the space. */
  predicate IsSpace(c: char)
  {
    c <= ' '
  }

  /** `Character.isWhitespace`, the test behind `isBlank`: the ASCII tab, line
      feed, vertical tab, form feed, carriage return and the four separator
      controls, and the Unicode space, line and paragraph separators except
      the non-breaking ones (U+00A0, U+2007, U+202F). */
  predicate IsWhitespace(c: char): (w: bool)
  {
    || ('\t' <= c <= '\r') || ('\U{1C}' <= c <= ' ')
    || c == '\U{1680}' || ('\U{2000}' <= c <= '\U{200A}' && c != '\U{2007}')
    || c == '\U{2028}' || c == '\U{2029}' || c == '\U{205F}' || c == '\U{3000}'
  }

  /** `s.isBlank()`: empty or made of white space only. */
  predicate IsBlank(s: string): (b: bool)
  {
    forall i | 0 <= i < |s| :: IsWhitespace(s[i])
  }

  /** The ASCII controls tab to carriage return and the space are white
      space; the other controls below tab, the three non-breaking spaces and
      every printable ASCII character are not. */
  lemma WhitespaceClasses(c: char)
    ensures ('\t' <= c <= '\r') || c == ' ' ==> IsWhitespace(c)
    ensures c < '\t' || c == '\U{A0}' || c == '\U{2007}' || c == '\U{202F}' ==> !IsWhitespace(c)
    ensures '!' <= c <= '~' ==> !IsWhitespace(c)
  {
  }

  /** The empty string is blank, and a blank string holds no printable ASCII
      character. */
  lemma BlankHasNoPrintable(s: string)
    ensures IsBlank([])
    ensures IsBlank(s) ==> forall i | 0 <= i < |s| :: !('!' <= s[i] <= '~')
  {
    if IsBlank(s) {
      forall i | 0 <= i < |s|
        ensures !('!' <= s[i] <= '~')
      {
        WhitespaceClasses(s[i]);
      }
    }
  }

  /** Made only of characters `trim` removes, so that `trim` leaves nothing. */
  predicate TrimsAway(s: string)
  {
    forall i | 0 <= i < |s| :: IsSpace(s[i])
  }

  /** Java's `s == null || s.isBlank()`, the guard of every required text argument. */
  predicate Missing(s: Option<string>): (m: bool)
    ensures s.None? ==> m
    ensures s.Some? ==> (m <==> IsBlank(s.value))
  {
    s.None? || IsBlank(s.value)
  }

  /** Drops the leading white space. */
  function TrimStart(s: string): (r: string)
    ensures |r| <= |s|
    ensures r == [] || !IsSpace(r[0])
  {
    if s != [] && IsSpace(s[0]) then TrimStart(s[1..]) else s
  }

  /** What `TrimStart` leaves is a suffix of `s`, and what it drops is all space. */
  lemma {:induction false} TrimStartSuffix(s: string)
    ensures TrimStart(s) == s[|s| - |TrimStart(s)|..]
    ensures TrimsAway(s[..|s| - |TrimStart(s)|])
  {
    if s != [] && IsSpace(s[0]) {
      var r := TrimStart(s[1..]);
      TrimStartSuffix(s[1..]);
      assert s[1..][|s| - 1 - |r|..] == s[|s| - |r|..];
      var dropped := s[..|s| - |r|];
      assert dropped == [s[0]] + s[1..][..|s| - 1 - |r|];
      assert forall i | 1 <= i < |dropped| :: dropped[i] == s[1..][..|s| - 1 - |r|][i - 1];
    }
  }

  /** Drops the trailing white space. */
  function TrimEnd(s: string): (r: string)
    ensures |r| <= |s|
    ensures r == [] || !IsSpace(r[|r| - 1])
  {
    if s != [] && IsSpace(s[|s| - 1]) then TrimEnd(s[..|s| - 1]) else s
  }

  /** What `TrimEnd` leaves is a prefix of `s`, and what it drops is all space. */
  lemma {:induction false} TrimEndPrefix(s: string)
    ensures TrimEnd(s) == s[..|TrimEnd(s)|]
    ensures TrimsAway(s[|TrimEnd(s)|..])
  {
    if s != [] && IsSpace(s[|s| - 1]) {
      var r := TrimEnd(s[..|s| - 1]);
      TrimEndPrefix(s[..|s| - 1]);
      assert s[..|s| - 1][..|r|] == s[..|r|];
      var dropped := s[|r|..];
      assert dropped == s[..|s| - 1][|r|..] + [s[|s| - 1]];
      assert forall i | 0 <= i < |dropped| - 1 :: dropped[i] == s[..|s| - 1][|r|..][i];
    }
  }

  /** `s.trim()`: the slice of `s` between its leading and trailing white space. */
  function Trim(s: string): (r: string)
    ensures |r| <= |s|
    ensures r == [] <==> TrimsAway(s)
    ensures r != [] ==> !IsSpace(r[0]) && !IsSpace(r[|r| - 1])
  {
    var t := TrimStart(s);
    var r := TrimEnd(t);
    assert r != [] ==> !IsSpace(r[0]) && !IsSpace(r[|r| - 1]) by {
      TrimEndPrefix(t);
      if r != [] {
        assert r[0] == t[0];
      }
    }
    assert r == [] <==> TrimsAway(s) by {
      TrimStartSuffix(s);
      TrimEndPrefix(t);
      if r == [] {
        assert t[|r|..] == t;
        assert t == [];
        assert s[..|s| - |t|] == s;
      } else {
        assert t[0] == s[|s| - |t|];
      }
    }
    r
  }

  /** Trimming a string that has no surrounding white space changes nothing,
      so every stored trimmed value is a fixed point of `trim`. */
  lemma {:induction false} TrimIdempotent(s: string)
    ensures Trim(Trim(s)) == Trim(s)
  {
    var r := Trim(s);
    if r != [] {
      assert TrimStart(r) == r;
      assert TrimEnd(r) == r;
    }
  }

  /** The two rules differ: a control character such as U+0001 is not white
      space, so the string passes an `isBlank` check, yet `trim` removes it
      and leaves the empty string. */
  lemma NonBlankMayTrimToEmpty()
    ensures !IsBlank("\U{1}") && Trim("\U{1}") == []
  {
    assert !IsWhitespace("\U{1}"[0]);
  }

  /** `s == null ? "" : s.trim()` */
  function TrimmedOrEmpty(s: Option<string>): (r: string)
    ensures s.None? ==> r == ""
    ensures s.Some? ==> r == Trim(s.value)
    ensures Trim(r) == r
  {
    if s.None? then ""
    else
      TrimIdempotent(s.value);
      Trim(s.value)
  }

  /** ASCII lower-casing. */
  function Fold(c: char): (d: char)
    ensures 'A' <= c <= 'Z' ==> 'a' <= d <= 'z' && d as int == c as int + 32
    ensures !('A' <= c <= 'Z') ==> d == c
    ensures !('A' <= d <= 'Z')
  {
    if 'A' <= c <= 'Z' then (c as int + 32) as char else c
  }

  /** `a.equalsIgnoreCase(b)` over ASCII letters. */
  predicate EqualsIgnoreCase(a: string, b: string): (eq: bool)
    ensures eq ==> |a| == |b|
    ensures a == b ==> eq
  {
    |a| == |b| && forall i | 0 <= i < |a| :: Fold(a[i]) == Fold(b[i])
  }

  /** The ingest path asks `t.equalsIgnoreCase(s)` and the batch scan asks
      `s.equalsIgnoreCase(t)`; the two questions have the same answer, and a
      string always matches itself. */
  lemma EqualsIgnoreCaseSymmetric(a: string, b: string)
    ensures EqualsIgnoreCase(a, b) <==> EqualsIgnoreCase(b, a)
    ensures EqualsIgnoreCase(a, a)
  {
  }
}
