/** `String.prototype.trim` and the "blank" test the forms build on it. */
module Text {

  /** The characters JavaScript's `trim` removes: its WhiteSpace and
      LineTerminator code points. */
  predicate IsSpace(c: char)
  {
    c == ' ' || c == '\t' || c == '\n' || c == '\r' || c == '\U{000B}' || c == '\U{000C}'
    || c == '\U{00A0}' || c == '\U{1680}' || ('\U{2000}' <= c <= '\U{200A}')
    || c == '\U{2028}' || c == '\U{2029}' || c == '\U{202F}' || c == '\U{205F}'
    || c == '\U{3000}' || c == '\U{FEFF}'
  }

  /** Only white space (or nothing at all). The forms test a title with
      `!s.trim()`; `TrimEmptyIffBlank` shows that is exactly this. */
  predicate IsBlank(s: string)
  {
    forall i :: 0 <= i < |s| ==> IsSpace(s[i])
  }

  /** How many white-space characters `s` starts with. */
  function LeadingSpace(s: string): (n: nat)
    ensures n <= |s|
    ensures forall k :: 0 <= k < n ==> IsSpace(s[k])
    ensures n == |s| || !IsSpace(s[n])
  {
    if s != [] && IsSpace(s[0]) then
      var n := LeadingSpace(s[1..]);
      assert forall k :: 1 <= k < n + 1 ==> s[k] == s[1..][k - 1];
      n + 1
    else
      0
  }

  /** How many white-space characters `s` ends with. */
  function TrailingSpace(s: string): (n: nat)
    ensures n <= |s|
    ensures forall k :: |s| - n <= k < |s| ==> IsSpace(s[k])
    ensures n == |s| || !IsSpace(s[|s| - n - 1])
  {
    if s != [] && IsSpace(s[|s| - 1]) then
      var n := TrailingSpace(s[..|s| - 1]);
      assert forall k :: |s| - 1 - n <= k < |s| - 1 ==> s[k] == s[..|s| - 1][k];
      n + 1
    else
      0
  }

  /** `s.trim()`: neither starts nor ends with white space. */
  function Trim(s: string): (r: string)
    ensures |r| <= |s|
    ensures r == [] || (!IsSpace(r[0]) && !IsSpace(r[|r| - 1]))
  {
    var t := s[LeadingSpace(s)..];
    t[..|t| - TrailingSpace(t)]
  }

  /** The trimmed string is the slice of `s` that starts after the leading
      white space. */
  lemma TrimIsSlice(s: string)
    ensures LeadingSpace(s) + |Trim(s)| <= |s|
    ensures Trim(s) == s[LeadingSpace(s)..LeadingSpace(s) + |Trim(s)|]
  {
    var i := LeadingSpace(s);
    var t := s[i..];
    var r := t[..|t| - TrailingSpace(t)];
    assert r == Trim(s);
    assert r == s[i..i + |r|];
  }

  /** What `trim` drops after the slice is white space. */
  lemma TrimDropsBlankSuffix(s: string)
    ensures LeadingSpace(s) + |Trim(s)| <= |s|
    ensures IsBlank(s[LeadingSpace(s) + |Trim(s)|..])
  {
    var i := LeadingSpace(s);
    var t := s[i..];
    var n := TrailingSpace(t);
    assert |Trim(s)| == |t| - n;
    var u := s[i + |t| - n..];
    forall k | 0 <= k < |u| ensures IsSpace(u[k]) {
      assert u[k] == s[i + |t| - n + k] == t[|t| - n + k];
    }
    assert s[i + |Trim(s)|..] == u;
  }

  /** What `trim` removes is white space and nothing else: the result is the
      slice of `s` between a white-space prefix and a white-space suffix. */
  lemma TrimRemovesOnlySpace(s: string)
    ensures var r, i := Trim(s), LeadingSpace(s);
            i + |r| <= |s| && r == s[i..i + |r|] && IsBlank(s[..i]) && IsBlank(s[i + |r|..])
  {
    TrimIsSlice(s);
    TrimDropsBlankSuffix(s);
    var i := LeadingSpace(s);
    forall k | 0 <= k < i ensures IsSpace(s[..i][k]) {
      assert s[..i][k] == s[k];
    }
  }

  /** `!s.trim()` holds exactly for the blank strings. */
  lemma {:induction false} TrimEmptyIffBlank(s: string)
    ensures Trim(s) == [] <==> IsBlank(s)
  {
    var i := LeadingSpace(s);
    var t := s[i..];
    assert Trim(s) == t[..|t| - TrailingSpace(t)];
    assert t == [] || t[0] == s[i];
  }

  /** Trimming twice changes nothing more than trimming once. */
  lemma {:induction false} TrimIdempotent(s: string)
    ensures Trim(Trim(s)) == Trim(s)
  {
    var r := Trim(s);
    assert LeadingSpace(r) == 0;
    assert TrailingSpace(r[0..]) == 0;
    assert r[0..][..|r|] == r;
  }
}
