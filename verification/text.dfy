/** String trimming as the preferences page uses it (String.prototype.trim). */
module Text {

  /** The code points trim removes: ECMAScript WhiteSpace (tab, vertical tab,
      form feed, space, no-break space, byte order mark and the other Zs
      separators) and LineTerminator (LF, CR, line and paragraph separators). */
  predicate IsSpace(c: char) {
    c == '\t' || c == '\n' || c == '\U{000B}' || c == '\U{000C}' || c == '\r' || c == ' '
    || c == '\U{00A0}' || c == '\U{1680}' || ('\U{2000}' <= c <= '\U{200A}')
    || c == '\U{2028}' || c == '\U{2029}' || c == '\U{202F}' || c == '\U{205F}'
    || c == '\U{3000}' || c == '\U{FEFF}'
  }

  predicate AllSpace(s: string) {
    forall k :: 0 <= k < |s| ==> IsSpace(s[k])
  }

  /** The number of white-space characters `s` starts with. */
  function LeadingSpace(s: string): (n: nat)
    ensures n <= |s|
  {
    if s != [] && IsSpace(s[0]) then 1 + LeadingSpace(s[1..]) else 0
  }

  /** The leading run is all white space and is maximal. */
  lemma {:induction false} LeadingSpaceRun(s: string)
    ensures AllSpace(s[..LeadingSpace(s)])
    ensures LeadingSpace(s) < |s| ==> !IsSpace(s[LeadingSpace(s)])
  {
    if s != [] && IsSpace(s[0]) {
      LeadingSpaceRun(s[1..]);
      assert s[..LeadingSpace(s)] == [s[0]] + s[1..][..LeadingSpace(s[1..])];
    }
  }

  /** The length `s` keeps once its trailing white space is dropped. */
  function TrailingStart(s: string): (m: nat)
    ensures m <= |s|
  {
    if s != [] && IsSpace(s[|s| - 1]) then TrailingStart(s[..|s| - 1]) else |s|
  }

  /** The trailing run is all white space and is maximal. */
  lemma {:induction false} TrailingSpaceRun(s: string)
    ensures AllSpace(s[TrailingStart(s)..])
    ensures 0 < TrailingStart(s) ==> !IsSpace(s[TrailingStart(s) - 1])
  {
    if s != [] && IsSpace(s[|s| - 1]) {
      var p := s[..|s| - 1];
      TrailingSpaceRun(p);
      assert s[TrailingStart(s)..] == p[TrailingStart(p)..] + [s[|s| - 1]];
    }
  }

  /** String.prototype.trim: leading, then trailing white space removed. */
  function Trim(s: string): (r: string)
    ensures |r| <= |s|
  {
    var t := s[LeadingSpace(s)..];
    t[..TrailingStart(t)]
  }

  /** A non-empty trimmed string neither starts nor ends with white space. */
  lemma TrimEnds(s: string)
    ensures var r := Trim(s);
            r != [] ==> !IsSpace(r[0]) && !IsSpace(r[|r| - 1])
  {
    LeadingSpaceRun(s);
    TrailingSpaceRun(s[LeadingSpace(s)..]);
  }

  /** The trimmed string is a contiguous middle part of `s` whose margins are
      all white space. */
  lemma TrimIsMiddle(s: string)
    ensures var r := Trim(s);
            exists i :: 0 <= i <= |s| - |r| && r == s[i..i + |r|]
                        && AllSpace(s[..i]) && AllSpace(s[i + |r|..])
  {
    var n := LeadingSpace(s);
    var t := s[n..];
    var r := Trim(s);
    LeadingSpaceRun(s);
    TrailingSpaceRun(t);
    assert r == s[n..n + |r|];
    assert s[n + |r|..] == t[|r|..];
  }

  /** A string trims to nothing exactly when it is all white space. */
  lemma TrimBlankIff(s: string)
    ensures Trim(s) == [] <==> AllSpace(s)
  {
    var n := LeadingSpace(s);
    var t := s[n..];
    LeadingSpaceRun(s);
    TrailingSpaceRun(t);
    if Trim(s) == [] {
      assert s == s[..n] + t[TrailingStart(t)..];
    }
  }

  /** Trimming a trimmed string changes nothing. */
  lemma TrimIdempotent(s: string)
    ensures Trim(Trim(s)) == Trim(s)
  {
    var r := Trim(s);
    TrimEnds(s);
    if r != [] {
      assert LeadingSpace(r) == 0;
      assert TrailingStart(r) == |r|;
    }
  }
}
