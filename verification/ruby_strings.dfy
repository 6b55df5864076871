/** The three Ruby `String` operations the formula applies to external text:
    `strip` (to the preferences query output), `chomp` and `downcase` (to each
    answer line read from standard input). */
module RubyStrings {

  // ---------------------------------------------------------------------------
  // strip
  // ---------------------------------------------------------------------------

  /** The characters `String#strip` removes from either end of a string:
      NUL, horizontal tab, line feed, vertical tab, form feed, carriage return
      and space. */
  predicate IsStripSpace(c: char) {
    c == '\0' || c == '\t' || c == '\n' || c == '\U{000B}' || c == '\U{000C}' || c == '\r' || c == ' '
  }

  predicate AllStripSpace(s: string) {
    forall i :: 0 <= i < |s| ==> IsStripSpace(s[i])
  }

  /** Removes the leading run of strip-space: the result is the suffix of `s`
      that starts at its first non-space character. */
  function StripLeading(s: string): (r: string)
    ensures |r| <= |s| && r == s[|s| - |r|..]
    ensures AllStripSpace(s[..|s| - |r|])
    ensures r == [] || !IsStripSpace(r[0])
    decreases |s|
  {
    if |s| > 0 && IsStripSpace(s[0]) then StripLeading(s[1..]) else s
  }

  /** Removes the trailing run of strip-space: the result is the prefix of `s`
      that ends at its last non-space character. */
  function StripTrailing(s: string): (r: string)
    ensures |r| <= |s| && r == s[..|r|]
    ensures AllStripSpace(s[|r|..])
    ensures r == [] || !IsStripSpace(r[|r| - 1])
    decreases |s|
  {
    if |s| > 0 && IsStripSpace(s[|s| - 1]) then StripTrailing(s[..|s| - 1]) else s
  }

  /** `String#strip`: removes the leading and then the trailing run of
      strip-space, leaving a string that begins and ends with a non-space
      character, or is empty. */
  function Strip(s: string): (r: string)
    ensures |r| <= |s|
    ensures r == [] || (!IsStripSpace(r[0]) && !IsStripSpace(r[|r| - 1]))
  {
    StripTrailing(StripLeading(s))
  }

  /** What `strip` removes is strip-space only: its result is the infix of the
      input that starts after the leading run and ends before the trailing
      run. */
  lemma StripIsPaddedInfix(s: string) returns (i: nat)
    ensures i + |Strip(s)| <= |s| && Strip(s) == s[i..i + |Strip(s)|]
    ensures AllStripSpace(s[..i]) && AllStripSpace(s[i + |Strip(s)|..])
  {
    var l := StripLeading(s);
    var r := StripTrailing(l);
    i := |s| - |l|;
    assert s[i..i + |r|] == r;
    assert s[i + |r|..] == l[|r|..];
  }

  lemma {:induction false} StripLeadingPadded(pad: string, s: string)
    requires AllStripSpace(pad)
    requires s == [] || !IsStripSpace(s[0])
    ensures StripLeading(pad + s) == s
    decreases |pad|
  {
    if pad != [] {
      assert (pad + s)[1..] == pad[1..] + s;
      StripLeadingPadded(pad[1..], s);
    } else {
      assert pad + s == s;
    }
  }

  lemma {:induction false} StripTrailingPadded(s: string, pad: string)
    requires AllStripSpace(pad)
    requires s == [] || !IsStripSpace(s[|s| - 1])
    ensures StripTrailing(s + pad) == s
    decreases |pad|
  {
    if pad != [] {
      var shorter := pad[..|pad| - 1];
      assert (s + pad)[..|s + pad| - 1] == s + shorter;
      StripTrailingPadded(s, shorter);
    } else {
      assert s + pad == s;
    }
  }

  /** Round trip: surrounding a trimmed string with any strip-space and
      stripping it again gives back exactly that string. */
  lemma StripRecoversCore(before: string, core: string, after: string)
    requires AllStripSpace(before) && AllStripSpace(after)
    requires core == [] || (!IsStripSpace(core[0]) && !IsStripSpace(core[|core| - 1]))
    ensures Strip(before + core + after) == core
  {
    if core == [] {
      assert before + core + after == before + after;
      StripLeadingPadded(before + after, []);
      assert before + after + [] == before + after;
    } else {
      assert before + core + after == before + (core + after);
      StripLeadingPadded(before, core + after);
      StripTrailingPadded(core, after);
    }
  }

  /** `strip` yields the empty string exactly when the input is all
      strip-space (in particular when it is empty). */
  lemma StripEmptyIffAllSpace(s: string)
    ensures Strip(s) == [] <==> AllStripSpace(s)
  {
    if AllStripSpace(s) {
      StripRecoversCore(s, [], []);
      assert s + [] + [] == s;
    }
  }

  /** Stripping twice is the same as stripping once. */
  lemma StripIdempotent(s: string)
    ensures Strip(Strip(s)) == Strip(s)
  {
    var r := Strip(s);
    StripRecoversCore([], r, []);
    assert [] + r + [] == r;
  }

  // ---------------------------------------------------------------------------
  // chomp
  // ---------------------------------------------------------------------------

  /** `String#chomp` with the default record separator: removes one trailing
      line terminator, which is "\r\n", "\n" or "\r", preferring "\r\n". */
  function Chomp(s: string): (r: string)
    ensures |r| <= |s| && r == s[..|r|]
    ensures s[|r|..] == "" || s[|r|..] == "\n" || s[|r|..] == "\r" || s[|r|..] == "\r\n"
    ensures |r| == |s| <==> (|s| == 0 || (s[|s| - 1] != '\n' && s[|s| - 1] != '\r'))
    ensures |s| >= 2 && s[|s| - 2] == '\r' && s[|s| - 1] == '\n' ==> |r| == |s| - 2
  {
    if |s| >= 2 && s[|s| - 2] == '\r' && s[|s| - 1] == '\n' then s[..|s| - 2]
    else if |s| >= 1 && (s[|s| - 1] == '\n' || s[|s| - 1] == '\r') then s[..|s| - 1]
    else s
  }

  /** Round trip: a line that does not itself end in a terminator, followed by
      any single terminator (or none), chomps back to that line. */
  lemma ChompRecoversLine(line: string, terminator: string)
    requires line == [] || (line[|line| - 1] != '\n' && line[|line| - 1] != '\r')
    requires terminator == "" || terminator == "\n" || terminator == "\r" || terminator == "\r\n"
    ensures Chomp(line + terminator) == line
  {
    var s := line + terminator;
    assert s[..|line|] == line;
    if terminator == "\r\n" {
      assert s[|s| - 2] == '\r' && s[|s| - 1] == '\n';
    } else if terminator == "\n" || terminator == "\r" {
      assert s[|s| - 1] == terminator[0];
    } else {
      assert s == line;
    }
  }

  // ---------------------------------------------------------------------------
  // downcase
  // ---------------------------------------------------------------------------

  /** Lower-cases one character: A-Z map to a-z, everything else is kept. */
  function LowerChar(c: char): (d: char)
    ensures d == 'y' <==> c == 'y' || c == 'Y'
    ensures d == 'e' <==> c == 'e' || c == 'E'
    ensures d == 's' <==> c == 's' || c == 'S'
    ensures 'a' <= d <= 'z' <==> 'a' <= c <= 'z' || 'A' <= c <= 'Z'
  {
    if 'A' <= c <= 'Z' then (c as int + 32) as char else c
  }

  /** `String#downcase`, character by character. */
  function Downcase(s: string): (r: string)
    ensures |r| == |s|
    ensures forall i :: 0 <= i < |s| ==> r[i] == LowerChar(s[i])
  {
    if s == [] then [] else [LowerChar(s[0])] + Downcase(s[1..])
  }
}
