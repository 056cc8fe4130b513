/** The parts of Python's `str` several modules need. */
module PyText {

  /** What `str.strip()` removes and `str.isspace()` accepts. */
  predicate IsPySpace(c: char) {
    var u := c as int;
    || 9 <= u <= 13 || 28 <= u <= 32 || u == 0x85 || u == 0xA0 || u == 0x1680
    || 0x2000 <= u <= 0x200A || u == 0x2028 || u == 0x2029 || u == 0x202F || u == 0x205F || u == 0x3000
  }

  predicate Blank(s: string) { forall i :: 0 <= i < |s| ==> IsPySpace(s[i]) }

  function StripLeft(s: string): (r: string)
    ensures r == "" || !IsPySpace(r[0])
    ensures |r| <= |s| && r == s[|s| - |r|..]
  {
    if s != "" && IsPySpace(s[0]) then StripLeft(s[1..]) else s
  }

  function StripRight(s: string): (r: string)
    ensures r == "" || !IsPySpace(r[|r| - 1])
    ensures |r| <= |s| && r == s[..|r|]
  {
    if s != "" && IsPySpace(s[|s| - 1]) then StripRight(s[..|s| - 1]) else s
  }

  /** `str.strip()`. */
  function Strip(s: string): string { StripRight(StripLeft(s)) }

  lemma {:induction false} LeftBlank(s: string)
    ensures Blank(s[..|s| - |StripLeft(s)|])
  {
    if s != "" && IsPySpace(s[0]) {
      LeftBlank(s[1..]);
      assert forall i :: 0 < i < |s| ==> s[i] == s[1..][i - 1];
    }
  }

  lemma {:induction false} RightBlank(s: string)
    ensures Blank(s[|StripRight(s)|..])
  {
    if s != "" && IsPySpace(s[|s| - 1]) { RightBlank(s[..|s| - 1]); }
  }

  lemma StripEdges(s: string)
    ensures Strip(s) == "" || (!IsPySpace(Strip(s)[0]) && !IsPySpace(Strip(s)[|Strip(s)| - 1]))
  {
  }

  lemma ThreeParts(s: string, rest: string, mid: string)
    requires |mid| <= |rest| <= |s| && rest == s[|s| - |rest|..] && mid == rest[..|mid|]
    ensures s == s[..|s| - |rest|] + mid + rest[|mid|..]
  {
  }

  /** White space at both ends goes, and nothing else. */
  lemma StripBetween(s: string) returns (left: string, right: string)
    ensures s == left + Strip(s) + right && Blank(left) && Blank(right)
    ensures Strip(s) == "" || (!IsPySpace(Strip(s)[0]) && !IsPySpace(Strip(s)[|Strip(s)| - 1]))
  {
    hide Blank, IsPySpace;
    var rest := StripLeft(s);
    LeftBlank(s);
    RightBlank(rest);
    StripEdges(s);
    ThreeParts(s, rest, StripRight(rest));
    left, right := s[..|s| - |rest|], rest[|StripRight(rest)|..];
  }

  lemma StripTwice(s: string)
    ensures Strip(Strip(s)) == Strip(s)
  {
    var r := Strip(s);
    if r != "" { assert r[0] == StripLeft(s)[0]; }
  }

  /** `"\n".join`. */
  function Joined(pieces: seq<string>): string {
    if pieces == [] then "" else if |pieces| == 1 then pieces[0] else pieces[0] + ("\n" + Joined(pieces[1..]))
  }

  /** `split("\n")`; `line` is what has been read of the first line. */
  function SplitFrom(s: string, line: string): (r: seq<string>)
    ensures r != []
  {
    if s == "" then [line]
    else if s[0] == '\n' then [line] + SplitFrom(s[1..], "")
    else SplitFrom(s[1..], line + [s[0]])
  }

  function Split(s: string): seq<string> { SplitFrom(s, "") }

  predicate OneLine(s: string) { forall i :: 0 <= i < |s| ==> s[i] != '\n' }

  lemma JoinedFront(first: string, rest: seq<string>)
    ensures Joined([first] + rest) == if rest == [] then first else first + ("\n" + Joined(rest))
  {
    assert ([first] + rest)[1..] == rest;
  }

  /** Splitting and joining undo each other. */
  lemma {:induction false} SplitJoins(s: string, line: string)
    ensures Joined(SplitFrom(s, line)) == line + s
    decreases |s|
  {
    if s == "" {
      assert line + s == line;
    } else if s[0] == '\n' {
      SplitJoins(s[1..], "");
      JoinedFront(line, SplitFrom(s[1..], ""));
      hide Joined;
      hide SplitFrom;
      assert "" + s[1..] == s[1..] && "\n" + s[1..] == s;
    } else {
      SplitJoins(s[1..], line + [s[0]]);
      hide Joined;
      assert (line + [s[0]]) + s[1..] == line + s;
    }
  }

  lemma {:induction false} SplitLines(s: string, line: string)
    requires OneLine(line)
    ensures forall l :: l in SplitFrom(s, line) ==> OneLine(l)
    decreases |s|
  {
    if s != "" { SplitLines(s[1..], if s[0] == '\n' then "" else line + [s[0]]); }
  }

  lemma {:induction false} JoinSplits(lines: seq<string>)
    requires lines != [] && forall l :: l in lines ==> OneLine(l)
    ensures Split(Joined(lines)) == lines
  {
    var first, rest := lines[0], lines[1..];
    assert lines == [first] + rest;
    if rest == [] {
      SplitLine(first, "", "");
      assert first + "" == first && "" + first == first;
    } else {
      JoinSplits(rest);
      SplitLine(first, "\n" + Joined(rest), "");
      assert "" + first == first && ("\n" + Joined(rest))[1..] == Joined(rest);
    }
  }

  lemma SplitLine(a: string, b: string, line: string)
    requires OneLine(a)
    ensures SplitFrom(a + b, line) == SplitFrom(b, line + a)
  {
    if a == "" {
      assert a + b == b && line + a == line;
    } else {
      assert (a + b)[1..] == a[1..] + b && (line + [a[0]]) + a[1..] == line + a;
      SplitLine(a[1..], b, line + [a[0]]);
    }
  }
}
