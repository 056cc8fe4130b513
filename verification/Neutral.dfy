/**
 Breaking the phrase of the index delimiters inside stored text: the replacement leaves no
 occurrence of the phrase, makes none across its own edges, and keeps the lines.
 */
module Neutral {
  import opened PyText
  import opened TextSearch

  const PHRASE := "memriver index"
  const BROKEN := "memriver-index"

  /** `index.replace("memriver index", "memriver-index")`. */
  function Neutralized(s: string): string {
    if s == "" then ""
    else if PHRASE <= s then BROKEN + Neutralized(s[14..])
    else [s[0]] + Neutralized(s[1..])
  }

  predicate Free(s: string) { forall i :: 0 <= i <= |s| ==> !OccursAt(s, PHRASE, i) }

  lemma PhraseShape()
    ensures |PHRASE| == 14 && |BROKEN| == 14
    ensures PHRASE[0] == 'm' && PHRASE[1] == 'e' && PHRASE[8] == ' '
    ensures forall k :: 0 < k < 14 && PHRASE[k] == 'm' ==> k == 2
    ensures PHRASE[3] == 'r' && BROKEN[0] == 'm' && BROKEN[1] == 'e' && BROKEN[13] == 'x'
    ensures forall k :: 0 <= k < 8 ==> PHRASE[k] != 'x'
    ensures forall k :: 0 <= k < 14 ==> BROKEN[k] != ' ' && PHRASE[k] != '\n' && BROKEN[k] != '\n'
  {
  }

  lemma Differs(p: string, n: string, i: nat)
    requires i < |p| && i < |n| && p[i] != n[i]
    ensures !(p <= n)
  {
  }

  /** What was replaced does not read like the end of the phrase. */
  lemma BrokenIsNoTail(rest: string, k: nat)
    requires 0 < k < 14
    ensures !(PHRASE[k..] <= BROKEN + rest)
  {
    PhraseShape();
    var n := BROKEN + rest;
    assert n[0] == 'm' && n[1] == 'e' && PHRASE[k..][0] == PHRASE[k];
    if k == 2 {
      assert PHRASE[k..][1] == PHRASE[3];
      Differs(PHRASE[k..], n, 1);
    } else {
      Differs(PHRASE[k..], n, 0);
    }
  }

  /** Where the result reads like the end of the phrase, so did the text. */
  lemma {:induction false} TailWasThere(t: string, k: nat)
    requires 0 < k <= 14 && PHRASE[k..] <= Neutralized(t)
    ensures PHRASE[k..] <= t
    decreases |t|
  {
    PhraseShape();
    if k < 14 {
      var n := Neutralized(t);
      if PHRASE <= t { BrokenIsNoTail(Neutralized(t[14..]), k); }
      assert n[0] == PHRASE[k..][0] == PHRASE[k];
      assert PHRASE[k..] == [PHRASE[k]] + PHRASE[k + 1..];
      assert n[1..] == Neutralized(t[1..]) && PHRASE[k + 1..] <= n[1..];
      TailWasThere(t[1..], k + 1);
      assert t == [t[0]] + t[1..];
    }
  }

  lemma HeadWasThere(s: string)
    requires s != "" && OccursAt([s[0]] + Neutralized(s[1..]), PHRASE, 0)
    ensures PHRASE <= s
  {
    PhraseShape();
    var rest := Neutralized(s[1..]);
    assert PHRASE == ([s[0]] + rest)[0..14];
    assert PHRASE[1..] == rest[..13] && s[0] == PHRASE[0];
    TailWasThere(s[1..], 1);
    assert s == [s[0]] + s[1..] && PHRASE == [PHRASE[0]] + PHRASE[1..];
  }

  /** No occurrence is left, and none has arisen. */
  lemma {:induction false} NeutralizedIsFree(s: string)
    ensures Free(Neutralized(s))
    decreases |s|
  {
    PhraseShape();
    if s == "" {
    } else if PHRASE <= s {
      NeutralizedIsFree(s[14..]);
      BrokenInFront(Neutralized(s[14..]));
    } else {
      NeutralizedIsFree(s[1..]);
      LaterOccurs(s[0], Neutralized(s[1..]));
      if OccursAt([s[0]] + Neutralized(s[1..]), PHRASE, 0) { HeadWasThere(s); }
    }
  }

  lemma LaterOccurs(c: char, rest: string)
    requires Free(rest)
    ensures forall i :: 0 < i <= |rest| + 1 ==> !OccursAt([c] + rest, PHRASE, i)
  {
    forall i | 0 < i <= |rest| + 1 ensures !OccursAt([c] + rest, PHRASE, i) {
      if OccursAt([c] + rest, PHRASE, i) {
        assert ([c] + rest)[i..i + 14] == rest[i - 1..i + 13];
        assert OccursAt(rest, PHRASE, i - 1);
      }
    }
  }

  lemma BrokenInFront(rest: string)
    requires Free(rest)
    ensures Free(BROKEN + rest)
  {
    PhraseShape();
    var s := BROKEN + rest;
    forall i | 0 <= i <= |s| ensures !OccursAt(s, PHRASE, i) {
      if OccursAt(s, PHRASE, i) { BrokenOccurs(rest, i); }
    }
  }

  lemma BrokenOccurs(rest: string, i: nat)
    requires Free(rest)
    ensures !OccursAt(BROKEN + rest, PHRASE, i)
  {
    PhraseShape();
    var s := BROKEN + rest;
    assert i < 6 ==> s[i + 8] == BROKEN[i + 8] != PHRASE[8];
    assert 6 <= i < 14 ==> s[13] == BROKEN[13] != PHRASE[13 - i];
    if OccursAt(s, PHRASE, i) {
      CharsOf(s, PHRASE, i);
      assert i >= 14 ==> s[i..i + 14] == rest[i - 14..i];
      assert i >= 14 ==> OccursAt(rest, PHRASE, i - 14);
    }
  }

  // ---- lines --------------------------------------------------------------------------

  function EachNeutralized(lines: seq<string>): (r: seq<string>)
    ensures |r| == |lines| && forall i :: 0 <= i < |r| ==> r[i] == Neutralized(lines[i])
  {
    if lines == [] then [] else [Neutralized(lines[0])] + EachNeutralized(lines[1..])
  }

  lemma NeutralizedLine(s: string)
    requires OneLine(s)
    ensures OneLine(Neutralized(s))
    decreases |s|
  {
    PhraseShape();
    if s != "" {
      if PHRASE <= s { NeutralizedLine(s[14..]); } else { NeutralizedLine(s[1..]); }
    }
  }

  /** The phrase holds no newline, so a newline separates what is replaced. */
  lemma NeutralizedAcross(a: string, b: string)
    ensures Neutralized(a + ("\n" + b)) == Neutralized(a) + ("\n" + Neutralized(b))
    decreases |a|
  {
    PhraseShape();
    var t := a + ("\n" + b);
    if a == "" {
      assert t == "\n" + b && t[0] != PHRASE[0] && t[1..] == b;
      assert Neutralized(t) == "\n" + Neutralized(b);
    } else if PHRASE <= a {
      assert t[14..] == a[14..] + ("\n" + b);
      NeutralizedAcross(a[14..], b);
      assert BROKEN + (Neutralized(a[14..]) + ("\n" + Neutralized(b))) == (BROKEN + Neutralized(a[14..])) + ("\n" + Neutralized(b));
    } else {
      NotAcross(a, b);
      assert t[1..] == a[1..] + ("\n" + b);
      NeutralizedAcross(a[1..], b);
    }
  }

  lemma NotAcross(a: string, b: string)
    requires !(PHRASE <= a)
    ensures !(PHRASE <= a + ("\n" + b))
  {
    PhraseShape();
    var t := a + ("\n" + b);
    if |a| < 14 {
      assert t[|a|] == '\n';
      Differs(PHRASE, t, |a|);
    } else {
      assert t[..14] == a[..14];
    }
  }

  lemma {:induction false} NeutralizedJoined(lines: seq<string>)
    ensures Neutralized(Joined(lines)) == Joined(EachNeutralized(lines))
  {
    if |lines| > 1 {
      NeutralizedAcross(lines[0], Joined(lines[1..]));
      NeutralizedJoined(lines[1..]);
      assert EachNeutralized(lines)[1..] == EachNeutralized(lines[1..]);
    }
  }

  /** The replacement is of the space in each occurrence of the phrase, and of nothing else. */
  lemma {:induction false} NeutralizedAt(s: string)
    ensures |Neutralized(s)| == |s|
    ensures forall i :: 0 <= i < |s| ==> Neutralized(s)[i] == if i >= 8 && OccursAt(s, PHRASE, i - 8) then '-' else s[i]
    decreases |s|
  {
    PhraseShape();
    if s != "" {
      if PHRASE <= s {
        var rest := s[14..];
        NeutralizedAt(rest);
        assert s[0..14] == PHRASE && OccursAt(s, PHRASE, 0);
        forall j | 0 < j < 14 ensures !OccursAt(s, PHRASE, j) { NoOverlap(s, j); }
        forall j ensures j >= 14 && OccursAt(s, PHRASE, j) <==> OccursAt(rest, PHRASE, j - 14) { FurtherOn(s, 14, j); }
        BrokenAt();
        assert forall i :: 0 <= i < 14 ==> s[i] == PHRASE[i];
        assert forall i :: 0 <= i < 14 ==> Neutralized(s)[i] == BROKEN[i];
      } else {
        var rest := s[1..];
        NeutralizedAt(rest);
        AtFront(s);
        forall j ensures j >= 1 && OccursAt(s, PHRASE, j) <==> OccursAt(rest, PHRASE, j - 1) { FurtherOn(s, 1, j); }
      }
    }
  }

  lemma AtFront(s: string)
    ensures OccursAt(s, PHRASE, 0) <==> PHRASE <= s
  {
    if |s| >= 14 { assert s[0..14] == s[..14]; }
  }

  lemma NoOverlap(s: string, j: int)
    requires PHRASE <= s && 0 <= j < 14
    ensures OccursAt(s, PHRASE, j) ==> j == 0
  {
    PhraseShape();
    assert s[..14] == PHRASE && s[..14][j] == s[j] && s[..14][3] == s[3];
    if OccursAt(s, PHRASE, j) { assert s[j..j + 14][0] == s[j] && s[j..j + 14][1] == s[j + 1]; }
  }

  lemma FurtherOn(s: string, n: nat, j: int)
    requires n <= |s|
    ensures OccursAt(s[n..], PHRASE, j - n) <==> j >= n && OccursAt(s, PHRASE, j)
  {
    if j >= n && j + 14 <= |s| { assert s[n..][j - n..j - n + 14] == s[j..j + 14]; }
  }

  lemma BrokenAt()
    ensures forall i :: 0 <= i < 14 ==> BROKEN[i] == if i == 8 then '-' else PHRASE[i]
  {
  }
}
