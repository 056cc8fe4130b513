/**
 A maintenance run's report: lines appended one by one, a change in two parts with the change
 itself between them. Any append may fail, and the process may die before any of them.
 */
module DreamReport {
  import opened Basics
  import opened PyText

  const APPLYING := "applying "
  const CREATES := " (creates a memory)"
  const CREATED_NOTE := "; a created memory, if any, is" + " not listed — see memriver list"
  const INTERRUPTED := "run interrupted; later sections unknown"
  const NOT_RECORDED := "the run could not be recorded" + " as completed; its record says failed"
  const NOT_UPDATED := "the run could not be recorded" + " as completed, and its record could not be updated either (it may still read running)"

  // ---- the text of a line ----

  predicate LineUnsafe(c: char) {
    var u := c as int;
    u <= 0x1f || 0x7f <= u <= 0x9f || u == 0x2028 || u == 0x2029
  }

  predicate Gap(c: char) { IsPySpace(c) || LineUnsafe(c) }

  function Spaced(words: seq<string>): string {
    if words == [] then "" else if |words| == 1 then words[0] else words[0] + (" " + Spaced(words[1..]))
  }

  /** `split()` once line-unsafe characters read as spaces; `word` is what has been read of the first word. */
  function WordsFrom(s: string, word: string): seq<string> {
    if s == "" then (if word == "" then [] else [word])
    else if Gap(s[0]) then (if word == "" then [] else [word]) + WordsFrom(s[1..], "")
    else WordsFrom(s[1..], word + [s[0]])
  }

  function Words(s: string): seq<string> { WordsFrom(s, "") }

  function SingleLine(s: string): string { Spaced(Words(s)) }

  function Lead(s: string): (r: string)
    ensures |r| <= |s| && OneLine(r)
  {
    if s != "" && s[0] == ' ' then " " + Lead(s[1..]) else ""
  }

  /** `_line_safe`: the leading spaces are kept. */
  function LineSafe(s: string): string { Lead(s) + SingleLine(s[|Lead(s)|..]) }

  predicate IsWord(w: string) { w != "" && forall i :: 0 <= i < |w| ==> !Gap(w[i]) }

  lemma {:induction false} WordsAreWords(s: string, word: string)
    requires word == "" || IsWord(word)
    ensures forall w :: w in WordsFrom(s, word) ==> IsWord(w)
    decreases |s|
  {
    if s != "" { WordsAreWords(s[1..], if Gap(s[0]) then "" else word + [s[0]]); }
  }

  /** Nothing in a text can end its line or steer a terminal. */
  predicate Clean(s: string) { forall i :: 0 <= i < |s| ==> !LineUnsafe(s[i]) }

  lemma {:induction false} SpacedIsOneLine(words: seq<string>)
    requires forall w :: w in words ==> IsWord(w)
    ensures OneLine(Spaced(words)) && Clean(Spaced(words))
  {
    assert LineUnsafe('\n');
    if words != [] { assert IsWord(words[0]) && OneLine(words[0]); }
    if |words| > 1 { SpacedIsOneLine(words[1..]); }
  }

  lemma {:induction false} LeadIsSpaces(s: string)
    ensures Lead(s) <= s && forall i :: 0 <= i < |Lead(s)| ==> Lead(s)[i] == ' '
    ensures |Lead(s)| < |s| ==> s[|Lead(s)|] != ' '
  {
    if s != "" && s[0] == ' ' {
      LeadIsSpaces(s[1..]);
      assert s == " " + s[1..];
    }
  }

  lemma {:induction false} SpacesFirst(lead: string, s: string)
    requires forall i :: 0 <= i < |lead| ==> lead[i] == ' '
    ensures Words(lead + s) == Words(s)
  {
    if lead == "" {
      assert lead + s == s;
    } else {
      assert (lead + s)[1..] == lead[1..] + s && Gap(' ');
      SpacesFirst(lead[1..], s);
    }
  }

  /** No text, whoever wrote it, breaks the report's lines; its words all stay, behind the spaces it began with. */
  lemma SafeIsOneLine(s: string)
    ensures OneLine(SingleLine(s)) && OneLine(LineSafe(s)) && Clean(SingleLine(s)) && Clean(LineSafe(s))
    ensures Words(SingleLine(s)) == Words(s) && Words(LineSafe(s)) == Words(s)
    ensures LineSafe(s) == Lead(s) + SingleLine(s) && Lead(s) <= s
  {
    WordsAreWords(s, "");
    SpacedIsOneLine(Words(s));
    SpacedReadsBack(Words(s));
    var rest := s[|Lead(s)|..];
    LeadIsSpaces(s);
    SpacesFirst(Lead(s), rest);
    assert s == Lead(s) + rest;
    SpacesFirst(Lead(s), SingleLine(s));
  }

  lemma {:induction false} WordThenGap(a: string, gap: char, rest: string, word: string)
    requires a == "" || IsWord(a)
    requires word + a != "" && Gap(gap)
    ensures WordsFrom(a + ([gap] + rest), word) == [word + a] + Words(rest)
    ensures WordsFrom(a, word) == [word + a]
    decreases |a|
  {
    var t := a + ([gap] + rest);
    if a == "" {
      assert t[0] == gap && t[1..] == rest && word + a == word;
    } else {
      assert t[0] == a[0] && t[1..] == a[1..] + ([gap] + rest) && word + [a[0]] + a[1..] == word + a;
      WordThenGap(a[1..], gap, rest, word + [a[0]]);
    }
  }

  /** The words of a text are what stands between white space and line-unsafe characters, in order. */
  lemma WordsAre(word: string, gap: char, rest: string)
    requires IsWord(word) && Gap(gap)
    ensures Words("") == [] && Words([gap] + rest) == Words(rest)
    ensures Words(word) == [word] && Words(word + ([gap] + rest)) == [word] + Words(rest)
  {
    WordThenGap(word, gap, rest, "");
    assert "" + word == word && ([gap] + rest)[1..] == rest;
  }

  /** Words put on a line are read back from it, and the line is already a single line. */
  lemma {:induction false} SpacedReadsBack(words: seq<string>)
    requires forall w :: w in words ==> IsWord(w)
    ensures Words(Spaced(words)) == words && SingleLine(Spaced(words)) == Spaced(words)
  {
    if words != [] {
      WordThenGap(words[0], ' ', Spaced(words[1..]), "");
      assert Gap(' ') && " " + Spaced(words[1..]) == [' '] + Spaced(words[1..]);
      assert "" + words[0] == words[0];
      if |words| > 1 { SpacedReadsBack(words[1..]); }
      assert words == [words[0]] + words[1..];
    }
  }

  // ---- the outcome of a change ----

  datatype Outcome = Changed(id: string) | NotApplied(reason: string) | Unknown

  predicate IsIdChar(c: char) {
    '0' <= c <= '9' || 'a' <= c <= 'h' || c == 'j' || c == 'k' || c == 'm' || c == 'n' || 'p' <= c <= 't' || 'v' <= c <= 'z'
  }

  predicate IsId(word: string) { |word| == 10 && forall i :: 0 <= i < 10 ==> IsIdChar(word[i]) }

  function Ids(words: seq<string>): seq<string> {
    if words == [] then [] else (if IsId(words[0]) then [words[0]] else []) + Ids(words[1..])
  }

  function SeeEach(ids: seq<string>): string {
    if ids == [] then ""
    else "see memriver history " + ids[0] + if |ids| == 1 then "" else "; " + SeeEach(ids[1..])
  }

  predicate EndsWith(s: string, end: string) { |end| <= |s| && s[|s| - |end|..] == end }

  /** The ids an opening names: from its third word on. */
  function NamedIds(opening: string): seq<string> {
    var words := Words(opening);
    Ids(if |words| < 2 then [] else words[2..])
  }

  function UnknownMore(opening: string): string {
    var ids := NamedIds(opening);
    (if ids == [] then "" else " — " + SeeEach(ids))
    + if EndsWith(opening, CREATES) then CREATED_NOTE else ""
  }

  /** `_unknown`. */
  function UnknownText(opening: string): string { " -> outcome unknown" + UnknownMore(opening) }

  function OutcomeText(opening: string, o: Outcome): string {
    match o
    case Changed(id) => " -> change " + id + "; undo: memriver undo " + id
    case NotApplied(reason) => " -> not applied: " + reason
    case Unknown => UnknownText(opening)
  }

  /** Where the first " -> " of a line begins, or its length. */
  function Arrow(s: string): (n: nat)
    ensures n <= |s|
  {
    if s == "" || " -> " <= s then 0 else 1 + Arrow(s[1..])
  }

  /** The first part of a change line. */
  predicate Opens(opening: string) { OneLine(opening) && APPLYING <= opening && Arrow(opening + " ") == |opening| + 1 }

  function UpTo(s: string, c: char): string { if s == "" || s[0] == c then "" else [s[0]] + UpTo(s[1..], c) }

  function Meant(rest: string): Option<Outcome> {
    if " -> change " <= rest then Some(Changed(UpTo(rest[11..], ';')))
    else if " -> not applied: " <= rest then Some(NotApplied(rest[17..]))
    else if " -> outcome unknown" <= rest then Some(Unknown)
    else None
  }

  /** What a reader of the report takes a change line to say. */
  function OutcomeOf(line: string): Option<Outcome> { Meant(line[Arrow(line)..]) }

  predicate Tellable(o: Outcome) {
    match o
    case Changed(id) => IsId(id)
    case NotApplied(reason) => OneLine(reason)
    case Unknown => true
  }

  lemma {:induction false} ArrowAfter(opening: string, rest: string)
    requires Arrow(opening + " ") == |opening| + 1
    ensures Arrow(opening + (" -> " + rest)) == |opening|
    decreases |opening|
  {
    var t := opening + (" -> " + rest);
    if opening == "" {
      assert t[..4] == " -> ";
    } else {
      var o := opening + " ";
      assert o[1..] == opening[1..] + " " && t[1..] == opening[1..] + (" -> " + rest);
      ArrowAfter(opening[1..], rest);
      assert !(" -> " <= t) by {
        if |o| >= 4 {
          assert o[..4] == t[..4];
        } else {
          assert t[|opening|] == ' ' && t[|opening| + 1] == '-' && t[|opening| + 2] == '>';
          Differs(t, opening);
        }
      }
    }
  }

  lemma Differs(t: string, opening: string)
    requires 0 < |opening| < 3 && |t| >= |opening| + 3 && t[|opening|] == ' ' && t[|opening| + 1] == '-'
    ensures !(" -> " <= t)
  {
    assert " -> "[|opening|] != ' ' || |opening| == 3;
  }

  lemma {:induction false} UpToStops(s: string, c: char, rest: string)
    requires forall i :: 0 <= i < |s| ==> s[i] != c
    ensures UpTo(s + ([c] + rest), c) == s
  {
    var t := s + ([c] + rest);
    if s != "" {
      assert t[1..] == s[1..] + ([c] + rest);
      UpToStops(s[1..], c, rest);
    }
  }

  lemma IdIsPlain(id: string)
    requires IsId(id)
    ensures OneLine(id) && forall i :: 0 <= i < |id| ==> id[i] != ';'
  {
  }

  lemma StartDiffers(a: string, b: string, i: nat)
    requires i < |a| && i < |b| && a[i] != b[i]
    ensures !(a <= b)
  {
  }

  lemma ChangedIsMeant(id: string)
    requires IsId(id)
    ensures Meant(" -> change " + id + "; undo: memriver undo " + id) == Some(Changed(id))
  {
    IdIsPlain(id);
    var text := " -> change " + id + "; undo: memriver undo " + id;
    var rest := " undo: memriver undo " + id;
    assert text[..11] == " -> change ";
    assert text[11..] == id + ([';'] + rest);
    UpToStops(id, ';', rest);
  }

  lemma NotAppliedIsMeant(reason: string)
    ensures Meant(" -> not applied: " + reason) == Some(NotApplied(reason))
  {
    var text := " -> not applied: " + reason;
    assert text[..17] == " -> not applied: " && text[17..] == reason;
    StartDiffers(" -> change ", text, 4);
  }

  /** A text that stands somewhere in another. */
  ghost predicate Mentions(text: string, part: string) { exists a, b :: text == a + (part + b) }

  lemma MentionsMore(left: string, text: string, right: string, part: string)
    requires Mentions(text, part)
    ensures Mentions(left + (text + right), part)
  {
    var a, b :| text == a + (part + b);
    assert left + (text + right) == (left + a) + (part + (b + right));
  }

  lemma {:induction false} SeesEach(ids: seq<string>, i: nat)
    requires i < |ids|
    ensures Mentions(SeeEach(ids), "see memriver history " + ids[i])
  {
    var first := "see memriver history " + ids[0];
    var rest := if |ids| == 1 then "" else "; " + SeeEach(ids[1..]);
    assert SeeEach(ids) == first + rest;
    if i == 0 {
      assert SeeEach(ids) == "" + (first + rest);
    } else {
      SeesEach(ids[1..], i - 1);
      MentionsMore(first + "; ", SeeEach(ids[1..]), "", "see memriver history " + ids[i]);
      assert SeeEach(ids) == (first + "; ") + (SeeEach(ids[1..]) + "");
    }
  }

  lemma UnknownIs(opening: string, items: seq<string>)
    requires NamedIds(opening) == items
    ensures var see, note := if items == [] then "" else " — " + SeeEach(items), if EndsWith(opening, CREATES) then CREATED_NOTE else "";
            UnknownText(opening) == " -> outcome unknown" + (see + note)
  {
    hide NamedIds, SeeEach, EndsWith;
  }

  lemma SeesAll(start: string, items: seq<string>, end: string)
    ensures forall i :: i in items ==> Mentions(start + (SeeEach(items) + end), "see memriver history " + i)
  {
    hide SeeEach, Mentions;
    forall id | id in items ensures Mentions(start + (SeeEach(items) + end), "see memriver history " + id) {
      var i :| 0 <= i < |items| && items[i] == id;
      SeesEach(items, i);
      MentionsMore(start, SeeEach(items), end, "see memriver history " + id);
    }
  }

  lemma NoteEnds(start: string, see: string, note: string)
    ensures EndsWith(start + (see + note), note)
    ensures see == "" && note == "" ==> start + (see + note) == start
    ensures forall sign, rest :: see == sign + rest ==> start + (see + note) == (start + sign) + (rest + note)
  {
    var t := start + (see + note);
    assert t == (start + see) + note;
  }

  /** A change whose outcome is unknown says where to look: at every memory it touches, and for one it may have made. */
  lemma UnknownSays(kind: string, items: seq<string>, creates: bool)
    requires IsKind(kind) && forall i :: i in items ==> IsId(i)
    ensures var text := UnknownText(ApplyingText(kind, items, creates));
            && (forall i :: i in items ==> Mentions(text, "see memriver history " + i))
            && (creates ==> EndsWith(text, CREATED_NOTE))
            && (items == [] && !creates ==> text == " -> outcome unknown")
  {
    var opening := ApplyingText(kind, items, creates);
    ApplyingOpens(kind, items, creates);
    CreatesEnds(kind, items, creates);
    UnknownIs(opening, items);
    hide *;
    NoteEnds(" -> outcome unknown", if items == [] then "" else " — " + SeeEach(items), if creates then CREATED_NOTE else "");
    SeesAll(" -> outcome unknown" + " — ", items, if creates then CREATED_NOTE else "");
  }

  lemma CreatesEnds(kind: string, items: seq<string>, creates: bool)
    requires IsKind(kind) && forall i :: i in items ==> IsId(i)
    ensures EndsWith(ApplyingText(kind, items, creates), CREATES) <==> creates
  {
    if !creates {
      var opening, words := ApplyingText(kind, items, creates), OpeningWords(kind, items, creates);
      OpeningWordsAreWords(kind, items, creates);
      ApplyingIsSpaced(kind, items, creates);
      SpacedEnd(words);
      if items == [] {
        assert words == ["applying", kind] && opening == "applying" + (" " + kind);
        KindEnds(kind);
      } else {
        assert words[|words| - 1] == items[|items| - 1] && IsId(items[|items| - 1]);
        assert !IsIdChar(CREATES[|CREATES| - 1]);
      }
    }
  }

  lemma {:induction false} SpacedEnd(words: seq<string>)
    requires words != [] && forall w :: w in words ==> IsWord(w)
    ensures var (s, w) := (Spaced(words), words[|words| - 1]); s != "" && w != "" && s[|s| - 1] == w[|w| - 1]
  {
    assert words[|words| - 1] in words;
    if |words| > 1 { SpacedEnd(words[1..]); }
  }

  /** The last word of such a line is the kind, and the one before it is no part of a note. */
  lemma KindEnds(kind: string)
    requires IsWord(kind)
    ensures !EndsWith("applying" + (" " + kind), CREATES)
  {
    var s := "applying" + (" " + kind);
    assert Gap(' ') && CREATES[9] == ' ';
    if |s| >= |CREATES| {
      var i := |s| - |CREATES|;
      assert s[i..][9] == s[i + 9] == kind[i];
    }
  }

  lemma UnknownIsMeant(more: string)
    ensures Meant(" -> outcome unknown" + more) == Some(Unknown)
  {
    var text := " -> outcome unknown" + more;
    assert text[..19] == " -> outcome unknown";
    StartDiffers(" -> change ", text, 4);
    StartDiffers(" -> not applied: ", text, 4);
  }

  lemma TextIsMeant(opening: string, o: Outcome)
    requires Tellable(o)
    ensures Meant(OutcomeText(opening, o)) == Some(o) && " -> " <= OutcomeText(opening, o)
  {
    match o
    case Changed(id) => ChangedIsMeant(id);
    case NotApplied(reason) => NotAppliedIsMeant(reason);
    case Unknown =>
      hide NamedIds, Meant;
      var more := UnknownMore(opening);
      assert UnknownText(opening) == " -> outcome unknown" + more;
      UnknownIsMeant(more);
  }

  /** A change line is read as it was meant, whatever a reason says. */
  lemma OutcomeReadsBack(opening: string, o: Outcome)
    requires Opens(opening) && Tellable(o)
    ensures var line := opening + OutcomeText(opening, o);
            OutcomeOf(line) == Some(o) && line[..Arrow(line)] == opening
  {
    TextIsMeant(opening, o);
    hide OutcomeText, Tellable, Arrow, Meant;
    var text := OutcomeText(opening, o);
    assert text == " -> " + text[4..];
    ArrowAfter(opening, text[4..]);
    var line := opening + text;
    assert line[|opening|..] == text && line[..|opening|] == opening;
  }

  // ---- the first part of a change line ----

  const CREATES_WORDS := ["(creates", "a", "memory)"]

  function ApplyingText(kind: string, items: seq<string>, creates: bool): string {
    SingleLine(Spaced(["applying", kind] + items)) + if creates then CREATES else ""
  }

  predicate IsKind(kind: string) { IsWord(kind) && kind != "->" }

  lemma {:induction false} SpacedMore(a: seq<string>, b: seq<string>)
    requires a != [] && b != []
    ensures Spaced(a + b) == Spaced(a) + (" " + Spaced(b))
  {
    assert (a + b)[0] == a[0] && (a + b)[1..] == a[1..] + b;
    if |a| > 1 {
      SpacedMore(a[1..], b);
      assert Spaced(a + b) == a[0] + (" " + (Spaced(a[1..]) + (" " + Spaced(b))));
      assert Spaced(a) == a[0] + (" " + Spaced(a[1..]));
    } else {
      assert a[1..] + b == b;
    }
  }

  lemma {:induction false} WordSkips(w: string, rest: string)
    requires w == "" || IsWord(w)
    ensures Arrow(w + rest) == |w| + Arrow(rest)
  {
    if w == "" {
      assert w + rest == rest;
    } else {
      var t := w + rest;
      assert t[0] == w[0] && t[1..] == w[1..] + rest && Gap(' ');
      WordSkips(w[1..], rest);
    }
  }

  lemma {:induction false} WordsHaveNoArrow(words: seq<string>)
    requires words != [] && forall w :: w in words ==> IsWord(w) && w != "->"
    ensures Arrow(Spaced(words) + " ") == |Spaced(words)| + 1
  {
    var w := words[0];
    if |words| == 1 {
      WordSkips(w, " ");
      assert Arrow(" ") == 1 + Arrow(" "[1..]);
    } else {
      var rest := Spaced(words[1..]) + " ";
      WordsHaveNoArrow(words[1..]);
      assert Spaced(words) + " " == w + (" " + rest);
      WordSkips(w, " " + rest);
      NextIsNoArrow(words[1], rest);
      assert (" " + rest)[1..] == rest;
    }
  }

  lemma NextIsNoArrow(w: string, rest: string)
    requires IsWord(w) && w != "->" && |rest| > |w| && rest[..|w|] == w && rest[|w|] == ' '
    ensures !(" -> " <= " " + rest)
  {
    var t := " " + rest;
    assert Gap(' ') && t[1] == rest[0] == w[0] && t[2] == rest[1];
    if |w| == 1 {
      StartDiffers(" -> ", t, 2);
    } else if |w| == 2 {
      assert t[2] == w[1];
      assert w == [w[0], w[1]];
      StartDiffers(" -> ", t, if w[0] != '-' then 1 else 2);
    } else {
      assert t[3] == rest[2] == w[2] && !Gap(w[2]);
      StartDiffers(" -> ", t, 3);
    }
  }

  lemma {:induction false} IdsOfIds(items: seq<string>, more: seq<string>)
    requires forall i :: i in items ==> IsId(i)
    requires forall w :: w in more ==> !IsId(w)
    ensures Ids(items + more) == items
  {
    if items == [] {
      assert items + more == more;
      NoIds(more);
    } else {
      assert (items + more)[1..] == items[1..] + more;
      IdsOfIds(items[1..], more);
    }
  }

  lemma {:induction false} NoIds(words: seq<string>)
    requires forall w :: w in words ==> !IsId(w)
    ensures Ids(words) == []
  {
    if words != [] { NoIds(words[1..]); }
  }

  lemma IdIsWord(id: string)
    requires IsId(id)
    ensures IsWord(id) && id != "->"
  {
    assert forall i :: 0 <= i < |id| ==> IsIdChar(id[i]) && !Gap(id[i]);
  }

  function OpeningWords(kind: string, items: seq<string>, creates: bool): seq<string> {
    ["applying", kind] + items + if creates then CREATES_WORDS else []
  }

  /** The first part can be told from its outcome, and names the memories the change touches. */
  lemma ApplyingOpens(kind: string, items: seq<string>, creates: bool)
    requires IsKind(kind) && forall i :: i in items ==> IsId(i)
    ensures var opening := ApplyingText(kind, items, creates);
            Opens(opening) && NamedIds(opening) == items && Words(opening) == OpeningWords(kind, items, creates)
  {
    var opening, words := ApplyingText(kind, items, creates), OpeningWords(kind, items, creates);
    OpeningWordsAreWords(kind, items, creates);
    ApplyingIsSpaced(kind, items, creates);
    SpacedReadsBack(words);
    SpacedIsOneLine(words);
    WordsHaveNoArrow(words);
    assert words[2..] == items + if creates then CREATES_WORDS else [];
    IdsOfIds(items, if creates then CREATES_WORDS else []);
    assert words == ["applying"] + words[1..];
    SpacedMore(["applying"], words[1..]);
  }

  lemma OpeningWordsAreWords(kind: string, items: seq<string>, creates: bool)
    requires IsKind(kind) && forall i :: i in items ==> IsId(i)
    ensures forall w :: w in OpeningWords(kind, items, creates) ==> IsWord(w) && w != "->"
  {
    forall i | i in items ensures IsWord(i) && i != "->" { IdIsWord(i); }
    assert IsWord("applying") && IsWord("(creates") && IsWord("a") && IsWord("memory)");
  }

  lemma ApplyingIsSpaced(kind: string, items: seq<string>, creates: bool)
    requires IsKind(kind) && forall i :: i in items ==> IsId(i)
    ensures ApplyingText(kind, items, creates) == Spaced(OpeningWords(kind, items, creates))
  {
    var first := ["applying", kind] + items;
    OpeningWordsAreWords(kind, items, false);
    assert OpeningWords(kind, items, false) == first;
    SpacedReadsBack(first);
    if creates {
      SpacedMore(first, CREATES_WORDS);
      assert OpeningWords(kind, items, true) == first + CREATES_WORDS;
      assert " " + Spaced(CREATES_WORDS) == CREATES by {
        assert CREATES_WORDS[1..] == ["a", "memory)"] && CREATES_WORDS[1..][1..] == ["memory)"];
      }
    }
  }
}
