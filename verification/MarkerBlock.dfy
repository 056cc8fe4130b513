/**
 The marker-managed block of a text file (`marker_block`, `marker_block_remove`). The laws
 of a lens: writing then removing gives the file back, writing twice is writing once, the
 last write wins. The one exception, a carriage return at the end, is exact.
 */
module MarkerBlock {
  import opened Basics
  import opened PyText
  import opened TextSearch

  const MARKER_BEGIN := "<!-- memriver:begin -->"
  const MARKER_END := "<!-- memriver:end -->"

  datatype PlanningError = BodyHasMarkers | BrokenMarkers

  datatype Edit = Edit(rendered: string, changed: bool, takeover: bool)

  // ---- finding a marker ----------------------------------------------------------------

  /** `text.find(m, from)`. */
  function Find(text: string, m: string, from: nat): (r: Option<nat>)
    ensures r.Some? ==> from <= r.value && OccursAt(text, m, r.value)
    ensures forall j :: from <= j && (r.None? || j < r.value) ==> !OccursAt(text, m, j)
    decreases |text| - from
  {
    if from + |m| > |text| then None
    else if text[from..from + |m|] == m then Some(from)
    else Find(text, m, from + 1)
  }

  predicate Contains(text: string, m: string) { Find(text, m, 0).Some? }

  /** The non-overlapping places of a marker, left to right. */
  function Places(text: string, m: string, from: nat): seq<nat>
    requires m != ""
    decreases |text| - from
  {
    match Find(text, m, from)
    case None => []
    case Some(i) => [i] + Places(text, m, i + |m|)
  }

  /** `_positions`. */
  method Positions(text: string, m: string) returns (found: seq<nat>)
    requires m != ""
    ensures found == Places(text, m, 0)
  {
    hide *;
    found := [];
    ghost var from: nat := 0;
    var index := Find(text, m, 0);
    while index.Some?
      invariant index == Find(text, m, from) && from <= |text|
      invariant Places(text, m, 0) == found + Places(text, m, from)
      decreases |text| - from
    {
      PlacesStep(text, m, from, found);
      from := index.value + |m|;
      found := found + [index.value];
      index := Find(text, m, index.value + |m|);
    }
    PlacesStep(text, m, from, found);
  }

  lemma PlacesStep(text: string, m: string, from: nat, found: seq<nat>)
    requires m != "" && from <= |text|
    ensures var index := Find(text, m, from);
            if index.None? then found + Places(text, m, from) == found
            else
              && index.value + |m| <= |text|
              && found + Places(text, m, from) == (found + [index.value]) + Places(text, m, index.value + |m|)
  {
  }

  // ---- the editors ---------------------------------------------------------------------

  predicate EndsWith(s: string, t: string) { |s| >= |t| && s[|s| - |t|..] == t }

  /** `_block_text`: the body may come with its markers or without. */
  function BlockText(body: string): Result<string, PlanningError> {
    var whole := Strip(body);
    var inner := Unwrapped(whole);
    if Contains(inner, MARKER_BEGIN) || Contains(inner, MARKER_END) then Err(BodyHasMarkers)
    else Ok(Framed(inner))
  }

  function Unwrapped(whole: string): string {
    if MARKER_BEGIN <= whole && EndsWith(whole, MARKER_END) then
      Strip(Between(whole, |MARKER_BEGIN|, |whole| - |MARKER_END|))
    else whole
  }

  /** `s[i:j]`, empty when the ends cross. */
  function Between(s: string, i: nat, j: nat): string
    requires i <= |s| && j <= |s|
  {
    if i <= j then s[i..j] else ""
  }

  function Framed(inner: string): string { MARKER_BEGIN + ("\n" + (inner + ("\n" + MARKER_END))) }

  /** `_marker_span`: where the one block is, if there is one. */
  function MarkerSpan(text: string): (r: Result<Option<(nat, nat)>, PlanningError>)
    ensures r.Ok? && r.value.Some? ==> r.value.value.0 <= r.value.value.1 <= |text|
  {
    var begins, ends := Places(text, MARKER_BEGIN, 0), Places(text, MARKER_END, 0);
    if |begins| > 1 || |ends| > 1 || |begins| != |ends| then Err(BrokenMarkers)
    else if begins == [] then Ok(None)
    else if begins[0] > ends[0] then Err(BrokenMarkers)
    else Ok(Some((begins[0], ends[0] + |MARKER_END|)))
  }

  /** `marker_block`. */
  function Write(source: string, body: string): Result<Edit, PlanningError> {
    match BlockText(body)
    case Err(e) => Err(e)
    case Ok(block) =>
      match MarkerSpan(source)
      case Err(e) => Err(e)
      case Ok(None) => Checked(source + (if source == "" then "" else "\n") + block + "\n", false)
      case Ok(Some((start, stop))) =>
        if source[start..stop] == block then Ok(Edit(source, false, false))
        else Checked(source[..start] + block + source[stop..], true)
  }

  function Checked(rendered: string, takeover: bool): Result<Edit, PlanningError> {
    match MarkerSpan(rendered)
    case Err(e) => Err(e)
    case Ok(_) => Ok(Edit(rendered, true, takeover))
  }

  predicate StartsWithBreak(s: string) { "\n" <= s || "\r\n" <= s }

  predicate EndsWithBreak(s: string) { EndsWith(s, "\n") }

  /** `_without_one_trailing_newline`. */
  function WithoutTrailingNewline(s: string): string
    requires EndsWithBreak(s)
  {
    if EndsWith(s, "\r\n") then s[..|s| - 2] else s[..|s| - 1]
  }

  /** `_without_one_leading_newline`. */
  function WithoutLeadingNewline(s: string): string {
    if "\r\n" <= s then s[2..] else if "\n" <= s then s[1..] else s
  }

  /** The text in front of a block, less its newline when something else keeps the lines apart. */
  function BeforeReclaimed(before: string, after: string): string {
    if EndsWithBreak(before) then
      var trimmed := WithoutTrailingNewline(before);
      if after == "" || StartsWithBreak(after) || trimmed == "" || EndsWithBreak(trimmed) then trimmed else before
    else before
  }

  function AfterReclaimed(before: string, after: string): string {
    if StartsWithBreak(after) then
      var remainder := WithoutLeadingNewline(after);
      if before == "" || EndsWithBreak(before) || remainder == "" || StartsWithBreak(remainder) then remainder else after
    else after
  }

  /** `marker_block_remove`. */
  function Remove(source: string): Result<Edit, PlanningError> {
    match MarkerSpan(source)
    case Err(e) => Err(e)
    case Ok(None) => Ok(Edit(source, false, false))
    case Ok(Some((start, stop))) =>
      Ok(Edit(Rejoined(source[..start], source[stop..]), true, false))
  }

  function Rejoined(before: string, after: string): string {
    var kept := BeforeReclaimed(before, after);
    kept + AfterReclaimed(kept, after)
  }

  // ---- markers neither overlap nor arise at a seam --------------------------------------

  /** `<` only in front, `>` only at the end, all on one line. */
  predicate Tag(m: string) {
    && |m| >= 2 && m[0] == '<' && m[|m| - 1] == '>'
    && (forall i :: 0 < i < |m| ==> m[i] != '<' && m[i] != '\n')
    && (forall i :: 0 <= i < |m| - 1 ==> m[i] != '>')
  }

  lemma MarkersAreTags()
    ensures Tag(MARKER_BEGIN) && Tag(MARKER_END)
    ensures MARKER_BEGIN[5..16] != MARKER_END[5..16] && |MARKER_BEGIN| == 23 && |MARKER_END| == 21
  {
    assert MARKER_BEGIN[5..16][9] == 'b' && MARKER_END[5..16][9] == 'e';
  }

  /** Where no marker can straddle two texts put together. */
  predicate Seam(a: string, b: string) {
    a == "" || b == "" || b[0] == '<' || a[|a| - 1] == '>' || b[0] == '\n' || a[|a| - 1] == '\n'
  }

  lemma SeamNoStraddle(a: string, b: string, m: string)
    requires Tag(m) && Seam(a, b)
    ensures NoStraddle(a, b, m)
  {
  }

  /** At a seam the markers of two texts are those of each. */
  lemma SeamJoined(a: string, b: string, m: string)
    requires Tag(m) && Seam(a, b)
    ensures Occurrences(a + b, m) == Occurrences(a, m) + Shifted(Occurrences(b, m), |a|)
  {
    SeamNoStraddle(a, b, m);
    OccurrencesJoined(a, b, m);
  }

  // ---- what a scan of the places says ---------------------------------------------------

  lemma PlacesAre(text: string, m: string, from: nat)
    requires Tag(m)
    ensures forall p: int :: p in Places(text, m, from) <==> from <= p && OccursAt(text, m, p)
    ensures forall k, l :: 0 <= k < l < |Places(text, m, from)| ==> Places(text, m, from)[k] < Places(text, m, from)[l]
    decreases |text| - from
  {
    var index := Find(text, m, from);
    if index.Some? {
      var i, rest := index.value, Places(text, m, index.value + |m|);
      PlacesAre(text, m, i + |m|);
      forall p | i < p < i + |m| ensures !OccursAt(text, m, p) {
        if OccursAt(text, m, p) { Shared(text, m, i, p); }
      }
      assert Places(text, m, from) == [i] + rest;
      hide *;
      InFront(i, rest);
    }
  }

  lemma InFront(i: nat, rest: seq<nat>)
    ensures forall p: int :: p in [i] + rest <==> p == i || p in rest
    ensures forall k :: 0 < k < |[i] + rest| ==> ([i] + rest)[k] == rest[k - 1] && rest[k - 1] in rest
  {
  }

  ghost predicate Plain(text: string) {
    Occurrences(text, MARKER_BEGIN) == {} && Occurrences(text, MARKER_END) == {}
  }

  lemma PlacesCounted(text: string, m: string)
    requires Tag(m)
    ensures var ps, os := Places(text, m, 0), Occurrences(text, m);
            && (ps == [] <==> os == {})
            && (|ps| == 1 ==> os == {ps[0] as int})
            && (forall i :: os == {i} ==> |ps| == 1)
  {
    var ps, os := Places(text, m, 0), Occurrences(text, m);
    PlacesAre(text, m, 0);
    forall p: int ensures p in ps <==> p in os { InRange(text, m, p); }
    hide *;
    if ps != [] { assert ps[0] as int in os; }
    if |ps| > 1 { assert ps[0] as int in os && ps[1] as int in os; }
  }

  lemma SpanIs(text: string)
    ensures var b, e := Occurrences(text, MARKER_BEGIN), Occurrences(text, MARKER_END);
            && (MarkerSpan(text) == Ok(None) <==> Plain(text))
            && (forall i, j :: b == {i} && e == {j} && i <= j ==> MarkerSpan(text).Ok? && MarkerSpan(text).value == Some((i as nat, j + |MARKER_END|)))
            && (MarkerSpan(text).Ok? && MarkerSpan(text).value.Some? ==>
                  var (start, stop) := MarkerSpan(text).value.value;
                  b == {start as int} && e == {stop - |MARKER_END|} && start <= stop - |MARKER_END|)
  {
    MarkersAreTags();
    PlacesCounted(text, MARKER_BEGIN);
    PlacesCounted(text, MARKER_END);
  }

  // ---- the one block of a text -----------------------------------------------------------

  lemma OwnOccurrences()
    ensures Occurrences(MARKER_BEGIN, MARKER_BEGIN) == {0} && Occurrences(MARKER_END, MARKER_END) == {0}
    ensures Plain("\n") && Plain("")
    ensures Occurrences(MARKER_BEGIN, MARKER_END) == {} && Occurrences(MARKER_END, MARKER_BEGIN) == {}
  {
    MarkersAreTags();
    var b, e := MARKER_BEGIN, MARKER_END;
    assert b[0..|b|] == b && e[0..|e|] == e && b[14] != e[14];
    forall i ensures !OccursAt(b, e, i) {
      if OccursAt(b, e, i) {
        CharsOf(b, e, i);
        assert false;
      }
    }
  }

  /** In front of a text a piece without the marker only moves it. */
  lemma Behind(a: string, b: string, m: string, s: set<int>, n: int)
    requires Tag(m) && Seam(a, b) && Occurrences(a, m) == {} && Occurrences(b, m) == Shifted(s, n)
    ensures Occurrences(a + b, m) == Shifted(s, |a| + n)
  {
    SeamJoined(a, b, m);
    ShiftedAgain(s, n, |a|);
    hide *;
  }

  lemma InnerOccurrences(inner: string, c: string, m: string)
    requires Tag(m) && Occurrences(inner, m) == {} && Occurrences(c, m) == {}
    ensures Occurrences("\n" + (inner + ("\n" + (MARKER_END + c))), m) == Shifted(Occurrences(MARKER_END, m), |inner| + 2)
  {
    MarkersAreTags();
    OwnOccurrences();
    ShortPlain(m);
    var s := Occurrences(MARKER_END, m);
    ShiftedAgain(s, 0, 0);
    ShiftedAgain({}, |MARKER_END|, 0);
    SeamJoined(MARKER_END, c, m);
    hide Occurrences;
    hide Shifted;
    Behind("\n", MARKER_END + c, m, s, 0);
    Behind(inner, "\n" + (MARKER_END + c), m, s, 1);
    Behind("\n", inner + ("\n" + (MARKER_END + c)), m, s, |inner| + 1);
  }

  lemma ShortPlain(m: string)
    requires Tag(m)
    ensures Occurrences("\n", m) == {}
  {
  }

  lemma BlockOccurrences(a: string, inner: string, c: string, m: string)
    requires Tag(m) && Occurrences(a, m) == {} && Occurrences(inner, m) == {} && Occurrences(c, m) == {}
    ensures var after := "\n" + (inner + ("\n" + (MARKER_END + c)));
            Occurrences(a + (MARKER_BEGIN + after), m)
            == Shifted(Occurrences(MARKER_BEGIN, m), |a|) + Shifted(Occurrences(MARKER_END, m), |a| + 25 + |inner|)
  {
    MarkersAreTags();
    var after := "\n" + (inner + ("\n" + (MARKER_END + c)));
    InnerOccurrences(inner, c, m);
    SeamJoined(MARKER_BEGIN, after, m);
    SeamJoined(a, MARKER_BEGIN + after, m);
    hide *;
    var s, t := Occurrences(MARKER_BEGIN, m), Occurrences(MARKER_END, m);
    ShiftedAgain(t, |inner| + 2, 23);
    ShiftedAgain(t, |inner| + 25, |a|);
    ShiftedUnion(s, Shifted(t, |inner| + 25), |a|);
  }

  /** A written block is the one the editors find, whatever stands around it. */
  lemma {:induction false} FramedSpan(a: string, inner: string, c: string)
    requires Plain(a) && Plain(inner) && Plain(c)
    ensures MarkerSpan((a + Framed(inner)) + c) == Ok(Some((|a|, |a| + |Framed(inner)|)))
  {
    hide *;
    MarkersAreTags();
    OwnOccurrences();
    PlainIs(a);
    PlainIs(inner);
    PlainIs(c);
    BlockOccurrences(a, inner, c, MARKER_BEGIN);
    BlockOccurrences(a, inner, c, MARKER_END);
    FramedText(a, inner, c);
    SpanIs((a + Framed(inner)) + c);
    ShiftedOne(|a|);
    ShiftedOne(|a| + 25 + |inner|);
  }

  lemma PlainIs(text: string)
    ensures Plain(text) <==> Occurrences(text, MARKER_BEGIN) == {} && Occurrences(text, MARKER_END) == {}
  {
  }

  lemma ShiftedOne(n: int)
    ensures Shifted({0}, n) == {n} && Shifted({}, n) == {}
  {
    forall i ensures i in Shifted({0}, n) <==> i in {n} { InShifted({0}, n, i); }
  }

  lemma FramedText(a: string, inner: string, c: string)
    ensures (a + Framed(inner)) + c == a + (MARKER_BEGIN + ("\n" + (inner + ("\n" + (MARKER_END + c)))))
    ensures |Framed(inner)| == |inner| + 46
  {
    var b, e := MARKER_BEGIN, MARKER_END;
    assert (a + (b + ("\n" + (inner + ("\n" + e))))) + c == a + (b + ("\n" + (inner + ("\n" + (e + c)))));
  }

  lemma PlainJoined(a: string, b: string)
    requires Plain(a) && Plain(b) && Seam(a, b)
    ensures Plain(a + b)
  {
    MarkersAreTags();
    SeamJoined(a, b, MARKER_BEGIN);
    SeamJoined(a, b, MARKER_END);
  }

  /** What is around a block has no marker. */
  lemma AroundIsPlain(text: string)
    requires MarkerSpan(text).Ok? && MarkerSpan(text).value.Some?
    ensures var (start, stop) := MarkerSpan(text).value.value; Plain(text[..start]) && Plain(text[stop..])
  {
    MarkersAreTags();
    SpanIs(text);
    var (start, stop) := MarkerSpan(text).value.value;
    hide Occurrences;
    NoneAround(text, MARKER_BEGIN, start, start, stop);
    NoneAround(text, MARKER_END, stop - |MARKER_END|, start, stop);
  }

  lemma NoneAround(text: string, m: string, p: int, start: nat, stop: nat)
    requires m != "" && Occurrences(text, m) == {p} && start <= p < stop <= |text|
    ensures Occurrences(text[..start], m) == {} && Occurrences(text[stop..], m) == {}
  {
    forall i ensures !OccursAt(text[..start], m, i) && !OccursAt(text[stop..], m, i) {
      InRange(text, m, i);
      InRange(text, m, i + stop);
      Within(text, m, start, stop, i);
    }
    forall i ensures i !in Occurrences(text[..start], m) && i !in Occurrences(text[stop..], m) {
      InRange(text[..start], m, i);
      InRange(text[stop..], m, i);
    }
  }


  // ---- the laws ----------------------------------------------------------------------------

  /** A block is a frame around a text without markers or outer white space. */
  lemma BlockIsFramed(body: string) returns (inner: string)
    requires BlockText(body).Ok?
    ensures BlockText(body) == Ok(Framed(inner)) && Plain(inner) && Strip(inner) == inner
  {
    hide Strip;
    hide Contains;
    hide Framed;
    inner := Unwrapped(Strip(body));
    StripTwice(body);
    UnwrappedStripped(Strip(body));
    AbsentIsPlain(inner);
  }

  lemma UnwrappedStripped(whole: string)
    requires Strip(whole) == whole
    ensures Strip(Unwrapped(whole)) == Unwrapped(whole)
  {
    hide Strip;
    if MARKER_BEGIN <= whole && EndsWith(whole, MARKER_END) {
      StripTwice(Between(whole, |MARKER_BEGIN|, |whole| - |MARKER_END|));
    }
  }

  lemma AbsentIsPlain(s: string)
    requires !Contains(s, MARKER_BEGIN) && !Contains(s, MARKER_END)
    ensures Plain(s)
  {
  }

  /** The text a body asks for: what stands between its own markers, or all of it. */
  ghost predicate Asks(body: string, inner: string) {
    if WithMarkers(Strip(body)) then exists x :: Strip(body) == MARKER_BEGIN + (x + MARKER_END) && inner == Strip(x)
    else inner == Strip(body)
  }

  ghost predicate WithMarkers(whole: string) { exists x :: whole == MARKER_BEGIN + (x + MARKER_END) }

  /** A body asks for one text, which is framed exactly when no marker is in it. */
  lemma BlockTextIs(body: string) returns (inner: string)
    ensures Asks(body, inner) && forall other :: Asks(body, other) ==> other == inner
    ensures BlockText(body) == if Plain(inner) then Ok(Framed(inner)) else Err(BodyHasMarkers)
  {
    inner := Unwrapped(Strip(body));
    UnwrappedIs(Strip(body));
    hide Strip, Contains, Framed, Unwrapped, WithMarkers, Plain;
    if Plain(inner) { PlainIsAbsent(inner); }
    if !Contains(inner, MARKER_BEGIN) && !Contains(inner, MARKER_END) { AbsentIsPlain(inner); }
  }

  lemma EndsApart(whole: string, b: string, e: string)
    requires Tag(b) && Tag(e) && |b| > |e| && b <= whole && EndsWith(whole, e)
    ensures |whole| >= |b| + |e|
  {
    var i := |whole| - |e|;
    assert whole[i..][0] == '<' && whole[i] == '<';
    assert forall k :: 0 <= k < |b| ==> whole[k] == b[k];
  }

  lemma Wrapped(whole: string, b: string, e: string)
    requires b <= whole && EndsWith(whole, e) && |whole| >= |b| + |e|
    ensures whole == b + (Between(whole, |b|, |whole| - |e|) + e)
  {
  }

  lemma WrappedBack(b: string, x: string, e: string)
    ensures var whole := b + (x + e); b <= whole && EndsWith(whole, e) && Between(whole, |b|, |whole| - |e|) == x
  {
  }

  lemma UnwrappedInner(x: string)
    ensures var whole := MARKER_BEGIN + (x + MARKER_END);
            MARKER_BEGIN <= whole && EndsWith(whole, MARKER_END) && Unwrapped(whole) == Strip(x)
  {
    hide Strip;
    WrappedBack(MARKER_BEGIN, x, MARKER_END);
    hide Between, EndsWith;
  }

  lemma UnwrappedIs(whole: string)
    ensures forall x :: whole == MARKER_BEGIN + (x + MARKER_END) ==> Unwrapped(whole) == Strip(x)
    ensures if WithMarkers(whole) then exists x :: whole == MARKER_BEGIN + (x + MARKER_END) && Unwrapped(whole) == Strip(x)
            else Unwrapped(whole) == whole
  {
    hide Strip, Tag, Between, EndsWith;
    forall x | whole == MARKER_BEGIN + (x + MARKER_END) ensures Unwrapped(whole) == Strip(x) { UnwrappedInner(x); }
    if MARKER_BEGIN <= whole && EndsWith(whole, MARKER_END) {
      MarkersAreTags();
      EndsApart(whole, MARKER_BEGIN, MARKER_END);
      Wrapped(whole, MARKER_BEGIN, MARKER_END);
    }
  }

  /** Either body form works: a block given as a body is itself. */
  lemma BlockOfBlock(body: string)
    requires BlockText(body).Ok?
    ensures BlockText(BlockText(body).value) == BlockText(body)
  {
    hide *;
    var inner := BlockIsFramed(body);
    StripBreaks(inner);
    FramedEnds(inner);
    PlainIsAbsent(inner);
    UnstrippedFrame(Framed(inner));
    FramedUnwraps(inner);
  }

  lemma UnstrippedFrame(b: string)
    requires b != "" && b[0] == '<' && b[|b| - 1] == '>'
    ensures Strip(b) == b
  {
  }

  lemma FramedUnwraps(inner: string)
    requires var b := Framed(inner);
             && |b| >= 44 && MARKER_BEGIN <= b && EndsWith(b, MARKER_END) && Between(b, 23, |b| - 21) == "\n" + (inner + "\n")
    requires Strip(Framed(inner)) == Framed(inner) && Strip("\n" + (inner + "\n")) == inner
    requires !Contains(inner, MARKER_BEGIN) && !Contains(inner, MARKER_END)
    ensures BlockText(Framed(inner)) == Ok(Framed(inner))
  {
    hide Strip;
    hide Framed;
    hide Contains;
    hide Between;
    MarkersAreTags();
  }

  lemma PlainIsAbsent(s: string)
    requires Plain(s)
    ensures !Contains(s, MARKER_BEGIN) && !Contains(s, MARKER_END)
  {
    forall m ensures Find(s, m, 0).Some? ==> Find(s, m, 0).value as int in Occurrences(s, m) {
      if Find(s, m, 0).Some? { InRange(s, m, Find(s, m, 0).value); }
    }
  }

  lemma StripBreaks(inner: string)
    requires Strip(inner) == inner
    ensures Strip("\n" + (inner + "\n")) == inner
  {
    StripEdges(inner);
    var t := inner + "\n";
    SpaceInFront(t);
    hide Strip;
    StripOnTheRight(inner);
  }

  lemma SpaceInFront(t: string)
    ensures Strip("\n" + t) == Strip(t)
  {
    assert ("\n" + t)[1..] == t;
  }

  lemma StripOnTheRight(inner: string)
    requires Strip(inner) == inner && (inner == "" || !IsPySpace(inner[0]))
    ensures Strip(inner + "\n") == inner
  {
    hide IsPySpace;
    assert IsPySpace('\n') by { NewlineIsSpace(); }
    var t := inner + "\n";
    if inner == "" {
      assert t == "\n" && t[1..] == "";
    } else {
      assert t[..|t| - 1] == inner;
      assert StripLeft(t) == t && StripLeft(inner) == inner;
    }
  }

  lemma NewlineIsSpace()
    ensures IsPySpace('\n')
  {
  }

  lemma FramedEnds(inner: string)
    ensures var b := Framed(inner);
            && |b| == |inner| + 46 && b[0] == '<' && b[|b| - 1] == '>'
            && MARKER_BEGIN <= b && EndsWith(b, MARKER_END) && Between(b, 23, |b| - 21) == "\n" + (inner + "\n")
  {
    MarkersAreTags();
    var b := Framed(inner);
    assert b[0] == MARKER_BEGIN[0];
    assert b[|b| - 21..] == MARKER_END;
    assert b[23..|b| - 21] == "\n" + (inner + "\n");
  }

  /** What a write leaves in front of its block and behind it; no body in sight. */
  function Around(source: string): (string, string)
    requires MarkerSpan(source).Ok?
  {
    match MarkerSpan(source).value
    case None => (source + (if source == "" then "" else "\n"), "\n")
    case Some((start, stop)) => (source[..start], source[stop..])
  }

  lemma AroundIs(source: string)
    requires MarkerSpan(source).Ok?
    ensures Plain(Around(source).0) && Plain(Around(source).1)
  {
    if MarkerSpan(source).value.None? {
      SpanIs(source);
      OwnOccurrences();
      if source == "" { assert source + "" == ""; } else { PlainJoined(source, "\n"); }
    } else {
      AroundIsPlain(source);
    }
  }

  lemma FramedAround(a: string, inner: string, c: string)
    requires Plain(a) && Plain(inner) && Plain(c)
    ensures var text := (a + Framed(inner)) + c;
            && MarkerSpan(text) == Ok(Some((|a|, |a| + |Framed(inner)|))) && Around(text) == (a, c)
            && text[|a|..|a| + |Framed(inner)|] == Framed(inner)
            && Remove(text) == Ok(Edit(Rejoined(a, c), true, false))
  {
    FramedSpan(a, inner, c);
    hide MarkerSpan;
    hide Framed;
    hide Rejoined;
    var b := Framed(inner);
    assert ((a + b) + c)[..|a|] == a && ((a + b) + c)[|a| + |b|..] == c;
  }

  /**
   Writing succeeds exactly when the body has no stray marker and the file at most one whole
   block, and its result is the block between what stood around it.
   */
  lemma WriteIs(source: string, body: string)
    ensures Write(source, body).Err? <==> BlockText(body).Err? || MarkerSpan(source).Err?
    ensures Write(source, body).Err? ==>
      Write(source, body).error == if BlockText(body).Err? then BodyHasMarkers else BrokenMarkers
    ensures Write(source, body).Ok? ==>
      var (a, c) := Around(source);
      var written := Write(source, body).value;
      && written.rendered == (a + BlockText(body).value) + c && (written.changed <==> written.rendered != source)
      && (written.takeover <==> written.changed && MarkerSpan(source).value.Some?)
  {
    if BlockText(body).Ok? && MarkerSpan(source).Ok? {
      var inner := BlockIsFramed(body);
      var (a, c) := Around(source);
      AroundIs(source);
      FramedAround(a, inner, c);
      hide MarkerSpan;
      hide BlockText;
      Cases(source, Framed(inner));
    }
  }

  lemma Cases(source: string, block: string)
    requires MarkerSpan(source).Ok? && block != ""
    ensures MarkerSpan(source).value.None? ==>
      source + (if source == "" then "" else "\n") + block + "\n" != source
    ensures MarkerSpan(source).value.Some? ==>
      var (start, stop) := MarkerSpan(source).value.value;
      source[..start] + block + source[stop..] == source <==> source[start..stop] == block
  {
    hide MarkerSpan;
    if MarkerSpan(source).value.None? {
      assert |source + (if source == "" then "" else "\n") + block + "\n"| > |source|;
    } else {
      var (start, stop) := MarkerSpan(source).value.value;
      var t := source[..start] + block + source[stop..];
      if t == source {
        assert |block| == stop - start;
        assert source[start..stop] == t[start..start + |block|] == block;
      }
      if source[start..stop] == block { assert t == source; }
    }
  }

  /** The last write wins, and the same write again changes nothing. */
  lemma {:induction false} WriteTwice(source: string, first: string, second: string)
    requires Write(source, first).Ok?
    ensures var once := Write(source, first).value.rendered;
            && (Write(once, second).Err? <==> BlockText(second).Err?)
            && (BlockText(second).Ok? ==>
                  && Write(source, second).Ok?
                  && Write(once, second).value.rendered == Write(source, second).value.rendered)
            && Write(once, first) == Ok(Edit(once, false, false))
  {
    var once := Write(source, first).value.rendered;
    WriteIs(source, first);
    WriteIs(source, second);
    var inner := BlockIsFramed(first);
    AroundIs(source);
    FramedAround(Around(source).0, inner, Around(source).1);
    WriteIs(once, second);
    WriteIs(once, first);
    hide *;
  }

  /**
   Removing after the first write gives the file back byte for byte, exactly when the file
   does not end in a carriage return; after a replacement it is removing from the file.
   */
  lemma {:induction false} RemoveAfterWrite(source: string, body: string)
    requires Write(source, body).Ok?
    ensures var removed := Remove(Write(source, body).value.rendered);
            && removed.Ok? && removed.value.changed
            && (MarkerSpan(source).value.None? ==> (removed.value.rendered == source <==> !EndsWith(source, "\r")))
            && (MarkerSpan(source).value.Some? ==> removed == Remove(source))
  {
    WriteIs(source, body);
    var inner := BlockIsFramed(body);
    var (a, c) := Around(source);
    AroundIs(source);
    FramedAround(a, inner, c);
    if MarkerSpan(source).value.None? { AppendedRejoined(source); }
    hide MarkerSpan;
    hide Rejoined;
    hide Write;
  }

  lemma AppendedRejoined(source: string)
    ensures Rejoined(source + (if source == "" then "" else "\n"), "\n") == source <==> !EndsWith(source, "\r")
  {
    var a := source + (if source == "" then "" else "\n");
    assert "\n"[1..] == "";
    if source != "" {
      assert a[..|a| - 1] == source;
      if EndsWith(source, "\r") {
        assert a[|a| - 2..] == "\r\n";
        assert |WithoutTrailingNewline(a)| < |source|;
      } else {
        assert a[|a| - 2] == source[|source| - 1] && source[|source| - 1..] == [source[|source| - 1]];
        assert WithoutTrailingNewline(a) == source;
      }
    }
  }

  // ---- what a removal does to the user's lines ---------------------------------------------

  function WithoutCr(line: string): string {
    if line != "" && line[|line| - 1] == '\r' then WithoutCr(line[..|line| - 1]) else line
  }

  function Kept(line: string): seq<string> {
    var l := WithoutCr(line);
    if l == "" then [] else [l]
  }

  /** The lines of a text with something on them; `line` is what has been read of the first. */
  function LinesFrom(s: string, line: string): seq<string> {
    if s == "" then Kept(line)
    else if s[0] == '\n' then Kept(line) + LinesFrom(s[1..], "")
    else LinesFrom(s[1..], line + [s[0]])
  }

  function Lines(s: string): seq<string> { LinesFrom(s, "") }

  lemma LinesJoined(a: string, b: string, line: string)
    ensures LinesFrom(a + ("\n" + b), line) == LinesFrom(a, line) + Lines(b)
  {
    var t := a + ("\n" + b);
    if a == "" {
      assert t == "\n" + b && t[1..] == b;
    } else {
      assert t[1..] == a[1..] + ("\n" + b);
      if a[0] == '\n' {
        LinesJoined(a[1..], b, "");
        assert LinesFrom(t, line) == Kept(line) + (LinesFrom(a[1..], "") + Lines(b));
      } else {
        LinesJoined(a[1..], b, line + [a[0]]);
      }
    }
  }

  lemma LinesCr(a: string, line: string)
    ensures LinesFrom(a + "\r", line) == LinesFrom(a, line)
  {
    var t := a + "\r";
    if a == "" {
      assert t == "\r" && t[1..] == "" && (line + "\r")[..|line|] == line;
      assert LinesFrom(t, line) == LinesFrom("", line + "\r");
    } else {
      assert t[1..] == a[1..] + "\r";
      LinesCr(a[1..], if a[0] == '\n' then "" else line + [a[0]]);
    }
  }

  /** A break at the seam, or nothing on one side of it. */
  predicate Separated(a: string, b: string) { a == "" || b == "" || EndsWithBreak(a) || StartsWithBreak(b) }

  lemma TrimmedLines(a: string)
    requires EndsWithBreak(a)
    ensures var trimmed := WithoutTrailingNewline(a);
            (a == trimmed + "\n" || a == trimmed + "\r\n") && Lines(trimmed) == Lines(a)
  {
    var body := a[..|a| - 1];
    assert a == body + ("\n" + "");
    LinesJoined(body, "", "");
    if EndsWith(a, "\r\n") {
      assert a == a[..|a| - 2] + "\r\n" && body == a[..|a| - 2] + "\r";
      LinesCr(a[..|a| - 2], "");
    }
  }

  lemma RemainderLines(b: string)
    requires StartsWithBreak(b)
    ensures var remainder := WithoutLeadingNewline(b);
            (b == "\n" + remainder || b == "\r\n" + remainder) && Lines(remainder) == Lines(b)
  {
    if "\r\n" <= b {
      assert b == "\r" + ("\n" + b[2..]) && "" + "\r" == "\r";
      LinesJoined("\r", b[2..], "");
      LinesCr("", "");
    } else {
      assert b == "" + ("\n" + b[1..]);
      LinesJoined("", b[1..], "");
    }
  }

  lemma SeparatedLines(a: string, b: string)
    requires Separated(a, b)
    ensures Lines(a + b) == Lines(a) + Lines(b)
  {
    if a == "" {
      assert a + b == b;
    } else if b == "" {
      assert a + b == a;
    } else if EndsWithBreak(a) {
      TrimmedAgain(a);
      var body := a[..|a| - 1];
      assert a + b == body + ("\n" + b);
      LinesJoined(body, b, "");
    } else {
      RemainderAgain(a, b);
    }
  }

  lemma TrimmedAgain(a: string)
    requires EndsWithBreak(a)
    ensures Lines(a) == Lines(a[..|a| - 1])
  {
    var body := a[..|a| - 1];
    assert a == body + ("\n" + "");
    LinesJoined(body, "", "");
  }

  lemma RemainderAgain(a: string, b: string)
    requires StartsWithBreak(b)
    ensures Lines(a + b) == Lines(a) + Lines(b)
  {
    RemainderLines(b);
    if "\r\n" <= b {
      assert a + b == (a + "\r") + ("\n" + b[2..]);
      LinesJoined(a + "\r", b[2..], "");
      LinesCr(a, "");
    } else {
      assert a + b == a + ("\n" + b[1..]);
      LinesJoined(a, b[1..], "");
    }
  }

  /** One newline goes on a side exactly when the lines stay apart without it. */
  lemma Reclaimed(before: string, after: string)
    ensures var kept := BeforeReclaimed(before, after);
            var rest := AfterReclaimed(kept, after);
            && (before == kept || before == kept + "\n" || before == kept + "\r\n")
            && (after == rest || after == "\n" + rest || after == "\r\n" + rest)
            && Lines(kept) == Lines(before) && Lines(rest) == Lines(after)
            && (Separated(before, after) ==> Separated(kept, rest))
            && (!Separated(before, after) ==> kept == before && rest == after)
            && (kept != before <==> EndsWithBreak(before) && Separated(WithoutTrailingNewline(before), after))
            && (rest != after <==> StartsWithBreak(after) && Separated(kept, WithoutLeadingNewline(after)))
            && (kept != before && EndsWith(before, "\r\n") ==> before == kept + "\r\n")
  {
    if EndsWithBreak(before) { TrimmedLines(before); }
    if StartsWithBreak(after) { RemainderLines(after); }
    hide Lines;
  }

  /**
   Removing the block keeps every line around it, in order and apart, and leaves a file
   without markers, whenever the block had a break or an end of the file on one side.
   A block in the middle of a line gives that line back.
   */
  lemma {:induction false} RemovalKeepsLines(source: string)
    requires MarkerSpan(source).Ok? && MarkerSpan(source).value.Some?
    ensures Remove(source).Ok? && Remove(source).value.changed
    ensures var (start, stop) := MarkerSpan(source).value.value;
            var before, after, left := source[..start], source[stop..], Remove(source).value.rendered;
            if Separated(before, after) then Lines(left) == Lines(before) + Lines(after) && MarkerSpan(left) == Ok(None)
            else left == before + after
  {
    var (start, stop) := MarkerSpan(source).value.value;
    var before, after := source[..start], source[stop..];
    AroundIsPlain(source);
    Reclaimed(before, after);
    var kept := BeforeReclaimed(before, after);
    var rest := AfterReclaimed(kept, after);
    if Separated(before, after) {
      SeparatedLines(kept, rest);
      PlainPieces(before, kept, after, rest);
      SpanIs(kept + rest);
    }
    hide MarkerSpan;
    hide BeforeReclaimed;
    hide AfterReclaimed;
    hide Lines;
  }

  lemma FrontPlain(kept: string, more: string)
    requires Plain(kept + more)
    ensures Plain(kept)
  {
    hide Plain;
    PartPlain(kept + more, 0, |kept|);
    assert (kept + more)[0..|kept|] == kept;
  }

  lemma BackPlain(more: string, rest: string)
    requires Plain(more + rest)
    ensures Plain(rest)
  {
    hide Plain;
    PartPlain(more + rest, |more|, |more + rest|);
    assert (more + rest)[|more|..|more + rest|] == rest;
  }

  lemma PlainPieces(before: string, kept: string, after: string, rest: string)
    requires Plain(before) && Plain(after) && Separated(kept, rest)
    requires before == kept || before == kept + "\n" || before == kept + "\r\n"
    requires after == rest || after == "\n" + rest || after == "\r\n" + rest
    ensures Plain(kept + rest)
  {
    hide Plain;
    if before != kept { FrontPlain(kept, if before == kept + "\n" then "\n" else "\r\n"); }
    if after != rest { BackPlain(if after == "\n" + rest then "\n" else "\r\n", rest); }
    if kept != "" && rest != "" && !EndsWithBreak(kept) && rest[0] == '\r' {
      PlainBeforeCr(kept, rest);
    } else {
      PlainJoined(kept, rest);
    }
  }

  lemma PartPlain(s: string, i: nat, j: nat)
    requires Plain(s) && i <= j <= |s|
    ensures Plain(s[i..j])
  {
    forall m, p ensures OccursAt(s[i..j], m, p) ==> OccursAt(s, m, p + i) {
      assert s[i..j] == s[..j][i..];
      Within(s[..j], m, 0, i, p);
      Within(s, m, j, 0, p + i);
    }
    forall m, p ensures OccursAt(s, m, p) ==> p in Occurrences(s, m) { InRange(s, m, p); }
  }

  lemma PlainBeforeCr(a: string, b: string)
    requires Plain(a) && Plain(b) && "\r\n" <= b
    ensures Plain(a + b)
  {
    PartPlain(b, 1, |b|);
    var t := b[1..|b|];
    assert a + b == (a + "\r") + t;
    PlainCr(a);
    PlainJoined(a + "\r", t);
  }

  lemma PlainCr(a: string)
    requires Plain(a)
    ensures Plain(a + "\r")
  {
    MarkersAreTags();
    forall m, p | Tag(m) ensures OccursAt(a + "\r", m, p) ==> OccursAt(a, m, p) {
      if OccursAt(a + "\r", m, p) {
        CharsOf(a + "\r", m, p);
        var k := p + |m| - 1;
        assert (a + "\r")[k] == m[k - p] == m[|m| - 1];
        assert a[p..p + |m|] == (a + "\r")[p..p + |m|];
      }
    }
    forall m, p ensures OccursAt(a, m, p) ==> p in Occurrences(a, m) { InRange(a, m, p); }
  }

  // ---- a marker that arises at the seam ------------------------------------------------

  /** The front of a marker ends one text and the rest of it begins the other. */
  ghost predicate Cut(a: string, b: string, m: string) {
    exists k :: 0 < k < |m| && EndsWith(a, m[..k]) && m[k..] <= b
  }

  /** A block that stood inside a marker. */
  ghost predicate MarkerCut(a: string, b: string) { Cut(a, b, MARKER_BEGIN) || Cut(a, b, MARKER_END) }

  lemma CutOccurs(a: string, b: string, m: string, k: nat)
    requires 0 < k < |m| && EndsWith(a, m[..k]) && m[k..] <= b
    ensures OccursAt(a + b, m, |a| - k)
  {
    var i := |a| - k;
    assert (a + b)[i..i + |m|] == a[i..] + b[..|m| - k];
    assert m == m[..k] + m[k..];
  }

  lemma OccursCut(a: string, b: string, m: string, i: int)
    requires OccursAt(a + b, m, i)
    ensures OccursAt(a, m, i) || OccursAt(b, m, i - |a|) || (i < |a| < i + |m| && Cut(a, b, m))
  {
    var t := a + b;
    if i + |m| <= |a| {
      assert t[i..i + |m|] == a[i..i + |m|];
    } else if |a| <= i {
      assert t[i..i + |m|] == b[i - |a|..i - |a| + |m|];
    } else {
      var k := |a| - i;
      assert m[..k] == t[i..i + |m|][..k] == a[i..];
      assert m[k..] == t[i..i + |m|][k..] == b[..|m| - k];
    }
  }

  lemma OneTag(text: string, m: string, m': string, i: int, j: int)
    requires Tag(m) && Tag(m') && OccursAt(text, m, i) && OccursAt(text, m', j) && i <= j < i + |m|
    ensures i == j
  {
    CharsOf(text, m, i);
    CharsOf(text, m', j);
    assert text[j] == '<' == m[j - i];
  }

  lemma MarkerLetter(text: string, i: int)
    ensures OccursAt(text, MARKER_BEGIN, i) ==> text[i + 14] == 'b'
    ensures OccursAt(text, MARKER_END, i) ==> text[i + 14] == 'e'
  {
    if OccursAt(text, MARKER_BEGIN, i) { CharsOf(text, MARKER_BEGIN, i); }
    if OccursAt(text, MARKER_END, i) { CharsOf(text, MARKER_END, i); }
  }

  predicate Marker(m: string) { m == MARKER_BEGIN || m == MARKER_END }

  lemma AtSeam(a: string, b: string, m: string, i: int)
    requires Plain(a) && Plain(b) && Marker(m) && OccursAt(a + b, m, i)
    ensures i < |a| < i + |m| && Cut(a, b, m)
  {
    InRange(a, m, i);
    InRange(b, m, i - |a|);
    hide Occurrences, Cut;
    OccursCut(a, b, m, i);
  }

  /** Two texts without markers, put together, hold one marker if the seam makes it and else none. */
  lemma SeamMakes(a: string, b: string)
    requires Plain(a) && Plain(b)
    ensures MarkerSpan(a + b) == if MarkerCut(a, b) then Err(BrokenMarkers) else Ok(None)
  {
    var t := a + b;
    SpanIs(t);
    hide MarkerSpan, OccursAt;
    forall m, i | Marker(m) && OccursAt(t, m, i) ensures i < |a| < i + |m| && Cut(a, b, m) {
      AtSeam(a, b, m, i);
    }
    if MarkerCut(a, b) {
      var m := if Cut(a, b, MARKER_BEGIN) then MARKER_BEGIN else MARKER_END;
      var k :| 0 < k < |m| && EndsWith(a, m[..k]) && m[k..] <= b;
      CutOccurs(a, b, m, k);
      LoneMarker(t, m, |a| - k, |a|);
    } else {
      hide Cut;
      forall m, i | Marker(m) ensures i !in Occurrences(t, m) { InRange(t, m, i); }
    }
  }

  lemma LoneMarker(t: string, m: string, i: int, seam: nat)
    requires Marker(m) && OccursAt(t, m, i)
    requires forall m', j | Marker(m') && OccursAt(t, m', j) :: j < seam < j + |m'|
    ensures MarkerSpan(t) == Err(BrokenMarkers)
  {
    MarkersAreTags();
    var other := if m == MARKER_BEGIN then MARKER_END else MARKER_BEGIN;
    forall j ensures j in Occurrences(t, m) <==> j == i {
      InRange(t, m, j);
      if OccursAt(t, m, j) { if i <= j { OneTag(t, m, m, i, j); } else { OneTag(t, m, m, j, i); } }
    }
    MarkerLetter(t, i);
    forall j ensures j !in Occurrences(t, other) {
      InRange(t, other, j);
      if OccursAt(t, other, j) { if i <= j { OneTag(t, m, other, i, j); } else { OneTag(t, other, m, j, i); } }
    }
    assert Occurrences(t, m) == {i} && Occurrences(t, other) == {};
    PlacesCounted(t, m);
    PlacesCounted(t, other);
    hide Occurrences, Places;
  }

  lemma CutChars(a: string, b: string, m: string, k: nat)
    requires 0 < k < |m| && EndsWith(a, m[..k]) && m[k..] <= b
    ensures a != "" && b != "" && a[|a| - 1] == m[k - 1] && b[0] == m[k]
  {
    assert m[..k][k - 1] == m[k - 1] && m[k..][0] == m[k];
  }

  lemma CutApart(a: string, b: string)
    requires Separated(a, b)
    ensures !MarkerCut(a, b)
  {
    MarkersAreTags();
    forall m, k | Marker(m) && 0 < k < |m| && EndsWith(a, m[..k]) && m[k..] <= b ensures false {
      CutChars(a, b, m, k);
      NoReturn(m, k);
      NoReturn(m, k - 1);
    }
  }

  lemma NoReturn(m: string, k: nat)
    requires Marker(m) && k < |m|
    ensures m[k] != '\r' && m[k] != '\n'
  {
  }

  /**
   A removal leaves no marker unless the block stood inside one: then the halves join to
   a marker of their own, and the file reads as broken.
   */
  lemma RemovalLeavesNoMarker(source: string)
    requires MarkerSpan(source).Ok? && MarkerSpan(source).value.Some?
    ensures var (start, stop) := MarkerSpan(source).value.value;
            Remove(source).Ok?
            && MarkerSpan(Remove(source).value.rendered) == if MarkerCut(source[..start], source[stop..]) then Err(BrokenMarkers) else Ok(None)
  {
    var (start, stop) := MarkerSpan(source).value.value;
    var before, after := source[..start], source[stop..];
    RemovalKeepsLines(source);
    AroundIsPlain(source);
    if Separated(before, after) { CutApart(before, after); } else { SeamMakes(before, after); }
  }

  /** Two halves of a marker around a block inside a line: the removal makes a stray marker. */
  lemma StrayMarker()
    ensures var source := ("<!-- memriver:" + Framed("")) + "begin -->";
            && MarkerSpan(source).Ok? && MarkerSpan(source).value.Some? && Remove(source).Ok?
            && MarkerSpan(Remove(source).value.rendered) == Err(BrokenMarkers)
  {
    var a, c := "<!-- memriver:", "begin -->";
    HalvesPlain();
    FramedAround(a, "", c);
    HalvesJoined();
    MarkersAreTags();
    OwnOccurrences();
    PlacesCounted(MARKER_BEGIN, MARKER_BEGIN);
    PlacesCounted(MARKER_BEGIN, MARKER_END);
    hide Occurrences;
    hide Places;
    hide Rejoined;
  }

  lemma HalvesPlain()
    ensures Plain("<!-- memriver:") && Plain("begin -->") && Plain("")
  {
  }

  lemma HalvesJoined()
    ensures Rejoined("<!-- memriver:", "begin -->") == MARKER_BEGIN
  {
    var a, c := "<!-- memriver:", "begin -->";
    assert a[|a| - 1..] == ":" && c[0] == 'b';
    assert a + c == MARKER_BEGIN;
  }
}
