/**
 Token arithmetic of the dream calls: `estimate_tokens`, `cut` and `plan_chunks`. Which
 characters are wide is a parameter; one counts a token, four others share one.
 */
module TokenCut {
  import opened Packing
  import opened PyText

  type Wide = char -> bool

  function CountWide(text: string, wide: Wide): nat {
    if text == "" then 0 else (if wide(text[0]) then 1 else 0) + CountWide(text[1..], wide)
  }

  /** `estimate_tokens`. */
  function Estimate(text: string, wide: Wide): nat
  {
    CountWithin(text, wide);
    CountWide(text, wide) + (|text| - CountWide(text, wide) + 3) / 4
  }

  lemma CountWithin(text: string, wide: Wide)
    ensures CountWide(text, wide) <= |text|
  {
  }

  /** Quarter tokens. */
  function Quarters(wide: Wide): char -> nat { c => if wide(c) then 4 else 1 }

  lemma WeightIs(text: string, wide: Wide)
    ensures Weight(text, Quarters(wide)) == 3 * CountWide(text, wide) + |text|
  {
  }

  /** The estimate is the quarters, rounded up: at most `n` tokens is at most `4 * n` quarters. */
  lemma EstimateIs(text: string, wide: Wide)
    ensures Estimate(text, wide) == (Weight(text, Quarters(wide)) + 3) / 4
    ensures forall n: nat :: Estimate(text, wide) <= n <==> Weight(text, Quarters(wide)) <= 4 * n
  {
    WeightIs(text, wide);
    CountWithin(text, wide);
  }

  // ---- cutting one text -----------------------------------------------------------------

  /** What the loop of `cut` still returns, from the piece being filled on. */
  function CutOn(text: string, w: char -> nat, limit: int, current: string, cost: nat): seq<string>
    decreases |text|
  {
    if text == "" then [current]
    else if cost + w(text[0]) > limit then [current] + CutOn(text[1..], w, limit, [text[0]], w(text[0]))
    else CutOn(text[1..], w, limit, current + [text[0]], cost + w(text[0]))
  }

  function CutText(text: string, budget: int, wide: Wide): seq<string> {
    CutOn(text, Quarters(wide), 4 * budget, "", 0)
  }

  /** `cut`. */
  method Cut(text: string, budget: int, wide: Wide) returns (pieces: seq<string>)
    ensures pieces == CutText(text, budget, wide)
  {
    var limit := budget * 4;
    pieces := [];
    var start, cost := 0, 0;
    var index := 0;
    assert text[0..] == text && text[0..0] == "";
    while index < |text|
      invariant 0 <= start <= index <= |text| && 0 <= cost
      invariant CutText(text, budget, wide) == pieces + CutOn(text[index..], Quarters(wide), limit, text[start..index], cost)
    {
      var step := if wide(text[index]) then 4 else 1;
      CutStep(text, Quarters(wide), limit, start, index, cost, pieces);
      if cost + step > limit {
        pieces := pieces + [text[start..index]];
        start, cost := index, 0;
      }
      cost := cost + step;
      index := index + 1;
    }
    assert text[index..] == "" && text[start..index] == text[start..];
    pieces := pieces + [text[start..]];
  }

  lemma CutStep(text: string, w: char -> nat, limit: int, start: nat, index: nat, cost: nat, pieces: seq<string>)
    requires start <= index < |text|
    ensures var step, next := w(text[index]), text[index + 1..];
            pieces + CutOn(text[index..], w, limit, text[start..index], cost)
            == if cost + step > limit then (pieces + [text[start..index]]) + CutOn(next, w, limit, text[index..index + 1], step)
               else pieces + CutOn(next, w, limit, text[start..index + 1], cost + step)
  {
    assert text[index..][0] == text[index] && text[index..][1..] == text[index + 1..];
    assert text[start..index] + [text[index]] == text[start..index + 1] && [text[index]] == text[index..index + 1];
  }

  /** With a budget of a token or more the loop packs its characters greedily. */
  lemma CutIsPacked(text: string, w: char -> nat, limit: int, current: string, cost: nat)
    requires forall c :: w(c) <= limit
    requires current == "" ==> cost == 0
    ensures text != "" || current != "" ==> CutOn(text, w, limit, current, cost) == Packed(text, w, limit, current, cost)
    decreases |text|
  {
    if text != "" {
      if cost + w(text[0]) > limit {
        CutIsPacked(text[1..], w, limit, [text[0]], w(text[0]));
      } else {
        CutIsPacked(text[1..], w, limit, current + [text[0]], cost + w(text[0]));
      }
    }
  }

  /**
   For every text and every budget of a token or more: the pieces make up the text, each
   estimates at most the budget, and of a text with anything in it no cut has fewer.
   */
  lemma {:induction false} CutIsLeast(text: string, budget: nat, wide: Wide)
    requires budget >= 1
    ensures var pieces := CutText(text, budget, wide);
            && Flat(pieces) == text
            && (forall p :: p in pieces ==> Estimate(p, wide) <= budget && (text != "" ==> p != ""))
            && (text != "" ==>
                  forall other: seq<string> :: Flat(other) == text && (forall p :: p in other ==> Estimate(p, wide) <= budget) ==>
                    |pieces| <= |other|)
  {
    var w, limit := Quarters(wide), 4 * budget;
    if text == "" {
      assert Flat([""]) == "" + Flat([]);
      EstimateIs("", wide);
    } else {
      CutIsPacked(text, w, limit, "", 0);
      PackedGroups(text, w, limit, "", 0);
      assert "" + text == text;
      var pieces := CutText(text, budget, wide);
      forall p | p in pieces ensures Estimate(p, wide) <= budget && p != "" { EstimateIs(p, wide); }
      forall other: seq<string> | Flat(other) == text && (forall p :: p in other ==> Estimate(p, wide) <= budget)
        ensures |pieces| <= |other|
      {
        forall p | p in other ensures Weight(p, w) <= limit { EstimateIs(p, wide); }
        assert "" + ("" + text) == text;
        PackedLeast(text, w, limit, "", 0, "", other);
      }
    }
  }

  // ---- packing the lines of a session ---------------------------------------------------

  const CUT_MARK := " [cut]"

  function Marked(pieces: seq<string>): (r: seq<string>)
    ensures |r| == |pieces| && forall i :: 0 <= i < |r| ==> r[i] == pieces[i] + CUT_MARK
  {
    if pieces == [] then [] else [pieces[0] + CUT_MARK] + Marked(pieces[1..])
  }

  /** A line as it is packed: whole, or in marked pieces. */
  function PiecesOf(line: string, room: int, wide: Wide): seq<string> {
    if Estimate(line, wide) < room then [line]
    else Marked(CutText(line, room - Estimate(CUT_MARK, wide) - 1, wide))
  }

  function AllPieces(lines: seq<string>, room: int, wide: Wide): seq<string> {
    if lines == [] then [] else PiecesOf(lines[0], room, wide) + AllPieces(lines[1..], room, wide)
  }

  /** What a piece takes of the room, with the newline joining it. */
  function Cost(wide: Wide): string -> nat { p => Estimate(p, wide) + 1 }

  function Chunks(groups: seq<seq<string>>): (r: seq<string>)
    ensures |r| == |groups| && forall i :: 0 <= i < |r| ==> r[i] == Joined(groups[i])
  {
    if groups == [] then [] else [Joined(groups[0])] + Chunks(groups[1..])
  }

  function Groups(lines: seq<string>, room: int, wide: Wide): seq<seq<string>> {
    Packed(AllPieces(lines, room, wide), Cost(wide), room, [], 0)
  }

  function PlannedChunks(lines: seq<string>, room: int, wide: Wide): seq<string> { Chunks(Groups(lines, room, wide)) }

  /** `plan_chunks`. */
  method PlanChunks(lines: seq<string>, room: int, wide: Wide) returns (chunks: seq<string>)
    ensures chunks == PlannedChunks(lines, room, wide)
  {
    hide Packed;
    hide AllPieces;
    hide Chunks;
    hide Joined;
    hide Estimate;
    chunks := [];
    var current: seq<string> := [];
    var used: nat := 0;
    var i := 0;
    PackFrom(lines, 0, [], room, wide);
    assert [] + AllPieces(lines, room, wide) == AllPieces(lines, room, wide) && lines[0..] == lines;
    while i < |lines|
      invariant 0 <= i <= |lines|
      invariant PlannedChunks(lines, room, wide) == chunks + Chunks(Packed([] + AllPieces(lines[i..], room, wide), Cost(wide), room, current, used))
    {
      var pieces;
      if Estimate(lines[i], wide) < room {
        pieces := [lines[i]];
      } else {
        pieces := Cut(lines[i], room - Estimate(CUT_MARK, wide) - 1, wide);
        pieces := Marked(pieces);
      }
      PackFrom(lines, i, pieces, room, wide);
      i := i + 1;
      var j := 0;
      assert pieces[0..] == pieces;
      while j < |pieces|
        invariant 0 <= j <= |pieces|
        invariant PlannedChunks(lines, room, wide)
               == chunks + Chunks(Packed(pieces[j..] + AllPieces(lines[i..], room, wide), Cost(wide), room, current, used))
      {
        var piece := pieces[j];
        var cost := Estimate(piece, wide) + 1;
        PackOne(pieces, j, AllPieces(lines[i..], room, wide), room, wide, current, used, chunks);
        if current != [] && used + cost > room {
          chunks := chunks + [Joined(current)];
          current, used := [], 0;
        }
        current := current + [piece];
        used := used + cost;
        j := j + 1;
      }
      assert pieces[j..] == [];
    }
    LastPack(lines[i..], room, wide, current, used, chunks);
    if current != [] { chunks := chunks + [Joined(current)]; }
  }

  lemma PackFrom(lines: seq<string>, i: nat, pieces: seq<string>, room: int, wide: Wide)
    requires i <= |lines|
    ensures i < |lines| && pieces == PiecesOf(lines[i], room, wide) ==>
      [] + AllPieces(lines[i..], room, wide) == pieces + AllPieces(lines[i + 1..], room, wide)
    ensures PlannedChunks(lines, room, wide) == [] + Chunks(Packed(AllPieces(lines, room, wide), Cost(wide), room, [], 0))
  {
    if i < |lines| {
      assert lines[i..][0] == lines[i] && lines[i..][1..] == lines[i + 1..];
      assert [] + AllPieces(lines[i..], room, wide) == AllPieces(lines[i..], room, wide);
    }
  }

  lemma PackOne(pieces: seq<string>, j: nat, later: seq<string>, room: int, wide: Wide, current: seq<string>, used: nat, chunks: seq<string>)
    requires j < |pieces|
    ensures var cost, rest := Estimate(pieces[j], wide) + 1, pieces[j + 1..] + later;
            chunks + Chunks(Packed(pieces[j..] + later, Cost(wide), room, current, used))
            == if current != [] && used + cost > room
               then (chunks + [Joined(current)]) + Chunks(Packed(rest, Cost(wide), room, [] + [pieces[j]], 0 + cost))
               else chunks + Chunks(Packed(rest, Cost(wide), room, current + [pieces[j]], used + cost))
  {
    var items := pieces[j..] + later;
    assert items[0] == pieces[j] && items[1..] == pieces[j + 1..] + later;
    assert [] + [pieces[j]] == [pieces[j]];
    hide Estimate;
    hide Joined;
  }

  lemma LastPack(none: seq<string>, room: int, wide: Wide, current: seq<string>, used: nat, chunks: seq<string>)
    requires none == []
    ensures chunks + Chunks(Packed([] + AllPieces(none, room, wide), Cost(wide), room, current, used))
         == if current == [] then chunks else chunks + [Joined(current)]
  {
    assert [] + AllPieces(none, room, wide) == [];
    assert current != [] ==> Chunks([current]) == [Joined(current)];
    assert chunks + [] == chunks;
  }

  // ---- what a plan keeps to ----------------------------------------------------------------

  /** The mark and the newline are narrow, as East Asian Width has them. */
  ghost predicate NarrowMarks(wide: Wide) {
    !wide('\n') && forall i :: 0 <= i < |CUT_MARK| ==> !wide(CUT_MARK[i])
  }

  lemma MarkIsTwo(wide: Wide)
    requires NarrowMarks(wide)
    ensures Weight(CUT_MARK, Quarters(wide)) == 6 && Estimate(CUT_MARK, wide) == 2
  {
    NoneWide(CUT_MARK, wide);
    WeightIs(CUT_MARK, wide);
  }

  lemma NoneWide(text: string, wide: Wide)
    requires forall i :: 0 <= i < |text| ==> !wide(text[i])
    ensures CountWide(text, wide) == 0
  {
  }

  /** Every piece of a line estimates below the room. */
  lemma PieceFits(line: string, room: nat, wide: Wide)
    requires NarrowMarks(wide) && room > 3
    ensures forall p :: p in PiecesOf(line, room, wide) ==> Estimate(p, wide) < room
  {
    MarkIsTwo(wide);
    if Estimate(line, wide) >= room {
      CutIsLeast(line, room - 3, wide);
      var cut := CutText(line, room - 3, wide);
      forall p | p in Marked(cut) ensures Estimate(p, wide) < room {
        var i :| 0 <= i < |cut| && Marked(cut)[i] == p;
        assert p == cut[i] + CUT_MARK && cut[i] in cut;
        MarkedFits(cut[i], room, wide);
      }
    }
  }

  lemma MarkedFits(piece: string, room: nat, wide: Wide)
    requires NarrowMarks(wide) && room > 3 && Estimate(piece, wide) <= room - 3
    ensures Estimate(piece + CUT_MARK, wide) < room
  {
    MarkIsTwo(wide);
    EstimateIs(piece, wide);
    WeightJoined(piece, CUT_MARK, Quarters(wide));
    EstimateIs(piece + CUT_MARK, wide);
  }

  lemma AllFit(lines: seq<string>, room: nat, wide: Wide)
    requires NarrowMarks(wide) && room > 3
    ensures forall p :: p in AllPieces(lines, room, wide) ==> Estimate(p, wide) < room
  {
    if lines != [] {
      PieceFits(lines[0], room, wide);
      AllFit(lines[1..], room, wide);
    }
  }

  /** Joined by newlines, the pieces of a group stay below what they were counted at. */
  lemma JoinedFits(group: seq<string>, wide: Wide)
    requires NarrowMarks(wide) && group != []
    ensures Weight(Joined(group), Quarters(wide)) + 3 < 4 * Weight(group, Cost(wide))
  {
    var w := Quarters(wide);
    EstimateIs(group[0], wide);
    if |group| == 1 {
      assert Weight(group, Cost(wide)) == Cost(wide)(group[0]) + Weight(group[1..], Cost(wide));
    } else {
      JoinedFits(group[1..], wide);
      WeightJoined("\n", Joined(group[1..]), w);
      WeightJoined(group[0], "\n" + Joined(group[1..]), w);
      assert Weight("\n", w) == w('\n') + Weight("\n"[1..], w);
    }
  }

  /** Without its mark a cut line is its pieces put together. */
  lemma {:induction false} PiecesGiveLine(line: string, room: nat, wide: Wide)
    requires NarrowMarks(wide) && room > 3
    ensures PiecesOf(line, room, wide) == [line]
            || exists raw: seq<string> :: Flat(raw) == line && PiecesOf(line, room, wide) == Marked(raw)
  {
    MarkIsTwo(wide);
    if Estimate(line, wide) >= room {
      CutIsLeast(line, room - 3, wide);
      var raw := CutText(line, room - 3, wide);
      assert Flat(raw) == line && PiecesOf(line, room, wide) == Marked(raw);
    }
  }

  /**
   For every list of lines and every room above three tokens: each chunk estimates below the
   room, the chunks are the pieces of the lines in order, and no packing of those pieces in
   order under the same cost makes fewer chunks.
   */
  lemma {:induction false} PlanIsLeast(lines: seq<string>, room: nat, wide: Wide)
    requires NarrowMarks(wide) && room > 3
    ensures forall c :: c in PlannedChunks(lines, room, wide) ==> Estimate(c, wide) < room
    ensures Flat(Groups(lines, room, wide)) == AllPieces(lines, room, wide)
    ensures |PlannedChunks(lines, room, wide)| == |Groups(lines, room, wide)|
    ensures forall i :: 0 <= i < |Groups(lines, room, wide)| ==>
      Groups(lines, room, wide)[i] != [] && PlannedChunks(lines, room, wide)[i] == Joined(Groups(lines, room, wide)[i])
    ensures forall other: seq<seq<string>> ::
      Flat(other) == AllPieces(lines, room, wide) && (forall g :: g in other ==> Weight(g, Cost(wide)) <= room) ==>
        |PlannedChunks(lines, room, wide)| <= |other|
  {
    var pieces, groups, cost := AllPieces(lines, room, wide), Groups(lines, room, wide), Cost(wide);
    AllFit(lines, room, wide);
    forall i | 0 <= i < |pieces| ensures cost(pieces[i]) <= room { assert pieces[i] in pieces; }
    PackedGroups(pieces, cost, room, [], 0);
    assert [] + pieces == pieces;
    forall i | 0 <= i < |groups| ensures Estimate(Joined(groups[i]), wide) < room && groups[i] != [] {
      assert groups[i] in groups;
      JoinedFits(groups[i], wide);
      EstimateIs(Joined(groups[i]), wide);
    }
    forall other: seq<seq<string>> | Flat(other) == pieces && (forall g :: g in other ==> Weight(g, cost) <= room)
      ensures |groups| <= |other|
    {
      assert [] + ([] + pieces) == pieces;
      PackedLeast(pieces, cost, room, [], 0, [], other);
    }
    hide Packed;
    hide AllPieces;
    hide Joined;
    hide Estimate;
  }
}
