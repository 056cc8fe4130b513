/**
 `_re2_to_python`: one pass over the pattern text, with a stack of the flag groups still
 open at each depth. `Scan` is the pass on a remaining text; `Translate` is the loop. The
 lemmas say what the pass writes for the text of any pattern tree: the text of `ToPython`
 of that tree.
 */
module RegexScan {
  import opened Basics
  import opened RegexSyntax

  type Out = Result<string, string>   // the translated text, or the class name refused

  const TAB := '\t'
  const VT: char := 11 as char
  const FF: char := 12 as char

  /** The ASCII expansion of a named class; None for a name the table does not have. */
  function PosixText(name: string): (r: Option<string>) {
    if name == "alnum" then Some("a-zA-Z0-9")
    else if name == "alpha" then Some("a-zA-Z")
    else if name == "digit" then Some("0-9")
    else if name == "lower" then Some("a-z")
    else if name == "upper" then Some("A-Z")
    else if name == "xdigit" then Some("0-9A-Fa-f")
    else if name == "space" then Some([TAB, '\n', VT, FF, '\r', ' '])
    else if name == "word" then Some("0-9A-Za-z_")
    else None
  }

  /** The flags of a whole `(?flags)` group at the start of `s`, as `_FLAG_GROUP_RE` matches it. */
  function FlagGroup(s: string): (r: Option<string>)
    ensures r.Some? ==> |r.value| + 3 <= |s| && s[2..][..|r.value|] == r.value
  {
    if |s| < 2 || s[0] != '(' || s[1] != '?' then None else FlagBody(s[2..])
  }

  /** The flags `t` starts with when a `)` follows them directly. */
  function FlagBody(t: string): (r: Option<string>)
    ensures r.Some? ==> |r.value| + 1 <= |t| && t[..|r.value|] == r.value
  {
    var k := Run(t);
    if k > 0 && k < |t| && t[k] == ')' then Some(t[..k])
    else if k < |t| && t[k] == '-' then
      var m := Run(t[k + 1..]);
      if m > 0 && k + 1 + m < |t| && t[k + 1 + m] == ')' then Some(t[..k + 1 + m]) else None
    else None
  }

  /** The index of the first `:]` at or after `from`. */
  function FindClose(s: string, from: nat): (r: Option<nat>)
    requires from <= |s|
    ensures r.Some? ==> from <= r.value && r.value + 2 <= |s|
    decreases |s| - from
  {
    if from + 2 > |s| then None
    else if s[from] == ':' && s[from + 1] == ']' then Some(from)
    else FindClose(s, from + 1)
  }

  function Closers(n: nat, k: string): string {
    if n == 0 then k else ")" + Closers(n - 1, k)
  }

  function Opener(flags: string, k: string): string { "(?" + (flags + (":" + k)) }

  function Openers(open: seq<string>, k: string): string {
    if open == [] then k else Opener(open[0], Openers(open[1..], k))
  }

  function Put(text: string, r: Out): Out {
    if r.Err? then r else Ok(text + r.value)
  }

  /** How much of a bracket expression's head (`[`, `^`, a first `]`) is copied at once. */
  function HeadLength(s: string): (k: nat)
    requires s != ""
    ensures 1 <= k <= |s|
  {
    var k := if |s| > 1 && s[1] == '^' then 2 else 1;
    if k < |s| && s[k] == ']' then k + 1 else k
  }

  /** One turn of the pass: what it writes, how much it reads, and the state it leaves. */
  datatype Turn =
    | Refused(name: string)
    | Go(piece: string, taken: nat, inClass: bool, open: seq<string>, outer: seq<seq<string>>)

  /**
   One turn on the remaining text `s`. `open` is the innermost frame and `outer` the frames
   below it; `first` says nothing was read yet.
   */
  function TurnOf(s: string, first: bool, inClass: bool, open: seq<string>, outer: seq<seq<string>>): (t: Turn)
    requires s != ""
    ensures t.Go? ==> 1 <= t.taken <= |s|
  {
    if s[0] == '\\' && |s| > 1 then
      Go(if s[1] == 'z' && !inClass then "\\Z" else s[..2], 2, inClass, open, outer)
    else if inClass then
      if s[0] == '[' && |s| > 1 && s[1] == ':' && FindClose(s, 2).Some? then
        var end := FindClose(s, 2).value;
        match PosixText(s[2..end])
        case Some(text) => Go(text, end + 2, true, open, outer)
        case None => Refused(s[2..end])
      else Go([s[0]], 1, s[0] != ']', open, outer)
    else if s[0] == '[' then
      Go(s[..HeadLength(s)], HeadLength(s), true, open, outer)
    else if s[0] == '(' then
      match FlagGroup(s)
      case Some(flags) =>
        if first then Go(s[..|flags| + 3], |flags| + 3, false, open, outer)
        else Go(Opener(flags, ""), |flags| + 3, false, open + [flags], outer)
      case None => Go("(", 1, false, [], outer + [open])
    else if s[0] == ')' && outer != [] then
      Go(Closers(|open|, ")"), 1, false, outer[|outer| - 1], outer[..|outer| - 1])
    else if s[0] == '|' then
      Go(Closers(|open|, "|" + Openers(open, "")), 1, false, open, outer)
    else Go([s[0]], 1, false, open, outer)
  }

  /** What the pass writes for the remaining text `s`. */
  function Scan(s: string, first: bool, inClass: bool, open: seq<string>, outer: seq<seq<string>>): Out
    decreases |s|
  {
    if s == "" then Ok(Closers(|if outer == [] then open else outer[0]|, ""))
    else
      match TurnOf(s, first, inClass, open, outer)
      case Refused(name) => Err(name)
      case Go(piece, taken, c, o, u) => Put(piece, Scan(s[taken..], false, c, o, u))
  }

  lemma PutPut(a: string, b: string, r: Out)
    ensures Put(a, Put(b, r)) == Put(a + b, r)
  {
    if r.Ok? {
      assert a + (b + r.value) == (a + b) + r.value;
    }
  }

  lemma PutNothing(r: Out)
    ensures Put("", r) == r
  {
    if r.Ok? {
      assert "" + r.value == r.value;
    }
  }

  /** The scanner's loop: the body is one turn, `ReadOne`. */
  method Translate(pattern: string) returns (r: Out)
    ensures r == Scan(pattern, true, false, [], [])
  {
    var out: string := "";
    var frames: seq<seq<string>> := [[]];
    var inClass := false;
    var i, n := 0, |pattern|;
    assert pattern[0..] == pattern && frames[..|frames| - 1] == [];
    PutNothing(Scan(pattern, true, false, [], []));
    while i < n
      invariant 0 <= i <= n && frames != []
      invariant Scan(pattern, true, false, [], [])
             == Put(out, Scan(pattern[i..], i == 0, inClass, frames[|frames| - 1], frames[..|frames| - 1]))
      decreases n - i
    {
      var piece, next, refused;
      piece, next, inClass, frames, refused := ReadOne(pattern, i, inClass, frames);
      if refused.Some? {
        return Err(refused.value);
      }
      assert pattern[i..][next - i..] == pattern[next..];
      PutPut(out, piece, Scan(pattern[next..], false, inClass, frames[|frames| - 1], frames[..|frames| - 1]));
      out := out + piece;
      i := next;
    }
    out := out + Closers(|frames[0]|, "");
    return Ok(out);
  }

  method ReadOne(pattern: string, i: nat, wasInClass: bool, oldFrames: seq<seq<string>>)
    returns (piece: string, next: nat, inClass: bool, frames: seq<seq<string>>, refused: Option<string>)
    requires i < |pattern| && oldFrames != []
    ensures frames != []
    ensures var t := TurnOf(pattern[i..], i == 0, wasInClass, oldFrames[|oldFrames| - 1], oldFrames[..|oldFrames| - 1]);
            if refused.Some? then t == Refused(refused.value)
            else next > i && t == Go(piece, next - i, inClass, frames[|frames| - 1], frames[..|frames| - 1])
  {
    var n := |pattern|;
    var ch, s := pattern[i], pattern[i..];
    frames, inClass, refused := oldFrames, wasInClass, None;
    var open, outer := frames[|frames| - 1], frames[..|frames| - 1];
    piece, next := [ch], i + 1;
    if ch == '\\' && i + 1 < n {
      piece := if pattern[i + 1] == 'z' && !inClass then "\\Z" else s[..2];
      next := i + 2;
    } else if inClass {
      if ch == '[' && i + 1 < n && pattern[i + 1] == ':' && FindClose(s, 2).Some? {
        var end := FindClose(s, 2).value;
        match PosixText(s[2..end]) {
          case Some(text) => piece, next := text, i + end + 2;
          case None => refused := Some(s[2..end]);
        }
      } else if ch == ']' {
        inClass := false;
      }
    } else if ch == '[' {
      inClass := true;
      if next < n && pattern[next] == '^' {
        piece, next := piece + [pattern[next]], next + 1;
      }
      if next < n && pattern[next] == ']' {
        piece, next := piece + [pattern[next]], next + 1;
      }
      assert piece == s[..HeadLength(s)];
    } else if ch == '(' {
      match FlagGroup(s) {
        case Some(flags) =>
          next := i + |flags| + 3;
          if i == 0 {
            piece := s[..|flags| + 3];
          } else {
            piece := Opener(flags, "");
            frames := frames[|frames| - 1 := open + [flags]];
            assert frames[..|frames| - 1] == outer;
          }
        case None =>
          frames := frames + [[]];
          assert frames[..|frames| - 1] == outer + [open];
      }
    } else if ch == ')' {
      if |frames| > 1 {
        frames := frames[..|frames| - 1];
        piece := Closers(|open|, ")");
      }
    } else if ch == '|' {
      piece := Closers(|open|, "|" + Openers(open, ""));
    }
  }
}
