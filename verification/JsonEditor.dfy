/**
 `json_object_remove` and the element removal of `hook_array_identity_remove` on whole
 files. `RemovalIsExact` is the main result: for every text, an answer is either the text
 unchanged or the text with one span cut out, which is a document again and denotes the
 parsed document without the removed item.
 */
module JsonEditor {
  import opened Basics
  import opened PyText
  import opened JsonText
  import opened JsonScan
  import opened JsonSplice
  import opened JsonRemoval

  datatype EditError = NoKeyPath | NotJson | DuplicateName | NotAnObject | Unlocated

  datatype Edit = Edit(rendered: string, changed: bool)

  type Answer = Result<Edit, EditError>

  /** `_parse_json_object`: blank text is the empty object. */
  function ParseObject(source: string, decode: Decode): Result<Doc, EditError> {
    if Blank(source) then Ok(Doc("", Empty(true, ""), ""))
    else
      match Parse(source)
      case None => Err(NotJson)
      case Some(d) =>
        if !NoDuplicates(d.value, decode) then Err(DuplicateName)
        else if !Denote(d.value, decode).Object? then Err(NotAnObject)
        else Ok(d)
  }

  ghost predicate Spells(d: Doc, source: string) { DocOk(d) && DocText(d) == source }

  /** A text is read as the one document it spells, and refused for exactly one of three reasons. */
  lemma ObjectParsed(source: string, decode: Decode, d: Doc)
    ensures !Blank(source) && Spells(d, source) ==>
              ParseObject(source, decode)
              == if !NoDuplicates(d.value, decode) then Err(DuplicateName) else if Denote(d.value, decode).Object? then Ok(d) else Err(NotAnObject)
    ensures !Blank(source) && (forall e :: !Spells(e, source)) ==> ParseObject(source, decode) == Err(NotJson)
    ensures Blank(source) ==>
              ParseObject(source, decode).Ok? && Denote(ParseObject(source, decode).value.value, decode) == Object([])
  {
    if DocOk(d) { ParsePrinted(d); }
    if Parse(source).Some? { assert Spells(Parse(source).value, source); }
  }

  /** What a removal is on documents: the text of the tree without the target. */
  function Removed(source: string, decode: Decode, path: seq<string>, t: Target): Answer {
    match ParseObject(source, decode)
    case Err(e) => Err(e)
    case Ok(d) =>
      match RemovePath(d.value, decode, path, t)
      case None => Ok(Edit(source, false))
      case Some(w) => Ok(Edit(DocText(d.(value := w)), true))
  }

  /** The parsed document decides what goes, the scanner where it is, and the rest is copied. */
  method Remove(source: string, decode: Decode, path: seq<string>, t: Target) returns (r: Answer)
    ensures r == Removed(source, decode, path, t)
  {
    var parsed := ParseObject(source, decode);
    if parsed.Err? { return Err(parsed.error); }
    if JsonRemove(Denote(parsed.value.value, decode), path, t).None? {
      PresentIffRemovable(source, decode, path, t);
      return Ok(Edit(source, false));
    }
    PresentIffRemovable(source, decode, path, t);
    CutIsRemoved(source, decode, path, t);
    var span := FindSpan(source, decode, path, t);
    if span.None? { return Err(Unlocated); }
    var rendered := source[..span.value.0] + source[span.value.1..];
    r := match ParseObject(rendered, decode)
      case Err(e) => Err(e)
      case Ok(_) => Ok(Edit(rendered, true));
  }

  /** `json_object_remove`. */
  method JsonObjectRemove(source: string, decode: Decode, keyPath: seq<string>) returns (r: Answer)
    ensures keyPath == [] ==> r == Err(NoKeyPath)
    ensures keyPath != [] ==> r == Removed(source, decode, keyPath[..|keyPath| - 1], Member(keyPath[|keyPath| - 1]))
  {
    if keyPath == [] { return Err(NoKeyPath); }
    r := Remove(source, decode, keyPath[..|keyPath| - 1], Member(keyPath[|keyPath| - 1]));
  }

  lemma PresentIffRemovable(source: string, decode: Decode, path: seq<string>, t: Target)
    requires ParseObject(source, decode).Ok?
    ensures var v := ParseObject(source, decode).value.value;
            RemovePath(v, decode, path, t).Some? <==> JsonRemove(Denote(v, decode), path, t).Some?
    ensures RemovePath(ParseObject(source, decode).value.value, decode, path, t).Some? ==> !Blank(source)
  {
    RemovedDenotes(ParseObject(source, decode).value.value, decode, path, t);
  }

  /** Names stay distinct. */
  lemma RemovedDistinct(v: Value, decode: Decode, path: seq<string>, t: Target)
    requires ValueOk(v) && NoDuplicates(v, decode) && RemovePath(v, decode, path, t).Some?
    ensures NoDuplicates(RemovePath(v, decode, path, t).value, decode)
    decreases |path|
  {
    PathParts(v, decode, path, t);
    if path == [] {
      var j := TargetIndex(v, decode, t).value;
      if Count(v.items) >= 2 { RemoveItemDistinct(v.items, decode, v.obj, j); }
    } else {
      var j := Find(v.items, decode, path[0]).value;
      NthDistinct(v.items, decode, v.obj, j);
      RemovedDistinct(Nth(v.items, j).value, decode, path[1..], t);
      ReplaceNthDistinct(v.items, decode, v.obj, j, RemovePath(Nth(v.items, j).value, decode, path[1..], t).value);
    }
  }

  lemma RemoveItemDistinct(items: Items, decode: Decode, named: bool, j: nat)
    requires ItemsDistinct(items, decode, named) && ItemsOk(items, named) && Count(items) >= 2 && j < Count(items)
    ensures ItemsDistinct(RemoveItem(items, j), decode, named)
    ensures forall name :: Find(items, decode, name).None? ==> Find(RemoveItem(items, j), decode, name).None?
    decreases items
  {
    if j > 0 && items.rest.More? {
      RemoveItemDistinct(items.rest, decode, named, j - 1);
    }
  }

  lemma ReplaceNthDistinct(items: Items, decode: Decode, named: bool, j: nat, w: Value)
    requires ItemsDistinct(items, decode, named) && ItemsOk(items, named) && j < Count(items) && NoDuplicates(w, decode)
    ensures ItemsDistinct(ReplaceNth(items, j, w), decode, named)
    ensures forall name :: Find(ReplaceNth(items, j, w), decode, name) == Find(items, decode, name)
    decreases items
  {
    if items.More? && j > 0 {
      ReplaceNthDistinct(items.rest, decode, named, j - 1, w);
    }
  }

  /** The located bytes cut out leave exactly the text of the smaller document. */
  lemma CutIsRemoved(source: string, decode: Decode, path: seq<string>, t: Target)
    requires ParseObject(source, decode).Ok? && !Blank(source)
    requires RemovePath(ParseObject(source, decode).value.value, decode, path, t).Some?
    ensures var d := ParseObject(source, decode).value;
            var d' := d.(value := RemovePath(d.value, decode, path, t).value);
            var span := Locate(source, decode, 0, path, t);
            && span.Some? && Fits(source, span.value) && Cut(source, span.value) == DocText(d')
            && DocOk(d') && ParseObject(DocText(d'), decode) == Ok(d')
  {
    var d := ParseObject(source, decode).value;
    var n := |d.lead|;
    assert source == d.lead + ValueText(d.value, d.trail);
    AtSkip(source, 0, d.lead, ValueText(d.value, d.trail));
    CutAlong(d.value, decode, path, t, source, n, d.trail);
    ValueTextHead(d.value, d.trail);
    SkipWsAt(source, 0, d.lead, ValueText(d.value, d.trail));
    LeadSkipped(source, decode, n, path, t);
    RemovedDistinct(d.value, decode, path, t);
    PathParts(d.value, decode, path, t);
    StillAnObject(d, decode, path, t);
  }

  lemma LeadSkipped(s: string, decode: Decode, n: nat, path: seq<string>, t: Target)
    requires n <= |s| && SkipWs(s, 0) == n
    ensures Locate(s, decode, 0, path, t) == Locate(s, decode, n, path, t)
  {
    SkippedTwice(s, 0);
    assert ContainerAt(s, decode, 0) == ContainerAt(s, decode, n);
  }

  lemma StillAnObject(d: Doc, decode: Decode, path: seq<string>, t: Target)
    requires DocOk(d) && RemovePath(d.value, decode, path, t).Some? && Denote(d.value, decode).Object?
    requires ValueOk(RemovePath(d.value, decode, path, t).value)
    requires NoDuplicates(RemovePath(d.value, decode, path, t).value, decode)
    ensures var d' := d.(value := RemovePath(d.value, decode, path, t).value);
            ParseObject(DocText(d'), decode) == Ok(d')
  {
    var w := RemovePath(d.value, decode, path, t).value;
    var d' := d.(value := w);
    PathParts(d.value, decode, path, t);
    ParsePrinted(d');
    assert Denote(w, decode).Object?;
    ContainerNotBlank(d');
  }

  lemma ContainerNotBlank(d: Doc)
    requires d.value.Empty? || d.value.Filled?
    ensures !Blank(DocText(d))
  {
    var t := ValueText(d.value, d.trail);
    assert t[0] == '{' || t[0] == '[';
    assert DocText(d)[|d.lead|] == t[0];
  }

  /**
   For every text, decoding of names, key path and target: an error only for a text that is
   not a document with distinct names and an object at the top; the text unchanged when the
   target is absent; and otherwise the text with one span of bytes cut out, which parses to
   the parsed document without the target.
   */
  lemma RemovalIsExact(source: string, decode: Decode, path: seq<string>, t: Target)
    ensures Removed(source, decode, path, t).Err? <==> ParseObject(source, decode).Err?
    ensures ParseObject(source, decode).Ok? ==>
      var v := ParseObject(source, decode).value.value;
      var after := JsonRemove(Denote(v, decode), path, t);
      match Removed(source, decode, path, t)
      case Err(_) => false
      case Ok(edit) =>
        if after.None? then edit == Edit(source, false)
        else
          && edit.changed
          && (exists span: Bytes :: Fits(source, span) && edit.rendered == Cut(source, span))
          && ParseObject(edit.rendered, decode).Ok?
          && Denote(ParseObject(edit.rendered, decode).value.value, decode) == after.value
  {
    if ParseObject(source, decode).Ok? {
      var d := ParseObject(source, decode).value;
      PresentIffRemovable(source, decode, path, t);
      RemovedDenotes(d.value, decode, path, t);
      if RemovePath(d.value, decode, path, t).Some? {
        CutIsRemoved(source, decode, path, t);
        var span := Locate(source, decode, 0, path, t).value;
        assert Fits(source, span) && Removed(source, decode, path, t).value.rendered == Cut(source, span);
      }
    }
  }
}
