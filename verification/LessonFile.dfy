/**
  A lesson document: frontmatter between two marker lines, then the
  operator's body. Reading it, and rewriting single fields in place
  (twill_lessons.py).
 */
module LessonFile {
  import opened Prelude
  import opened Sequences
  import opened PyText
  import opened JsonText
  import opened Inline
  import opened InlineParser

  type FieldMap = map<string, Value>

  // ---------------------------------------------------------------------
  // One frontmatter line
  // ---------------------------------------------------------------------

  /** `line.rstrip("\r\n") == "---"`, for a line of text without carriage returns. */
  predicate IsMarker(line: string) {
    line == "---\n" || line == "---"
  }

  /** Where the first colon is, or the end. */
  function Colon(line: string): (n: nat)
    ensures n <= |line| && (n < |line| ==> line[n] == ':')
    ensures forall i :: 0 <= i < n ==> line[i] != ':'
  {
    if line == "" || line[0] == ':' then 0 else 1 + Colon(line[1..])
  }

  /** `line.split(":", 1)[0].strip()`. */
  function FieldName(line: string): string {
    Strip(line[..Colon(line)])
  }

  /** A blank line or a comment. */
  predicate Skipped(line: string) {
    Strip(line) == "" || Strip(line)[0] == '#'
  }

  /** It starts at its first column, has a colon, and names an identifier. */
  predicate NamesField(line: string) {
    line != "" && !IsSpace(line[0]) && Colon(line) < |line| && Identifier(FieldName(line))
  }

  function RawValue(line: string): string
    requires Colon(line) < |line|
  {
    Strip(line[Colon(line) + 1..])
  }

  /** The field on a line, or None when it has none the format allows. */
  function FieldOf(line: string): Option<(string, Value)> {
    if !NamesField(line) then None
    else match Parse(RawValue(line))
         case None => None
         case Some(v) => Some((FieldName(line), v))
  }

  /** What one line does to the fields read so far; None ends the reading with an error. */
  function Take(line: string, fields: FieldMap): Option<FieldMap> {
    if Skipped(line) then Some(fields)
    else match FieldOf(line)
         case None => None
         case Some((key, v)) => if key in fields then None else Some(fields[key := v])
  }

  type Taker = (string, FieldMap) -> Option<FieldMap>

  function FoldLines(take: Taker, lines: seq<string>, fields: FieldMap): Option<FieldMap> {
    if lines == [] then Some(fields)
    else match take(lines[0], fields)
         case None => None
         case Some(more) => FoldLines(take, lines[1..], more)
  }

  function TakeAll(lines: seq<string>, fields: FieldMap): Option<FieldMap> {
    FoldLines(Take, lines, fields)
  }

  // ---------------------------------------------------------------------
  // The document
  // ---------------------------------------------------------------------

  datatype Document = Document(fields: FieldMap, opening: string, lines: seq<string>, closing: string, body: string)

  function FirstMarker(lines: seq<string>): (n: nat)
    ensures n <= |lines| && (n < |lines| ==> IsMarker(lines[n]))
    ensures forall i :: 0 <= i < n ==> !IsMarker(lines[i])
  {
    if lines == [] || IsMarker(lines[0]) then 0 else 1 + FirstMarker(lines[1..])
  }

  /** `_read_document`; None is any of its errors. */
  function ReadDocument(text: string): Option<Document> {
    var lines := SplitLines(text);
    if lines == [] || !IsMarker(lines[0]) then None
    else
      var after := lines[1..];
      var n := FirstMarker(after);
      if n == |after| then None
      else match TakeAll(after[..n], map[])
           case None => None
           case Some(fields) => Some(Document(fields, lines[0], after[..n], after[n], Concat(after[n + 1..])))
  }

  method ReadField(line: string) returns (r: Option<(string, Value)>)
    ensures r == FieldOf(line)
  {
    if !NamesField(line) {
      return None;
    }
    var raw := RawValue(line);
    var v := ParseInline(raw);
    r := if v.None? then None else Some((FieldName(line), v.value));
  }

  method TakeLine(line: string, fields: FieldMap) returns (r: Option<FieldMap>)
    ensures r == Take(line, fields)
  {
    if Skipped(line) {
      return Some(fields);
    }
    var field := ReadField(line);
    if field.None? || field.value.0 in fields {
      return None;
    }
    r := Some(fields[field.value.0 := field.value.1]);
  }

  /** The loop over the frontmatter lines. */
  method TakeLines(lines: seq<string>) returns (r: Option<FieldMap>)
    ensures r == TakeAll(lines, map[])
  {
    var fields: FieldMap := map[];
    for i := 0 to |lines|
      invariant TakeAll(lines, map[]) == TakeAll(lines[i..], fields)
    {
      DropOne(lines, i);
      var more := TakeLine(lines[i], fields);
      if more.None? {
        return None;
      }
      fields := more.value;
    }
    r := Some(fields);
  }

  method Read(text: string) returns (r: Option<Document>)
    ensures r == ReadDocument(text)
  {
    var lines := SplitLines(text);
    if lines == [] || !IsMarker(lines[0]) {
      return None;
    }
    var after := lines[1..];
    var n := FirstMarker(after);
    if n == |after| {
      return None;
    }
    var fields := TakeLines(after[..n]);
    if fields.None? {
      return None;
    }
    r := Some(Document(fields.value, lines[0], after[..n], after[n], Concat(after[n + 1..])));
  }

  // ---------------------------------------------------------------------
  // Rewriting fields
  // ---------------------------------------------------------------------

  /** The newline a rewritten line keeps; any other terminator is dropped. */
  function Ending(line: string): string {
    if line != "" && line[|line| - 1] == '\n' then "\n" else ""
  }

  function Rewritten(key: string, rendered: string, line: string): string {
    key + ": " + rendered + Ending(line)
  }

  function Names(lines: seq<string>): (names: seq<string>)
    ensures |names| == |lines| && forall i :: 0 <= i < |names| ==> names[i] == FieldName(lines[i])
  {
    seq(|lines|, i requires 0 <= i < |lines| => FieldName(lines[i]))
  }

  ghost predicate OnlyPlace(names: seq<string>, key: string, i: nat) {
    && i < |names| && names[i] == key
    && forall j :: 0 <= j < |names| && names[j] == key ==> j == i
  }

  method OnlyOccurrence(names: seq<string>, key: string) returns (r: Option<nat>)
    ensures match r
            case Some(i) => OnlyPlace(names, key, i)
            case None => forall i: nat :: !OnlyPlace(names, key, i)
  {
    var matches := Occurrences(names, key);
    if |matches| == 1 {
      forall j | 0 <= j < |names| && names[j] == key ensures j == matches[0] {
        assert j in matches;
      }
      return Some(matches[0]);
    }
    forall i: nat ensures !OnlyPlace(names, key, i) {
      if |matches| > 1 {
        assert matches[0] != matches[1];
      } else {
        assert forall m :: m !in matches;
      }
    }
    return None;
  }

  /** One update of `_replace_fields`: the one line that names the field, or an error. */
  method ReplaceField(lines: seq<string>, key: string, rendered: string) returns (r: Option<seq<string>>)
    ensures r.Some? <==> exists i: nat :: OnlyPlace(Names(lines), key, i)
    ensures forall i: nat ::
              OnlyPlace(Names(lines), key, i) ==> r == Some(lines[i := Rewritten(key, rendered, lines[i])])
  {
    var place := OnlyOccurrence(Names(lines), key);
    if place.None? {
      return None;
    }
    var i := place.value;
    r := Some(lines[i := Rewritten(key, rendered, lines[i])]);
  }

  // ---------------------------------------------------------------------
  // Reading line by line
  // ---------------------------------------------------------------------

  /** Fields and the lines after the closing marker, found in one pass. */
  function FrontWith(take: Taker, lines: seq<string>, fields: FieldMap): Option<(FieldMap, seq<string>)> {
    if lines == [] then None
    else if IsMarker(lines[0]) then Some((fields, lines[1..]))
    else match take(lines[0], fields)
         case None => None
         case Some(more) => FrontWith(take, lines[1..], more)
  }

  function ReadFront(lines: seq<string>, fields: FieldMap): Option<(FieldMap, seq<string>)> {
    FrontWith(Take, lines, fields)
  }

  lemma {:induction false} FrontIsFieldsThenMarker(take: Taker, lines: seq<string>, fields: FieldMap)
    ensures var n := FirstMarker(lines);
            FrontWith(take, lines, fields)
            == if n == |lines| || FoldLines(take, lines[..n], fields).None? then None
               else Some((FoldLines(take, lines[..n], fields).value, lines[n + 1..]))
  {
    if lines != [] && !IsMarker(lines[0]) {
      var n := FirstMarker(lines);
      TakeThenDrop(lines, n);
      var next := take(lines[0], fields);
      if next.Some? {
        FrontIsFieldsThenMarker(take, lines[1..], next.value);
      }
    }
  }

  function FrontOf(text: string): Option<(FieldMap, seq<string>)> {
    var lines := SplitLines(text);
    if lines == [] || !IsMarker(lines[0]) then None else ReadFront(lines[1..], map[])
  }

  /** A document reads exactly when its front does, with the same fields and body. */
  lemma DocumentIsFront(text: string)
    ensures ReadDocument(text).Some? <==> FrontOf(text).Some?
    ensures FrontOf(text).Some? ==>
              && ReadDocument(text).value.fields == FrontOf(text).value.0
              && ReadDocument(text).value.body == Concat(FrontOf(text).value.1)
  {
    var lines := SplitLines(text);
    if lines != [] {
      FrontIsFieldsThenMarker(Take, lines[1..], map[]);
    }
  }

  /** A field once taken stays. */
  ghost predicate Accumulates(take: Taker) {
    forall line, fields, key ::
      key in fields && take(line, fields).Some? ==>
        key in take(line, fields).value && take(line, fields).value[key] == fields[key]
  }

  lemma {:induction false} FrontKeepsFields(take: Taker, lines: seq<string>, fields: FieldMap, key: string)
    requires Accumulates(take) && key in fields && FrontWith(take, lines, fields).Some?
    ensures var all := FrontWith(take, lines, fields).value.0; key in all && all[key] == fields[key]
  {
    if !IsMarker(lines[0]) {
      FrontKeepsFields(take, lines[1..], take(lines[0], fields).value, key);
    }
  }

  lemma TakeAccumulates()
    ensures Accumulates(Take)
  {}
}
