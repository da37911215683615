// Lists of exceptions as people write them - indented, with plain or quoted values, comments
// and headings - and what the parser makes of them.
module AuditPrinter {
  import opened Common
  import opened AuditText
  import opened AuditParser

  datatype Style = Plain | Single | Double

  // A field as it is written on a line.
  datatype Line = Line(indent: string, kv: KV, style: Style)

  // A record as it is written down: its fields in order.
  type Fields = seq<Line>

  // The dict that the fields fill: a later field with the same key wins.
  function Extend(r: Record, fields: Fields): Record
    decreases |fields|
  {
    if fields == [] then r else Extend(r[fields[0].kv.key := fields[0].kv.value], fields[1..])
  }

  function AsRecord(fields: Fields): Record { Extend(map[], fields) }

  function AsRecords(records: seq<Fields>): seq<Record> {
    if records == [] then [] else [AsRecord(records[0])] + AsRecords(records[1..])
  }

  // ---- printing --------------------------------------------------------------------

  function Text(l: Line): string {
    match l.style
    case Plain => l.kv.value
    case Single => "'" + l.kv.value + "'"
    case Double => "\"" + l.kv.value + "\""
  }

  function PrintLine(l: Line): string { l.indent + l.kv.key + ": " + Text(l) }

  function PrintFirst(l: Line): string { l.indent + "- " + l.kv.key + ": " + Text(l) }

  function PrintFields(fields: Fields): seq<string> {
    if fields == [] then [] else [PrintLine(fields[0])] + PrintFields(fields[1..])
  }

  function PrintRecord(fields: Fields): seq<string> {
    if fields == [] then [] else [PrintFirst(fields[0])] + PrintFields(fields[1..])
  }

  function PrintRecords(records: seq<Fields>): seq<string> {
    if records == [] then [] else PrintRecord(records[0]) + PrintRecords(records[1..])
  }

  // Keys that survive in any position: trimmed, without colon or line break.
  predicate PlainKey(key: string) {
    Trimmed(key) && ':' !in key && OneLine(key)
  }

  // Keys that also survive on a line of their own: such a line is not skipped, and does
  // not begin a new record.
  predicate LineKey(key: string) {
    PlainKey(key) && key != "version" && key != "exceptions" && !StartsWith(key, "#") && !StartsWith(key, "- ")
  }

  // Values that can be written without quotes.
  predicate PlainValue(v: string) { Trimmed(v) && !IsQuoted(v) }

  predicate Writable(l: Line) {
    AllSpaces(l.indent) && OneLine(l.indent) && PlainKey(l.kv.key) && OneLine(l.kv.value)
    && (l.style.Plain? ==> PlainValue(l.kv.value))
  }

  predicate Printable(fields: Fields) {
    && fields != [] && (forall l <- fields :: Writable(l))
    && forall i :: 0 < i < |fields| ==> LineKey(fields[i].kv.key)
  }

  // ---- reading one line ------------------------------------------------------------

  // A printed line without the spaces around it.
  function Body(l: Line): string { l.kv.key + ":" + if Text(l) == "" then "" else " " + Text(l) }

  lemma TextTrimmed(l: Line)
    requires Writable(l)
    ensures Trimmed(Text(l)) && OneLine(Text(l))
  {
  }

  lemma BodyTrimmed(l: Line)
    requires Writable(l)
    ensures Trimmed(Body(l)) && |Body(l)| > |l.kv.key| && Body(l)[|l.kv.key|] == ':' && Body(l)[..|l.kv.key|] == l.kv.key
  {
    TextTrimmed(l);
    var body := Body(l);
    assert body[0] == if l.kv.key == "" then ':' else l.kv.key[0];
    if Text(l) != "" { assert body[|body| - 1] == Text(l)[|Text(l)| - 1]; }
  }

  lemma StripTrimmed(s: string)
    requires Trimmed(s)
    ensures Strip(s) == s
  {
    StripOf("", s, "");
    assert "" + s + "" == s;
  }

  // Stripping a printed line leaves its body; on a first line, behind the dash.
  lemma StripPrinted(l: Line)
    requires Writable(l)
    ensures Strip(PrintLine(l)) == Body(l)
    ensures Strip(PrintFirst(l)) == "- " + Body(l)
  {
    BodyTrimmed(l);
    var body, end := Body(l), if Text(l) == "" then " " else "";
    var first := "- " + body;
    assert l.kv.key + ": " + Text(l) == body + end;
    assert "- " + l.kv.key + ": " + Text(l) == first + end;
    assert PrintLine(l) == l.indent + (l.kv.key + ": " + Text(l));
    assert PrintFirst(l) == l.indent + ("- " + l.kv.key + ": " + Text(l));
    assert first[|first| - 1] == body[|body| - 1];
    hide Body, PrintLine, PrintFirst, Text, Strip, Writable;
    Assoc(l.indent, body, end);
    Assoc(l.indent, first, end);
    StripOf(l.indent, body, end);
    StripOf(l.indent, first, end);
  }

  lemma Assoc(a: string, b: string, c: string)
    ensures a + (b + c) == a + b + c
  {
  }

  // split_kv reads a written field back, in each style.
  lemma SplitPrinted(l: Line)
    requires Writable(l)
    ensures ':' in Body(l) && SplitKV(Body(l)) == l.kv
  {
    var text := Text(l);
    var rest := if text == "" then "" else " " + text;
    StripText(l);
    StripTrimmed(l.kv.key);
    SplitIs(l.kv.key, rest);
    QuotedText(l);
    hide Strip, SplitKV, IsQuoted, Writable, Text;
    if !l.style.Plain? {
      assert text[1..|text| - 1] == l.kv.value;
    }
  }

  lemma StripText(l: Line)
    requires Writable(l)
    ensures Strip(if Text(l) == "" then "" else " " + Text(l)) == Text(l)
  {
    var text := Text(l);
    TextTrimmed(l);
    assert " " + text + "" == " " + text && "" + text + "" == text;
    StripOf(if text == "" then "" else " ", text, "");
    hide Strip, Trimmed;
  }

  lemma QuotedText(l: Line)
    requires Writable(l)
    ensures l.style.Plain? ==> !IsQuoted(Text(l)) && Text(l) == l.kv.value
    ensures !l.style.Plain? ==> IsQuoted(Text(l)) && |Text(l)| > 1 && Text(l) == [Text(l)[0]] + l.kv.value + [Text(l)[0]]
  {
  }

  // A value written without quotes is read back exactly when it has no spaces around it and
  // is not itself between quotes.
  lemma PlainReadBack(key: string, v: string)
    requires ':' !in key
    ensures SplitKV(key + ":" + (" " + v)).value == v <==> PlainValue(v)
  {
    SplitIs(key, " " + v);
    StripBehindSpace(v);
    hide Strip, SplitKV;
  }

  lemma StripBehindSpace(v: string)
    ensures Strip(" " + v) == Strip(v) && |Strip(v)| <= |v|
    ensures Strip(v) == v <==> Trimmed(v)
  {
    var l, r := StripShape(v);
    var spaces := " " + l;
    assert " " + v == spaces + Strip(v) + r;
    StripOf(spaces, Strip(v), r);
    if Trimmed(v) { StripTrimmed(v); }
    hide Strip;
  }

  // ---- reading a file --------------------------------------------------------------

  // A body starts with a word and a colon only if the word is its key.
  lemma StartsWithWord(l: Line, word: string)
    requires Writable(l) && ':' !in word && StartsWith(Body(l), word + ":")
    ensures l.kv.key == word
  {
    var body := Body(l);
    FindColon(l.kv.key, body[|l.kv.key| + 1..]);
    assert body == l.kv.key + ":" + body[|l.kv.key| + 1..];
    var rest := body[|word| + 1..];
    assert body == word + ":" + rest;
    FindColon(word, rest);
    assert l.kv.key == body[..|l.kv.key|] && word == body[..|word|];
  }

  lemma NotIgnored(l: Line)
    requires Writable(l) && LineKey(l.kv.key)
    ensures !Ignored(Body(l)) && !StartsWith(Body(l), "- ")
  {
    var body, key := Body(l), l.kv.key;
    BodyTrimmed(l);
    if StartsWith(body, "version:") { StartsWithWord(l, "version"); }
    if StartsWith(body, "exceptions:") { StartsWithWord(l, "exceptions"); }
    StartsAs(body, "#");
    StartsAs(body, "- ");
    assert forall i :: 0 <= i < |key| ==> body[i] == key[i];
    StartsFrom(key);
  }

  lemma StartsFrom(s: string)
    ensures |s| > 1 && s[0] == '-' && s[1] == ' ' ==> StartsWith(s, "- ")
    ensures |s| > 0 && s[0] == '#' ==> StartsWith(s, "#")
  {
  }

  lemma StartsAs(s: string, p: string)
    ensures StartsWith(s, p) ==> |p| <= |s| && forall i :: 0 <= i < |p| ==> s[i] == p[i]
  {
  }

  // A printed field on a line of its own sets that field of the current record.
  lemma FieldStep(st: State, l: Line)
    requires st.current.Some? && Writable(l) && LineKey(l.kv.key)
    ensures Step(st, PrintLine(l)) == Ok(st.(current := Some(st.current.value[l.kv.key := l.kv.value])))
  {
    NotIgnored(l);
    StripPrinted(l);
    SplitPrinted(l);
    hide Body, PrintLine, Writable, SplitKV, Strip;
  }

  // A printed first field closes the current record and opens the next.
  lemma FirstStep(st: State, l: Line)
    requires Writable(l)
    ensures Step(st, PrintFirst(l)) == Ok(State(Close(st), Some(map[l.kv.key := l.kv.value])))
  {
    StripPrinted(l);
    SplitPrinted(l);
    BodyTrimmed(l);
    StripTrimmed(Body(l));
    var line := "- " + Body(l);
    assert line[0] == '-' && line[2..] == Body(l);
    assert !StartsWith(line, "version:") && !StartsWith(line, "exceptions:") && !StartsWith(line, "#");
    hide Body, PrintFirst, Writable, SplitKV, Strip;
  }

  lemma {:induction false} FieldsSteps(st: State, fields: Fields, rest: seq<string>)
    requires st.current.Some? && forall l <- fields :: Writable(l) && LineKey(l.kv.key)
    ensures Steps(st, PrintFields(fields) + rest)
      == Steps(st.(current := Some(Extend(st.current.value, fields))), rest)
    decreases |fields|
  {
    hide Step, PrintLine, Close, LineKey, Writable;
    if fields == [] {
      assert PrintFields(fields) + rest == rest;
    } else {
      FieldStep(st, fields[0]);
      var lines := PrintFields(fields) + rest;
      assert lines[1..] == PrintFields(fields[1..]) + rest;
      assert lines[0] == PrintLine(fields[0]);
      FieldsSteps(st.(current := Some(st.current.value[fields[0].kv.key := fields[0].kv.value])), fields[1..], rest);
    }
  }

  lemma RecordSteps(st: State, fields: Fields, rest: seq<string>)
    requires Printable(fields)
    ensures Steps(st, PrintRecord(fields) + rest) == Steps(State(Close(st), Some(AsRecord(fields))), rest)
  {
    hide Step, PrintFirst, PrintLine, Close, PlainKey, LineKey, Writable;
    forall l <- fields[1..] ensures Writable(l) && LineKey(l.kv.key) {
      var i :| 0 < i < |fields| && fields[i] == l;
    }
    assert fields[0] in fields;
    FirstStep(st, fields[0]);
    var lines := PrintRecord(fields) + rest;
    assert lines[0] == PrintFirst(fields[0]);
    assert lines[1..] == PrintFields(fields[1..]) + rest;
    FieldsSteps(State(Close(st), Some(map[fields[0].kv.key := fields[0].kv.value])), fields[1..], rest);
  }

  lemma {:induction false} ExtendGrows(r: Record, fields: Fields)
    ensures r.Keys <= Extend(r, fields).Keys && forall l <- fields :: l.kv.key in Extend(r, fields)
    decreases |fields|
  {
    if fields != [] { ExtendGrows(r[fields[0].kv.key := fields[0].kv.value], fields[1..]); }
  }

  lemma CloseMore(st: State, r: Record)
    requires r != map[]
    ensures Close(State(Close(st), Some(r))) == Close(st) + [r]
  {
  }

  lemma NoSteps(st: State)
    ensures Steps(st, []) == Ok(st)
  {
  }

  lemma FirstRecord(records: seq<Fields>)
    ensures PrintRecords([]) == [] && AsRecords([]) == []
    ensures records != [] ==>
      && PrintRecords(records) == PrintRecord(records[0]) + PrintRecords(records[1..])
      && AsRecords(records) == [AsRecord(records[0])] + AsRecords(records[1..])
  {
  }

  lemma NonemptyRecord(fields: Fields)
    requires Printable(fields)
    ensures AsRecord(fields) != map[]
  {
    ExtendGrows(map[], fields);
    assert fields[0] in fields;
  }

  lemma {:induction false} RecordsSteps(st: State, records: seq<Fields>)
    requires forall r <- records :: Printable(r)
    ensures
      var end := Steps(st, PrintRecords(records));
      end.Ok? && Close(end.value) == Close(st) + AsRecords(records)
    decreases |records|
  {
    hide Steps, Printable, PrintRecord, PrintRecords, AsRecord, AsRecords, Close;
    NoSteps(st);
    FirstRecord(records);
    if records != [] {
      var r, rest := records[0], records[1..];
      var st' := State(Close(st), Some(AsRecord(r)));
      RecordSteps(st, r, PrintRecords(rest));
      NonemptyRecord(r);
      CloseMore(st, AsRecord(r));
      RecordsSteps(st', rest);
      assert Close(st) + [AsRecord(r)] + AsRecords(rest) == Close(st) + ([AsRecord(r)] + AsRecords(rest));
    } else {
      assert Close(st) + [] == Close(st);
    }
  }

  // The lines that the parser does not skip.
  function Kept(lines: seq<string>): seq<string> {
    if lines == [] then []
    else (if Ignored(Strip(lines[0])) then [] else [lines[0]]) + Kept(lines[1..])
  }

  lemma {:induction false} KeptSteps(st: State, lines: seq<string>)
    ensures Steps(st, Kept(lines)) == Steps(st, lines)
    decreases |lines|
  {
    if lines != [] {
      hide Ignored;
      var rest := Kept(lines[1..]);
      if Ignored(Strip(lines[0])) {
        assert Kept(lines) == rest && Step(st, lines[0]) == Ok(st);
        KeptSteps(st, lines[1..]);
      } else {
        assert Kept(lines)[1..] == rest && Kept(lines)[0] == lines[0];
        hide Step;
        match Step(st, lines[0])
        case Err(_) =>
        case Ok(st') => KeptSteps(st', lines[1..]);
      }
    }
  }

  // A file that holds the lines of some records - however indented, in any style - and
  // otherwise blank lines, comments and headings is parsed into these records.
  lemma ParseWritten(lines: seq<string>, records: seq<Fields>)
    requires (forall r <- records :: Printable(r)) && (forall l <- lines :: OneLine(l))
    requires Kept(lines) == PrintRecords(records)
    ensures Parsed(Unlines(lines)) == Ok(AsRecords(records))
  {
    hide Steps, Lines, Unlines, Printable, PrintRecords, Kept;
    LinesOfUnlines(lines);
    KeptSteps(State([], None), lines);
    RecordsSteps(State([], None), records);
    assert Close(State([], None)) + AsRecords(records) == AsRecords(records);
  }

  lemma {:induction false} PrintedKept(records: seq<Fields>)
    requires forall r <- records :: Printable(r)
    ensures Kept(PrintRecords(records)) == PrintRecords(records)
    ensures forall l <- PrintRecords(records) :: OneLine(l)
  {
    if records != [] {
      RecordKept(records[0]);
      PrintedKept(records[1..]);
      KeptConcat(PrintRecord(records[0]), PrintRecords(records[1..]));
    }
  }

  lemma {:induction false} KeptConcat(a: seq<string>, b: seq<string>)
    ensures Kept(a + b) == Kept(a) + Kept(b)
  {
    if a == [] {
      assert a + b == b;
    } else {
      assert (a + b)[1..] == a[1..] + b;
      KeptConcat(a[1..], b);
    }
  }

  lemma RecordKept(r: Fields)
    requires Printable(r)
    ensures Kept(PrintRecord(r)) == PrintRecord(r) && forall l <- PrintRecord(r) :: OneLine(l)
  {
    forall l <- r[1..] ensures Writable(l) && LineKey(l.kv.key) {
      var i :| 0 < i < |r| && r[i] == l;
    }
    assert r[0] in r;
    FieldsKept(r[1..]);
    StripPrinted(r[0]);
    LineOneLine(r[0]);
    assert PrintRecord(r)[1..] == PrintFields(r[1..]);
    assert ("- " + Body(r[0]))[0] == '-';
    hide Strip, PrintFirst, Body;
  }

  lemma LineOneLine(l: Line)
    requires Writable(l)
    ensures OneLine(PrintLine(l)) && OneLine(PrintFirst(l))
  {
    TextTrimmed(l);
  }

  lemma {:induction false} FieldsKept(fields: Fields)
    requires forall l <- fields :: Writable(l) && LineKey(l.kv.key)
    ensures Kept(PrintFields(fields)) == PrintFields(fields) && forall l <- PrintFields(fields) :: OneLine(l)
  {
    if fields != [] {
      NotIgnored(fields[0]);
      StripPrinted(fields[0]);
      LineOneLine(fields[0]);
      FieldsKept(fields[1..]);
      assert PrintFields(fields)[1..] == PrintFields(fields[1..]);
      hide Strip, PrintLine, Body, Writable, LineKey, Ignored;
    }
  }

  // Printing a list of records and parsing the text gives the list back.
  lemma ParsePrinted(records: seq<Fields>)
    requires forall r <- records :: Printable(r)
    ensures Parsed(Unlines(PrintRecords(records))) == Ok(AsRecords(records))
  {
    hide Parsed, Unlines, Printable, PrintRecords, Kept;
    PrintedKept(records);
    ParseWritten(PrintRecords(records), records);
  }

  // With different keys, the dict holds each field as it was written.
  lemma {:induction false} RecordHolds(r: Record, fields: Fields, i: nat)
    requires i < |fields| && forall j, k :: 0 <= j < k < |fields| ==> fields[j].kv.key != fields[k].kv.key
    ensures fields[i].kv.key in Extend(r, fields) && Extend(r, fields)[fields[i].kv.key] == fields[i].kv.value
    decreases |fields|
  {
    var r' := r[fields[0].kv.key := fields[0].kv.value];
    if i > 0 {
      RecordHolds(r', fields[1..], i - 1);
    } else {
      ExtendKeeps(r', fields[1..], fields[0].kv.key);
    }
  }

  lemma {:induction false} ExtendKeeps(r: Record, fields: Fields, key: string)
    requires key in r && forall l <- fields :: l.kv.key != key
    ensures key in Extend(r, fields) && Extend(r, fields)[key] == r[key]
    decreases |fields|
  {
    if fields != [] { ExtendKeeps(r[fields[0].kv.key := fields[0].kv.value], fields[1..], key); }
  }
}
