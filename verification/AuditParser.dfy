// The parser of the exception list, and the printer that it undoes.
module AuditParser {
  import opened Common
  import opened AuditText

  // A record of the list: a Python dict from names to values.
  type Record = map<string, string>

  // split_kv raised because a "- " line has no colon.
  datatype ParseError = NoColon(line: string)

  // The records that are complete, and the one being read.
  datatype State = State(exceptions: seq<Record>, current: Option<Record>)

  // `if current: exceptions.append(current)`: nothing happens for None and for {}.
  function Close(st: State): seq<Record> {
    if st.current.Some? && st.current.value != map[] then st.exceptions + [st.current.value] else st.exceptions
  }

  predicate Ignored(line: string) {
    line == "" || StartsWith(line, "#") || StartsWith(line, "version:") || StartsWith(line, "exceptions:")
  }

  function Step(st: State, raw: string): Result<State, ParseError> {
    var line := Strip(raw);
    if Ignored(line) then Ok(st)
    else if StartsWith(line, "- ") then
      var rest := Strip(line[2..]);
      if rest == "" then Ok(State(Close(st), Some(map[])))
      else if ':' !in rest then Err(NoColon(rest))
      else Ok(State(Close(st), Some(map[SplitKV(rest).key := SplitKV(rest).value])))
    else if st.current.Some? && ':' in line then
      Ok(st.(current := Some(st.current.value[SplitKV(line).key := SplitKV(line).value])))
    else Ok(st)
  }

  function Steps(st: State, lines: seq<string>): Result<State, ParseError>
    decreases |lines|
  {
    if lines == [] then Ok(st)
    else match Step(st, lines[0])
      case Err(e) => Err(e)
      case Ok(st') => Steps(st', lines[1..])
  }

  function Parsed(text: string): Result<seq<Record>, ParseError> {
    match Steps(State([], None), Lines(text))
    case Err(e) => Err(e)
    case Ok(st) => Ok(Close(st))
  }

  method ParseExceptions(text: string) returns (r: Result<seq<Record>, ParseError>)
    ensures r == Parsed(text)
  {
    var exceptions: seq<Record> := [];
    var current: Option<Record> := None;
    var lines := Lines(text);
    for i := 0 to |lines|
      invariant Steps(State([], None), lines) == Steps(State(exceptions, current), lines[i..])
    {
      assert lines[i..][1..] == lines[i + 1..];
      var line := Strip(lines[i]);
      if line == "" || StartsWith(line, "#") {
        continue;
      }
      if StartsWith(line, "version:") || StartsWith(line, "exceptions:") {
        continue;
      }
      if StartsWith(line, "- ") {
        if current.Some? && current.value != map[] {
          exceptions := exceptions + [current.value];
        }
        current := Some(map[]);
        line := Strip(line[2..]);
        if line != "" {
          if ':' !in line {
            return Err(NoColon(line));
          }
          var kv := SplitKV(line);
          current := Some(map[][kv.key := kv.value]);
        }
        continue;
      }
      if current.Some? && ':' in line {
        var kv := SplitKV(line);
        current := Some(current.value[kv.key := kv.value]);
      }
    }
    if current.Some? && current.value != map[] {
      exceptions := exceptions + [current.value];
    }
    r := Ok(exceptions);
  }

  // The lines that are skipped, once stripped: empty ones, comments and the two headings.
  lemma IgnoredAre(line: string)
    ensures Ignored(line) <==>
      || line == "" || line[0] == '#'
      || (|line| >= 8 && line[..8] == "version:") || (|line| >= 11 && line[..11] == "exceptions:")
  {
  }

  // Blank lines, comments and headings can stand anywhere.
  lemma {:induction false} IgnoredAnywhere(st: State, before: seq<string>, line: string, rest: seq<string>)
    requires Ignored(Strip(line))
    ensures Steps(st, before + [line] + rest) == Steps(st, before + rest)
    decreases |before|
  {
    if before == [] {
      assert before + [line] + rest == [line] + rest && before + rest == rest;
      assert ([line] + rest)[1..] == rest;
    } else {
      assert (before + [line] + rest)[1..] == before[1..] + [line] + rest;
      assert (before + rest)[1..] == before[1..] + rest;
      match Step(st, before[0])
      case Err(_) =>
      case Ok(st') => IgnoredAnywhere(st', before[1..], line, rest);
    }
  }

  // The parser fails exactly when a "- " line has no colon after the dash.
  predicate Broken(raw: string) {
    var line := Strip(raw);
    !Ignored(line) && StartsWith(line, "- ") && Strip(line[2..]) != "" && ':' !in Strip(line[2..])
  }

  lemma {:induction false} FailsOnBroken(st: State, lines: seq<string>)
    ensures Steps(st, lines).Err? <==> exists l <- lines :: Broken(l)
    decreases |lines|
  {
    if lines != [] {
      assert lines == [lines[0]] + lines[1..];
      assert Step(st, lines[0]).Err? <==> Broken(lines[0]);
      hide Step, Broken;
      match Step(st, lines[0])
      case Err(_) => assert Broken(lines[0]) && lines[0] in lines;
      case Ok(st') => FailsOnBroken(st', lines[1..]);
    }
  }
}
