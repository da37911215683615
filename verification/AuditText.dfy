// The string operations of the audit tool: strip, lower, prefixes, lines, "key: value".
module AuditText {

  // The characters that strip removes.
  predicate IsSpace(c: char) {
    var n := c as int;
    || 0x09 <= n <= 0x0D || 0x1C <= n <= 0x20 || n == 0x85 || n == 0xA0 || n == 0x1680
    || 0x2000 <= n <= 0x200A || n == 0x2028 || n == 0x2029 || n == 0x202F || n == 0x205F || n == 0x3000
  }

  predicate AllSpaces(s: string) { forall i :: 0 <= i < |s| ==> IsSpace(s[i]) }

  predicate Trimmed(s: string) { s != "" ==> !IsSpace(s[0]) && !IsSpace(s[|s| - 1]) }

  function StripLeft(s: string): string {
    if s != "" && IsSpace(s[0]) then StripLeft(s[1..]) else s
  }

  function StripRight(s: string): string {
    if s != "" && IsSpace(s[|s| - 1]) then StripRight(s[..|s| - 1]) else s
  }

  function Strip(s: string): string { StripRight(StripLeft(s)) }

  lemma {:induction false} StripLeftOf(l: string, t: string)
    requires AllSpaces(l) && Trimmed(t)
    ensures StripLeft(l + t) == t
  {
    if l == "" {
      assert l + t == t;
    } else {
      assert (l + t)[1..] == l[1..] + t;
      StripLeftOf(l[1..], t);
    }
  }

  lemma {:induction false} StripRightOf(t: string, r: string)
    requires AllSpaces(r) && Trimmed(t)
    ensures StripRight(t + r) == t
  {
    if r == "" {
      assert t + r == t;
    } else {
      assert (t + r)[..|t + r| - 1] == t + r[..|r| - 1];
      StripRightOf(t, r[..|r| - 1]);
    }
  }

  lemma {:induction false} StripLeftSpaces(l: string, s: string)
    requires AllSpaces(l)
    ensures StripLeft(l + s) == StripLeft(s)
  {
    if l == "" {
      assert l + s == s;
    } else {
      assert (l + s)[1..] == l[1..] + s;
      StripLeftSpaces(l[1..], s);
    }
  }

  // Strip takes off all spaces around a trimmed string, and only those.
  lemma StripOf(l: string, t: string, r: string)
    requires AllSpaces(l) && Trimmed(t) && AllSpaces(r)
    ensures Strip(l + t + r) == t
  {
    assert l + t + r == l + (t + r);
    StripLeftSpaces(l, t + r);
    if t == "" {
      assert t + r == r + t;
      StripLeftOf(r, t);
    } else {
      StripRightOf(t, r);
    }
  }

  // Every string is a trimmed one between spaces, so StripOf determines Strip.
  lemma {:induction false} StripShape(s: string) returns (l: string, r: string)
    ensures AllSpaces(l) && AllSpaces(r) && Trimmed(Strip(s)) && s == l + Strip(s) + r
    decreases |s|
  {
    if s == "" {
      l, r := "", "";
    } else if IsSpace(s[0]) {
      l, r := StripShape(s[1..]);
      assert s == [s[0]] + s[1..];
      l := [s[0]] + l;
    } else if IsSpace(s[|s| - 1]) {
      l, r := StripShape(s[..|s| - 1]);
      StripLeftKeeps(s[..|s| - 1]);
      StripLeftKeeps(s);
      assert s == s[..|s| - 1] + [s[|s| - 1]];
      r := r + [s[|s| - 1]];
    } else {
      l, r := "", "";
    }
  }

  lemma StripLeftKeeps(s: string)
    requires s != "" ==> !IsSpace(s[0])
    ensures StripLeft(s) == s
  {
  }

  // lower, on ASCII letters.
  function LowerChar(c: char): char {
    if 'A' <= c <= 'Z' then (c as int + 32) as char else c
  }

  function Lower(s: string): (r: string)
    ensures |r| == |s| && forall i :: 0 <= i < |s| ==> r[i] == LowerChar(s[i])
  {
    seq(|s|, i requires 0 <= i < |s| => LowerChar(s[i]))
  }

  predicate StartsWith(s: string, p: string) { p <= s }

  // The position of the first c, or the length.
  function Find(s: string, c: char): (i: nat)
    ensures i <= |s| && (i < |s| ==> s[i] == c) && forall k :: 0 <= k < i ==> s[k] != c
  {
    if s == "" || s[0] == c then 0 else 1 + Find(s[1..], c)
  }

  // A string without its quotes. A single quote character counts as both ends.
  function Unquote(v: string): string {
    if v != "" && v[0] == v[|v| - 1] && v[0] in "\"'" then (if |v| == 1 then "" else v[1..|v| - 1]) else v
  }

  datatype KV = KV(key: string, value: string)

  // split_kv, for a line with a colon. Without one it raises an error.
  function SplitKV(line: string): KV
    requires ':' in line
  {
    var i := Find(line, ':');
    assert i < |line|;
    KV(Strip(line[..i]), Unquote(Strip(line[i + 1..])))
  }

  // v begins and ends with the same kind of quote.
  predicate IsQuoted(v: string) {
    v != "" && ((v[0] == '"' && v[|v| - 1] == '"') || (v[0] == '\'' && v[|v| - 1] == '\''))
  }

  // Unquote takes the quotes off such a text - off a lone quote, nothing is left - and
  // leaves any other text alone.
  lemma UnquoteIs(v: string)
    ensures !IsQuoted(v) ==> Unquote(v) == v
    ensures IsQuoted(v) && |v| > 1 ==> v == [v[0]] + Unquote(v) + [v[0]]
    ensures IsQuoted(v) && |v| == 1 ==> Unquote(v) == ""
  {
  }

  lemma {:induction false} FindColon(key: string, rest: string)
    requires ':' !in key
    ensures Find(key + ":" + rest, ':') == |key|
  {
    if key == "" {
      assert (key + ":" + rest)[0] == ':';
    } else {
      assert (key + ":" + rest)[1..] == key[1..] + ":" + rest;
      assert (key + ":" + rest)[0] == key[0];
      FindColon(key[1..], rest);
    }
  }

  // split_kv divides a line at its first colon, strips both sides, and takes the quotes off
  // the value if it has any.
  lemma SplitIs(key: string, rest: string)
    requires ':' !in key
    ensures ':' in key + ":" + rest
    ensures SplitKV(key + ":" + rest).key == Strip(key)
    ensures
      var text, value := Strip(rest), SplitKV(key + ":" + rest).value;
      if !IsQuoted(text) then value == text
      else if |text| == 1 then value == ""
      else text == [text[0]] + value + [text[0]]
  {
    var line := key + ":" + rest;
    FindColon(key, rest);
    assert line[|key|] == ':' && line[..|key|] == key && line[|key| + 1..] == rest;
    UnquoteIs(Strip(rest));
    hide Strip, Unquote, IsQuoted;
  }

  predicate IsBreak(c: char) { c == '\n' || c == '\r' }

  predicate OneLine(s: string) { forall i :: 0 <= i < |s| ==> !IsBreak(s[i]) }

  // The position of the first line break, or the length.
  function FindBreak(s: string): (i: nat)
    ensures i <= |s| && OneLine(s[..i]) && (i < |s| ==> IsBreak(s[i]))
  {
    if s == "" || IsBreak(s[0]) then 0 else 1 + FindBreak(s[1..])
  }

  // The lines of a text. A line feed after a carriage return gives one more, empty line.
  function Lines(text: string): seq<string> {
    if text == "" then []
    else
      var i := FindBreak(text);
      if i == |text| then [text] else [text[..i]] + Lines(text[i + 1..])
  }

  function Unlines(lines: seq<string>): string {
    if lines == [] then "" else lines[0] + "\n" + Unlines(lines[1..])
  }

  lemma {:induction false} FindBreakAfter(l: string, rest: string)
    requires OneLine(l)
    ensures FindBreak(l + "\n" + rest) == |l|
  {
    if l == "" {
      assert (l + "\n" + rest)[0] == '\n';
    } else {
      assert (l + "\n" + rest)[1..] == l[1..] + "\n" + rest;
      FindBreakAfter(l[1..], rest);
    }
  }

  lemma {:induction false} LinesOfUnlines(lines: seq<string>)
    requires forall l <- lines :: OneLine(l)
    ensures Lines(Unlines(lines)) == lines
  {
    if lines != [] {
      var text := Unlines(lines);
      var l, rest := lines[0], Unlines(lines[1..]);
      assert text == l + "\n" + rest;
      FindBreakAfter(l, rest);
      var i := |l|;
      assert text[..i] == l && text[i + 1..] == rest;
      LinesOfUnlines(lines[1..]);
    }
  }
}
