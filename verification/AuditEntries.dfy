// iter_vulns: the vulnerabilities that an audit report names, in both of its formats, and
// the reports on which reading them raises an error.
module AuditEntries {
  import opened Common

  // A parsed JSON document. The members of an object are in the order of the text, with
  // different keys.
  datatype Value = Null | Bool(b: bool) | Number(n: int) | Text(s: string) | List(items: seq<Value>) | Dict(members: seq<Member>)

  datatype Member = Member(key: string, value: Value)

  datatype Raised = AttributeError | TypeError | KeyError

  // What is yielded: name, severity, advisory id and title.
  datatype Entry = Entry(name: Value, severity: Value, advisory: Value, title: Value)

  predicate Truthy(v: Value) {
    match v
    case Null => false
    case Bool(b) => b
    case Number(n) => n != 0
    case Text(s) => s != ""
    case List(items) => items != []
    case Dict(members) => members != []
  }

  // members.get(key), None when there is no such key.
  function Lookup(members: seq<Member>, key: string): Value {
    if members == [] then Null
    else if members[0].key == key then members[0].value
    else Lookup(members[1..], key)
  }

  // `a or b or ...` over the values of some keys: the first truthy one, or else the last.
  function AnyOf(members: seq<Member>, keys: seq<string>): Value
    requires keys != []
  {
    var v := Lookup(members, keys[0]);
    if Truthy(v) || |keys| == 1 then v else AnyOf(members, keys[1..])
  }

  // (advisory.get("cves") or [None])[0]
  function FirstCve(cves: Value): Result<Value, Raised> {
    if !Truthy(cves) then Ok(Null)
    else match cves
      case List(items) => Ok(items[0])
      case Text(s) => Ok(Text(s[..1]))
      case Dict(_) => Err(KeyError)
      case _ => Err(TypeError)
  }

  // `str` renders a value that is not a string.
  function AsText(str: Value -> string, v: Value): string { if v.Text? then v.s else str(v) }

  function PickAdvisoryId(str: Value -> string, a: seq<Member>): Result<Value, Raised> {
    if Truthy(Lookup(a, "github_advisory_id")) then Ok(Lookup(a, "github_advisory_id"))
    else if Truthy(Lookup(a, "url")) then Ok(Lookup(a, "url"))
    else match FirstCve(Lookup(a, "cves"))
      case Err(e) => Err(e)
      case Ok(cve) =>
        if Truthy(cve) then Ok(cve)
        else if !Lookup(a, "id").Null? && AsText(str, Lookup(a, "id")) != "" then Ok(Text(AsText(str, Lookup(a, "id"))))
        else Ok(AnyOf(a, ["title", "advisory", "overview"]))
  }

  // The entry of one advisory.
  function AdvisoryEntry(str: Value -> string, advisory: Value): Result<Entry, Raised> {
    if !advisory.Dict? then Err(AttributeError)
    else
      var a := advisory.members;
      match PickAdvisoryId(str, a)
      case Err(e) => Err(e)
      case Ok(id) =>
        Ok(Entry(AnyOf(a, ["module_name", "name"]), Lookup(a, "severity"), id, AnyOf(a, ["title", "advisory", "overview", "url"])))
  }

  // The advisory that one item of a via list names, if it names one.
  function ViaAdvisory(item: Value): Option<Value> {
    match item
    case Dict(m) => Some(AnyOf(m, ["github_advisory_id", "url", "source", "title", "name"]))
    case Text(_) => Some(item)
    case _ => None
  }

  function ViaTitle(item: Value): Option<Value> {
    match item
    case Dict(m) => Some(AnyOf(m, ["title", "url", "advisory", "source"]))
    case Text(_) => Some(item)
    case _ => None
  }

  // A via that is one string counts as a list of it; anything else but a list is empty.
  function ViaItems(via: Value): seq<Value> {
    match via
    case List(items) => items
    case Text(_) => [via]
    case _ => []
  }

  function Append(vs: seq<Value>, v: Option<Value>): seq<Value> { if v.Some? then vs + [v.value] else vs }

  function TruthyOnly(vs: seq<Value>): seq<Value> {
    if vs == [] then [] else (if Truthy(vs[0]) then [vs[0]] else []) + TruthyOnly(vs[1..])
  }

  // "; ".join, which takes strings only.
  predicate Joinable(vs: seq<Value>) { forall v <- vs :: v.Text? }

  function Join(vs: seq<Value>): string
    requires Joinable(vs)
  {
    if vs == [] then "" else if |vs| == 1 then vs[0].s else vs[0].s + "; " + Join(vs[1..])
  }

  function Collect(items: seq<Value>, of: Value -> Option<Value>): seq<Value> {
    if items == [] then [] else Append(Collect(items[..|items| - 1], of), of(items[|items| - 1]))
  }

  function EntriesOf(name: string, severity: Value, advisories: seq<Value>, title: Value): seq<Entry> {
    seq(|advisories|, i requires 0 <= i < |advisories| => Entry(Text(name), severity, advisories[i], title))
  }

  // The entries of one vulnerability: one for each advisory that it comes via.
  function VulnerabilityEntries(name: string, vuln: Value): Result<seq<Entry>, Raised> {
    if !vuln.Dict? then Err(AttributeError)
    else
      var items := ViaItems(Lookup(vuln.members, "via"));
      var titles := TruthyOnly(Collect(items, ViaTitle));
      if !Joinable(titles) then Err(TypeError)
      else Ok(EntriesOf(name, Lookup(vuln.members, "severity"), TruthyOnly(Collect(items, ViaAdvisory)), Text(Join(titles))))
  }

  // What a generator has yielded, and the error that ended it, if one did.
  datatype Yield = Yield(entries: seq<Entry>, raised: Option<Raised>)

  // Both loops, after what has been yielded so far.
  function AdvisoryLoop(str: Value -> string, done: seq<Entry>, advisories: seq<Member>): Yield
    decreases |advisories|
  {
    if advisories == [] then Yield(done, None)
    else match AdvisoryEntry(str, advisories[0].value)
      case Err(e) => Yield(done, Some(e))
      case Ok(e) => AdvisoryLoop(str, done + [e], advisories[1..])
  }

  function VulnerabilityLoop(done: seq<Entry>, vulns: seq<Member>): Yield
    decreases |vulns|
  {
    if vulns == [] then Yield(done, None)
    else match VulnerabilityEntries(vulns[0].key, vulns[0].value)
      case Err(e) => Yield(done, Some(e))
      case Ok(es) => VulnerabilityLoop(done + es, vulns[1..])
  }

  function Members(v: Value): seq<Member> { if v.Dict? then v.members else [] }

  function Vulns(str: Value -> string, data: Value): Yield {
    if !data.Dict? then Yield([], Some(AttributeError))
    else
      var first := AdvisoryLoop(str, [], Members(Lookup(data.members, "advisories")));
      if first.raised.Some? then first
      else VulnerabilityLoop(first.entries, Members(Lookup(data.members, "vulnerabilities")))
  }

  // The two lists that the loop over via builds.
  method ReadVia(via: Value) returns (advisories: seq<Value>, titles: seq<Value>)
    ensures advisories == Collect(ViaItems(via), ViaAdvisory) && titles == Collect(ViaItems(via), ViaTitle)
  {
    advisories, titles := [], [];
    if via.List? {
      for i := 0 to |via.items|
        invariant advisories == Collect(via.items[..i], ViaAdvisory) && titles == Collect(via.items[..i], ViaTitle)
      {
        assert via.items[..i + 1][..i] == via.items[..i];
        var item := via.items[i];
        if item.Dict? {
          advisories := advisories + [AnyOf(item.members, ["github_advisory_id", "url", "source", "title", "name"])];
          titles := titles + [AnyOf(item.members, ["title", "url", "advisory", "source"])];
        } else if item.Text? {
          advisories := advisories + [item];
          titles := titles + [item];
        }
      }
      assert via.items[..|via.items|] == via.items;
    } else if via.Text? {
      advisories := advisories + [via];
      titles := titles + [via];
    }
  }

  // The generator, run to its end.
  method IterVulns(str: Value -> string, data: Value) returns (r: Yield)
    ensures r == Vulns(str, data)
  {
    if !data.Dict? {
      return Yield([], Some(AttributeError));
    }
    var entries: seq<Entry> := [];
    var advisories := Lookup(data.members, "advisories");
    if advisories.Dict? {
      for i := 0 to |advisories.members|
        invariant AdvisoryLoop(str, [], advisories.members) == AdvisoryLoop(str, entries, advisories.members[i..])
      {
        assert advisories.members[i..][1..] == advisories.members[i + 1..];
        var e := AdvisoryEntry(str, advisories.members[i].value);
        if e.Err? {
          return Yield(entries, Some(e.error));
        }
        entries := entries + [e.value];
      }
    }
    ghost var first := entries;
    var vulnerabilities := Lookup(data.members, "vulnerabilities");
    if vulnerabilities.Dict? {
      for i := 0 to |vulnerabilities.members|
        invariant VulnerabilityLoop(first, vulnerabilities.members) == VulnerabilityLoop(entries, vulnerabilities.members[i..])
      {
        assert vulnerabilities.members[i..][1..] == vulnerabilities.members[i + 1..];
        var name, vuln := vulnerabilities.members[i].key, vulnerabilities.members[i].value;
        if !vuln.Dict? {
          return Yield(entries, Some(AttributeError));
        }
        var ids, titles := ReadVia(Lookup(vuln.members, "via"));
        if !Joinable(TruthyOnly(titles)) {
          return Yield(entries, Some(TypeError));
        }
        entries := entries + EntriesOf(name, Lookup(vuln.members, "severity"), TruthyOnly(ids), Text(Join(TruthyOnly(titles))));
      }
    }
    r := Yield(entries, None);
  }
}
