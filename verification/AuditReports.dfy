// What a report names, said of its members: the entries that the audit tool must find in it,
// and the reports on which it raises.
module AuditReports {
  import opened Common
  import opened AuditEntries

  // ---- the values of a report ------------------------------------------------------

  // Lookup is the value of the first member with the key, if there is one.
  lemma {:induction false} LookupIs(ms: seq<Member>, key: string)
    ensures (exists i :: 0 <= i < |ms| && FirstWith(ms, key, i) && ms[i].value == Lookup(ms, key))
      || (Lookup(ms, key) == Null && forall m <- ms :: m.key != key)
  {
    if ms != [] {
      assert ms == [ms[0]] + ms[1..];
      if ms[0].key == key {
        assert FirstWith(ms, key, 0);
      } else {
        LookupIs(ms[1..], key);
        if i :| 0 <= i < |ms[1..]| && FirstWith(ms[1..], key, i) && ms[1..][i].value == Lookup(ms[1..], key) {
          assert forall j :: 1 <= j <= i + 1 ==> ms[j] == ms[1..][j - 1];
          assert FirstWith(ms, key, i + 1);
        }
      }
    }
  }

  predicate FirstWith(ms: seq<Member>, key: string, i: nat)
    requires i < |ms|
  {
    ms[i].key == key && forall j :: 0 <= j < i ==> ms[j].key != key
  }

  // The values that count as false.
  lemma FalsyAre(v: Value)
    ensures !Truthy(v) <==> v in [Null, Bool(false), Number(0), Text(""), List([]), Dict([])]
  {
  }

  // v is the first truthy one of the candidates, or the last if none is.
  predicate FirstTruthy(candidates: seq<Value>, v: Value) {
    exists i :: 0 <= i < |candidates| && candidates[i] == v && (Truthy(v) || i == |candidates| - 1)
      && forall j :: 0 <= j < i ==> !Truthy(candidates[j])
  }

  lemma FirstTruthyOnce(candidates: seq<Value>, v: Value, w: Value)
    requires FirstTruthy(candidates, v) && FirstTruthy(candidates, w)
    ensures v == w
  {
  }

  function Lookups(a: seq<Member>, keys: seq<string>): (vs: seq<Value>)
    ensures |vs| == |keys| && forall i :: 0 <= i < |keys| ==> vs[i] == Lookup(a, keys[i])
  {
    seq(|keys|, i requires 0 <= i < |keys| => Lookup(a, keys[i]))
  }

  lemma {:induction false} AnyOfIs(a: seq<Member>, keys: seq<string>)
    requires keys != []
    ensures FirstTruthy(Lookups(a, keys), AnyOf(a, keys))
    decreases |keys|
  {
    var vs := Lookups(a, keys);
    if Truthy(vs[0]) || |keys| == 1 {
      assert vs[0] == AnyOf(a, keys);
    } else {
      AnyOfIs(a, keys[1..]);
      var rest, v := Lookups(a, keys[1..]), AnyOf(a, keys[1..]);
      var i :| 0 <= i < |rest| && rest[i] == v && (Truthy(v) || i == |rest| - 1)
        && forall j :: 0 <= j < i ==> !Truthy(rest[j]);
      assert forall j :: 1 <= j < |vs| ==> vs[j] == rest[j - 1];
      assert vs[i + 1] == v;
    }
  }

  // What can name an advisory, the most stable first: its GitHub id, its url, its first
  // cve, its id as text, and its title, advisory or overview.
  function Candidates(str: Value -> string, a: seq<Member>): seq<Value> {
    [ Lookup(a, "github_advisory_id"),
      Lookup(a, "url"),
      match Lookup(a, "cves")
      case List(items) => if items != [] then items[0] else Null
      case Text(s) => if s != "" then Text([s[0]]) else Null
      case _ => Null,
      match Lookup(a, "id")
      case Null => Null
      case Text(s) => Text(s)
      case v => Text(str(v)),
      Lookup(a, "title"),
      Lookup(a, "advisory"),
      Lookup(a, "overview") ]
  }

  // The entry is the one of an advisory with these members.
  predicate Describes(str: Value -> string, a: seq<Member>, e: Entry) {
    && e.severity == Lookup(a, "severity")
    && FirstTruthy([Lookup(a, "module_name"), Lookup(a, "name")], e.name)
    && FirstTruthy(Candidates(str, a), e.advisory)
    && FirstTruthy([Lookup(a, "title"), Lookup(a, "advisory"), Lookup(a, "overview"), Lookup(a, "url")], e.title)
  }

  lemma DescribesOnce(str: Value -> string, a: seq<Member>, e: Entry, f: Entry)
    requires Describes(str, a, e) && Describes(str, a, f)
    ensures e == f
  {
    hide FirstTruthy, Candidates;
    FirstTruthyOnce([Lookup(a, "module_name"), Lookup(a, "name")], e.name, f.name);
    FirstTruthyOnce(Candidates(str, a), e.advisory, f.advisory);
    FirstTruthyOnce([Lookup(a, "title"), Lookup(a, "advisory"), Lookup(a, "overview"), Lookup(a, "url")], e.title, f.title);
  }

  lemma PickedIs(str: Value -> string, a: seq<Member>)
    requires !BadCves(a)
    ensures PickAdvisoryId(str, a).Ok? && FirstTruthy(Candidates(str, a), PickAdvisoryId(str, a).value)
  {
    AnyOfIs(a, ["title", "advisory", "overview"]);
    var names := [Lookup(a, "title"), Lookup(a, "advisory"), Lookup(a, "overview")];
    assert Lookups(a, ["title", "advisory", "overview"]) == names;
    var stable := Candidates(str, a)[..4];
    assert Candidates(str, a) == stable + names;
    PickedStable(str, a);
    hide PickAdvisoryId, Candidates, Lookup, AnyOf, BadCves;
    if forall w <- stable :: !Truthy(w) {
      LaterTruthy(stable, names, PickAdvisoryId(str, a).value);
    } else {
      var i := FirstIndex(stable);
      assert (stable + names)[i] == stable[i] && forall j :: 0 <= j < i ==> (stable + names)[j] == stable[j];
    }
  }

  lemma {:induction false} FirstIndex(vs: seq<Value>) returns (i: nat)
    requires exists v <- vs :: Truthy(v)
    ensures i < |vs| && Truthy(vs[i]) && forall j :: 0 <= j < i ==> !Truthy(vs[j])
  {
    var init := vs[..|vs| - 1];
    assert vs == init + [vs[|vs| - 1]];
    if exists v <- init :: Truthy(v) {
      i := FirstIndex(init);
    } else {
      i := |vs| - 1;
      assert forall j :: 0 <= j < i ==> vs[j] in init;
    }
  }

  // The id is the first truthy one of the stable candidates, or what the others give.
  lemma PickedStable(str: Value -> string, a: seq<Member>)
    requires !BadCves(a)
    ensures PickAdvisoryId(str, a).Ok?
    ensures
      var stable, id := Candidates(str, a)[..4], PickAdvisoryId(str, a).value;
      && (forall i :: 0 <= i < 4 && Truthy(stable[i]) && (forall j :: 0 <= j < i ==> !Truthy(stable[j])) ==> id == stable[i])
      && ((forall v <- stable :: !Truthy(v)) ==> id == AnyOf(a, ["title", "advisory", "overview"]))
  {
    var stable := Candidates(str, a)[..4];
    assert stable[0] == Lookup(a, "github_advisory_id") && stable[1] == Lookup(a, "url");
    assert stable[0] in stable && stable[1] in stable && stable[2] in stable && stable[3] in stable;
    hide AnyOf, Lookup;
  }

  lemma LaterTruthy(stable: seq<Value>, names: seq<Value>, v: Value)
    requires (forall w <- stable :: !Truthy(w)) && FirstTruthy(names, v)
    ensures FirstTruthy(stable + names, v)
  {
    var i :| 0 <= i < |names| && names[i] == v && (Truthy(v) || i == |names| - 1) && forall j :: 0 <= j < i ==> !Truthy(names[j]);
    var all, k := stable + names, |stable| + i;
    assert all[k] == v;
    forall j | 0 <= j < k ensures !Truthy(all[j]) {
      if j < |stable| { assert all[j] == stable[j]; } else { assert all[j] == names[j - |stable|]; }
    }
  }

  // The entry of an advisory is the one that its members describe; only an advisory that is
  // no object, or whose cves cannot be read, has none.
  lemma AdvisoryDescribed(str: Value -> string, v: Value, e: Entry)
    ensures AdvisoryEntry(str, v).Err? <==> BadAdvisory(v)
    ensures !BadAdvisory(v) ==> (AdvisoryEntry(str, v) == Ok(e) <==> Describes(str, v.members, e))
  {
    if !BadAdvisory(v) {
      var a := v.members;
      PickedIs(str, a);
      AnyOfIs(a, ["module_name", "name"]);
      AnyOfIs(a, ["title", "advisory", "overview", "url"]);
      assert Lookups(a, ["module_name", "name"]) == [Lookup(a, "module_name"), Lookup(a, "name")];
      assert Lookups(a, ["title", "advisory", "overview", "url"])
        == [Lookup(a, "title"), Lookup(a, "advisory"), Lookup(a, "overview"), Lookup(a, "url")];
      hide FirstTruthy, Candidates, PickAdvisoryId, AnyOf, Lookup;
      var f := AdvisoryEntry(str, v).value;
      assert Describes(str, a, f);
      if Describes(str, a, e) { DescribesOnce(str, a, e, f); }
    }
  }

  // What an item of a via list names, and its title.
  predicate ItemNames(item: Value, id: Value) {
    match item
    case Dict(m) => FirstTruthy([Lookup(m, "github_advisory_id"), Lookup(m, "url"), Lookup(m, "source"), Lookup(m, "title"), Lookup(m, "name")], id)
    case Text(_) => id == item
    case _ => false
  }

  predicate ItemTitled(item: Value, title: Value) {
    match item
    case Dict(m) => FirstTruthy([Lookup(m, "title"), Lookup(m, "url"), Lookup(m, "advisory"), Lookup(m, "source")], title)
    case Text(_) => title == item
    case _ => false
  }

  lemma ItemIs(item: Value, v: Value)
    ensures ViaAdvisory(item) == Some(v) <==> ItemNames(item, v)
    ensures ViaTitle(item) == Some(v) <==> ItemTitled(item, v)
  {
    if item.Dict? {
      var m := item.members;
      var ids, titles := ["github_advisory_id", "url", "source", "title", "name"], ["title", "url", "advisory", "source"];
      AnyOfIs(m, ids);
      AnyOfIs(m, titles);
      assert Lookups(m, ids) == [Lookup(m, "github_advisory_id"), Lookup(m, "url"), Lookup(m, "source"), Lookup(m, "title"), Lookup(m, "name")];
      assert Lookups(m, titles) == [Lookup(m, "title"), Lookup(m, "url"), Lookup(m, "advisory"), Lookup(m, "source")];
      hide FirstTruthy, AnyOf, Lookup;
      if ItemNames(item, v) { FirstTruthyOnce(Lookups(m, ids), v, AnyOf(m, ids)); }
      if ItemTitled(item, v) { FirstTruthyOnce(Lookups(m, titles), v, AnyOf(m, titles)); }
    }
  }

  // The items of a via: those of a list, or the one string.
  predicate InVia(via: Value, item: Value) {
    (via.List? && item in via.items) || (via.Text? && item == via)
  }

  lemma InViaIs(via: Value, item: Value)
    ensures item in ViaItems(via) <==> InVia(via, item)
  {
  }

  // ---- which entries, and when none ------------------------------------------------

  // An advisory whose id cannot be read: no id and no url comes before its cves, and
  // those are neither a list nor a string.
  predicate BadCves(a: seq<Member>) {
    && !Truthy(Lookup(a, "github_advisory_id")) && !Truthy(Lookup(a, "url"))
    && Truthy(Lookup(a, "cves")) && !Lookup(a, "cves").List? && !Lookup(a, "cves").Text?
  }

  // An item of a via list whose title is not a string.
  predicate BadTitle(item: Value) {
    var title := ViaTitle(item);
    title.Some? && Truthy(title.value) && !title.value.Text?
  }

  predicate BadAdvisory(v: Value) { !v.Dict? || BadCves(v.members) }

  predicate BadVulnerability(v: Value) {
    !v.Dict? || exists item <- ViaItems(Lookup(v.members, "via")) :: BadTitle(item)
  }

  lemma {:induction false} InTruthyOnly(vs: seq<Value>, v: Value)
    ensures v in TruthyOnly(vs) <==> v in vs && Truthy(v)
  {
    if vs != [] {
      assert vs == [vs[0]] + vs[1..];
      InTruthyOnly(vs[1..], v);
    }
  }

  lemma {:induction false} InCollect(items: seq<Value>, of: Value -> Option<Value>, v: Value)
    ensures v in Collect(items, of) <==> exists item <- items :: of(item) == Some(v)
  {
    if items != [] {
      var init, last := items[..|items| - 1], items[|items| - 1];
      assert items == init + [last];
      InCollect(init, of, v);
    }
  }

  lemma VulnerabilityRaises(name: string, v: Value)
    ensures VulnerabilityEntries(name, v).Err? <==> BadVulnerability(v)
  {
    if v.Dict? {
      var items := ViaItems(Lookup(v.members, "via"));
      forall t ensures t in TruthyOnly(Collect(items, ViaTitle)) <==>
        Truthy(t) && exists item <- items :: ViaTitle(item) == Some(t)
      {
        InTruthyOnly(Collect(items, ViaTitle), t);
        InCollect(items, ViaTitle, t);
      }
    }
  }

  // The entry e comes from the advisories, or from a vulnerability via one of its items.
  ghost predicate FromVulnerability(name: string, v: Value, e: Entry) {
    v.Dict? &&
    var via := Lookup(v.members, "via");
    && e.name == Text(name) && e.severity == Lookup(v.members, "severity")
    && Truthy(e.advisory) && (exists item :: InVia(via, item) && ItemNames(item, e.advisory))
    && var titles := TruthyOnly(Collect(ViaItems(via), ViaTitle));
       Joinable(titles) && e.title == Text(Join(titles))
  }

  lemma VulnerabilityYields(name: string, v: Value, e: Entry)
    requires !BadVulnerability(v)
    ensures VulnerabilityEntries(name, v).Ok?
    ensures e in VulnerabilityEntries(name, v).value <==> FromVulnerability(name, v, e)
  {
    VulnerabilityRaises(name, v);
    var items := ViaItems(Lookup(v.members, "via"));
    InTruthyOnly(Collect(items, ViaAdvisory), e.advisory);
    InCollect(items, ViaAdvisory, e.advisory);
    forall item ensures item in items && ViaAdvisory(item) == Some(e.advisory) <==>
      InVia(Lookup(v.members, "via"), item) && ItemNames(item, e.advisory)
    {
      InViaIs(Lookup(v.members, "via"), item);
      ItemIs(item, e.advisory);
    }
    hide ItemNames, InVia, ViaAdvisory;
    var ids, title := TruthyOnly(Collect(items, ViaAdvisory)), Text(Join(TruthyOnly(Collect(items, ViaTitle))));
    var es := EntriesOf(name, Lookup(v.members, "severity"), ids, title);
    if e.advisory in ids {
      var i :| 0 <= i < |ids| && ids[i] == e.advisory;
      assert es[i].advisory == e.advisory;
    }
  }

  lemma {:induction false} AdvisoryLoopYields(str: Value -> string, done: seq<Entry>, ms: seq<Member>, e: Entry)
    ensures AdvisoryLoop(str, done, ms).raised.Some? <==> exists m <- ms :: BadAdvisory(m.value)
    ensures e in AdvisoryLoop(str, done, ms).entries ==>
      e in done || exists m <- ms :: m.value.Dict? && Describes(str, m.value.members, e)
    ensures AdvisoryLoop(str, done, ms).raised.None? ==>
      (e in AdvisoryLoop(str, done, ms).entries <==>
        e in done || exists m <- ms :: m.value.Dict? && Describes(str, m.value.members, e))
    decreases |ms|
  {
    if ms != [] {
      assert ms == [ms[0]] + ms[1..];
      AdvisoryDescribed(str, ms[0].value, e);
      assert !BadAdvisory(ms[0].value) ==> ms[0].value.Dict?;
      hide AdvisoryEntry, BadAdvisory, Describes;
      match AdvisoryEntry(str, ms[0].value)
      case Err(_) => assert BadAdvisory(ms[0].value);
      case Ok(e0) => AdvisoryLoopYields(str, done + [e0], ms[1..], e);
    }
  }

  lemma {:induction false} VulnerabilityLoopYields(done: seq<Entry>, ms: seq<Member>, e: Entry)
    ensures VulnerabilityLoop(done, ms).raised.Some? <==> exists m <- ms :: BadVulnerability(m.value)
    ensures e in VulnerabilityLoop(done, ms).entries ==>
      e in done || exists m <- ms :: FromVulnerability(m.key, m.value, e)
    ensures VulnerabilityLoop(done, ms).raised.None? ==>
      (e in VulnerabilityLoop(done, ms).entries <==> e in done || exists m <- ms :: FromVulnerability(m.key, m.value, e))
    decreases |ms|
  {
    hide VulnerabilityEntries, BadVulnerability, FromVulnerability;
    if ms != [] {
      assert ms == [ms[0]] + ms[1..];
      VulnerabilityRaises(ms[0].key, ms[0].value);
      match VulnerabilityEntries(ms[0].key, ms[0].value)
      case Err(_) => assert BadVulnerability(ms[0].value);
      case Ok(es) =>
        VulnerabilityYields(ms[0].key, ms[0].value, e);
        VulnerabilityLoopYields(done + es, ms[1..], e);
    }
  }

  // Reading a report raises an error exactly when the report, an advisory or a
  // vulnerability has the wrong form.
  predicate Malformed(data: Value) {
    || !data.Dict?
    || (exists m <- Members(Lookup(data.members, "advisories")) :: BadAdvisory(m.value))
    || (exists m <- Members(Lookup(data.members, "vulnerabilities")) :: BadVulnerability(m.value))
  }

  // The entries of a report: those of its advisories and those of its vulnerabilities.
  ghost predicate Names(str: Value -> string, data: Value, e: Entry)
    requires data.Dict?
  {
    || (exists m <- Members(Lookup(data.members, "advisories")) :: m.value.Dict? && Describes(str, m.value.members, e))
    || (exists m <- Members(Lookup(data.members, "vulnerabilities")) :: FromVulnerability(m.key, m.value, e))
  }

  lemma VulnsAre(str: Value -> string, data: Value, e: Entry)
    ensures Vulns(str, data).raised.Some? <==> Malformed(data)
    ensures !Malformed(data) ==> (e in Vulns(str, data).entries <==> Names(str, data, e))
    ensures data.Dict? && e in Vulns(str, data).entries ==> Names(str, data, e)
  {
    hide Describes, BadAdvisory, BadVulnerability, FromVulnerability;
    if data.Dict? {
      var advisories := Members(Lookup(data.members, "advisories"));
      AdvisoryLoopYields(str, [], advisories, e);
      if AdvisoryLoop(str, [], advisories).raised.None? {
        VulnerabilityLoopYields(AdvisoryLoop(str, [], advisories).entries,
          Members(Lookup(data.members, "vulnerabilities")), e);
      }
    }
  }

  function Concat(parts: seq<seq<Entry>>): seq<Entry> {
    if parts == [] then [] else parts[0] + Concat(parts[1..])
  }

  // The entries come in the order of the report: one for each advisory, and then, part by
  // part, those of each vulnerability.
  ghost predicate InReportOrder(str: Value -> string, data: Value, es: seq<Entry>, first: seq<Entry>, parts: seq<seq<Entry>>)
    requires data.Dict?
  {
    var advisories := Members(Lookup(data.members, "advisories"));
    var vulns := Members(Lookup(data.members, "vulnerabilities"));
    es == first + Concat(parts) && DescribesAll(str, advisories, first) && FromAll(vulns, parts)
  }

  ghost predicate DescribesAll(str: Value -> string, ms: seq<Member>, first: seq<Entry>) {
    |first| == |ms| && forall i :: 0 <= i < |ms| ==> ms[i].value.Dict? && Describes(str, ms[i].value.members, first[i])
  }

  ghost predicate FromAll(ms: seq<Member>, parts: seq<seq<Entry>>) {
    && |parts| == |ms|
    && forall i, e :: 0 <= i < |ms| ==> (e in parts[i] <==> FromVulnerability(ms[i].key, ms[i].value, e))
  }

  lemma {:induction false} AdvisoriesInOrder(str: Value -> string, done: seq<Entry>, ms: seq<Member>) returns (first: seq<Entry>)
    requires AdvisoryLoop(str, done, ms).raised.None?
    ensures AdvisoryLoop(str, done, ms).entries == done + first && DescribesAll(str, ms, first)
    decreases |ms|
  {
    first := [];
    if ms != [] {
      var e := AdvisoryEntry(str, ms[0].value).value;
      AdvisoryDescribed(str, ms[0].value, e);
      hide AdvisoryEntry, Describes;
      first := AdvisoriesInOrder(str, done + [e], ms[1..]);
      first := [e] + first;
    }
  }

  lemma {:induction false} VulnerabilitiesInOrder(done: seq<Entry>, ms: seq<Member>) returns (parts: seq<seq<Entry>>)
    requires VulnerabilityLoop(done, ms).raised.None?
    ensures VulnerabilityLoop(done, ms).entries == done + Concat(parts) && FromAll(ms, parts)
    decreases |ms|
  {
    parts := [];
    if ms != [] {
      hide VulnerabilityEntries, FromVulnerability, BadVulnerability;
      var es := VulnerabilityEntries(ms[0].key, ms[0].value).value;
      VulnerabilityRaises(ms[0].key, ms[0].value);
      forall e ensures e in es <==> FromVulnerability(ms[0].key, ms[0].value, e) {
        VulnerabilityYields(ms[0].key, ms[0].value, e);
      }
      var rest := VulnerabilitiesInOrder(done + es, ms[1..]);
      parts := [es] + rest;
      assert parts[1..] == rest;
    }
  }

  lemma VulnsInOrder(str: Value -> string, data: Value) returns (first: seq<Entry>, parts: seq<seq<Entry>>)
    requires !Malformed(data)
    ensures InReportOrder(str, data, Vulns(str, data).entries, first, parts)
  {
    BothLoopsEnd(str, data);
    hide DescribesAll, FromAll, Malformed, Lookup, Members, Vulns, AdvisoryLoop, VulnerabilityLoop, Concat;
    var advisories := Members(Lookup(data.members, "advisories"));
    first := AdvisoriesInOrder(str, [], advisories);
    assert [] + first == first;
    parts := VulnerabilitiesInOrder(first, Members(Lookup(data.members, "vulnerabilities")));
  }

  lemma BothLoopsEnd(str: Value -> string, data: Value)
    requires !Malformed(data)
    ensures data.Dict?
    ensures
      var first := AdvisoryLoop(str, [], Members(Lookup(data.members, "advisories")));
      var all := VulnerabilityLoop(first.entries, Members(Lookup(data.members, "vulnerabilities")));
      first.raised.None? && all.raised.None? && Vulns(str, data) == all
  {
    VulnsAre(str, data, Entry(Null, Null, Null, Null));
    hide Malformed, Names, AdvisoryLoop, VulnerabilityLoop, Lookup, Members;
  }

  // A via item with a number as its source and no title raises, although the tool means to
  // support numeric sources.
  lemma NumericSourceRaises(str: Value -> string, name: string, n: int)
    requires n != 0
    ensures Vulns(str, Dict([Member("vulnerabilities", Dict([Member(name,
      Dict([Member("via", List([Dict([Member("source", Number(n))])]))]))]))])).raised.Some?
  {
    var item := Dict([Member("source", Number(n))]);
    var vuln := Dict([Member("via", List([item]))]);
    var vulns := [Member(name, vuln)];
    var data := Dict([Member("vulnerabilities", Dict(vulns))]);
    assert ViaTitle(item) == Some(Number(n)) by {
      var m := item.members;
      assert m[1..] == [] && Lookup(m, "title") == Lookup(m, "url") == Lookup(m, "advisory") == Null && Lookup(m, "source") == Number(n);
      var k1, k2, k3, k4 := ["title", "url", "advisory", "source"], ["url", "advisory", "source"], ["advisory", "source"], ["source"];
      assert k1[1..] == k2 && k2[1..] == k3 && k3[1..] == k4;
      assert AnyOf(m, k4) == AnyOf(m, k3) == AnyOf(m, k2) == AnyOf(m, k1) == Number(n);
    }
    assert ViaItems(Lookup(vuln.members, "via")) == [item];
    assert item in [item] && BadTitle(item);
    assert vulns[0] in vulns && BadVulnerability(vulns[0].value);
    VulnsAre(str, data, Entry(Null, Null, Null, Null));
  }
}
