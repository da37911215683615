// The gate in the terms of its inputs: which exceptions are complete, which of them is for
// an entry, and what a passing verdict says of the texts in both.
module AuditMeaning {
  import opened Common
  import opened AuditText
  import opened AuditParser
  import opened AuditEntries
  import opened AuditReports
  import opened AuditGate
  import opened AuditTheorems

  // ---- texts -----------------------------------------------------------------------

  // The same letter, in either case.
  predicate SameLetter(c: char, d: char) {
    c == d || ('A' <= c <= 'Z' && d as int == c as int + 32) || ('A' <= d <= 'Z' && c as int == d as int + 32)
  }

  predicate EqualFold(a: string, b: string) {
    |a| == |b| && forall i :: 0 <= i < |a| ==> SameLetter(a[i], b[i])
  }

  // Lower-casing makes two texts equal exactly when they differ in the case of letters only.
  lemma LowerFolds(a: string, b: string)
    ensures Lower(a) == Lower(b) <==> EqualFold(a, b)
  {
    if Lower(a) == Lower(b) {
      forall i | 0 <= i < |a| ensures SameLetter(a[i], b[i]) {
        assert Lower(a)[i] == LowerChar(a[i]) && Lower(b)[i] == LowerChar(b[i]);
      }
    }
    if EqualFold(a, b) {
      forall i | 0 <= i < |a| ensures Lower(a)[i] == Lower(b)[i] { assert SameLetter(a[i], b[i]); }
    }
  }

  lemma AlreadyNormal(s: string)
    requires Trimmed(s) && forall i :: 0 <= i < |s| ==> LowerChar(s[i]) == s[i]
    ensures Strip(s) == s && Normalize(s) == s
  {
    StripOf("", s, "");
    hide Strip, Trimmed;
    assert "" + s + "" == s;
    assert Lower(s) == s;
  }

  // ---- exceptions and entries ------------------------------------------------------

  // An exception with all its fields, a date, and a package and advisory that are not blank.
  predicate IsComplete(env: Env, exc: Record) {
    && Field(exc, "package") != "" && Field(exc, "advisory") != "" && Field(exc, "severity") != ""
    && Field(exc, "mitigation") != "" && Field(exc, "expires_on") != ""
    && env.parseDate(Field(exc, "expires_on")).Some?
    && Strip(Field(exc, "package")) != "" && Strip(Field(exc, "advisory")) != ""
  }

  predicate SameException(a: Record, b: Record) {
    && Strip(Field(a, "package")) == Strip(Field(b, "package"))
    && EqualFold(Strip(Field(a, "advisory")), Strip(Field(b, "advisory")))
  }

  // The text of a value of the report.
  function TextOf(env: Env, v: Value): string {
    match v
    case Null => ""
    case Text(s) => s
    case _ => env.str(v)
  }

  // An entry of high or critical severity that names a package.
  predicate IsHigh(e: Entry) {
    Truthy(e.name) && e.severity.Text?
    && (EqualFold(Strip(e.severity.s), "high") || EqualFold(Strip(e.severity.s), "critical"))
  }

  predicate SameVulnerability(env: Env, e: Entry, f: Entry) {
    && Strip(TextOf(env, e.name)) == Strip(TextOf(env, f.name))
    && EqualFold(Strip(TextOf(env, e.advisory)), Strip(TextOf(env, f.advisory)))
  }

  // The exception is for the entry's package and advisory.
  predicate IsFor(env: Env, exc: Record, e: Entry) {
    && Strip(Field(exc, "package")) == Strip(TextOf(env, e.name))
    && EqualFold(Strip(Field(exc, "advisory")), Strip(TextOf(env, e.advisory)))
  }

  predicate InTime(env: Env, exc: Record)
    requires IsComplete(env, exc)
  {
    env.today <= env.parseDate(Field(exc, "expires_on")).value
  }

  // The exception's severity is blank, or the entry's.
  predicate NamesSeverity(exc: Record, e: Entry)
    requires e.severity.Text?
  {
    Strip(Field(exc, "severity")) == "" || EqualFold(Strip(Field(exc, "severity")), Strip(e.severity.s))
  }

  lemma CompleteIs(env: Env, exc: Record)
    ensures WellFormedException(env, exc) <==> IsComplete(env, exc)
  {
    NormalEmpty(Field(exc, "advisory"));
    hide Strip, Normalize;
    assert RequiredFields[0] == "package" && RequiredFields[1] == "advisory" && RequiredFields[2] == "severity";
    assert RequiredFields[3] == "mitigation" && RequiredFields[4] == "expires_on";
    hide Field;
  }

  lemma NormalEmpty(s: string)
    ensures Normalize(s) == "" <==> Strip(s) == ""
  {
  }

  lemma KeysAre(env: Env, exc: Record, e: Entry)
    ensures KeyOf(exc) == EntryKey(env, e) <==> IsFor(env, exc, e)
    ensures EntryKey(env, e).advisory == "" <==> Strip(TextOf(env, e.advisory)) == ""
  {
    TextNormal(env, e);
    LowerFolds(Strip(Field(exc, "advisory")), Strip(TextOf(env, e.advisory)));
    hide Strip, Lower, EqualFold, Field;
  }

  lemma TextNormal(env: Env, e: Entry)
    ensures EntryKey(env, e) == Key(Strip(TextOf(env, e.name)), Lower(Strip(TextOf(env, e.advisory))))
  {
  }

  lemma SameKeys(env: Env, e: Entry, f: Entry)
    ensures EntryKey(env, e) == EntryKey(env, f) <==> SameVulnerability(env, e, f)
  {
    TextNormal(env, e);
    TextNormal(env, f);
    LowerFolds(Strip(TextOf(env, e.advisory)), Strip(TextOf(env, f.advisory)));
    hide Strip, Lower, EqualFold, EntryKey;
  }

  lemma SameExceptions(a: Record, b: Record)
    ensures KeyOf(a) == KeyOf(b) <==> SameException(a, b)
  {
    LowerFolds(Strip(Field(a, "advisory")), Strip(Field(b, "advisory")));
    hide Strip, Lower, EqualFold, Field;
  }

  lemma RelevantIs(e: Entry)
    ensures Relevant(e) <==> IsHigh(e)
    ensures IsHigh(e) ==> NormalizeSeverity(e.severity) == Some(Lower(Strip(e.severity.s)))
  {
    AlreadyNormal("high");
    AlreadyNormal("critical");
    if e.severity.Text? {
      LowerFolds(Strip(e.severity.s), "high");
      LowerFolds(Strip(e.severity.s), "critical");
      NormalEmpty(e.severity.s);
    }
    assert Strip("") == "";
    hide Strip, Lower, EqualFold;
  }

  lemma SeverityIs(env: Env, exc: Record, e: Entry)
    requires WellFormedException(env, exc) && IsHigh(e) && NormalizeSeverity(e.severity).Some?
    ensures ExceptionOf(env, exc).severity in ["", NormalizeSeverity(e.severity).value] <==> NamesSeverity(exc, e)
  {
    RelevantIs(e);
    NormalEmpty(Field(exc, "severity"));
    LowerFolds(Strip(Field(exc, "severity")), Strip(e.severity.s));
    hide Strip, Lower, EqualFold, Field, IsHigh;
  }

  // ---- the verdict -----------------------------------------------------------------

  // The severities that the gate can read: texts, and what counts as false.
  predicate ReadableSeverity(e: Entry) { e.severity.Text? || !Truthy(e.severity) }

  // Every exception is complete, and no two are for the same package and advisory.
  ghost predicate GoodExceptions(env: Env, excs: seq<Record>) {
    && (forall exc <- excs :: IsComplete(env, exc))
    && forall i, j :: 0 <= i < j < |excs| ==> !SameException(excs[i], excs[j])
  }

  // Every high entry has an advisory and an exception in time.
  ghost predicate AllExcepted(env: Env, excs: seq<Record>, es: seq<Entry>)
    requires forall exc <- excs :: IsComplete(env, exc)
  {
    forall e <- es :: IsHigh(e) ==>
      Strip(TextOf(env, e.advisory)) != "" && exists exc <- excs :: IsFor(env, exc, e) && InTime(env, exc)
  }

  // No earlier high entry is about the same vulnerability.
  predicate FirstMention(env: Env, es: seq<Entry>, i: nat)
    requires i < |es|
  {
    forall j :: 0 <= j < i && IsHigh(es[j]) ==> !SameVulnerability(env, es[j], es[i])
  }

  ghost predicate SeveritiesNamed(env: Env, excs: seq<Record>, es: seq<Entry>) {
    forall i :: 0 <= i < |es| && IsHigh(es[i]) && FirstMention(env, es, i) ==>
      forall exc <- excs :: IsFor(env, exc, es[i]) ==> NamesSeverity(exc, es[i])
  }

  lemma GoodIs(env: Env, excs: seq<Record>)
    ensures GoodList(env, excs) <==> GoodExceptions(env, excs)
  {
    forall exc ensures WellFormedException(env, exc) <==> IsComplete(env, exc) { CompleteIs(env, exc); }
    forall a, b ensures KeyOf(a) == KeyOf(b) <==> SameException(a, b) { SameExceptions(a, b); }
    hide WellFormedException, IsComplete, KeyOf, SameException;
  }

  lemma SoundIs(env: Env, excs: seq<Record>, es: seq<Entry>)
    requires GoodList(env, excs) && GoodExceptions(env, excs)
    ensures Sound(env, excs, es) <==> (forall e <- es :: ReadableSeverity(e)) && AllExcepted(env, excs, es)
  {
    forall e: Entry ensures NormalizeSeverity(e.severity).Some? <==> ReadableSeverity(e) {}
    forall e ensures Relevant(e) <==> IsHigh(e) { RelevantIs(e); }
    forall e, exc ensures KeyOf(exc) == EntryKey(env, e) <==> IsFor(env, exc, e) { KeysAre(env, exc, e); }
    forall e ensures EntryKey(env, e).advisory == "" <==> Strip(TextOf(env, e.advisory)) == "" { KeysAre(env, map[], e); }
    hide IsHigh, Relevant, KeyOf, EntryKey, IsFor, Strip, TextOf, IsComplete, WellFormedException, NormalizeSeverity, ReadableSeverity,
      DistinctKeys, SameException, Normalize;
  }

  // The gate exits with 0 exactly when the exceptions are complete and different, every
  // severity can be read, every high entry has an advisory and an exception in time, and the
  // first entry on each vulnerability has the severity that its exception names, if any.
  lemma GateMeans(env: Env, excs: seq<Record>, es: seq<Entry>)
    ensures Verdict(env, true, excs, es).Code() == 0 <==>
      && GoodExceptions(env, excs) && (forall e <- es :: ReadableSeverity(e))
      && AllExcepted(env, excs, es) && SeveritiesNamed(env, excs, es)
  {
    VerdictMeans(env, true, excs, es);
    GoodIs(env, excs);
    if GoodList(env, excs) {
      SoundIs(env, excs, es);
      if Sound(env, excs, es) { NamedIs(env, excs, es); }
    }
    hide Verdict, GoodList, GoodExceptions, AllExcepted, SeveritiesNamed, Sound, ReadableSeverity;
  }

  // The whole tool: the same of the exceptions in the list and the entries of the report, in
  // the report's order; it also fails on a list or a report that it cannot read.
  lemma ExitCodeMeans(env: Env, data: Value, text: string)
    ensures !Malformed(data) ==> exists first, parts :: InReportOrder(env.str, data, Vulns(env.str, data).entries, first, parts)
    ensures Program(env, data, text).Code() == 0 <==>
      && Parsed(text).Ok? && !Malformed(data)
      && var excs, es := Parsed(text).value, Vulns(env.str, data).entries;
         && GoodExceptions(env, excs) && (forall e <- es :: ReadableSeverity(e))
         && AllExcepted(env, excs, es) && SeveritiesNamed(env, excs, es)
  {
    ProgramMeans(env, data, text);
    if Parsed(text).Ok? && !Malformed(data) {
      VerdictMeans(env, true, Parsed(text).value, Vulns(env.str, data).entries);
      GateMeans(env, Parsed(text).value, Vulns(env.str, data).entries);
    }
    hide Program, Verdict, Passes, Parsed, Vulns, Malformed, GoodExceptions, SeveritiesNamed, ReadableSeverity, InReportOrder;
  }

  // For example: a report whose only advisory is high, and no exceptions.
  lemma HighWithoutException(env: Env, a: seq<Member>, data: Value)
    requires a == [Member("module_name", Text("lodash")), Member("severity", Text("high")), Member("github_advisory_id", Text("GHSA-1"))]
    requires data == Dict([Member("advisories", Dict([Member("1", Dict(a))]))])
    ensures Program(env, data, "").Code() == 1
  {
    var e := Entry(Text("lodash"), Text("high"), Text("GHSA-1"), Null);
    ExampleDescribed(env, a, e);
    AlreadyNormal("high");
    assert IsHigh(e);
    assert Lookup(data.members, "advisories") == Dict([Member("1", Dict(a))]);
    assert Member("1", Dict(a)) in [Member("1", Dict(a))];
    VulnsAre(env.str, data, e);
    assert Parsed("") == Ok([]);
    hide Describes, IsHigh, Parsed, Vulns, Malformed, Lookup, IsFor;
    ExitCodeMeans(env, data, "");
  }

  lemma ExampleDescribed(env: Env, a: seq<Member>, e: Entry)
    requires a == [Member("module_name", Text("lodash")), Member("severity", Text("high")), Member("github_advisory_id", Text("GHSA-1"))]
    requires e == Entry(Text("lodash"), Text("high"), Text("GHSA-1"), Null)
    ensures Describes(env.str, a, e)
  {
    ExampleLookups(a);
    hide Lookup;
    assert [Lookup(a, "module_name"), Lookup(a, "name")][0] == Text("lodash");
    assert Candidates(env.str, a)[0] == Text("GHSA-1");
    assert [Lookup(a, "title"), Lookup(a, "advisory"), Lookup(a, "overview"), Lookup(a, "url")][3] == Null;
  }

  lemma ExampleLookups(a: seq<Member>)
    requires a == [Member("module_name", Text("lodash")), Member("severity", Text("high")), Member("github_advisory_id", Text("GHSA-1"))]
    ensures Lookup(a, "module_name") == Text("lodash") && Lookup(a, "severity") == Text("high")
    ensures Lookup(a, "github_advisory_id") == Text("GHSA-1")
    ensures Lookup(a, "title") == Lookup(a, "advisory") == Lookup(a, "overview") == Lookup(a, "url") == Null
  {
    var b, c := a[1..], a[2..];
    assert b == [Member("severity", Text("high")), Member("github_advisory_id", Text("GHSA-1"))] && b[1..] == c;
    assert c == [Member("github_advisory_id", Text("GHSA-1"))] && c[1..] == [];
    assert Lookup(b, "github_advisory_id") == Lookup(c, "github_advisory_id") == Text("GHSA-1");
    NotAmong(a, "title");
    NotAmong(a, "advisory");
    NotAmong(a, "overview");
    NotAmong(a, "url");
  }

  lemma {:induction false} NotAmong(ms: seq<Member>, key: string)
    requires forall m <- ms :: m.key != key
    ensures Lookup(ms, key) == Null
  {
    if ms != [] { NotAmong(ms[1..], key); }
  }

  lemma NamedIs(env: Env, excs: seq<Record>, es: seq<Entry>)
    requires Sound(env, excs, es)
    ensures Passes(env, true, excs, es) <==> SeveritiesNamed(env, excs, es)
  {
    forall i | 0 <= i < |es| ensures FirstOfKey(env, es, i) <==> FirstMention(env, es, i) { FirstIs(env, es, i); }
    forall i | 0 <= i < |es| ensures Relevant(es[i]) <==> IsHigh(es[i]) { RelevantIs(es[i]); }
    forall i | 0 <= i < |es| && IsHigh(es[i])
      ensures Fits(env, excs, es[i]) <==> forall exc <- excs :: IsFor(env, exc, es[i]) ==> NamesSeverity(exc, es[i])
    {
      FitsIs(env, excs, es[i]);
    }
    hide Fits, FirstOfKey, FirstMention, IsHigh, Relevant, IsFor, NamesSeverity, Sound;
  }

  lemma FirstIs(env: Env, es: seq<Entry>, i: nat)
    requires i < |es|
    ensures FirstOfKey(env, es, i) <==> FirstMention(env, es, i)
  {
    forall j | 0 <= j < i
      ensures (Relevant(es[j]) <==> IsHigh(es[j]))
        && (EntryKey(env, es[j]) == EntryKey(env, es[i]) <==> SameVulnerability(env, es[j], es[i]))
    {
      RelevantIs(es[j]);
      SameKeys(env, es[j], es[i]);
    }
    hide Relevant, IsHigh, EntryKey, SameVulnerability;
  }

  lemma FitsIs(env: Env, excs: seq<Record>, e: Entry)
    requires (forall exc <- excs :: WellFormedException(env, exc)) && NormalizeSeverity(e.severity).Some? && IsHigh(e)
    ensures Fits(env, excs, e) <==> forall exc <- excs :: IsFor(env, exc, e) ==> NamesSeverity(exc, e)
  {
    forall exc <- excs
      ensures (KeyOf(exc) == EntryKey(env, e) <==> IsFor(env, exc, e))
        && (ExceptionOf(env, exc).severity in ["", NormalizeSeverity(e.severity).value] <==> NamesSeverity(exc, e))
    {
      KeysAre(env, exc, e);
      SeverityIs(env, exc, e);
    }
    hide KeyOf, EntryKey, IsFor, NamesSeverity, ExceptionOf, WellFormedException, NormalizeSeverity;
  }
}
