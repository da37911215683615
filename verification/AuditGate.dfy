// The audit gate: the index of exceptions, the scan of the vulnerabilities, the verdict,
// and what a passing verdict means.
module AuditGate {
  import opened Common
  import opened AuditText
  import opened AuditParser
  import opened AuditEntries

  // Python's str, date.fromisoformat on an ordered date, and the current date.
  datatype Env = Env(str: Value -> string, parseDate: string -> Option<int>, today: int)

  datatype Key = Key(package: string, advisory: string)

  datatype Exception = Exception(severity: string, expiresOn: int)

  datatype Finding =
    | MissingFields(exc: Record)
    | InvalidDate(exc: Record)
    | MissingValue
    | Duplicate(key: Key)
    | MissingAdvisory(e: Entry)
    | SeverityMismatch(e: Entry, got: string)
    | NoException(e: Entry)
    | Expired(e: Entry, on: int)

  // How the program ends: with an exit code, or by an uncaught error, whose exit code is 1.
  datatype Ending = Exit(findings: seq<Finding>) | Uncaught {
    function Code(): int { if Exit? && findings == [] then 0 else 1 }
  }

  const RequiredFields: seq<string> := ["package", "advisory", "severity", "mitigation", "expires_on"]

  predicate HighSeverity(s: string) { s == "high" || s == "critical" }

  function Normalize(s: string): string { Lower(Strip(s)) }

  // normalize_severity of a report's value; a truthy value that is not a string has no strip.
  function NormalizeSeverity(v: Value): Option<string> {
    if !Truthy(v) then Some("") else if v.Text? then Some(Normalize(v.s)) else None
  }

  function NormalizePackage(env: Env, v: Value): string {
    if v.Null? then "" else Strip(AsText(env.str, v))
  }

  function NormalizeAdvisory(env: Env, v: Value): string {
    if v.Null? then "" else Normalize(AsText(env.str, v))
  }

  // ---- the index of exceptions -----------------------------------------------------

  // exc.get(field), "" when it is absent.
  function Field(exc: Record, field: string): string { if field in exc then exc[field] else "" }

  predicate HasFields(exc: Record) { forall f <- RequiredFields :: Field(exc, f) != "" }

  function KeyOf(exc: Record): Key { Key(Strip(Field(exc, "package")), Normalize(Field(exc, "advisory"))) }

  // Everything that the loop over the exceptions asks of one of them alone.
  predicate WellFormedException(env: Env, exc: Record) {
    HasFields(exc) && env.parseDate(Field(exc, "expires_on")).Some? && KeyOf(exc).package != "" && KeyOf(exc).advisory != ""
  }

  function ExceptionOf(env: Env, exc: Record): Exception
    requires WellFormedException(env, exc)
  {
    Exception(Normalize(Field(exc, "severity")), env.parseDate(Field(exc, "expires_on")).value)
  }

  datatype Indexed = Indexed(index: map<Key, Exception>, errors: seq<Finding>)

  function IndexOne(env: Env, ix: Indexed, exc: Record): Indexed {
    if !HasFields(exc) then ix.(errors := ix.errors + [MissingFields(exc)])
    else if env.parseDate(Field(exc, "expires_on")).None? then ix.(errors := ix.errors + [InvalidDate(exc)])
    else if KeyOf(exc).package == "" || KeyOf(exc).advisory == "" then ix.(errors := ix.errors + [MissingValue])
    else if KeyOf(exc) in ix.index then ix.(errors := ix.errors + [Duplicate(KeyOf(exc))])
    else ix.(index := ix.index[KeyOf(exc) := ExceptionOf(env, exc)])
  }

  function IndexAll(env: Env, excs: seq<Record>): Indexed {
    if excs == [] then Indexed(map[], [])
    else IndexOne(env, IndexAll(env, excs[..|excs| - 1]), excs[|excs| - 1])
  }

  method BuildIndex(env: Env, excs: seq<Record>) returns (index: map<Key, Exception>, errors: seq<Finding>)
    ensures Indexed(index, errors) == IndexAll(env, excs)
  {
    index, errors := map[], [];
    for i := 0 to |excs|
      invariant Indexed(index, errors) == IndexAll(env, excs[..i])
    {
      assert excs[..i + 1][..i] == excs[..i];
      var exc := excs[i];
      var missing := exists f <- RequiredFields :: Field(exc, f) == "";
      if missing {
        errors := errors + [MissingFields(exc)];
        continue;
      }
      var severity, package, advisory := Normalize(Field(exc, "severity")), Strip(Field(exc, "package")), Normalize(Field(exc, "advisory"));
      var date := env.parseDate(Field(exc, "expires_on"));
      if date.None? {
        errors := errors + [InvalidDate(exc)];
        continue;
      }
      if package == "" || advisory == "" {
        errors := errors + [MissingValue];
        continue;
      }
      var key := Key(package, advisory);
      if key in index {
        errors := errors + [Duplicate(key)];
        continue;
      }
      index := index[key := Exception(severity, date.value)];
    }
    assert excs[..|excs|] == excs;
  }

  predicate DistinctKeys(excs: seq<Record>) {
    forall i, j :: 0 <= i < j < |excs| ==> KeyOf(excs[i]) != KeyOf(excs[j])
  }

  predicate GoodList(env: Env, excs: seq<Record>) {
    (forall exc <- excs :: WellFormedException(env, exc)) && DistinctKeys(excs)
  }

  // The index maps the key of each exception to that exception, and nothing else.
  predicate Indexes(env: Env, index: map<Key, Exception>, excs: seq<Record>)
    requires forall exc <- excs :: WellFormedException(env, exc)
  {
    && (forall exc <- excs :: KeyOf(exc) in index && index[KeyOf(exc)] == ExceptionOf(env, exc))
    && (forall k <- index :: exists exc <- excs :: KeyOf(exc) == k)
  }

  lemma OneMoreException(env: Env, init: seq<Record>, last: Record)
    ensures GoodList(env, init + [last]) <==>
      GoodList(env, init) && WellFormedException(env, last) && forall exc <- init :: KeyOf(exc) != KeyOf(last)
  {
    hide KeyOf, WellFormedException;
    var excs := init + [last];
    assert forall exc <- excs :: exc in init || exc == last;
    if GoodList(env, excs) {
      assert excs[|init|] == last;
      forall exc <- init ensures WellFormedException(env, exc) && KeyOf(exc) != KeyOf(last) {
        var i :| 0 <= i < |init| && init[i] == exc;
        assert excs[i] == exc && exc in excs;
      }
      forall i, j | 0 <= i < j < |init| ensures KeyOf(init[i]) != KeyOf(init[j]) {
        assert excs[i] == init[i] && excs[j] == init[j];
      }
    }
  }

  // The index has no errors exactly when all exceptions are well formed with different
  // keys; it then maps each key to its exception.
  lemma {:induction false} IndexIsClean(env: Env, excs: seq<Record>)
    ensures IndexAll(env, excs).errors == [] <==> GoodList(env, excs)
    ensures GoodList(env, excs) ==> Indexes(env, IndexAll(env, excs).index, excs)
    decreases |excs|
  {
    if excs != [] {
      var n := |excs| - 1;
      var init, last := excs[..n], excs[n];
      assert excs == init + [last];
      IndexIsClean(env, init);
      OneMoreException(env, init, last);
      IndexStep(env, init, last);
    }
  }

  lemma IndexStep(env: Env, init: seq<Record>, last: Record)
    requires IndexAll(env, init).errors == [] <==> GoodList(env, init)
    requires GoodList(env, init) ==> Indexes(env, IndexAll(env, init).index, init)
    ensures
      var ix := IndexOne(env, IndexAll(env, init), last);
      && (ix.errors == [] <==> GoodList(env, init) && WellFormedException(env, last) && forall exc <- init :: KeyOf(exc) != KeyOf(last))
      && (ix.errors == [] ==> (forall exc <- init + [last] :: WellFormedException(env, exc)) && Indexes(env, ix.index, init + [last]))
  {
    hide KeyOf, IndexAll, ExceptionOf, DistinctKeys, HasFields;
    assert forall exc <- init + [last] :: exc in init || exc == last;
    assert last in init + [last];
    assert forall exc <- init :: exc in init + [last];
  }

  // ---- the scan --------------------------------------------------------------------

  // An entry that the gate is about: a high or critical severity and a name.
  predicate Relevant(e: Entry) {
    NormalizeSeverity(e.severity).Some? && HighSeverity(NormalizeSeverity(e.severity).value) && Truthy(e.name)
  }

  function EntryKey(env: Env, e: Entry): Key {
    Key(NormalizePackage(env, e.name), NormalizeAdvisory(env, e.advisory))
  }

  datatype Scan = Scan(seen: set<Key>, errors: seq<Finding>, missing: seq<Finding>, expired: seq<Finding>)

  // What the scan does with an entry that is not a duplicate.
  function Examine(env: Env, index: map<Key, Exception>, sc: Scan, e: Entry): Scan
    requires Relevant(e)
  {
    var key := EntryKey(env, e);
    var sev := NormalizeSeverity(e.severity).value;
    if key !in index then sc.(missing := sc.missing + [NoException(e)])
    else
      var exc := index[key];
      sc.(errors :=
            if exc.severity != "" && exc.severity != sev then sc.errors + [SeverityMismatch(e, exc.severity)] else sc.errors,
          expired := if exc.expiresOn < env.today then sc.expired + [Expired(e, exc.expiresOn)] else sc.expired)
  }

  // One round of the loop; without `dedup` it forgets what it has seen.
  function ScanOne(env: Env, dedup: bool, index: map<Key, Exception>, sc: Scan, e: Entry): Option<Scan> {
    if NormalizeSeverity(e.severity).None? then None
    else if !Relevant(e) then Some(sc)
    else if EntryKey(env, e).advisory == "" then Some(sc.(errors := sc.errors + [MissingAdvisory(e)]))
    else if dedup && EntryKey(env, e) in sc.seen then Some(sc)
    else Some(Examine(env, index, sc.(seen := sc.seen + {EntryKey(env, e)}), e))
  }

  function ScanAll(env: Env, dedup: bool, index: map<Key, Exception>, es: seq<Entry>): Option<Scan> {
    if es == [] then Some(Scan({}, [], [], []))
    else match ScanAll(env, dedup, index, es[..|es| - 1])
      case None => None
      case Some(sc) => ScanOne(env, dedup, index, sc, es[|es| - 1])
  }

  method ScanEntries(env: Env, index: map<Key, Exception>, es: seq<Entry>) returns (r: Option<Scan>)
    ensures r == ScanAll(env, true, index, es)
  {
    var seen: set<Key> := {};
    var errors: seq<Finding>, missing: seq<Finding>, expired: seq<Finding> := [], [], [];
    for i := 0 to |es|
      invariant Some(Scan(seen, errors, missing, expired)) == ScanAll(env, true, index, es[..i])
    {
      assert es[..i + 1][..i] == es[..i];
      var e := es[i];
      var sev := NormalizeSeverity(e.severity);
      if sev.None? {
        ScanStops(env, true, index, es, i + 1);
        return None;
      }
      if !HighSeverity(sev.value) || !Truthy(e.name) {
        continue;
      }
      var advisory := NormalizeAdvisory(env, e.advisory);
      if advisory == "" {
        errors := errors + [MissingAdvisory(e)];
        continue;
      }
      var key := Key(NormalizePackage(env, e.name), advisory);
      if key in seen {
        continue;
      }
      seen := seen + {key};
      if key !in index {
        missing := missing + [NoException(e)];
        continue;
      }
      var exc := index[key];
      if exc.severity != "" && exc.severity != sev.value {
        errors := errors + [SeverityMismatch(e, exc.severity)];
      }
      if exc.expiresOn < env.today {
        expired := expired + [Expired(e, exc.expiresOn)];
      }
    }
    assert es[..|es|] == es;
    r := Some(Scan(seen, errors, missing, expired));
  }

  // An error in the first i entries ends the whole scan.
  lemma {:induction false} ScanStops(env: Env, dedup: bool, index: map<Key, Exception>, es: seq<Entry>, i: nat)
    requires i <= |es| && ScanAll(env, dedup, index, es[..i]).None?
    ensures ScanAll(env, dedup, index, es).None?
    decreases |es| - i
  {
    if i == |es| {
      assert es[..i] == es;
    } else {
      assert es[..i + 1][..i] == es[..i];
      ScanStops(env, dedup, index, es, i + 1);
    }
  }

  function Findings(sc: Scan): seq<Finding> { sc.errors + sc.missing + sc.expired }

  // ---- the program -----------------------------------------------------------------

  function Verdict(env: Env, dedup: bool, excs: seq<Record>, es: seq<Entry>): Ending {
    var ix := IndexAll(env, excs);
    match ScanAll(env, dedup, ix.index, es)
    case None => Uncaught
    case Some(sc) => Exit(ix.errors + Findings(sc))
  }

  function Program(env: Env, data: Value, text: string): Ending {
    match Parsed(text)
    case Err(_) => Uncaught
    case Ok(excs) =>
      var vulns := Vulns(env.str, data);
      if vulns.raised.Some? then Uncaught else Verdict(env, true, excs, vulns.entries)
  }

  // The program. The entries are scanned after they have all been yielded, instead of one
  // by one; an error of the generator or of the scan ends the program all the same.
  method RunMain(env: Env, data: Value, text: string) returns (ending: Ending)
    ensures ending == Program(env, data, text)
  {
    var excs := ParseExceptions(text);
    if excs.Err? {
      return Uncaught;
    }
    var index, errors := BuildIndex(env, excs.value);
    var vulns := IterVulns(env.str, data);
    var sc := ScanEntries(env, index, vulns.entries);
    if sc.None? || vulns.raised.Some? {
      return Uncaught;
    }
    ending := Exit(errors + Findings(sc.value));
  }
}
