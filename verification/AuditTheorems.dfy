// What the gate's exit code means, and on what it does not depend.
module AuditTheorems {
  import opened AuditParser
  import opened AuditEntries
  import opened AuditReports
  import opened AuditGate

  // ---- the scan --------------------------------------------------------------------

  predicate Readable(es: seq<Entry>) { forall e <- es :: NormalizeSeverity(e.severity).Some? }

  // A relevant entry has an advisory id and an exception that has not expired.
  predicate Covered(env: Env, index: map<Key, Exception>, e: Entry) {
    Relevant(e) ==>
      && EntryKey(env, e).advisory != ""
      && EntryKey(env, e) in index
      && index[EntryKey(env, e)].expiresOn >= env.today
  }

  predicate SeverityFits(env: Env, index: map<Key, Exception>, e: Entry) {
    Relevant(e) && EntryKey(env, e) in index ==>
      index[EntryKey(env, e)].severity in ["", NormalizeSeverity(e.severity).value]
  }

  // The i-th entry is the first relevant one with its key.
  predicate FirstOfKey(env: Env, es: seq<Entry>, i: nat)
    requires i < |es|
  {
    forall j :: 0 <= j < i && Relevant(es[j]) ==> EntryKey(env, es[j]) != EntryKey(env, es[i])
  }

  predicate Clean(env: Env, dedup: bool, index: map<Key, Exception>, es: seq<Entry>) {
    && (forall e <- es :: Covered(env, index, e))
    && forall i :: 0 <= i < |es| && (dedup ==> FirstOfKey(env, es, i)) ==> SeverityFits(env, index, es[i])
  }

  // The keys that the scan has seen are those of the relevant entries with an advisory id.
  ghost predicate SeenKeys(env: Env, seen: set<Key>, es: seq<Entry>) {
    forall k :: k in seen <==> k.advisory != "" && exists e <- es :: Relevant(e) && EntryKey(env, e) == k
  }

  lemma CleanStep(env: Env, dedup: bool, index: map<Key, Exception>, init: seq<Entry>, last: Entry)
    ensures Clean(env, dedup, index, init + [last]) <==>
      && Clean(env, dedup, index, init) && Covered(env, index, last)
      && ((dedup ==> forall e <- init :: Relevant(e) ==> EntryKey(env, e) != EntryKey(env, last)) ==> SeverityFits(env, index, last))
  {
    hide Covered, SeverityFits, Relevant, EntryKey;
    var es, n := init + [last], |init|;
    assert forall e <- es :: e in init || e == last;
    assert es[n] == last && last in es && forall e <- init :: e in es;
    assert forall i :: 0 <= i < n ==> es[i] == init[i];
    forall i | 0 <= i < n ensures FirstOfKey(env, es, i) <==> FirstOfKey(env, init, i) {}
    assert FirstOfKey(env, es, n) <==> forall e <- init :: Relevant(e) ==> EntryKey(env, e) != EntryKey(env, last) by {
      assert forall j :: 0 <= j < n ==> es[j] == init[j] && init[j] in init;
    }
  }

  lemma ScanStep(env: Env, dedup: bool, index: map<Key, Exception>, init: seq<Entry>, last: Entry, sc: Scan)
    requires NormalizeSeverity(last.severity).Some? && SeenKeys(env, sc.seen, init)
    requires Findings(sc) == [] <==> Clean(env, dedup, index, init)
    ensures
      var sc' := ScanOne(env, dedup, index, sc, last).value;
      && SeenKeys(env, sc'.seen, init + [last])
      && (Findings(sc') == [] <==> Clean(env, dedup, index, init + [last]))
  {
    CleanStep(env, dedup, index, init, last);
    var key := EntryKey(env, last);
    assert forall e <- init + [last] :: e in init || e == last;
    assert forall e <- init :: e in init + [last];
    assert last in init + [last];
    if Relevant(last) && key.advisory != "" && dedup && key in sc.seen {
      var e :| e in init && Relevant(e) && EntryKey(env, e) == key;
      assert Covered(env, index, e) ==> Covered(env, index, last);
    }
  }

  // The scan succeeds without findings exactly when every severity can be read and the
  // entries are clean.
  lemma {:induction false} ScanIsClean(env: Env, dedup: bool, index: map<Key, Exception>, es: seq<Entry>)
    ensures ScanAll(env, dedup, index, es).Some? <==> Readable(es)
    ensures Readable(es) ==>
      var sc := ScanAll(env, dedup, index, es).value;
      SeenKeys(env, sc.seen, es) && (Findings(sc) == [] <==> Clean(env, dedup, index, es))
    decreases |es|
  {
    if es != [] {
      hide Clean, SeenKeys, Findings;
      var init, last := es[..|es| - 1], es[|es| - 1];
      assert es == init + [last];
      ScanIsClean(env, dedup, index, init);
      assert Readable(es) <==> Readable(init) && NormalizeSeverity(last.severity).Some?;
      if Readable(es) {
        ScanStep(env, dedup, index, init, last, ScanAll(env, dedup, index, init).value);
      }
    }
  }

  // ---- the verdict -----------------------------------------------------------------

  // An exception for an entry: same key, not expired.
  predicate ExceptionFor(env: Env, exc: Record, e: Entry)
    requires WellFormedException(env, exc)
  {
    KeyOf(exc) == EntryKey(env, e) && ExceptionOf(env, exc).expiresOn >= env.today
  }

  // The entry has an advisory id and an exception that has not expired.
  predicate HasException(env: Env, excs: seq<Record>, e: Entry)
    requires forall exc <- excs :: WellFormedException(env, exc)
  {
    EntryKey(env, e).advisory != "" && exists exc <- excs :: ExceptionFor(env, exc, e)
  }

  // The exceptions for the entry name its severity, or none.
  predicate Fits(env: Env, excs: seq<Record>, e: Entry)
    requires (forall exc <- excs :: WellFormedException(env, exc)) && NormalizeSeverity(e.severity).Some?
  {
    forall exc <- excs :: KeyOf(exc) == EntryKey(env, e) ==>
      ExceptionOf(env, exc).severity in ["", NormalizeSeverity(e.severity).value]
  }

  // The exceptions are in order, and every relevant entry has one.
  ghost predicate Sound(env: Env, excs: seq<Record>, es: seq<Entry>) {
    && GoodList(env, excs) && Readable(es)
    && forall e <- es :: Relevant(e) ==> HasException(env, excs, e)
  }

  // What an exit code of 0 says about the exceptions and the entries.
  ghost predicate Passes(env: Env, dedup: bool, excs: seq<Record>, es: seq<Entry>) {
    && Sound(env, excs, es)
    && forall i :: 0 <= i < |es| && Relevant(es[i]) && (dedup ==> FirstOfKey(env, es, i)) ==> Fits(env, excs, es[i])
  }

  lemma CleanIsPasses(env: Env, dedup: bool, excs: seq<Record>, es: seq<Entry>)
    requires GoodList(env, excs) && Readable(es)
    ensures Clean(env, dedup, IndexAll(env, excs).index, es) <==> Passes(env, dedup, excs, es)
  {
    var index := IndexAll(env, excs).index;
    IndexIsClean(env, excs);
    hide IndexAll, WellFormedException, KeyOf, ExceptionOf, EntryKey, DistinctKeys, FirstOfKey, HighSeverity, Truthy;
    forall e ensures Covered(env, index, e) <==> (Relevant(e) ==> HasException(env, excs, e))
    {
      if EntryKey(env, e) in index {
        var exc :| exc in excs && KeyOf(exc) == EntryKey(env, e);
        assert index[KeyOf(exc)] == ExceptionOf(env, exc);
      }
    }
    forall e ensures SeverityFits(env, index, e) <==> (Relevant(e) ==> Fits(env, excs, e))
    {
      if EntryKey(env, e) in index {
        var exc :| exc in excs && KeyOf(exc) == EntryKey(env, e);
        assert index[KeyOf(exc)] == ExceptionOf(env, exc);
      }
    }
  }

  // The gate exits with 0 exactly when the exceptions are well formed with different keys,
  // every relevant entry has an advisory id and an unexpired exception, and the first
  // entry of each key has the exception's severity, if that names one.
  lemma VerdictMeans(env: Env, dedup: bool, excs: seq<Record>, es: seq<Entry>)
    ensures Verdict(env, dedup, excs, es).Code() == 0 <==> Passes(env, dedup, excs, es)
  {
    var ix := IndexAll(env, excs);
    IndexIsClean(env, excs);
    ScanIsClean(env, dedup, ix.index, es);
    if GoodList(env, excs) && Readable(es) { CleanIsPasses(env, dedup, excs, es); }
    hide IndexAll, ScanAll, GoodList, Clean;
  }

  // The whole program exits with 0 exactly when the list of exceptions parses, the report
  // is not malformed, and its entries pass.
  lemma ProgramMeans(env: Env, data: Value, text: string)
    ensures Vulns(env.str, data).raised.None? <==> !Malformed(data)
    ensures !Malformed(data) ==> exists first, parts :: InReportOrder(env.str, data, Vulns(env.str, data).entries, first, parts)
    ensures Program(env, data, text).Code() == 0 <==>
      && Parsed(text).Ok? && !Malformed(data) && Passes(env, true, Parsed(text).value, Vulns(env.str, data).entries)
  {
    VulnsAre(env.str, data, Entry(Null, Null, Null, Null));
    hide InReportOrder;
    if !Malformed(data) { var first, parts := VulnsInOrder(env.str, data); }
    if Parsed(text).Ok? && Vulns(env.str, data).raised.None? {
      VerdictMeans(env, true, Parsed(text).value, Vulns(env.str, data).entries);
    }
  }

  // ---- order and duplicates --------------------------------------------------------

  lemma SameMembers<T>(a: seq<T>, b: seq<T>)
    requires multiset(a) == multiset(b)
    ensures forall x :: x in a <==> x in b
  {
    forall x ensures x in a <==> x in b {
      assert x in a <==> x in multiset(a);
      assert x in b <==> x in multiset(b);
    }
  }

  lemma {:induction false} TwoPlaces<T>(s: seq<T>, x: T) returns (i: nat, j: nat)
    requires multiset(s)[x] >= 2
    ensures i < j < |s| && s[i] == x == s[j]
  {
    var n := |s| - 1;
    assert s == s[..n] + [s[n]];
    if multiset(s[..n])[x] >= 2 {
      i, j := TwoPlaces(s[..n], x);
    } else {
      assert multiset(s)[x] == multiset(s[..n])[x] + multiset([s[n]])[x];
      assert x in multiset(s[..n]);
      i :| 0 <= i < n && s[..n][i] == x;
      j := n;
    }
  }

  lemma {:induction false} TwiceIn<T>(s: seq<T>, i: nat, j: nat)
    requires i < j < |s| && s[i] == s[j]
    ensures multiset(s)[s[i]] >= 2
  {
    assert s == s[..j] + s[j..];
    assert s[..j][i] == s[i] && s[j..][0] == s[i];
    assert multiset(s)[s[i]] == multiset(s[..j])[s[i]] + multiset(s[j..])[s[i]];
    assert s[i] in multiset(s[..j]) && s[i] in multiset(s[j..]);
  }

  // Different keys do not depend on the order.
  lemma DistinctAnyOrder(a: seq<Record>, b: seq<Record>)
    requires multiset(a) == multiset(b) && DistinctKeys(a)
    ensures DistinctKeys(b)
  {
    forall i, j | 0 <= i < j < |b| ensures KeyOf(b[i]) != KeyOf(b[j]) {
      SameMembers(a, b);
      if b[i] == b[j] {
        TwiceIn(b, i, j);
        var k, l := TwoPlaces(a, b[i]);
      } else {
        assert b[i] in a && b[j] in a;
      }
    }
  }

  // Permuting the exceptions never changes the exit code.
  lemma ExceptionsAnyOrder(env: Env, dedup: bool, a: seq<Record>, b: seq<Record>, es: seq<Entry>)
    requires multiset(a) == multiset(b)
    ensures Verdict(env, dedup, a, es).Code() == Verdict(env, dedup, b, es).Code()
  {
    VerdictMeans(env, dedup, a, es);
    VerdictMeans(env, dedup, b, es);
    hide Verdict, Passes;
    if Passes(env, dedup, a, es) {
      PassesAnyOrder(env, dedup, a, b, es);
    } else if Passes(env, dedup, b, es) {
      PassesAnyOrder(env, dedup, b, a, es);
    }
  }

  lemma PassesAnyOrder(env: Env, dedup: bool, a: seq<Record>, b: seq<Record>, es: seq<Entry>)
    requires multiset(a) == multiset(b) && Passes(env, dedup, a, es)
    ensures Passes(env, dedup, b, es)
  {
    SameMembers(a, b);
    DistinctAnyOrder(a, b);
  }
}
