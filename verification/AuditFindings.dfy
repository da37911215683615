// What the gate reports: which finding is there for which exception and for which entry.
module AuditFindings {
  import opened AuditParser
  import opened AuditEntries
  import opened AuditGate
  import opened AuditTheorems

  // ---- the exceptions --------------------------------------------------------------

  // The i-th exception is the first well-formed one with its key.
  predicate Leads(env: Env, excs: seq<Record>, i: nat)
    requires i < |excs|
  {
    && WellFormedException(env, excs[i])
    && forall j :: 0 <= j < i && WellFormedException(env, excs[j]) ==> KeyOf(excs[j]) != KeyOf(excs[i])
  }

  // What there is to say of an exception, whose key is `taken` or not: its first fault.
  predicate OwnFault(env: Env, exc: Record, taken: bool, f: Finding) {
    var dated := HasFields(exc) && env.parseDate(Field(exc, "expires_on")).Some?;
    match f
    case MissingFields(e) => e == exc && !HasFields(exc)
    case InvalidDate(e) => e == exc && HasFields(exc) && !dated
    case MissingValue => dated && !WellFormedException(env, exc)
    case Duplicate(k) => WellFormedException(env, exc) && taken && k == KeyOf(exc)
    case _ => false
  }

  predicate FaultOf(env: Env, excs: seq<Record>, i: nat, f: Finding)
    requires i < |excs|
  {
    OwnFault(env, excs[i], !Leads(env, excs, i), f)
  }

  // The index holds, for every key of a well-formed exception, the first such exception.
  ghost predicate IndexesFirst(env: Env, index: map<Key, Exception>, excs: seq<Record>) {
    && (forall i :: 0 <= i < |excs| && Leads(env, excs, i) ==>
         KeyOf(excs[i]) in index && index[KeyOf(excs[i])] == ExceptionOf(env, excs[i]))
    && forall k <- index :: exists i :: 0 <= i < |excs| && Leads(env, excs, i) && KeyOf(excs[i]) == k
  }

  lemma LeadsBefore(env: Env, init: seq<Record>, last: Record)
    ensures forall i :: 0 <= i < |init| ==> (Leads(env, init + [last], i) <==> Leads(env, init, i))
    ensures Leads(env, init + [last], |init|) <==>
      WellFormedException(env, last) && forall exc <- init :: WellFormedException(env, exc) ==> KeyOf(exc) != KeyOf(last)
  {
    hide WellFormedException, KeyOf;
    var excs := init + [last];
    assert forall i :: 0 <= i < |init| ==> excs[i] == init[i];
    assert forall j :: 0 <= j < |init| ==> init[j] in init;
  }

  // A well-formed exception shares its key with the leading one.
  lemma {:induction false} LeaderOf(env: Env, excs: seq<Record>, i: nat) returns (j: nat)
    requires i < |excs| && WellFormedException(env, excs[i])
    ensures j <= i && Leads(env, excs, j) && KeyOf(excs[j]) == KeyOf(excs[i])
    decreases i
  {
    hide WellFormedException, KeyOf;
    if Leads(env, excs, i) {
      j := i;
    } else {
      var k :| 0 <= k < i && WellFormedException(env, excs[k]) && KeyOf(excs[k]) == KeyOf(excs[i]);
      j := LeaderOf(env, excs, k);
    }
  }

  // The key of one more exception is in the index exactly when an earlier one leads.
  lemma KeyTaken(env: Env, index: map<Key, Exception>, init: seq<Record>, last: Record)
    requires IndexesFirst(env, index, init) && WellFormedException(env, last)
    ensures KeyOf(last) in index <==> !Leads(env, init + [last], |init|)
  {
    LeadsBefore(env, init, last);
    hide KeyOf, WellFormedException, ExceptionOf;
    if !Leads(env, init + [last], |init|) {
      var exc :| exc in init && WellFormedException(env, exc) && KeyOf(exc) == KeyOf(last);
      var i :| 0 <= i < |init| && init[i] == exc;
      var j := LeaderOf(env, init, i);
    }
    if KeyOf(last) in index {
      var i :| 0 <= i < |init| && Leads(env, init, i) && KeyOf(init[i]) == KeyOf(last);
      assert init[i] in init && WellFormedException(env, init[i]);
    }
  }

  lemma OneMoreIndexed(env: Env, ix: Indexed, init: seq<Record>, last: Record)
    requires IndexesFirst(env, ix.index, init)
    ensures IndexOne(env, ix, last).index
      == if Leads(env, init + [last], |init|) then ix.index[KeyOf(last) := ExceptionOf(env, last)] else ix.index
    ensures Leads(env, init + [last], |init|) ==> KeyOf(last) !in ix.index
  {
    IndexOneIs(env, ix, last);
    LastLeads(env, init, last);
    if WellFormedException(env, last) { KeyTaken(env, ix.index, init, last); }
    hide *;
  }

  lemma IndexOneIs(env: Env, ix: Indexed, exc: Record)
    ensures IndexOne(env, ix, exc).index
      == if WellFormedException(env, exc) && KeyOf(exc) !in ix.index then ix.index[KeyOf(exc) := ExceptionOf(env, exc)] else ix.index
  {
    hide KeyOf, HasFields, ExceptionOf;
  }

  lemma LastLeads(env: Env, init: seq<Record>, last: Record)
    ensures Leads(env, init + [last], |init|) ==> WellFormedException(env, last)
  {
    assert (init + [last])[|init|] == last;
  }

  lemma LeadersWellFormed(env: Env, excs: seq<Record>)
    ensures forall i :: 0 <= i < |excs| && Leads(env, excs, i) ==> WellFormedException(env, excs[i])
  {
  }

  lemma IndexesMore(env: Env, ix: Indexed, init: seq<Record>, last: Record)
    requires IndexesFirst(env, ix.index, init)
    ensures IndexesFirst(env, IndexOne(env, ix, last).index, init + [last])
  {
    hide *;
    var excs, n := init + [last], |init|;
    LeadsBefore(env, init, last);
    OneMoreIndexed(env, ix, init, last);
    LeadersWellFormed(env, excs);
    AddLeader(env, ix.index, IndexOne(env, ix, last).index, init, excs);
  }

  lemma AddLeader(env: Env, index: map<Key, Exception>, more: map<Key, Exception>, init: seq<Record>, excs: seq<Record>)
    requires IndexesFirst(env, index, init) && |excs| == |init| + 1 && init == excs[..|init|]
    requires forall i :: 0 <= i < |init| ==> (Leads(env, excs, i) <==> Leads(env, init, i))
    requires forall i :: 0 <= i < |excs| && Leads(env, excs, i) ==> WellFormedException(env, excs[i])
    requires Leads(env, excs, |init|) ==> KeyOf(excs[|init|]) !in index
    requires more == if Leads(env, excs, |init|) then index[KeyOf(excs[|init|]) := ExceptionOf(env, excs[|init|])] else index
    ensures IndexesFirst(env, more, excs)
  {
    hide WellFormedException, KeyOf, ExceptionOf, Leads;
    var n := |init|;
    assert forall i :: 0 <= i < n ==> excs[i] == init[i];
    forall k <- more ensures exists i :: 0 <= i <= n && Leads(env, excs, i) && KeyOf(excs[i]) == k {
      if k in index {
        var i := IndexedLeader(env, index, init, k);
        assert Leads(env, excs, i);
      }
    }
  }

  lemma IndexedLeader(env: Env, index: map<Key, Exception>, excs: seq<Record>, k: Key) returns (i: nat)
    requires IndexesFirst(env, index, excs) && k in index
    ensures i < |excs| && Leads(env, excs, i) && KeyOf(excs[i]) == k
  {
    i :| 0 <= i < |excs| && Leads(env, excs, i) && KeyOf(excs[i]) == k;
  }

  lemma FaultsBefore(env: Env, init: seq<Record>, last: Record, f: Finding)
    ensures (exists i :: 0 <= i <= |init| && FaultOf(env, init + [last], i, f))
      <==> (exists i :: 0 <= i < |init| && FaultOf(env, init, i, f)) || FaultOf(env, init + [last], |init|, f)
  {
    LeadsBefore(env, init, last);
    forall i | 0 <= i < |init| ensures FaultOf(env, init + [last], i, f) <==> FaultOf(env, init, i, f) {
      assert (init + [last])[i] == init[i];
      hide OwnFault, Leads;
    }
    hide FaultOf, Leads;
  }

  lemma ErrorsOne(env: Env, ix: Indexed, exc: Record, f: Finding)
    ensures f in IndexOne(env, ix, exc).errors <==> f in ix.errors || OwnFault(env, exc, KeyOf(exc) in ix.index, f)
  {
    hide KeyOf, HasFields, ExceptionOf;
  }

  lemma TakenMatters(env: Env, exc: Record, taken: bool, f: Finding)
    ensures !WellFormedException(env, exc) ==> (OwnFault(env, exc, taken, f) <==> OwnFault(env, exc, !taken, f))
  {
  }

  lemma LastFault(env: Env, ix: Indexed, init: seq<Record>, last: Record, f: Finding)
    requires IndexesFirst(env, ix.index, init)
    ensures f in IndexOne(env, ix, last).errors <==> f in ix.errors || FaultOf(env, init + [last], |init|, f)
  {
    ErrorsOne(env, ix, last, f);
    TakenMatters(env, last, KeyOf(last) in ix.index, f);
    if WellFormedException(env, last) { KeyTaken(env, ix.index, init, last); }
    hide OwnFault, Leads, KeyOf, WellFormedException, IndexOne, IndexesFirst;
    assert (init + [last])[|init|] == last;
  }

  // The index holds the first well-formed exception of each key, and its errors are exactly
  // the faults of the exceptions.
  lemma {:induction false} IndexFinds(env: Env, excs: seq<Record>, f: Finding)
    ensures IndexesFirst(env, IndexAll(env, excs).index, excs)
    ensures f in IndexAll(env, excs).errors <==> exists i :: 0 <= i < |excs| && FaultOf(env, excs, i, f)
    decreases |excs|
  {
    if excs != [] {
      var init, last := excs[..|excs| - 1], excs[|excs| - 1];
      assert excs == init + [last];
      hide FaultOf, IndexesFirst, IndexOne, Leads, WellFormedException, KeyOf;
      IndexFinds(env, init, f);
      IndexesMore(env, IndexAll(env, init), init, last);
      LastFault(env, IndexAll(env, init), init, last, f);
      FaultsBefore(env, init, last, f);
    }
  }

  // ---- the entries -----------------------------------------------------------------

  // What there is to say of an entry, which is the first of its key or not. Only a first
  // one is looked up; a relevant one without an advisory id is always reported.
  predicate OwnAlarm(env: Env, index: map<Key, Exception>, e: Entry, first: bool, f: Finding) {
    var k := EntryKey(env, e);
    && Relevant(e)
    && match f
       case MissingAdvisory(e') => e' == e && k.advisory == ""
       case NoException(e') => e' == e && k.advisory != "" && first && k !in index
       case SeverityMismatch(e', got) =>
         && e' == e && k.advisory != "" && first && k in index
         && got == index[k].severity && got !in ["", NormalizeSeverity(e.severity).value]
       case Expired(e', on) =>
         e' == e && k.advisory != "" && first && k in index && on == index[k].expiresOn && on < env.today
       case _ => false
  }

  predicate AlarmOf(env: Env, index: map<Key, Exception>, es: seq<Entry>, i: nat, f: Finding)
    requires i < |es|
  {
    OwnAlarm(env, index, es[i], FirstOfKey(env, es, i), f)
  }

  lemma FirstBefore(env: Env, init: seq<Entry>, last: Entry)
    ensures forall i :: 0 <= i < |init| ==> (FirstOfKey(env, init + [last], i) <==> FirstOfKey(env, init, i))
    ensures FirstOfKey(env, init + [last], |init|) <==>
      !exists e <- init :: Relevant(e) && EntryKey(env, e) == EntryKey(env, last)
  {
    hide Relevant, EntryKey;
    var es := init + [last];
    assert forall i :: 0 <= i < |init| ==> es[i] == init[i];
    assert forall j :: 0 <= j < |init| ==> init[j] in init;
  }

  lemma AlarmsBefore(env: Env, index: map<Key, Exception>, init: seq<Entry>, last: Entry, f: Finding)
    ensures (exists i :: 0 <= i <= |init| && AlarmOf(env, index, init + [last], i, f))
      <==> (exists i :: 0 <= i < |init| && AlarmOf(env, index, init, i, f)) || AlarmOf(env, index, init + [last], |init|, f)
  {
    FirstBefore(env, init, last);
    forall i | 0 <= i < |init| ensures AlarmOf(env, index, init + [last], i, f) <==> AlarmOf(env, index, init, i, f) {
      assert (init + [last])[i] == init[i];
      hide OwnAlarm, FirstOfKey;
    }
    hide AlarmOf, FirstOfKey;
  }

  lemma FindingsOne(env: Env, index: map<Key, Exception>, sc: Scan, e: Entry, f: Finding)
    requires NormalizeSeverity(e.severity).Some?
    ensures f in Findings(ScanOne(env, true, index, sc, e).value) <==>
      f in Findings(sc) || OwnAlarm(env, index, e, EntryKey(env, e) !in sc.seen, f)
  {
    hide HighSeverity, EntryKey, NormalizeSeverity;
  }

  lemma FirstMatters(env: Env, index: map<Key, Exception>, e: Entry, first: bool, f: Finding)
    ensures !Relevant(e) || EntryKey(env, e).advisory == "" ==>
      (OwnAlarm(env, index, e, first, f) <==> OwnAlarm(env, index, e, !first, f))
  {
  }

  lemma LastAlarm(env: Env, index: map<Key, Exception>, sc: Scan, init: seq<Entry>, last: Entry, f: Finding)
    requires NormalizeSeverity(last.severity).Some? && SeenKeys(env, sc.seen, init)
    ensures f in Findings(ScanOne(env, true, index, sc, last).value) <==>
      f in Findings(sc) || AlarmOf(env, index, init + [last], |init|, f)
  {
    FirstBefore(env, init, last);
    FindingsOne(env, index, sc, last, f);
    FirstMatters(env, index, last, EntryKey(env, last) !in sc.seen, f);
    hide OwnAlarm, FirstOfKey, Relevant, EntryKey, ScanOne, Findings;
    assert (init + [last])[|init|] == last;
  }

  // The findings of the scan are exactly the alarms of the entries.
  lemma {:induction false} ScanFinds(env: Env, index: map<Key, Exception>, es: seq<Entry>, f: Finding)
    requires Readable(es)
    ensures ScanAll(env, true, index, es).Some?
    ensures f in Findings(ScanAll(env, true, index, es).value) <==> exists i :: 0 <= i < |es| && AlarmOf(env, index, es, i, f)
    decreases |es|
  {
    ScanIsClean(env, true, index, es);
    if es != [] {
      var init, last := es[..|es| - 1], es[|es| - 1];
      assert es == init + [last];
      ScanIsClean(env, true, index, init);
      hide AlarmOf, SeenKeys, Findings, ScanOne, Clean;
      ScanFinds(env, index, init, f);
      LastAlarm(env, index, ScanAll(env, true, index, init).value, init, last, f);
      AlarmsBefore(env, index, init, last, f);
    }
  }

  lemma IndexesOnce(env: Env, a: map<Key, Exception>, b: map<Key, Exception>, excs: seq<Record>)
    requires IndexesFirst(env, a, excs) && IndexesFirst(env, b, excs)
    ensures a == b
  {
    hide Leads, KeyOf, ExceptionOf;
    assert a.Keys == b.Keys;
    assert forall k <- a :: a[k] == b[k];
  }

  // The gate reports exactly the faults of the exceptions and the alarms of the entries,
  // looked up in the index of the first well-formed exception of each key.
  lemma VerdictFinds(env: Env, excs: seq<Record>, index: map<Key, Exception>, es: seq<Entry>, f: Finding)
    requires IndexesFirst(env, index, excs)
    ensures Verdict(env, true, excs, es).Exit? <==> Readable(es)
    ensures Readable(es) ==> (
      f in Verdict(env, true, excs, es).findings <==>
        (exists i :: 0 <= i < |excs| && FaultOf(env, excs, i, f)) || (exists i :: 0 <= i < |es| && AlarmOf(env, index, es, i, f)))
  {
    IndexFinds(env, excs, f);
    IndexesOnce(env, index, IndexAll(env, excs).index, excs);
    ScanIsClean(env, true, index, es);
    if Readable(es) { ScanFinds(env, index, es, f); }
    hide FaultOf, AlarmOf, IndexesFirst, IndexAll, ScanAll, Clean;
  }
}
