// When the order of a report's entries, and the deduplication of the scan, decide the exit
// code: exactly when some relevant entry does not fit its exception's severity while every
// relevant key has an entry that does.
module AuditOrder {
  import opened Common
  import opened AuditText
  import opened AuditParser
  import opened AuditEntries
  import opened AuditGate
  import opened AuditTheorems
  import opened AuditMeaning

  // A relevant entry whose exception names another severity.
  ghost predicate Misfit(env: Env, excs: seq<Record>, e: Entry)
    requires (forall exc <- excs :: WellFormedException(env, exc)) && NormalizeSeverity(e.severity).Some?
  {
    Relevant(e) && !Fits(env, excs, e)
  }

  // The key of e has a relevant entry in es that fits.
  ghost predicate KeyFits(env: Env, excs: seq<Record>, es: seq<Entry>, e: Entry)
    requires (forall exc <- excs :: WellFormedException(env, exc)) && Readable(es)
  {
    exists f <- es :: Relevant(f) && EntryKey(env, f) == EntryKey(env, e) && Fits(env, excs, f)
  }

  // All that is read here is known before the scan, and none of it depends on an order.
  ghost predicate OrderDecides(env: Env, excs: seq<Record>, es: seq<Entry>) {
    && Sound(env, excs, es)
    && (exists e <- es :: Misfit(env, excs, e))
    && (forall e <- es :: Relevant(e) ==> KeyFits(env, excs, es, e))
  }

  lemma {:induction false} FirstExists(env: Env, es: seq<Entry>, i: nat) returns (j: nat)
    requires i < |es| && Relevant(es[i])
    ensures j <= i && Relevant(es[j]) && EntryKey(env, es[j]) == EntryKey(env, es[i]) && FirstOfKey(env, es, j)
    decreases i
  {
    if FirstOfKey(env, es, i) {
      j := i;
    } else {
      var k :| 0 <= k < i && Relevant(es[k]) && EntryKey(env, es[k]) == EntryKey(env, es[i]);
      j := FirstExists(env, es, k);
    }
  }

  // Without a misfit every order passes; if a relevant key has misfits only, none does.
  lemma PassesAnyway(env: Env, dedup: bool, excs: seq<Record>, es: seq<Entry>)
    requires !OrderDecides(env, excs, es)
    ensures Passes(env, dedup, excs, es) <==> Sound(env, excs, es) && forall e <- es :: !Misfit(env, excs, e)
  {
    hide Fits, DistinctKeys, WellFormedException, HasException, EntryKey;
    if Sound(env, excs, es) && exists e <- es :: Misfit(env, excs, e) {
      var e :| e in es && Relevant(e) && !KeyFits(env, excs, es, e);
      var i :| 0 <= i < |es| && es[i] == e;
      var j := FirstExists(env, es, i);
      assert es[j] in es && !Fits(env, excs, es[j]);
    }
  }

  lemma SoundAnyOrder(env: Env, excs: seq<Record>, es: seq<Entry>, fs: seq<Entry>)
    requires forall e :: e in es <==> e in fs
    ensures Sound(env, excs, es) <==> Sound(env, excs, fs)
    ensures OrderDecides(env, excs, es) <==> OrderDecides(env, excs, fs)
  {
    hide Fits, GoodList, HasException, Relevant, EntryKey;
  }

  // Unless the order decides, neither the order of the entries, nor how often they are
  // repeated, nor the deduplication changes the exit code.
  lemma EntriesAnyOrder(env: Env, excs: seq<Record>, es: seq<Entry>, fs: seq<Entry>, dedup: bool, dedup': bool)
    requires !OrderDecides(env, excs, es) && forall e :: e in es <==> e in fs
    ensures Verdict(env, dedup, excs, es).Code() == Verdict(env, dedup', excs, fs).Code()
  {
    SoundAnyOrder(env, excs, es, fs);
    VerdictMeans(env, dedup, excs, es);
    VerdictMeans(env, dedup', excs, fs);
    PassesAnyway(env, dedup, excs, es);
    PassesAnyway(env, dedup', excs, fs);
    hide Verdict, Passes, GoodList, HasException, Fits, OrderDecides;
  }

  // The entries that fit, or those that do not, in order.
  ghost function Part(env: Env, excs: seq<Record>, es: seq<Entry>, misfits: bool): (part: seq<Entry>)
    requires (forall exc <- excs :: WellFormedException(env, exc)) && Readable(es)
    ensures forall e :: e in part <==> e in es && Misfit(env, excs, e) == misfits
  {
    if es == [] then []
    else
      assert es == es[..|es| - 1] + [es[|es| - 1]];
      var last := es[|es| - 1];
      Part(env, excs, es[..|es| - 1], misfits) + if Misfit(env, excs, last) == misfits then [last] else []
  }

  lemma {:induction false} PartsAreAll(env: Env, excs: seq<Record>, es: seq<Entry>)
    requires (forall exc <- excs :: WellFormedException(env, exc)) && Readable(es)
    ensures multiset(Part(env, excs, es, false) + Part(env, excs, es, true)) == multiset(es)
  {
    hide Misfit;
    if es != [] {
      var init, last := es[..|es| - 1], es[|es| - 1];
      assert es == init + [last];
      PartsAreAll(env, excs, init);
    }
  }

  ghost function FittingThenMisfits(env: Env, excs: seq<Record>, es: seq<Entry>): seq<Entry>
    requires (forall exc <- excs :: WellFormedException(env, exc)) && Readable(es)
  {
    Part(env, excs, es, false) + Part(env, excs, es, true)
  }

  // Behind the fitting entries, no entry is the first of its key.
  lemma FittingInFront(env: Env, excs: seq<Record>, es: seq<Entry>, i: nat)
    requires (forall exc <- excs :: WellFormedException(env, exc)) && Readable(es)
    requires i < |FittingThenMisfits(env, excs, es)| && FittingThenMisfits(env, excs, es)[i] in es
    requires KeyFits(env, excs, es, FittingThenMisfits(env, excs, es)[i])
    ensures
      var fs := FittingThenMisfits(env, excs, es);
      Relevant(fs[i]) && FirstOfKey(env, fs, i) ==> Fits(env, excs, fs[i])
  {
    hide EntryKey, Fits, WellFormedException, HighSeverity, Truthy;
    var a := Part(env, excs, es, false);
    var fs := FittingThenMisfits(env, excs, es);
    var f :| f in es && Relevant(f) && EntryKey(env, f) == EntryKey(env, fs[i]) && Fits(env, excs, f);
    assert f in a;
    var j :| 0 <= j < |a| && a[j] == f;
    assert fs[j] == f;
    assert i < |a| ==> fs[i] in a;
  }

  // Putting the entries that fit first makes the gate pass.
  lemma FittingFirst(env: Env, excs: seq<Record>, es: seq<Entry>) returns (fs: seq<Entry>)
    requires OrderDecides(env, excs, es)
    ensures multiset(fs) == multiset(es) && Passes(env, true, excs, fs)
  {
    fs := FittingThenMisfits(env, excs, es);
    PartsAreAll(env, excs, es);
    SameMembers(fs, es);
    SoundAnyOrder(env, excs, fs, es);
    hide Part, FittingThenMisfits, Fits, Misfit, WellFormedException, DistinctKeys, HasException, EntryKey, FirstOfKey, HighSeverity,
      Truthy, KeyFits;
    forall i | 0 <= i < |fs| && Relevant(fs[i]) && FirstOfKey(env, fs, i) ensures Fits(env, excs, fs[i]) {
      assert fs[i] in fs;
      FittingInFront(env, excs, es, i);
    }
  }

  lemma MisfitInFront(env: Env, excs: seq<Record>, fs: seq<Entry>)
    requires (forall exc <- excs :: WellFormedException(env, exc)) && Readable(fs)
    requires fs != [] && Misfit(env, excs, fs[0])
    ensures !Passes(env, true, excs, fs)
  {
    hide EntryKey, Fits, WellFormedException, HighSeverity, Truthy, Sound;
    assert FirstOfKey(env, fs, 0);
  }

  // Putting a misfit first makes it fail.
  lemma MisfitFirst(env: Env, excs: seq<Record>, es: seq<Entry>) returns (fs: seq<Entry>)
    requires OrderDecides(env, excs, es)
    ensures multiset(fs) == multiset(es) && !Passes(env, true, excs, fs)
  {
    hide Misfit, KeyFits, HasException, DistinctKeys, WellFormedException, Passes, NormalizeSeverity;
    var e :| e in es && Misfit(env, excs, e);
    var i :| 0 <= i < |es| && es[i] == e;
    fs := [e] + (es[..i] + es[i + 1..]);
    assert es == es[..i] + [e] + es[i + 1..];
    SameMembers(fs, es);
    MisfitInFront(env, excs, fs);
  }

  // Some order of the same entries gives another exit code exactly when the order decides.
  lemma OrderMatters(env: Env, excs: seq<Record>, es: seq<Entry>)
    ensures OrderDecides(env, excs, es) <==> exists fs: seq<Entry> ::
      multiset(fs) == multiset(es) && Verdict(env, true, excs, fs).Code() != Verdict(env, true, excs, es).Code()
  {
    hide Verdict, Passes, OrderDecides;
    if OrderDecides(env, excs, es) {
      var good := FittingFirst(env, excs, es);
      var bad := MisfitFirst(env, excs, es);
      VerdictMeans(env, true, excs, good);
      VerdictMeans(env, true, excs, bad);
      var other := if Verdict(env, true, excs, es).Code() == 0 then bad else good;
      assert multiset(other) == multiset(es) && Verdict(env, true, excs, other).Code() != Verdict(env, true, excs, es).Code();
    } else {
      forall fs: seq<Entry> | multiset(fs) == multiset(es)
        ensures Verdict(env, true, excs, fs).Code() == Verdict(env, true, excs, es).Code()
      {
        SameMembers(fs, es);
        EntriesAnyOrder(env, excs, es, fs, true, true);
      }
    }
  }

  // Scanning without deduplication gives another exit code exactly when the first entry of
  // every key fits, and a later one does not: then it turns 0 into 1.
  lemma DedupMatters(env: Env, excs: seq<Record>, es: seq<Entry>)
    ensures Verdict(env, false, excs, es).Code() != Verdict(env, true, excs, es).Code()
      <==>
      && Sound(env, excs, es) && (exists e <- es :: Misfit(env, excs, e))
      && forall i :: 0 <= i < |es| && Relevant(es[i]) && FirstOfKey(env, es, i) ==> Fits(env, excs, es[i])
  {
    VerdictMeans(env, false, excs, es);
    VerdictMeans(env, true, excs, es);
    hide Verdict, DistinctKeys, HasException, EntryKey, Fits, FirstOfKey, WellFormedException, HighSeverity, Truthy;
    if Sound(env, excs, es) {
      forall i | 0 <= i < |es| && Relevant(es[i]) && !Fits(env, excs, es[i]) ensures Misfit(env, excs, es[i]) && es[i] in es {}
      if e :| e in es && Misfit(env, excs, e) {
        var i :| 0 <= i < |es| && es[i] == e;
        assert !Fits(env, excs, es[i]);
      }
    }
  }

  // Relevant entries with one key have one severity.
  ghost predicate OneSeverity(env: Env, es: seq<Entry>) {
    forall e, f :: e in es && f in es && Relevant(e) && Relevant(f) && EntryKey(env, e) == EntryKey(env, f) ==>
      NormalizeSeverity(e.severity) == NormalizeSeverity(f.severity)
  }

  // Then the order does not decide.
  lemma OneSeverityIsEnough(env: Env, excs: seq<Record>, es: seq<Entry>)
    requires OneSeverity(env, es)
    ensures !OrderDecides(env, excs, es)
  {
    hide KeyOf, WellFormedException, ExceptionOf, EntryKey, DistinctKeys, HighSeverity, Truthy, NormalizeSeverity;
    if Sound(env, excs, es) {
      forall e <- es | Misfit(env, excs, e) ensures !KeyFits(env, excs, es, e) {}
    }
  }

  // For example, a high and a critical entry under an exception for high.
  lemma HighAndCritical(env: Env, exc: Record, high: Entry, critical: Entry)
    requires env.parseDate("d") == Some(env.today)
    requires exc == map["package" := "p", "advisory" := "a", "severity" := "high", "mitigation" := "m", "expires_on" := "d"]
    requires high == Entry(Text("p"), Text("high"), Text("a"), Null)
    requires critical == Entry(Text("p"), Text("critical"), Text("a"), Null)
    ensures OrderDecides(env, [exc], [high, critical])
  {
    ExampleException(env, exc);
    ExampleEntry(env, high, "high");
    ExampleEntry(env, critical, "critical");
    assert "high"[0] != "critical"[0];
    Example(env, exc, high, critical);
  }

  lemma Example(env: Env, exc: Record, high: Entry, critical: Entry)
    requires WellFormedException(env, exc) && KeyOf(exc) == Key("p", "a")
    requires ExceptionOf(env, exc) == Exception("high", env.today)
    requires Relevant(high) && NormalizeSeverity(high.severity) == Some("high") && EntryKey(env, high) == KeyOf(exc)
    requires Relevant(critical) && NormalizeSeverity(critical.severity) == Some("critical") && EntryKey(env, critical) == KeyOf(exc)
    requires "high" != "critical"
    ensures OrderDecides(env, [exc], [high, critical])
  {
    hide KeyOf, EntryKey, WellFormedException, NormalizeSeverity, ExceptionOf, HighSeverity, Truthy;
    assert exc in [exc] && ExceptionFor(env, exc, high) && ExceptionFor(env, exc, critical);
    assert high in [high, critical] && Fits(env, [exc], high);
    assert critical in [high, critical] && Misfit(env, [exc], critical);
    assert forall e <- [high, critical] :: e == high || e == critical;
  }

  lemma ExampleException(env: Env, exc: Record)
    requires env.parseDate("d") == Some(env.today)
    requires exc == map["package" := "p", "advisory" := "a", "severity" := "high", "mitigation" := "m", "expires_on" := "d"]
    ensures WellFormedException(env, exc) && KeyOf(exc) == Key("p", "a") && ExceptionOf(env, exc) == Exception("high", env.today)
  {
    AlreadyNormal("p");
    AlreadyNormal("a");
    AlreadyNormal("high");
    hide Strip, Normalize;
    assert Field(exc, "package") == "p" && Field(exc, "advisory") == "a" && Field(exc, "severity") == "high";
    assert Field(exc, "mitigation") == "m" && Field(exc, "expires_on") == "d";
    hide Field;
  }

  lemma ExampleEntry(env: Env, e: Entry, severity: string)
    requires severity == "high" || severity == "critical"
    requires e == Entry(Text("p"), Text(severity), Text("a"), Null)
    ensures Relevant(e) && NormalizeSeverity(e.severity) == Some(severity) && EntryKey(env, e) == Key("p", "a")
  {
    AlreadyNormal("p");
    AlreadyNormal("a");
    AlreadyNormal(severity);
    hide Strip, Normalize;
  }
}
