// The account mutation of a create builder: its defaults and its checks.
module AccountMutations {
  import opened Common
  import opened AccountSchema

  // The values set on a mutation: fields, the two many-to-one edges and the ids added
  // to the other edges.
  datatype Mutation = Mutation(
    createdAt: Option<int>, updatedAt: Option<int>, deletedAt: Option<int>, name: Option<string>,
    notes: Option<string>, platform: Option<string>, accountType: Option<string>,
    credentials: Option<JsonObject>, extra: Option<JsonObject>, proxyFallbackOriginID: Option<int>,
    concurrency: Option<int>, loadFactor: Option<int>, priority: Option<int>,
    rateMultiplier: Option<real>, status: Option<string>, errorMessage: Option<string>,
    lastUsedAt: Option<int>, expiresAt: Option<int>, autoPauseOnExpired: Option<bool>,
    schedulable: Option<bool>, rateLimitedAt: Option<int>, rateLimitResetAt: Option<int>,
    overloadUntil: Option<int>, tempUnschedulableUntil: Option<int>,
    tempUnschedulableReason: Option<string>, sessionWindowStart: Option<int>,
    sessionWindowEnd: Option<int>, sessionWindowStatus: Option<string>,
    quotaDimension: Option<string>, proxy: Option<Int64>, parent: Option<Int64>, groups: set<Int64>,
    children: set<Int64>, usageLogs: set<Int64>
  )

  // What the generated runtime package installs: default values (a default that is a
  // function may be missing; if present it is given here by the value it returns) and
  // validators.
  datatype Runtime = Runtime(
    defaultCreatedAt: Option<int>, defaultUpdatedAt: Option<int>,
    defaultCredentials: Option<JsonObject>, defaultExtra: Option<JsonObject>,
    defaultConcurrency: int, defaultPriority: int, defaultRateMultiplier: real, defaultStatus: string,
    defaultAutoPauseOnExpired: bool, defaultSchedulable: bool,
    validName: string -> bool, validPlatform: string -> bool, validType: string -> bool,
    validStatus: string -> bool, validSessionWindowStatus: string -> bool,
    joinPriority: int, joinCreatedAt: int)

  const DefaultQuotaDimension: string := "global"

  predicate ValidQuotaDimension(v: string) { v == "global" || v == "spark" }

  // ---- defaults --------------------------------------------------------------------

  // The columns with a default.
  predicate HasDefault(c: Column) {
    match c
    case FieldCreatedAt | FieldUpdatedAt | FieldCredentials | FieldExtra | FieldConcurrency | FieldPriority |
      FieldRateMultiplier | FieldStatus | FieldAutoPauseOnExpired | FieldSchedulable | FieldQuotaDimension => true
    case _ => false
  }

  function Or<T>(given: Option<T>, default: T): Option<T> { if given.Some? then given else Some(default) }

  // The first of the four function defaults that is needed but missing.
  function MissingDefault(rt: Runtime, m: Mutation): Option<Column> {
    if m.createdAt.None? && rt.defaultCreatedAt.None? then Some(FieldCreatedAt)
    else if m.updatedAt.None? && rt.defaultUpdatedAt.None? then Some(FieldUpdatedAt)
    else if m.credentials.None? && rt.defaultCredentials.None? then Some(FieldCredentials)
    else if m.extra.None? && rt.defaultExtra.None? then Some(FieldExtra)
    else None
  }

  // The mutation with the unset fields filled whose default is a constant.
  function ConstantsFilled(rt: Runtime, m: Mutation): Mutation {
    m.(concurrency := Or(m.concurrency, rt.defaultConcurrency),
       priority := Or(m.priority, rt.defaultPriority),
       rateMultiplier := Or(m.rateMultiplier, rt.defaultRateMultiplier),
       status := Or(m.status, rt.defaultStatus),
       autoPauseOnExpired := Or(m.autoPauseOnExpired, rt.defaultAutoPauseOnExpired),
       schedulable := Or(m.schedulable, rt.defaultSchedulable),
       quotaDimension := Or(m.quotaDimension, DefaultQuotaDimension))
  }

  // The mutation with every unset defaulted field filled.
  function Filled(rt: Runtime, m: Mutation): Mutation
    requires MissingDefault(rt, m) == None
  {
    ConstantsFilled(rt,
      m.(createdAt := if m.createdAt.Some? then m.createdAt else rt.defaultCreatedAt,
         updatedAt := if m.updatedAt.Some? then m.updatedAt else rt.defaultUpdatedAt,
         credentials := if m.credentials.Some? then m.credentials else rt.defaultCredentials,
         extra := if m.extra.Some? then m.extra else rt.defaultExtra))
  }

  // What defaults leaves behind: everything filled, or nothing from the missing default on.
  function AfterDefaults(rt: Runtime, m: Mutation): Mutation {
    match MissingDefault(rt, m)
    case None => Filled(rt, m)
    case Some(c) =>
      var m1 := if c == FieldCreatedAt || m.createdAt.Some? then m else m.(createdAt := rt.defaultCreatedAt);
      var m2 := if c in [FieldCreatedAt, FieldUpdatedAt] || m.updatedAt.Some? then m1
        else m1.(updatedAt := rt.defaultUpdatedAt);
      if c != FieldExtra || m.credentials.Some? then m2 else m2.(credentials := rt.defaultCredentials)
  }

  // ---- check -----------------------------------------------------------------------

  datatype CheckError = Missing(c: Column) | Invalid(c: Column)

  // The fields that a created account must have.
  predicate IsRequired(c: Column) {
    c.FieldName? || c.FieldPlatform? || c.FieldType? || HasDefault(c)
  }

  // The first failing check, in the order of the source.
  function Check(rt: Runtime, m: Mutation): Option<CheckError> {
    if m.createdAt.None? then Some(Missing(FieldCreatedAt))
    else if m.updatedAt.None? then Some(Missing(FieldUpdatedAt))
    else if m.name.None? then Some(Missing(FieldName))
    else if !rt.validName(m.name.value) then Some(Invalid(FieldName))
    else if m.platform.None? then Some(Missing(FieldPlatform))
    else if !rt.validPlatform(m.platform.value) then Some(Invalid(FieldPlatform))
    else if m.accountType.None? then Some(Missing(FieldType))
    else if !rt.validType(m.accountType.value) then Some(Invalid(FieldType))
    else if m.credentials.None? then Some(Missing(FieldCredentials))
    else if m.extra.None? then Some(Missing(FieldExtra))
    else if m.concurrency.None? then Some(Missing(FieldConcurrency))
    else if m.priority.None? then Some(Missing(FieldPriority))
    else if m.rateMultiplier.None? then Some(Missing(FieldRateMultiplier))
    else if m.status.None? then Some(Missing(FieldStatus))
    else if !rt.validStatus(m.status.value) then Some(Invalid(FieldStatus))
    else if m.autoPauseOnExpired.None? then Some(Missing(FieldAutoPauseOnExpired))
    else if m.schedulable.None? then Some(Missing(FieldSchedulable))
    else if m.sessionWindowStatus.Some? && !rt.validSessionWindowStatus(m.sessionWindowStatus.value)
      then Some(Invalid(FieldSessionWindowStatus))
    else if m.quotaDimension.None? then Some(Missing(FieldQuotaDimension))
    else if !ValidQuotaDimension(m.quotaDimension.value) then Some(Invalid(FieldQuotaDimension))
    else None
  }

  function IntValue(v: Option<int>): Option<FieldValue> { if v.Some? then Some(Scalar(Int(v.value))) else None }
  function TimeValue(v: Option<int>): Option<FieldValue> { if v.Some? then Some(Scalar(Time(v.value))) else None }
  function TextValue(v: Option<string>): Option<FieldValue> { if v.Some? then Some(Scalar(Text(v.value))) else None }
  function FloatValue(v: Option<real>): Option<FieldValue> { if v.Some? then Some(Scalar(Float(v.value))) else None }
  function BoolValue(v: Option<bool>): Option<FieldValue> { if v.Some? then Some(Scalar(Bool(v.value))) else None }
  function DocValue(v: Option<JsonObject>): Option<FieldValue> { if v.Some? then Some(Document(v.value)) else None }

  // The value that the mutation sets for a column, None if it sets none. The foreign
  // keys are set through their edges.
  function Written(m: Mutation, c: Column): Option<FieldValue> {
    match c
    case FieldCreatedAt => TimeValue(m.createdAt)
    case FieldUpdatedAt => TimeValue(m.updatedAt)
    case FieldDeletedAt => TimeValue(m.deletedAt)
    case FieldName => TextValue(m.name)
    case FieldNotes => TextValue(m.notes)
    case FieldPlatform => TextValue(m.platform)
    case FieldType => TextValue(m.accountType)
    case FieldCredentials => DocValue(m.credentials)
    case FieldExtra => DocValue(m.extra)
    case FieldProxyFallbackOriginID => IntValue(m.proxyFallbackOriginID)
    case FieldConcurrency => IntValue(m.concurrency)
    case FieldLoadFactor => IntValue(m.loadFactor)
    case FieldPriority => IntValue(m.priority)
    case FieldRateMultiplier => FloatValue(m.rateMultiplier)
    case FieldStatus => TextValue(m.status)
    case FieldErrorMessage => TextValue(m.errorMessage)
    case FieldLastUsedAt => TimeValue(m.lastUsedAt)
    case FieldExpiresAt => TimeValue(m.expiresAt)
    case FieldAutoPauseOnExpired => BoolValue(m.autoPauseOnExpired)
    case FieldSchedulable => BoolValue(m.schedulable)
    case FieldRateLimitedAt => TimeValue(m.rateLimitedAt)
    case FieldRateLimitResetAt => TimeValue(m.rateLimitResetAt)
    case FieldOverloadUntil => TimeValue(m.overloadUntil)
    case FieldTempUnschedulableUntil => TimeValue(m.tempUnschedulableUntil)
    case FieldTempUnschedulableReason => TextValue(m.tempUnschedulableReason)
    case FieldSessionWindowStart => TimeValue(m.sessionWindowStart)
    case FieldSessionWindowEnd => TimeValue(m.sessionWindowEnd)
    case FieldSessionWindowStatus => TextValue(m.sessionWindowStatus)
    case FieldQuotaDimension => TextValue(m.quotaDimension)
    case _ => None
  }

  // The validator of a column accepts the value that is set, if any.
  predicate Accepts(rt: Runtime, m: Mutation, c: Column) {
    match c
    case FieldName => m.name.Some? ==> rt.validName(m.name.value)
    case FieldPlatform => m.platform.Some? ==> rt.validPlatform(m.platform.value)
    case FieldType => m.accountType.Some? ==> rt.validType(m.accountType.value)
    case FieldStatus => m.status.Some? ==> rt.validStatus(m.status.value)
    case FieldSessionWindowStatus =>
      m.sessionWindowStatus.Some? ==> rt.validSessionWindowStatus(m.sessionWindowStatus.value)
    case FieldQuotaDimension => m.quotaDimension.Some? ==> ValidQuotaDimension(m.quotaDimension.value)
    case _ => true
  }

  // check passes exactly when every required field is set and every validator accepts.
  lemma CheckPasses(rt: Runtime, m: Mutation)
    ensures Check(rt, m) == None <==>
      (forall c :: IsRequired(c) ==> Written(m, c).Some?) && (forall c :: Accepts(rt, m, c))
  {
    match Check(rt, m) {
      case None =>
      case Some(Missing(c)) => assert IsRequired(c) && Written(m, c).None?;
      case Some(Invalid(c)) => assert !Accepts(rt, m, c);
    }
  }

  // The required fields are those that the entity does not hold by pointer, except the id;
  // of these, all but name, platform and type have a default.
  lemma RequiredFields(c: Column)
    ensures IsRequired(c) <==> !c.Other? && c != FieldID && FieldOf(ZeroFields, c) != Scalar(Null)
    ensures HasDefault(c) <==> IsRequired(c) && c !in {FieldName, FieldPlatform, FieldType}
  {
  }

  // The validators that a passing mutation has satisfied.
  lemma CheckValidates(rt: Runtime, m: Mutation)
    requires Check(rt, m).None?
    ensures m.name.Some? && rt.validName(m.name.value)
    ensures m.platform.Some? && rt.validPlatform(m.platform.value)
    ensures m.accountType.Some? && rt.validType(m.accountType.value)
    ensures m.status.Some? && rt.validStatus(m.status.value)
    ensures m.sessionWindowStatus.Some? ==> rt.validSessionWindowStatus(m.sessionWindowStatus.value)
    ensures m.quotaDimension.Some? && m.quotaDimension.value in {"global", "spark"}
  {
  }

  // And nothing else is asked: a mutation fails over a field that is missing, or that one
  // of these validators rejects.
  lemma CheckRejects(rt: Runtime, m: Mutation)
    requires forall c :: IsRequired(c) ==> Written(m, c).Some?
    requires m.name.Some? && rt.validName(m.name.value) && m.platform.Some? && rt.validPlatform(m.platform.value)
    requires m.accountType.Some? && rt.validType(m.accountType.value) && m.status.Some? && rt.validStatus(m.status.value)
    requires m.sessionWindowStatus.Some? ==> rt.validSessionWindowStatus(m.sessionWindowStatus.value)
    requires m.quotaDimension.Some? && m.quotaDimension.value in {"global", "spark"}
    ensures Check(rt, m).None?
  {
    CheckPasses(rt, m);
  }

  predicate FailsOver(rt: Runtime, m: Mutation, c: Column) {
    (IsRequired(c) && Written(m, c).None?) || !Accepts(rt, m, c)
  }

  // The error names the first column of the table that fails, and what is wrong with it.
  lemma CheckNamesFirst(rt: Runtime, m: Mutation, c: Column)
    requires Check(rt, m).Some?
    ensures var named := Check(rt, m).value.c;
      && FailsOver(rt, m, named) && (Check(rt, m).value.Missing? <==> Written(m, named).None?)
      && (FailsOver(rt, m, c) ==> IndexOf(named) <= IndexOf(c))
  {
  }

  // A mutation with the same values in all columns and the same edges is the same mutation:
  // no field of it is left unread.
  lemma WrittenIsAll(m: Mutation, n: Mutation)
    requires SameEdges(m, n) && forall c :: Written(m, c) == Written(n, c)
    ensures m == n
  {
    hide Written;
    SameWritten1(m, n);
    SameWritten2(m, n);
    SameWritten3(m, n);
    SameWritten4(m, n);
    SameWritten5(m, n);
  }

  lemma SameWritten1(m: Mutation, n: Mutation)
    requires forall c :: Written(m, c) == Written(n, c)
    ensures m.createdAt == n.createdAt && m.updatedAt == n.updatedAt && m.deletedAt == n.deletedAt
    ensures m.name == n.name && m.notes == n.notes && m.platform == n.platform
  {
    assert Written(m, FieldCreatedAt) == Written(n, FieldCreatedAt) && Written(m, FieldUpdatedAt) == Written(n, FieldUpdatedAt);
    assert Written(m, FieldDeletedAt) == Written(n, FieldDeletedAt) && Written(m, FieldName) == Written(n, FieldName);
    assert Written(m, FieldNotes) == Written(n, FieldNotes) && Written(m, FieldPlatform) == Written(n, FieldPlatform);
  }

  lemma SameWritten2(m: Mutation, n: Mutation)
    requires forall c :: Written(m, c) == Written(n, c)
    ensures m.accountType == n.accountType && m.credentials == n.credentials && m.extra == n.extra
    ensures m.proxyFallbackOriginID == n.proxyFallbackOriginID && m.concurrency == n.concurrency && m.loadFactor == n.loadFactor
  {
    assert Written(m, FieldType) == Written(n, FieldType) && Written(m, FieldCredentials) == Written(n, FieldCredentials);
    assert Written(m, FieldExtra) == Written(n, FieldExtra) && Written(m, FieldProxyFallbackOriginID) == Written(n, FieldProxyFallbackOriginID);
    assert Written(m, FieldConcurrency) == Written(n, FieldConcurrency) && Written(m, FieldLoadFactor) == Written(n, FieldLoadFactor);
  }

  lemma SameWritten3(m: Mutation, n: Mutation)
    requires forall c :: Written(m, c) == Written(n, c)
    ensures m.priority == n.priority && m.rateMultiplier == n.rateMultiplier && m.status == n.status
    ensures m.errorMessage == n.errorMessage && m.lastUsedAt == n.lastUsedAt && m.expiresAt == n.expiresAt
  {
    assert Written(m, FieldPriority) == Written(n, FieldPriority) && Written(m, FieldRateMultiplier) == Written(n, FieldRateMultiplier);
    assert Written(m, FieldStatus) == Written(n, FieldStatus) && Written(m, FieldErrorMessage) == Written(n, FieldErrorMessage);
    assert Written(m, FieldLastUsedAt) == Written(n, FieldLastUsedAt) && Written(m, FieldExpiresAt) == Written(n, FieldExpiresAt);
  }

  lemma SameWritten4(m: Mutation, n: Mutation)
    requires forall c :: Written(m, c) == Written(n, c)
    ensures m.autoPauseOnExpired == n.autoPauseOnExpired && m.schedulable == n.schedulable && m.rateLimitedAt == n.rateLimitedAt
    ensures m.rateLimitResetAt == n.rateLimitResetAt && m.overloadUntil == n.overloadUntil && m.tempUnschedulableUntil == n.tempUnschedulableUntil
  {
    assert Written(m, FieldAutoPauseOnExpired) == Written(n, FieldAutoPauseOnExpired) && Written(m, FieldSchedulable) == Written(n, FieldSchedulable);
    assert Written(m, FieldRateLimitedAt) == Written(n, FieldRateLimitedAt) && Written(m, FieldRateLimitResetAt) == Written(n, FieldRateLimitResetAt);
    assert Written(m, FieldOverloadUntil) == Written(n, FieldOverloadUntil) && Written(m, FieldTempUnschedulableUntil) == Written(n, FieldTempUnschedulableUntil);
  }

  lemma SameWritten5(m: Mutation, n: Mutation)
    requires forall c :: Written(m, c) == Written(n, c)
    ensures m.tempUnschedulableReason == n.tempUnschedulableReason && m.sessionWindowStart == n.sessionWindowStart && m.sessionWindowEnd == n.sessionWindowEnd
    ensures m.sessionWindowStatus == n.sessionWindowStatus && m.quotaDimension == n.quotaDimension
  {
    assert Written(m, FieldTempUnschedulableReason) == Written(n, FieldTempUnschedulableReason) && Written(m, FieldSessionWindowStart) == Written(n, FieldSessionWindowStart);
    assert Written(m, FieldSessionWindowEnd) == Written(n, FieldSessionWindowEnd) && Written(m, FieldSessionWindowStatus) == Written(n, FieldSessionWindowStatus);
    assert Written(m, FieldQuotaDimension) == Written(n, FieldQuotaDimension);
  }

  // ---- the default values ----------------------------------------------------------

  // The default of each column, None if it has none or it is a function that is missing.
  function DefaultOf(rt: Runtime, c: Column): Option<FieldValue> {
    match c
    case FieldCreatedAt => TimeValue(rt.defaultCreatedAt)
    case FieldUpdatedAt => TimeValue(rt.defaultUpdatedAt)
    case FieldCredentials => DocValue(rt.defaultCredentials)
    case FieldExtra => DocValue(rt.defaultExtra)
    case FieldConcurrency => Some(Scalar(Int(rt.defaultConcurrency)))
    case FieldPriority => Some(Scalar(Int(rt.defaultPriority)))
    case FieldRateMultiplier => Some(Scalar(Float(rt.defaultRateMultiplier)))
    case FieldStatus => Some(Scalar(Text(rt.defaultStatus)))
    case FieldAutoPauseOnExpired => Some(Scalar(Bool(rt.defaultAutoPauseOnExpired)))
    case FieldSchedulable => Some(Scalar(Bool(rt.defaultSchedulable)))
    case FieldQuotaDimension => Some(Scalar(Text("global")))
    case _ => None
  }

  // The columns whose default is a function, in the order in which defaults calls them.
  const FunctionDefaults: seq<Column> := [FieldCreatedAt, FieldUpdatedAt, FieldCredentials, FieldExtra]

  // Column c comes before d in that order.
  predicate Precedes(c: Column, d: Column) {
    exists i, j :: 0 <= i < j < |FunctionDefaults| && FunctionDefaults[i] == c && FunctionDefaults[j] == d
  }

  // Defaults fails at the first function that is needed but missing.
  lemma FirstMissing(rt: Runtime, m: Mutation, d: Column)
    ensures MissingDefault(rt, m) == Some(d) <==>
      d in FunctionDefaults && Lacks(rt, m, d) && forall c :: Precedes(c, d) ==> !Lacks(rt, m, c)
  {
    FirstOfFour(rt, m);
    PrecedesIs();
    hide Lacks, MissingDefault, Precedes;
    assert Precedes(FieldCreatedAt, FieldUpdatedAt) && Precedes(FieldCreatedAt, FieldCredentials);
    assert Precedes(FieldCreatedAt, FieldExtra) && Precedes(FieldUpdatedAt, FieldCredentials);
    assert Precedes(FieldUpdatedAt, FieldExtra) && Precedes(FieldCredentials, FieldExtra);
  }

  predicate Lacks(rt: Runtime, m: Mutation, c: Column) { Written(m, c).None? && DefaultOf(rt, c).None? }

  lemma FirstOfFour(rt: Runtime, m: Mutation)
    ensures MissingDefault(rt, m) ==
      if Lacks(rt, m, FieldCreatedAt) then Some(FieldCreatedAt)
      else if Lacks(rt, m, FieldUpdatedAt) then Some(FieldUpdatedAt)
      else if Lacks(rt, m, FieldCredentials) then Some(FieldCredentials)
      else if Lacks(rt, m, FieldExtra) then Some(FieldExtra)
      else None
  {
  }

  lemma PrecedesIs()
    ensures forall c, d :: Precedes(c, d) <==>
      || (c.FieldCreatedAt? && (d.FieldUpdatedAt? || d.FieldCredentials? || d.FieldExtra?))
      || (c.FieldUpdatedAt? && (d.FieldCredentials? || d.FieldExtra?))
      || (c.FieldCredentials? && d.FieldExtra?)
  {
    forall c, d ensures Precedes(c, d) <==>
      || (c.FieldCreatedAt? && (d.FieldUpdatedAt? || d.FieldCredentials? || d.FieldExtra?))
      || (c.FieldUpdatedAt? && (d.FieldCredentials? || d.FieldExtra?))
      || (c.FieldCredentials? && d.FieldExtra?)
    {
      var f := FunctionDefaults;
      assert f[0] == FieldCreatedAt && f[1] == FieldUpdatedAt && f[2] == FieldCredentials && f[3] == FieldExtra;
    }
  }

  // A successful defaults gives every unset column its own default.
  lemma DefaultsFill(rt: Runtime, m: Mutation, c: Column)
    requires MissingDefault(rt, m).None?
    ensures HasDefault(c) ==> DefaultOf(rt, c).Some? || Written(m, c).Some?
    ensures Written(AfterDefaults(rt, m), c) == if Written(m, c).Some? then Written(m, c) else DefaultOf(rt, c)
  {
  }

  // One that fails has given those columns theirs that come before the missing one.
  lemma DefaultsStop(rt: Runtime, m: Mutation, c: Column)
    requires MissingDefault(rt, m).Some?
    ensures Written(AfterDefaults(rt, m), c) ==
      if Written(m, c).None? && Precedes(c, MissingDefault(rt, m).value) then DefaultOf(rt, c) else Written(m, c)
  {
    PrecedesIs();
  }

  // A failed defaults leaves a mutation that check rejects, whatever the validators are.
  lemma DefaultsFailThenCheckFails(rt: Runtime, later: Runtime, m: Mutation)
    requires MissingDefault(rt, m).Some?
    ensures Check(later, AfterDefaults(rt, m)).Some?
  {
    assert Written(AfterDefaults(rt, m), MissingDefault(rt, m).value).None?;
  }

  // A successful defaults is final: doing it again, at any later time, changes nothing.
  lemma DefaultsIdempotent(rt: Runtime, later: Runtime, m: Mutation)
    requires MissingDefault(rt, m) == None
    ensures MissingDefault(later, AfterDefaults(rt, m)) == None
    ensures AfterDefaults(later, AfterDefaults(rt, m)) == AfterDefaults(rt, m)
  {
  }

  // After a successful defaults, check never misses a defaulted field.
  lemma DefaultsComplete(rt: Runtime, later: Runtime, m: Mutation, c: Column)
    requires MissingDefault(rt, m) == None && HasDefault(c)
    ensures Check(later, AfterDefaults(rt, m)) != Some(Missing(c))
  {
  }

  predicate SameEdges(a: Mutation, b: Mutation) {
    a.proxy == b.proxy && a.parent == b.parent && a.groups == b.groups && a.children == b.children && a.usageLogs == b.usageLogs
  }

  // Defaults sets only columns with a default, and no edge.
  lemma DefaultsOnly(rt: Runtime, m: Mutation, c: Column)
    requires !HasDefault(c)
    ensures Written(AfterDefaults(rt, m), c) == Written(m, c)
    ensures SameEdges(AfterDefaults(rt, m), m)
  {
    hide *;
    DefaultsKeepField(rt, m, c);
    DefaultsKeepEdges(rt, m);
  }

  lemma DefaultsKeepField(rt: Runtime, m: Mutation, c: Column)
    requires !HasDefault(c)
    ensures Written(AfterDefaults(rt, m), c) == Written(m, c)
  {
    hide TimeValue, IntValue, TextValue, FloatValue, BoolValue, DocValue;
  }

  // Defaults overwrites nothing that was set.
  lemma DefaultsKeep(rt: Runtime, m: Mutation, c: Column)
    requires HasDefault(c) && Written(m, c).Some?
    ensures Written(AfterDefaults(rt, m), c) == Written(m, c)
  {
  }

  lemma DefaultsKeepEdges(rt: Runtime, m: Mutation)
    ensures SameEdges(AfterDefaults(rt, m), m)
  {
  }
}
