// The accounts table and the Account entity: its columns, the containers a driver
// scans a row into, and the assignment of scanned values to the entity's fields.
module AccountSchema {
  import opened Common

  // The columns of the accounts table; Other stands for any further name (a column
  // of another table, or one selected through a modifier).
  datatype Column =
    | FieldID | FieldCreatedAt | FieldUpdatedAt | FieldDeletedAt | FieldName | FieldNotes |
      FieldPlatform | FieldType | FieldCredentials | FieldExtra | FieldProxyID |
      FieldProxyFallbackOriginID | FieldConcurrency | FieldLoadFactor | FieldPriority |
      FieldRateMultiplier | FieldStatus | FieldErrorMessage | FieldLastUsedAt | FieldExpiresAt |
      FieldAutoPauseOnExpired | FieldSchedulable | FieldRateLimitedAt | FieldRateLimitResetAt |
      FieldOverloadUntil | FieldTempUnschedulableUntil | FieldTempUnschedulableReason |
      FieldSessionWindowStart | FieldSessionWindowEnd | FieldSessionWindowStatus |
      FieldParentAccountID | FieldQuotaDimension
    | Other(name: string)

  const Columns: seq<Column> := [
    FieldID, FieldCreatedAt, FieldUpdatedAt, FieldDeletedAt, FieldName, FieldNotes, FieldPlatform,
    FieldType, FieldCredentials, FieldExtra, FieldProxyID, FieldProxyFallbackOriginID,
    FieldConcurrency, FieldLoadFactor, FieldPriority, FieldRateMultiplier, FieldStatus,
    FieldErrorMessage, FieldLastUsedAt, FieldExpiresAt, FieldAutoPauseOnExpired, FieldSchedulable,
    FieldRateLimitedAt, FieldRateLimitResetAt, FieldOverloadUntil, FieldTempUnschedulableUntil,
    FieldTempUnschedulableReason, FieldSessionWindowStart, FieldSessionWindowEnd,
    FieldSessionWindowStatus, FieldParentAccountID, FieldQuotaDimension
  ]

  // Columns lists all columns of the table.
  lemma ColumnsComplete(c: Column)
    ensures c in Columns <==> !c.Other?
  {
    ColumnAt(c);
  }

  // The position of a column in the table.
  function IndexOf(c: Column): nat {
    match c
    case FieldID => 0
    case FieldCreatedAt => 1
    case FieldUpdatedAt => 2
    case FieldDeletedAt => 3
    case FieldName => 4
    case FieldNotes => 5
    case FieldPlatform => 6
    case FieldType => 7
    case FieldCredentials => 8
    case FieldExtra => 9
    case FieldProxyID => 10
    case FieldProxyFallbackOriginID => 11
    case FieldConcurrency => 12
    case FieldLoadFactor => 13
    case FieldPriority => 14
    case FieldRateMultiplier => 15
    case FieldStatus => 16
    case FieldErrorMessage => 17
    case FieldLastUsedAt => 18
    case FieldExpiresAt => 19
    case FieldAutoPauseOnExpired => 20
    case FieldSchedulable => 21
    case FieldRateLimitedAt => 22
    case FieldRateLimitResetAt => 23
    case FieldOverloadUntil => 24
    case FieldTempUnschedulableUntil => 25
    case FieldTempUnschedulableReason => 26
    case FieldSessionWindowStart => 27
    case FieldSessionWindowEnd => 28
    case FieldSessionWindowStatus => 29
    case FieldParentAccountID => 30
    case FieldQuotaDimension => 31
    case Other(_) => 0
  }

  lemma ColumnAt(c: Column)
    ensures !c.Other? ==> Columns[IndexOf(c)] == c
  {
  }

  // Columns of the tables that hold a foreign key to accounts or to groups.
  const AccountIDColumn: Column := Other("account_id")
  const GroupIDColumn: Column := Other("group_id")

  predicate ValidColumn(c: Column) {
    c in Columns
  }

  // The ids of the mutations' edges.
  type Int64 = x: int | -0x8000_0000_0000_0000 <= x < 0x8000_0000_0000_0000

  // A value of a database row. Times are instants counted from the zero time.
  datatype SqlValue = Null | Bool(b: bool) | Int(i: int) | Float(r: real) | Text(s: string) | Time(t: int)

  datatype Json = JNull | JBool(b: bool) | JNumber(n: int) | JString(s: string)
    | JArray(items: seq<Json>) | JObject(members: map<string, Json>)

  // A Go map[string]interface{}: nil or a document.
  datatype JsonObject = NilMap | Doc(m: map<string, Json>)

  // The JSON codec of the runtime: `unmarshal` gives None on malformed text.
  datatype Codec = Codec(marshal: JsonObject -> string, unmarshal: string -> Option<JsonObject>)

  ghost predicate Invertible(codec: Codec) {
    forall d :: codec.marshal(d) != "" && codec.unmarshal(codec.marshal(d)) == Some(d)
  }

  // The scalar fields of the Account struct. Pointer fields are options.
  datatype AccountFields = AccountFields(
    id: int, createdAt: int, updatedAt: int, deletedAt: Option<int>, name: string,
    notes: Option<string>, platform: string, accountType: string, credentials: JsonObject,
    extra: JsonObject, proxyID: Option<int>, proxyFallbackOriginID: Option<int>, concurrency: int,
    loadFactor: Option<int>, priority: int, rateMultiplier: real, status: string,
    errorMessage: Option<string>, lastUsedAt: Option<int>, expiresAt: Option<int>,
    autoPauseOnExpired: bool, schedulable: bool, rateLimitedAt: Option<int>,
    rateLimitResetAt: Option<int>, overloadUntil: Option<int>, tempUnschedulableUntil: Option<int>,
    tempUnschedulableReason: Option<string>, sessionWindowStart: Option<int>,
    sessionWindowEnd: Option<int>, sessionWindowStatus: Option<string>,
    parentAccountID: Option<int>, quotaDimension: string, selected: map<Column, Container>
  )

  const ZeroFields: AccountFields := AccountFields(
    id := 0, createdAt := 0, updatedAt := 0, deletedAt := None, name := "", notes := None,
    platform := "", accountType := "", credentials := NilMap, extra := NilMap, proxyID := None,
    proxyFallbackOriginID := None, concurrency := 0, loadFactor := None, priority := 0,
    rateMultiplier := 0.0, status := "", errorMessage := None, lastUsedAt := None,
    expiresAt := None, autoPauseOnExpired := false, schedulable := false, rateLimitedAt := None,
    rateLimitResetAt := None, overloadUntil := None, tempUnschedulableUntil := None,
    tempUnschedulableReason := None, sessionWindowStart := None, sessionWindowEnd := None,
    sessionWindowStatus := None, parentAccountID := None, quotaDimension := "", selected := map[]
  )

  // What a column value is scanned into.
  datatype Kind = KJSON | KBool | KFloat64 | KInt64 | KString | KTime | KUnknown

  datatype Container =
    | RawBytes(text: string)
    | NullBool(validB: bool, b: bool)
    | NullFloat64(validF: bool, r: real)
    | NullInt64(validI: bool, i: int)
    | NullString(validS: bool, s: string)
    | NullTime(validT: bool, t: int)
    | UnknownType(v: SqlValue)

  // The container kind that scanValues allocates for a column.
  function KindOf(c: Column): Kind {
    match c
    case FieldCredentials | FieldExtra => KJSON
    case FieldAutoPauseOnExpired | FieldSchedulable => KBool
    case FieldRateMultiplier => KFloat64
    case FieldID | FieldProxyID | FieldProxyFallbackOriginID | FieldConcurrency | FieldLoadFactor |
      FieldPriority | FieldParentAccountID => KInt64
    case FieldName | FieldNotes | FieldPlatform | FieldType | FieldStatus | FieldErrorMessage |
      FieldTempUnschedulableReason | FieldSessionWindowStatus | FieldQuotaDimension => KString
    case FieldCreatedAt | FieldUpdatedAt | FieldDeletedAt | FieldLastUsedAt | FieldExpiresAt |
      FieldRateLimitedAt | FieldRateLimitResetAt | FieldOverloadUntil |
      FieldTempUnschedulableUntil | FieldSessionWindowStart | FieldSessionWindowEnd => KTime
    case Other(_) => KUnknown
  }

  function Allocate(k: Kind): Container {
    match k
    case KJSON => RawBytes("")
    case KBool => NullBool(false, false)
    case KFloat64 => NullFloat64(false, 0.0)
    case KInt64 => NullInt64(false, 0)
    case KString => NullString(false, "")
    case KTime => NullTime(false, 0)
    case KUnknown => UnknownType(Null)
  }

  // The driver's scan of a column value into an allocated container. A value of
  // another kind is a driver error, None.
  function Scan(into: Container, v: SqlValue): Option<Container> {
    match (into, v)
    case (RawBytes(_), Null) => Some(RawBytes(""))
    case (RawBytes(_), Text(s)) => Some(RawBytes(s))
    case (NullBool(_, _), Null) => Some(NullBool(false, false))
    case (NullBool(_, _), Bool(b)) => Some(NullBool(true, b))
    case (NullFloat64(_, _), Null) => Some(NullFloat64(false, 0.0))
    case (NullFloat64(_, _), Float(r)) => Some(NullFloat64(true, r))
    case (NullInt64(_, _), Null) => Some(NullInt64(false, 0))
    case (NullInt64(_, _), Int(i)) => Some(NullInt64(true, i))
    case (NullString(_, _), Null) => Some(NullString(false, ""))
    case (NullString(_, _), Text(s)) => Some(NullString(true, s))
    case (NullTime(_, _), Null) => Some(NullTime(false, 0))
    case (NullTime(_, _), Time(t)) => Some(NullTime(true, t))
    case (UnknownType(_), v) => Some(UnknownType(v))
    case _ => None
  }

  datatype AssignError = CountMismatch(values: int, columns: int) | UnexpectedType(c: Column) | Unmarshal(c: Column)

  // json.Unmarshal into a map that may already hold members: members are merged,
  // the JSON text "null" sets the map to nil.
  function Merge(prior: JsonObject, d: JsonObject): JsonObject {
    if d.NilMap? || prior.NilMap? then d else Doc(prior.m + d.m)
  }

  // One case of assignValues: the assignment of one scanned value to the field of its column.
  function AssignOne(codec: Codec, f: AccountFields, c: Column, v: Container): (AccountFields, Option<AssignError>)
  {
    var bad := (f, Some(UnexpectedType(c)));
    match c
    case FieldID => if v.NullInt64? then (f.(id := v.i), None) else bad
    case FieldCreatedAt =>
      if !v.NullTime? then bad else if v.validT then (f.(createdAt := v.t), None) else (f, None)
    case FieldUpdatedAt =>
      if !v.NullTime? then bad else if v.validT then (f.(updatedAt := v.t), None) else (f, None)
    case FieldDeletedAt =>
      if !v.NullTime? then bad else if v.validT then (f.(deletedAt := Some(v.t)), None) else (f, None)
    case FieldName =>
      if !v.NullString? then bad else if v.validS then (f.(name := v.s), None) else (f, None)
    case FieldNotes =>
      if !v.NullString? then bad else if v.validS then (f.(notes := Some(v.s)), None) else (f, None)
    case FieldPlatform =>
      if !v.NullString? then bad else if v.validS then (f.(platform := v.s), None) else (f, None)
    case FieldType =>
      if !v.NullString? then bad else if v.validS then (f.(accountType := v.s), None) else (f, None)
    case FieldCredentials =>
      if !v.RawBytes? then bad
      else if v.text == "" then (f, None)
      else (match codec.unmarshal(v.text)
            case None => (f, Some(Unmarshal(c)))
            case Some(d) => (f.(credentials := Merge(f.credentials, d)), None))
    case FieldExtra =>
      if !v.RawBytes? then bad
      else if v.text == "" then (f, None)
      else (match codec.unmarshal(v.text)
            case None => (f, Some(Unmarshal(c)))
            case Some(d) => (f.(extra := Merge(f.extra, d)), None))
    case FieldProxyID =>
      if !v.NullInt64? then bad else if v.validI then (f.(proxyID := Some(v.i)), None) else (f, None)
    case FieldProxyFallbackOriginID =>
      if !v.NullInt64? then bad else if v.validI then (f.(proxyFallbackOriginID := Some(v.i)), None) else (f, None)
    case FieldConcurrency =>
      if !v.NullInt64? then bad else if v.validI then (f.(concurrency := v.i), None) else (f, None)
    case FieldLoadFactor =>
      if !v.NullInt64? then bad else if v.validI then (f.(loadFactor := Some(v.i)), None) else (f, None)
    case FieldPriority =>
      if !v.NullInt64? then bad else if v.validI then (f.(priority := v.i), None) else (f, None)
    case FieldRateMultiplier =>
      if !v.NullFloat64? then bad else if v.validF then (f.(rateMultiplier := v.r), None) else (f, None)
    case FieldStatus =>
      if !v.NullString? then bad else if v.validS then (f.(status := v.s), None) else (f, None)
    case FieldErrorMessage =>
      if !v.NullString? then bad else if v.validS then (f.(errorMessage := Some(v.s)), None) else (f, None)
    case FieldLastUsedAt =>
      if !v.NullTime? then bad else if v.validT then (f.(lastUsedAt := Some(v.t)), None) else (f, None)
    case FieldExpiresAt =>
      if !v.NullTime? then bad else if v.validT then (f.(expiresAt := Some(v.t)), None) else (f, None)
    case FieldAutoPauseOnExpired =>
      if !v.NullBool? then bad else if v.validB then (f.(autoPauseOnExpired := v.b), None) else (f, None)
    case FieldSchedulable =>
      if !v.NullBool? then bad else if v.validB then (f.(schedulable := v.b), None) else (f, None)
    case FieldRateLimitedAt =>
      if !v.NullTime? then bad else if v.validT then (f.(rateLimitedAt := Some(v.t)), None) else (f, None)
    case FieldRateLimitResetAt =>
      if !v.NullTime? then bad else if v.validT then (f.(rateLimitResetAt := Some(v.t)), None) else (f, None)
    case FieldOverloadUntil =>
      if !v.NullTime? then bad else if v.validT then (f.(overloadUntil := Some(v.t)), None) else (f, None)
    case FieldTempUnschedulableUntil =>
      if !v.NullTime? then bad else if v.validT then (f.(tempUnschedulableUntil := Some(v.t)), None) else (f, None)
    case FieldTempUnschedulableReason =>
      if !v.NullString? then bad else if v.validS then (f.(tempUnschedulableReason := Some(v.s)), None) else (f, None)
    case FieldSessionWindowStart =>
      if !v.NullTime? then bad else if v.validT then (f.(sessionWindowStart := Some(v.t)), None) else (f, None)
    case FieldSessionWindowEnd =>
      if !v.NullTime? then bad else if v.validT then (f.(sessionWindowEnd := Some(v.t)), None) else (f, None)
    case FieldSessionWindowStatus =>
      if !v.NullString? then bad else if v.validS then (f.(sessionWindowStatus := Some(v.s)), None) else (f, None)
    case FieldParentAccountID =>
      if !v.NullInt64? then bad else if v.validI then (f.(parentAccountID := Some(v.i)), None) else (f, None)
    case FieldQuotaDimension =>
      if !v.NullString? then bad else if v.validS then (f.(quotaDimension := v.s), None) else (f, None)
    case Other(_) => (f.(selected := f.selected[c := v]), None)
  }

  // assignValues after its first n columns; it stops at the first error.
  function AssignPrefix(codec: Codec, f: AccountFields, columns: seq<Column>, values: seq<Container>, n: nat)
    : (AccountFields, Option<AssignError>)
    requires n <= |columns| <= |values|
    decreases n
  {
    if n == 0 then (f, None)
    else
      var (g, e) := AssignPrefix(codec, f, columns, values, n - 1);
      if e.Some? then (g, e) else AssignOne(codec, g, columns[n - 1], values[n - 1])
  }

  function Assign(codec: Codec, f: AccountFields, columns: seq<Column>, values: seq<Container>)
    : (AccountFields, Option<AssignError>)
  {
    if |values| < |columns| then (f, Some(CountMismatch(|values|, |columns|)))
    else AssignPrefix(codec, f, columns, values, |columns|)
  }

  // A uniform view of the entity's fields, by column.
  datatype FieldValue = Scalar(v: SqlValue) | Document(d: JsonObject) | NoField

  function OptInt(o: Option<int>): FieldValue { Scalar(if o.Some? then Int(o.value) else Null) }
  function OptTime(o: Option<int>): FieldValue { Scalar(if o.Some? then Time(o.value) else Null) }
  function OptText(o: Option<string>): FieldValue { Scalar(if o.Some? then Text(o.value) else Null) }

  function FieldOf(f: AccountFields, c: Column): FieldValue {
    match c
    case FieldID => Scalar(Int(f.id))
    case FieldCreatedAt => Scalar(Time(f.createdAt))
    case FieldUpdatedAt => Scalar(Time(f.updatedAt))
    case FieldDeletedAt => OptTime(f.deletedAt)
    case FieldName => Scalar(Text(f.name))
    case FieldNotes => OptText(f.notes)
    case FieldPlatform => Scalar(Text(f.platform))
    case FieldType => Scalar(Text(f.accountType))
    case FieldCredentials => Document(f.credentials)
    case FieldExtra => Document(f.extra)
    case FieldProxyID => OptInt(f.proxyID)
    case FieldProxyFallbackOriginID => OptInt(f.proxyFallbackOriginID)
    case FieldConcurrency => Scalar(Int(f.concurrency))
    case FieldLoadFactor => OptInt(f.loadFactor)
    case FieldPriority => Scalar(Int(f.priority))
    case FieldRateMultiplier => Scalar(Float(f.rateMultiplier))
    case FieldStatus => Scalar(Text(f.status))
    case FieldErrorMessage => OptText(f.errorMessage)
    case FieldLastUsedAt => OptTime(f.lastUsedAt)
    case FieldExpiresAt => OptTime(f.expiresAt)
    case FieldAutoPauseOnExpired => Scalar(Bool(f.autoPauseOnExpired))
    case FieldSchedulable => Scalar(Bool(f.schedulable))
    case FieldRateLimitedAt => OptTime(f.rateLimitedAt)
    case FieldRateLimitResetAt => OptTime(f.rateLimitResetAt)
    case FieldOverloadUntil => OptTime(f.overloadUntil)
    case FieldTempUnschedulableUntil => OptTime(f.tempUnschedulableUntil)
    case FieldTempUnschedulableReason => OptText(f.tempUnschedulableReason)
    case FieldSessionWindowStart => OptTime(f.sessionWindowStart)
    case FieldSessionWindowEnd => OptTime(f.sessionWindowEnd)
    case FieldSessionWindowStatus => OptText(f.sessionWindowStatus)
    case FieldParentAccountID => OptInt(f.parentAccountID)
    case FieldQuotaDimension => Scalar(Text(f.quotaDimension))
    case Other(_) => NoField
  }

  // The value the field of column c has once the database value v was read into a
  // fresh entity: NULL leaves a non-pointer field at its zero.
  function Decoded(codec: Codec, c: Column, v: SqlValue): FieldValue {
    if KindOf(c).KJSON? then
      if v.Text? && v.s != "" && codec.unmarshal(v.s).Some? then Document(codec.unmarshal(v.s).value)
      else Document(NilMap)
    else if v.Null? then FieldOf(ZeroFields, c)
    else if KindOf(c).KUnknown? then NoField
    else Scalar(v)
  }

  // v is a value that column c can hold: of the column's kind, and JSON text that decodes.
  predicate Holds(codec: Codec, c: Column, v: SqlValue) {
    && Scan(Allocate(KindOf(c)), v).Some?
    && (KindOf(c).KJSON? && v.Text? && v.s != "" ==> codec.unmarshal(v.s).Some?)
  }
}
