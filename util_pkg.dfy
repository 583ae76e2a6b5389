/** Unit constants, resource constraints, the autoscaler slot constants and
    the small helpers of the `_util` package. */
module UtilPkg {
  import opened Common

  // ------------------------------------------------------------ byte units

  const KB: int := 1000
  const MB: int := KB * 1000
  const GB: int := MB * 1000
  const TB: int := GB * 1000

  const KIB: int := 1024
  const MIB: int := KIB * 1024
  const GIB: int := MIB * 1024
  const TIB: int := GIB * 1024

  // ------------------------------------------------------ pgbouncer defaults

  const PgbouncerDefaultMaxClientConn: int := 100
  const PgbouncerDefaultPoolSize: int := 20
  const PgbouncerDefaultServerIdleTimeout: int := 60
  const PgbouncerDefaultServerLifetime: int := 600
  const PgbouncerDefaultQueryWaitTimeout: int := 30
  const PgbouncerDefaultReservePoolSize: int := 0

  // -------------------------------------------------------- resource bounds

  const VcpuMillisMin: int := 500
  const VcpuMillisMax: int := 64000
  const VcpuMillisStep: int := 100

  const MemoryMin: int := 1 * GIB
  const MemoryMax: int := 32 * GIB
  const MemoryStep: int := 256 * MIB

  const AutoscalerMemorySlotSizeMib: int := MemoryStep / MIB
  const AutoscalerMemorySlotsMin: int := MemoryMin / AutoscalerMemorySlotSizeMib
  const AutoscalerMemorySlotsMax: int := MemoryMax / AutoscalerMemorySlotSizeMib

  const DbSizeMin: int := 1 * GB
  const DbSizeMax: int := 100 * TB
  const DbSizeStep: int := GB

  const StorageSizeMin: int := 1 * GB
  const StorageSizeMax: int := 1 * TB
  const StorageSizeStep: int := GB

  const IopsMin: int := 100
  const IopsMax: int := 100000
  const IopsStep: int := 100

  /** A pydantic numeric constraint: `ge`, `le` and an optional `multiple_of`. */
  datatype Constraint = Constraint(ge: int, le: int, multipleOf: Option<int>)

  predicate Satisfies(c: Constraint, v: int) {
    c.ge <= v <= c.le &&
    match c.multipleOf
    case None => true
    case Some(m) => m > 0 && v % m == 0
  }

  const CpuConstraints: Constraint := Constraint(VcpuMillisMin, VcpuMillisMax, Some(VcpuMillisStep))
  const MemoryConstraints: Constraint := Constraint(MemoryMin, MemoryMax, Some(MemoryStep))
  const DatabaseSizeConstraints: Constraint := Constraint(DbSizeMin, DbSizeMax, Some(DbSizeStep))
  const StorageSizeConstraints: Constraint := Constraint(StorageSizeMin, StorageSizeMax, Some(StorageSizeStep))
  const IopsConstraints: Constraint := Constraint(IopsMin, IopsMax, None)

  /** The constraint dicts admit exactly: CPU 500..64000 in steps of 100,
      memory 1 GiB..32 GiB in steps of 256 MiB, database size 1 GB..100 TB
      and storage 1 GB..1 TB in steps of 1 GB, IOPS 100..100000 with no step. */
  lemma ConstraintsMeaning(v: int)
    ensures Satisfies(CpuConstraints, v) <==> 500 <= v <= 64000 && v % 100 == 0
    ensures Satisfies(MemoryConstraints, v) <==>
              1073741824 <= v <= 34359738368 && v % 268435456 == 0
    ensures Satisfies(DatabaseSizeConstraints, v) <==>
              1000000000 <= v <= 100000000000000 && v % 1000000000 == 0
    ensures Satisfies(StorageSizeConstraints, v) <==>
              1000000000 <= v <= 1000000000000 && v % 1000000000 == 0
    ensures Satisfies(IopsConstraints, v) <==> 100 <= v <= 100000
  {
  }

  /** The slot constants divide byte counts by a size given in MiB, so they
      are 4194304 and 134217728 rather than 4 and 128; their order holds. */
  lemma SlotConstants()
    ensures AutoscalerMemorySlotSizeMib == 256
    ensures AutoscalerMemorySlotsMin == 4194304
    ensures AutoscalerMemorySlotsMax == 134217728
    ensures AutoscalerMemorySlotsMin <= AutoscalerMemorySlotsMax
  {
  }

  // ---------------------------------------------------------------- single

  /** `single(xs)`: the sole element, or the ValueError raised for no or
      several elements. */
  function Single<T>(xs: seq<T>): (r: Result<T>)
    ensures r.Ok? <==> |xs| == 1
    ensures r.Ok? ==> r.value == xs[0]
    ensures |xs| == 0 ==> r == Err(Raised("ValueError", "No values present"))
    ensures |xs| >= 2 ==> r == Err(Raised("ValueError", "Multiple values present"))
  {
    if |xs| == 0 then Err(Raised("ValueError", "No values present"))
    else if |xs| == 1 then Ok(xs[0])
    else Err(Raised("ValueError", "Multiple values present"))
  }

  // --------------------------------------------------------- string types

  /** `dbstr`: the pattern `^[^\x00]*$` admits exactly the NUL-free strings. */
  predicate IsDbstr(s: string) {
    forall i :: 0 <= i < |s| ==> s[i] != 0 as char
  }

  /** `Name`: a non-empty dbstr. */
  predicate IsName(s: string) {
    IsDbstr(s) && |s| >= 1
  }

  /** `DBPassword`: a dbstr of 8 to 128 characters. */
  predicate IsDbPassword(s: string) {
    IsDbstr(s) && 8 <= |s| <= 128
  }

  // ----------------------------------------------------------------- ULIDs

  /** What a ULID validator can be handed. */
  datatype UlidInput = UlidObject(id: Ulid) | Text(text: string) | OtherValue

  /** `validate_ulid`: a ULID is returned unchanged, a string is parsed, any
      other value raises ValueError. */
  function ValidateUlid(v: UlidInput): (r: Result<Ulid>)
    ensures v.UlidObject? ==> r == Ok(v.id)
    ensures v.Text? ==> (r.Ok? <==> IsUlidText(v.text)) && (r.Ok? ==> r.value == v.text)
    ensures v.OtherValue? ==> r == Err(Raised("ValueError", "Invalid ULID format"))
    ensures r.Err? ==> r.failure.Raised? && r.failure.kind == "ValueError"
  {
    match v
    case UlidObject(id) => Ok(id)
    case Text(s) =>
      (match UlidFromStr(s)
       case Some(id) => Ok(id)
       case None => Err(Raised("ValueError", "Invalid ULID string")))
    case OtherValue => Err(Raised("ValueError", "Invalid ULID format"))
  }

  /** Validating the text of a ULID gives that ULID back. */
  lemma ValidateUlidText(id: Ulid)
    ensures ValidateUlid(Text(id)) == Ok(id)
  {
  }

  // ------------------------------------------------------------ converters

  function BytesToKb(value: int): (r: int)
    ensures r * KB <= value < (r + 1) * KB
  {
    FloorDiv(value, KB)
  }

  function BytesToMb(value: int): (r: int)
    ensures r * MB <= value < (r + 1) * MB
  {
    FloorDiv(value, MB)
  }

  function BytesToMib(value: int): (r: int)
    ensures r * MIB <= value < (r + 1) * MIB
  {
    FloorDiv(value, MIB)
  }

  function BytesToGb(value: int): (r: int)
    ensures r * GB <= value < (r + 1) * GB
  {
    FloorDiv(value, GB)
  }

  function BytesToGib(value: int): (r: int)
    ensures r * GIB <= value < (r + 1) * GIB
  {
    FloorDiv(value, GIB)
  }

  function KbToBytes(value: int): (r: int)
    ensures BytesToKb(r) == value
  {
    value * KB
  }

  function MbToBytes(value: int): (r: int)
    ensures BytesToMb(r) == value
  {
    value * MB
  }

  /** Floor division is exact only on multiples: converting a byte count down
      and back up loses the remainder, and only the remainder. */
  lemma KbRoundTripDown(bytes: int)
    ensures 0 <= bytes - KbToBytes(BytesToKb(bytes)) < KB
    ensures KbToBytes(BytesToKb(bytes)) == bytes <==> bytes % KB == 0
  {
  }

  // ------------------------------------------------------------ quantities

  /** What `_normalize_quantity` can be handed. */
  datatype QuantityInput = NoQuantity | DecimalValue(d: real) | QuantityText(text: string)

  /** `int(x)` on a Decimal: truncation toward zero. */
  function TruncateToInt(x: real): (r: int)
    ensures x >= 0.0 ==> r as real <= x < r as real + 1.0
    ensures x < 0.0 ==> r as real - 1.0 < x <= r as real
  {
    if x >= 0.0 then x.Floor else -((-x).Floor)
  }

  /** `_normalize_quantity`; `parse` stands for the Kubernetes quantity
      parser, which may raise. */
  function NormalizeQuantity(v: QuantityInput, parse: string -> Result<real>): (r: Result<Option<real>>)
    ensures v.NoQuantity? ==> r == Ok(None)
    ensures v.DecimalValue? ==> r == Ok(Some(v.d))
    ensures v.QuantityText? && Strip(v.text) == [] ==> r == Ok(None)
    ensures v.QuantityText? && Strip(v.text) != [] ==>
              r == (match parse(Strip(v.text)) case Ok(d) => Ok(Some(d)) case Err(e) => Err(e))
  {
    match v
    case NoQuantity => Ok(None)
    case DecimalValue(d) => Ok(Some(d))
    case QuantityText(s) =>
      var q := Strip(s);
      if q == [] then Ok(None)
      else
        match parse(q)
        case Ok(d) => Ok(Some(d))
        case Err(e) => Err(e)
  }

  /** `quantity_to_milli_cpu`: the quantity in thousandths, truncated. */
  function QuantityToMilliCpu(v: QuantityInput, parse: string -> Result<real>): (r: Result<Option<int>>)
    ensures NormalizeQuantity(v, parse) == Ok(None) ==> r == Ok(None)
    ensures forall q :: NormalizeQuantity(v, parse) == Ok(Some(q)) ==>
              r == Ok(Some(TruncateToInt(q * 1000.0)))
    ensures NormalizeQuantity(v, parse).Err? ==> r.Err?
  {
    match NormalizeQuantity(v, parse)
    case Err(e) => Err(e)
    case Ok(None) => Ok(None)
    case Ok(Some(q)) => Ok(Some(TruncateToInt(q * 1000.0)))
  }

  /** `quantity_to_bytes`: the quantity truncated to an integer. */
  function QuantityToBytes(v: QuantityInput, parse: string -> Result<real>): (r: Result<Option<int>>)
    ensures NormalizeQuantity(v, parse) == Ok(None) ==> r == Ok(None)
    ensures forall q :: NormalizeQuantity(v, parse) == Ok(Some(q)) ==> r == Ok(Some(TruncateToInt(q)))
    ensures NormalizeQuantity(v, parse).Err? ==> r.Err?
  {
    match NormalizeQuantity(v, parse)
    case Err(e) => Err(e)
    case Ok(None) => Ok(None)
    case Ok(Some(q)) => Ok(Some(TruncateToInt(q)))
  }

  // ------------------------------------------------------------- timedelta

  /** The values a timedelta field can be handed before pydantic sees them. */
  datatype RawValue = StrValue(s: string) | IntValue(i: int) | OtherRaw(tag: string)

  /** `permissive_numeric_timedelta`: a string that parses as an integer
      becomes that integer; everything else, including strings that would
      only parse as floats, is passed through unchanged. */
  function PermissiveNumericTimedelta(v: RawValue): (r: RawValue)
    ensures v.StrValue? && ParseInt(v.s).Some? ==> r == IntValue(ParseInt(v.s).value)
    ensures !(v.StrValue? && ParseInt(v.s).Some?) ==> r == v
  {
    match v
    case StrValue(s) =>
      (match ParseInt(s)
       case Some(n) => IntValue(n)
       case None => v)
    case _ => v
  }

  /** A rendered integer always comes back as that integer. */
  lemma TimedeltaOfRenderedInt(n: int)
    ensures PermissiveNumericTimedelta(StrValue(IntToString(n))) == IntValue(n)
  {
    IntRoundTrip(n);
  }

  /** Text that would only parse as a float, because it holds a '.' or an
      exponent, is not converted: the `float` branch is never reached. */
  lemma TimedeltaLeavesFloats(s: string, i: int)
    requires 0 <= i < |s| && s[i] in ".eE"
    ensures PermissiveNumericTimedelta(StrValue(s)) == StrValue(s)
  {
    ParseIntRefusesForeign(s, i);
  }
}
