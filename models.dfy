/**
 * The normalisation layer under the IOR output models: the access-type
 * enumeration and the "before" field validators of IORParameters,
 * IOROptions, IORResult, IORTest, IORSummary and IOROutput, each as a pure
 * function of the raw field value (and, for the unit conversions, of the
 * field name and the set of keys the validation library passes in).
 */
module IorModels {
  import opened Wrappers
  import opened Sizes

  /** The I/O direction of a measurement; its string values are "read" and "write". */
  datatype AccessType = Read | Write {
    function Value(): string {
      match this
      case Read => "read"
      case Write => "write"
    }
  }

  /** Looking a string up among the enumeration's values: `AccessType(s)`. */
  function AccessTypeOf(s: string): (r: Option<AccessType>)
    ensures r.Some? ==> r.value.Value() == s
    ensures r.None? ==> forall a: AccessType :: a.Value() != s
  {
    if s == "read" then Some(Read)
    else if s == "write" then Some(Write)
    else None
  }

  /** Each access type is found again from its own string value. */
  lemma AccessTypeRoundTrip(a: AccessType)
    ensures AccessTypeOf(a.Value()) == Some(a)
  {
  }

  /** A calendar date and time of day, as `datetime` holds it. */
  datatype Timestamp = Timestamp(year: int, month: int, day: int, hour: int, minute: int, second: int)

  /** A raw field value as it reaches a "before" validator. */
  datatype Value =
    | Null
    | Str(s: string)
    | Int(i: int)
    | Real(x: real)
    | Time(t: Timestamp)

  /** IOR's placeholder for "no value". */
  const NullSentinel: string := "(null)"

  /** `IORParameters.parse_options`: the placeholder string becomes absent. */
  function ParseOptions(v: Value): (r: Value)
    ensures v == Str(NullSentinel) ==> r == Null
    ensures v != Str(NullSentinel) ==> r == v
    ensures r != Str(NullSentinel)
  {
    if v.Str? && v.s == NullSentinel then Null else v
  }

  /** Validating the options field a second time changes nothing. */
  lemma ParseOptionsIdempotent(v: Value)
    ensures ParseOptions(ParseOptions(v)) == ParseOptions(v)
  {
  }

  /**
   * `IOROptions.parse_size_fields` (xfersize, blocksize, aggregate filesize):
   * a string is parsed as a size string into a byte count, and anything else
   * (an integer already in bytes) passes through.
   */
  function ParseSizeField(v: Value): (r: Result<Value, SizeError>)
    ensures !v.Str? ==> r == Success(v)
    ensures v.Str? ==> (r.Success? <==> ParseSizeStr(v.s).Success?)
    ensures v.Str? && r.Success? ==> r.value == Int(ParseSizeStr(v.s).value)
    ensures v.Str? && r.Failure? ==> r.error == ParseSizeStr(v.s).error
    ensures r.Success? ==> !r.value.Str?
  {
    if v.Str? then
      match ParseSizeStr(v.s)
      case Success(n) => Success(Int(n))
      case Failure(e) => Failure(e)
    else Success(v)
  }

  /** Validating a size field a second time changes nothing: the byte count passes through. */
  lemma ParseSizeFieldIdempotent(v: Value)
    ensures ParseSizeField(v).Success? ==>
              ParseSizeField(ParseSizeField(v).value) == ParseSizeField(v)
  {
  }

  /** IOR's own "4 MiB" in an options size field becomes 4 * 2^20 bytes. */
  lemma {:induction false} ParseSizeFieldFourMiB(text: string)
    requires text == "4 MiB"
    ensures ParseSizeField(Str(text)) == Success(Int(4 * MiB))
  {
    ParseSizeStrFourMiB(text);
  }

  /**
   * `aliases.get(field_name)` followed by `alias and alias in info.data`:
   * the field has an alias in the table and that alias is among the keys.
   */
  predicate AliasPresent(aliases: map<string, string>, field: string, data: set<string>) {
    field in aliases && aliases[field] != "" && aliases[field] in data
  }

  /** IORResult's MiB-denominated field and its native alias. */
  const ResultMibAliases: map<string, string> := map["bw_bytes" := "bwMiB"]

  /** IORResult's KiB-denominated fields and their native aliases. */
  const ResultKibAliases: map<string, string> := map["block_bytes" := "blockKiB", "xfer_bytes" := "xferKiB"]

  /**
   * `IORResult.conv_mib`: the bandwidth is scaled from MiB/s to bytes/s
   * exactly when its native key "bwMiB" is among the keys; otherwise it is
   * returned unchanged.
   */
  function ResultConvMib(v: real, field: string, data: set<string>): (r: real)
    ensures field == "bw_bytes" && "bwMiB" in data ==> r == v * MiB as real
    ensures !(field == "bw_bytes" && "bwMiB" in data) ==> r == v
  {
    if AliasPresent(ResultMibAliases, field, data) then v * MiB as real else v
  }

  /**
   * `IORResult.conv_kib`: block and transfer sizes are scaled from KiB to
   * bytes, each exactly when its own native key is among the keys.
   */
  function ResultConvKib(v: int, field: string, data: set<string>): (r: int)
    ensures (field == "block_bytes" && "blockKiB" in data) || (field == "xfer_bytes" && "xferKiB" in data) ==>
              r == v * KiB
    ensures !((field == "block_bytes" && "blockKiB" in data) || (field == "xfer_bytes" && "xferKiB" in data)) ==>
              r == v
  {
    if AliasPresent(ResultKibAliases, field, data) then v * KiB else v
  }

  /** IORResult's canonical field names: the only keys a re-exported result carries. */
  const ResultFields: set<string> := {
    "access", "bw_bytes", "block_bytes", "xfer_bytes", "iops", "latency",
    "open_time", "wr_rd_time", "close_time", "total_time"
  }

  /** A result keyed by canonical names only (a re-import) is never converted. */
  lemma {:induction false} ResultReimportUnchanged(bw: real, size: int, field: string, data: set<string>)
    requires data <= ResultFields
    ensures ResultConvMib(bw, field, data) == bw
    ensures ResultConvKib(size, field, data) == size
  {
    assert "bwMiB" !in ResultFields && "blockKiB" !in ResultFields && "xferKiB" !in ResultFields;
  }

  /**
   * Converting once from the native keys and then re-importing under the
   * canonical keys gives the same value as the first conversion.
   */
  lemma {:induction false} ResultConvertedOnce(bw: real, size: int, field: string, raw: set<string>, exported: set<string>)
    requires exported <= ResultFields
    ensures ResultConvMib(ResultConvMib(bw, field, raw), field, exported) == ResultConvMib(bw, field, raw)
    ensures ResultConvKib(ResultConvKib(size, field, raw), field, exported) == ResultConvKib(size, field, raw)
  {
    ResultReimportUnchanged(ResultConvMib(bw, field, raw), ResultConvKib(size, field, raw), field, exported);
  }

  /** With all three aliases in the key set: bwMiB 2.5, blockKiB 4096 and xferKiB 1024 become bytes. */
  lemma {:induction false} ResultNativeExample(data: set<string>)
    requires "bwMiB" in data && "blockKiB" in data && "xferKiB" in data
    ensures ResultConvMib(2.5, "bw_bytes", data) == 2.5 * 1048576.0
    ensures ResultConvKib(4096, "block_bytes", data) == 4096 * 1024
    ensures ResultConvKib(1024, "xfer_bytes", data) == 1024 * 1024
  {
  }

  /** IORSummary's MiB-denominated bandwidth fields and their native aliases. */
  const SummaryMibAliases: map<string, string> := map[
    "bw_max_bytes" := "bwMaxMIB",
    "bw_min_bytes" := "bwMinMIB",
    "bw_mean_bytes" := "bwMeanMIB",
    "bw_std_bytes" := "bwStdMIB",
    "stonewall_bw_mean_bytes" := "StoneWallbwMeanMIB"
  ]

  /** IORSummary's MiB-denominated aggregate size field and its native alias. */
  const SummaryRoundedAliases: map<string, string> := map["xsize_bytes" := "xsizeMiB"]

  /** One of the five bandwidth fields, with its own native key among the keys. */
  predicate SummaryBandwidthNative(field: string, data: set<string>) {
    || (field == "bw_max_bytes" && "bwMaxMIB" in data)
    || (field == "bw_min_bytes" && "bwMinMIB" in data)
    || (field == "bw_mean_bytes" && "bwMeanMIB" in data)
    || (field == "bw_std_bytes" && "bwStdMIB" in data)
    || (field == "stonewall_bw_mean_bytes" && "StoneWallbwMeanMIB" in data)
  }

  /**
   * `IORSummary.conv_mib`: absent stays absent; a present bandwidth is
   * scaled from MiB/s to bytes/s exactly when its own native key is among
   * the keys, and is otherwise unchanged.
   */
  function SummaryConvMib(v: Option<real>, field: string, data: set<string>): (r: Option<real>)
    ensures v.None? <==> r.None?
    ensures v.Some? && SummaryBandwidthNative(field, data) ==> r.value == v.value * MiB as real
    ensures !SummaryBandwidthNative(field, data) ==> r == v
  {
    match v
    case None => None
    case Some(x) =>
      if AliasPresent(SummaryMibAliases, field, data) then Some(x * MiB as real) else Some(x)
  }

  /**
   * `IORSummary.conv_mib_rounded`: the aggregate transfer size is scaled
   * from MiB to bytes exactly when "xsizeMiB" is among the keys.
   */
  function SummaryConvMibRounded(v: int, field: string, data: set<string>): (r: int)
    ensures field == "xsize_bytes" && "xsizeMiB" in data ==> r == v * MiB
    ensures !(field == "xsize_bytes" && "xsizeMiB" in data) ==> r == v
  {
    if AliasPresent(SummaryRoundedAliases, field, data) then v * MiB else v
  }

  /** IORSummary's canonical field names: the only keys a re-exported summary carries. */
  const SummaryFields: set<string> := {
    "operation", "api", "test_id", "reference_number", "segment_count",
    "block_size", "transfer_size", "num_tasks", "tasks_per_node", "repetitions",
    "file_per_proc", "reorder_tasks", "task_per_node_offset", "reorder_tasks_random",
    "reorder_tasks_random_seed", "bw_max_bytes", "bw_min_bytes", "bw_mean_bytes",
    "bw_std_bytes", "ops_max", "ops_min", "ops_mean", "ops_sd", "mean_time",
    "stonewall_time", "stonewall_bw_mean_bytes", "xsize_bytes"
  }

  /** A summary keyed by canonical names only (a re-import) is never converted. */
  lemma {:induction false} SummaryReimportUnchanged(bw: Option<real>, xsize: int, field: string, data: set<string>)
    requires data <= SummaryFields
    ensures SummaryConvMib(bw, field, data) == bw
    ensures SummaryConvMibRounded(xsize, field, data) == xsize
  {
    assert "bwMaxMIB" !in SummaryFields && "bwMinMIB" !in SummaryFields;
    assert "bwMeanMIB" !in SummaryFields && "bwStdMIB" !in SummaryFields;
    assert "StoneWallbwMeanMIB" !in SummaryFields && "xsizeMiB" !in SummaryFields;
  }

  /**
   * Converting once from the native keys and then re-importing under the
   * canonical keys gives the same value as the first conversion.
   */
  lemma {:induction false} SummaryConvertedOnce(bw: Option<real>, xsize: int, field: string, raw: set<string>, exported: set<string>)
    requires exported <= SummaryFields
    ensures SummaryConvMib(SummaryConvMib(bw, field, raw), field, exported) == SummaryConvMib(bw, field, raw)
    ensures SummaryConvMibRounded(SummaryConvMibRounded(xsize, field, raw), field, exported) ==
            SummaryConvMibRounded(xsize, field, raw)
  {
    SummaryReimportUnchanged(SummaryConvMib(bw, field, raw), SummaryConvMibRounded(xsize, field, raw), field, exported);
  }

  /** Why a timestamp string was rejected. */
  datatype TimeError = InvalidTimestamp(text: string)

  /**
   * `_parse_time`: IOR's native "%a %b %d %H:%M:%S %Y" format is tried
   * first and the ISO-8601 form only when it fails; the two calendar
   * parsers themselves are parameters.
   */
  function ParseTimestamp(text: string, native: string -> Option<Timestamp>, iso: string -> Option<Timestamp>): (r: Result<Timestamp, TimeError>)
    ensures native(text).Some? ==> r == Success(native(text).value)
    ensures native(text).None? && iso(text).Some? ==> r == Success(iso(text).value)
    ensures r.Failure? <==> native(text).None? && iso(text).None?
  {
    match native(text)
    case Some(t) => Success(t)
    case None =>
      match iso(text)
      case Some(t) => Success(t)
      case None => Failure(InvalidTimestamp(text))
  }

  /**
   * `IORTest.parse_time` and `IOROutput.parse_time`: a string is parsed as
   * a timestamp, and anything else (a timestamp already) passes through.
   */
  function ParseTime(v: Value, native: string -> Option<Timestamp>, iso: string -> Option<Timestamp>): (r: Result<Value, TimeError>)
    ensures !v.Str? ==> r == Success(v)
    ensures v.Str? ==> (r.Success? <==> ParseTimestamp(v.s, native, iso).Success?)
    ensures v.Str? && r.Success? ==> r.value == Time(ParseTimestamp(v.s, native, iso).value)
    ensures v.Str? && r.Failure? ==> r.error == ParseTimestamp(v.s, native, iso).error
    ensures r.Success? ==> !r.value.Str?
  {
    if v.Str? then
      match ParseTimestamp(v.s, native, iso)
      case Success(t) => Success(Time(t))
      case Failure(e) => Failure(e)
    else Success(v)
  }

  /** Validating a time field a second time changes nothing. */
  lemma ParseTimeIdempotent(v: Value, native: string -> Option<Timestamp>, iso: string -> Option<Timestamp>)
    ensures ParseTime(v, native, iso).Success? ==>
              ParseTime(ParseTime(v, native, iso).value, native, iso) == ParseTime(v, native, iso)
  {
  }
}
