# IOR output normalisation, modelled in Dafny

`iorpyd` reads the JSON that the IOR parallel file-system benchmark writes.
It turns that JSON into typed pydantic models and normalises the units on the way in.
This project models the part of `pkg/src/iorpyd/__init__.py` that does the normalising:

- `_parse_size_str` turns IOR size strings such as `"4 MiB"` into byte counts.
- `pprint_size` picks a binary unit to print a byte count in.
- `AccessType` is the read/write enumeration.
- The "before" field validators run ahead of the models' type checks:
  - `IORParameters.parse_options` turns the `"(null)"` placeholder into an absent value.
  - `IOROptions.parse_size_fields` parses size strings into bytes.
  - `IORResult.conv_mib`/`conv_kib` and `IORSummary.conv_mib`/`conv_mib_rounded` scale MiB and KiB figures to bytes. They do so only when the field's alias is among the keys in `info.data`.
  - `IORTest.parse_time`/`IOROutput.parse_time` send strings to the timestamp parser.

Everything is a pure function of its inputs, so the model is datatypes, functions and lemmas:

- `wrappers.dfy`: `Option` and `Result`. They stand for Python's `None` and for raised errors.
- `pytext.dfy`: the Python string behaviour the parser relies on. This covers `str.isspace` (in `PyText.IsSpace`, Python's whitespace set written out character by character), `strip()`, `split()` with no separator, and decimal numerals.
- `sizes.dfy`: the unit table, the size-string parser and `pprint_size`'s choice of suffix.
- `models.dfy`: `AccessType`, the raw field value (`Value`) and the validators.

Each unit-conversion validator takes three inputs: the value, the field name, and the keys that the validation library hands over as `info.data`. That key collection is a `set<string>` parameter. The model assumes nothing about what the library puts in it. In particular, it does not assume it equals the raw input document's keys. The code tests `alias in info.data`, and the model tests the same thing.

Lemmas prove the properties the code promises:

- Parsing `"<n> <unit>"` gives exactly n times the unit's factor, whatever whitespace surrounds the two tokens.
- Unknown units and a wrong number of tokens fail.
- `pprint_size` picks the largest unit not above the size. Below EiB, the exact quotient size/factor lies in [1, 1024).
- Every unit it prints is one the parser reads back with the same factor.
- `parse_options`, `parse_size_fields` and `parse_time` are idempotent. The unit conversions are not: under a fixed key set, a second pass scales again.
- Each conversion fires only when its own alias is in the key set. It never fires again on a re-import whose keys are all canonical field names.

## Model

| member | source | states |
|---|---|---|
| PyText.Strip | pkg/src/iorpyd/__init__.py:66 | `size.strip()` returns the contiguous middle of the text: everything before it and everything after it is whitespace, and it neither starts nor ends with a Python whitespace character |
| PyText.Split | pkg/src/iorpyd/__init__.py:66 | every piece that `split()` returns is non-empty and contains no whitespace |
| PyText.StripKeepsTokens | pkg/src/iorpyd/__init__.py:66 | stripping before splitting yields the same tokens as splitting alone: surrounding whitespace is ignored |
| PyText.SplitTwoTokens | pkg/src/iorpyd/__init__.py:66 | text of the shape whitespace, token, whitespace (at least one character), token, whitespace splits into exactly those two tokens |
| PyText.NumeralRoundTrip | pkg/src/iorpyd/__init__.py:81 | a natural number's decimal numeral reads back as that number |
| Sizes.UnitsArePowersOfTwo | pkg/src/iorpyd/__init__.py:67-76 | KiB, MiB, GiB, TiB, PiB and EiB are 2^10, 2^20, 2^30, 2^40, 2^50 and 2^60 bytes |
| Sizes.ParseSizeStr | pkg/src/iorpyd/__init__.py:61-81 | fails with the token count unless the text splits into exactly two tokens; otherwise fails on an unknown unit before it looks at the number; otherwise fails on a number that is not a numeral; otherwise returns number × unit factor, and only then succeeds |
| Sizes.ParseSizeStrOfTokens | pkg/src/iorpyd/__init__.py:66-81 | text whose tokens are a numeral and a known unit parses to that many units, in bytes |
| Sizes.ParseSizeStrExact | pkg/src/iorpyd/__init__.py:66-81 | `"<n> <unit>"`, with any whitespace around and between the tokens, parses to exactly n × factor(unit) for every unit in the table |
| Sizes.ParseSizeStrSimple | pkg/src/iorpyd/__init__.py:61-81 | IOR's own shape, numeral + one space + unit, parses to n × factor(unit) |
| Sizes.ParseSizeStrUnknownUnit | pkg/src/iorpyd/__init__.py:78-79 | a unit token outside the table is an error whatever the number token holds |
| Sizes.ParseSizeStrFourMiB | pkg/src/iorpyd/__init__.py:61-64 | `"4 MiB"` parses to 4 · 2^20 bytes |
| Sizes.ParseSizeStrOneByte | pkg/src/iorpyd/__init__.py:67-69 | `"1 bytes"` parses to 1 byte |
| Sizes.ParseSizeStrPadded | pkg/src/iorpyd/__init__.py:66-69 | `" 2 byte\n"` parses to 2 bytes: `byte` is accepted like `bytes`, and outer whitespace is dropped |
| Sizes.ParseSizeStrUnknownExample | pkg/src/iorpyd/__init__.py:78-79 | `"4 XiB"` fails with an unknown-unit error for `XiB` |
| Sizes.ParseSizeStrOneToken | pkg/src/iorpyd/__init__.py:66 | `"4MiB"` is a single token and fails the two-token unpacking |
| Sizes.FirstAtMost | pkg/src/iorpyd/__init__.py:26-28 | the first-match loop stops at the first entry whose factor is ≤ size; every earlier entry's factor is > size; it runs off the end only when no entry qualifies |
| Sizes.SizeSuffixesStep | pkg/src/iorpyd/__init__.py:16-24 | the suffix table descends by a factor of 2^10 from EiB and ends at bytes = 1 |
| Sizes.SizeSuffixesAgreeWithUnits | pkg/src/iorpyd/__init__.py:16-24 | each suffix `pprint_size` can print is a key of the parser's unit table, with the same factor |
| Sizes.PprintSize | pkg/src/iorpyd/__init__.py:12-30 | prints "0 bytes" exactly when size < 1; otherwise the quotient times the suffix's factor is the size, the quotient is ≥ 1, and it is < 1024 unless the suffix is EiB; the suffix and its factor are an entry of the suffix table (so never `byte`) |
| Sizes.PprintSizePicksLargestUnit | pkg/src/iorpyd/__init__.py:26-28 | the chosen factor is the largest factor in the table that does not exceed the size |
| Sizes.PprintSizeBoundaries | pkg/src/iorpyd/__init__.py:26-30 | 0 prints "0 bytes", 1023 is 1023 bytes, 1024 is 1 KiB, 4·2^20 is 4 MiB |
| IorModels.AccessTypeOf | pkg/src/iorpyd/__init__.py:7-9 | a string names an access type exactly when it is that type's value ("read" or "write") |
| IorModels.AccessTypeRoundTrip | pkg/src/iorpyd/__init__.py:7-9 | each access type is found again from its own value |
| IorModels.ParseOptions | pkg/src/iorpyd/__init__.py:128-133 | the string "(null)" becomes absent, every other value is unchanged, and the result is never "(null)" |
| IorModels.ParseOptionsIdempotent | pkg/src/iorpyd/__init__.py:128-133 | applying the validator twice equals applying it once |
| IorModels.ParseSizeField | pkg/src/iorpyd/__init__.py:168-173 | a string value succeeds exactly when it parses as a size string and becomes that byte count, or fails with the parser's error; a non-string passes through unchanged; a successful result is never a string |
| IorModels.ParseSizeFieldIdempotent | pkg/src/iorpyd/__init__.py:168-173 | re-validating a successful result returns it unchanged |
| IorModels.ParseSizeFieldFourMiB | pkg/src/iorpyd/__init__.py:170-172 | the options value `"4 MiB"` becomes the integer 4 · 2^20 |
| IorModels.ResultConvMib | pkg/src/iorpyd/__init__.py:192-201 | bw_bytes is multiplied by 2^20 exactly when "bwMiB" is in the key set; every other case returns the value unchanged |
| IorModels.ResultConvKib | pkg/src/iorpyd/__init__.py:204-214 | block_bytes is multiplied by 2^10 exactly when "blockKiB" is in the key set, and xfer_bytes exactly when "xferKiB" is; each field depends only on its own alias |
| IorModels.ResultReimportUnchanged | pkg/src/iorpyd/__init__.py:180-214 | with keys drawn only from IORResult's canonical field names, no conversion fires |
| IorModels.ResultConvertedOnce | pkg/src/iorpyd/__init__.py:192-214 | converting from native keys and then re-validating under canonical keys gives the once-converted value |
| IorModels.ResultNativeExample | pkg/src/iorpyd/__init__.py:182-184 | when "bwMiB", "blockKiB" and "xferKiB" are all in the key set, bwMiB 2.5, blockKiB 4096 and xferKiB 1024 become 2.5·2^20, 4096·2^10 and 1024·2^10 |
| IorModels.SummaryConvMib | pkg/src/iorpyd/__init__.py:271-294 | absent stays absent and present stays present; each of the four bandwidths and the stonewall bandwidth is multiplied by 2^20 exactly when its own alias is in the key set, and is otherwise unchanged |
| IorModels.SummaryConvMibRounded | pkg/src/iorpyd/__init__.py:297-306 | xsize_bytes is multiplied by 2^20 exactly when "xsizeMiB" is in the key set, and is otherwise unchanged |
| IorModels.SummaryReimportUnchanged | pkg/src/iorpyd/__init__.py:241-306 | with keys drawn only from IORSummary's canonical field names, no conversion fires |
| IorModels.SummaryConvertedOnce | pkg/src/iorpyd/__init__.py:277-306 | converting from native keys and then re-validating under canonical keys gives the once-converted value |
| IorModels.ParseTimestamp | pkg/src/iorpyd/__init__.py:53-58 | IOR's native format wins when it parses; otherwise the ISO form; it fails only when both fail |
| IorModels.ParseTime | pkg/src/iorpyd/__init__.py:229-234 | a string succeeds exactly when the timestamp parser accepts it, and becomes that timestamp, or fails with the parser's error; a non-string passes through unchanged; a successful result is never a string |
| IorModels.ParseTimeIdempotent | pkg/src/iorpyd/__init__.py:323-328 | re-validating a parsed `began`/`finished` (or `start_time`) value returns it unchanged; `IOROutput.parse_time` has the same body as `IORTest.parse_time` and is modelled by `ParseTime` |

## Left out

- Pydantic machinery is not modelled: models, `Field(alias=...)`, `validate_by_name`/`validate_by_alias`, type coercion, validation errors and dumping. It is library behaviour. The field declarations at pkg/src/iorpyd/__init__.py:84-321 are used only for the canonical-name sets `ResultFields` and `SummaryFields`.
- What the validation library puts into `info.data` is not modelled. The validators take it as a parameter.
- `pprint_num` is left out. It is floating-point thresholds and formatting only.
- The `:.2f` rendering in `pprint_size` is left out. `PprintSize` returns the exact quotient and the suffix, not the formatted text.
- `PprintSize`: the quotient is exact real division. Python's `size / factor` is a float division that rounds above 2^53. The `:.2f` rendering can round the printed quotient up to "1024.00", for example 1048575 prints "1024.00 KiB". The model's bound below 1024 holds for the exact quotient only.
- `PprintSize`: sizes are integers. A fractional size below 1 also prints "0 bytes" in the source, which the model does not show.
- `ParseSizeStr`: the number token must be a plain ASCII numeral. `float()` also accepts decimals, signs, exponents, `inf`/`nan`, underscores and non-ASCII digits. The model rejects these with `NotANumeral`.
- `ParseSizeStr`: the result is the exact product. Python's `int(float(n) * factor)` loses precision once n passes 2^53, and it overflows for enormous numerals. Neither is modelled.
- `ParseSizeStr`: its three error kinds are all the same `ValueError` in Python.
- `ResultConvKib` and `SummaryConvMibRounded` take integer inputs, where `round(v * 2**k)` is exact. Python's round-half-even on fractional inputs is not modelled.
- `ResultConvMib` and `SummaryConvMib` take numbers. Non-numeric values are not modelled: for a string, `*` repeats it, and `None` raises a `TypeError` in `IORResult.conv_mib`.
- `ParseTimestamp` leaves out the two calendar formats. `datetime.strptime` with `"%a %b %d %H:%M:%S %Y"` and `datetime.fromisoformat` are parameters, and `Timestamp` is a plain record.
- Which keys the conversions actually see is not modelled. Pydantic v2 fills `info.data` with the fields validated so far, keyed by field name, not by alias. Read that way, the alias test at pkg/src/iorpyd/__init__.py:199, :212, :292 and :304 may never hold, so the code as written may never convert. In that case only the canonical-key case of `ResultReimportUnchanged` and `SummaryReimportUnchanged` occurs. This comes from reading the library's documented behaviour. The model cannot decide it.
