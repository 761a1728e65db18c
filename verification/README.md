# Glean error recording and time units, in Dafny

This project models two small pure parts of the Glean telemetry core.

- **Error recording.** When a metric is given an invalid value or an invalid label, Glean
  does not fail the caller. It counts the error instead. The counter is named
  `<error type>/<metric name>`, with any `/<label>` suffix of the identifier split off. It is
  filed in category `glean.error` with `Ping` lifetime. It is incremented once in every ping
  the metric is sent in, plus the `metrics` ping. A test-only getter reads the count back for
  one ping. By default that is the metric's first ping, and the getter fails if nothing was
  recorded there. The first ping is read even when a ping name is given, so a metric with no
  pings makes the getter panic. The model states this as a precondition of both getters.
- **Time units.** Seven resolutions, from `Nanosecond` to `Day`. An integer arriving over the
  FFI is decoded into a unit, and any value outside 0..6 gives an error that carries the
  value. Each unit has a date-format pattern that truncates to its precision.

Modules:

- `Wrappers` (wrappers.dfy): the `Option` and `Result` shapes.
- `Errors` (errors.dfy): the crate's `Error` and `ErrorKind`. Only the `TimeUnit(i32)` kind is
  kept, together with a 32-bit integer type.
- `TimeUnits` (time_unit.dfy): `TimeUnit`, its declaration order, `TryFrom`, `FormatPattern`.
- `Metrics` (metrics.dfy): lifetimes, counter metadata and the counter store. The store is a
  pure map from (ping, category, name) to a count. It replaces the database behind
  `CounterMetric::add` and `CounterMetric::test_get_value`.
- `ErrorRecording` (error_recording.dfy): error types, name derivation, ping-list
  augmentation, `RecordError` and the test getter.

The metric identifier is an opaque string. `CommonMetricData::identifier()` is not part of
this model. `MetricMeta` keeps only the two things error recording reads: the identifier and
`send_in_pings`. A counter's storage location is keyed by its category and name rather than
by its combined identifier.

A counter is incremented once for each time a ping appears in its list. So the general
contract of `RecordError` counts occurrences. The "exactly one per ping" statement holds for
metrics whose ping list has no duplicates.

## Model

| member | source | states |
|---|---|---|
| `TimeUnits.Ordinal` | glean-core/src/metrics/time_unit.rs:13-28 | the code of a unit is its index in the declaration order Nanosecond..Day, always in 0..6 |
| `TimeUnits.OrdinalInjective` | glean-core/src/metrics/time_unit.rs:13-28 | distinct units have distinct codes, in both directions |
| `TimeUnits.TryFrom` | glean-core/src/metrics/time_unit.rs:54-64 | decoding succeeds exactly on 0..6, gives the unit declared at that position, and otherwise fails with kind `TimeUnit(v)` for the same `v` |
| `TimeUnits.TryFromOrdinal` | glean-core/src/metrics/time_unit.rs:47-65 | round trip: decoding a unit's code gives the unit back |
| `TimeUnits.TryFromIsOrdinalInverse` | glean-core/src/metrics/time_unit.rs:47-65 | decoding `v` gives `u` if and only if `v` is the code of `u` |
| `TimeUnits.FormatPattern` | glean-core/src/metrics/time_unit.rs:33-44 | every pattern starts with the calendar date `%Y-%m-%d` and ends with the UTC offset `%:z` |
| `TimeUnits.Stem` | glean-core/src/metrics/time_unit.rs:36-42 | each precision stem, followed by the offset, is exactly the unit's pattern |
| `TimeUnits.FormatPatternInjective` | glean-core/src/metrics/time_unit.rs:33-44 | distinct units have distinct patterns, in both directions |
| `TimeUnits.TruncationChain` | glean-core/src/metrics/time_unit.rs:14-42 | one stem is a prefix of another exactly when its unit is the same or is a coarser unit of at least a second (Day ⊑ Hour ⊑ Minute ⊑ Second ⊑ each sub-second unit); the sub-second stems are not prefixes of one another |
| `Metrics.AddInPings` | glean-core/src/error_recording.rs:82 | adding to a counter in a list of pings raises each of its locations by the amount times the ping's occurrences, creates exactly the locations of listed pings, and leaves every other location unchanged |
| `Metrics.Add` | glean-core/src/error_recording.rs:82 | the same, for the counter's own `send_in_pings` |
| `Metrics.TestGetValue` | glean-core/src/error_recording.rs:112 | the read gives a value exactly when that ping holds the counter, and the value is the stored count |
| `ErrorRecording.ErrorTypeName` | glean-core/src/error_recording.rs:34-39 | an error type's name is non-empty and contains no `/` |
| `ErrorRecording.ErrorTypeNameInjective` | glean-core/src/error_recording.rs:34-39 | `invalid_value` and `invalid_label` differ: names are equal exactly when the error types are |
| `ErrorRecording.BaseName` | glean-core/src/error_recording.rs:64-65 | the base name is a prefix of the identifier, contains no `/`, and is either the whole identifier or followed by a `/` |
| `ErrorRecording.BaseNameWithoutLabel` | glean-core/src/error_recording.rs:64-65 | an identifier without `/` is its own base name |
| `ErrorRecording.BaseNameOfLabeled` | glean-core/src/error_recording.rs:46-47 | splitting `<name>/<label>` gives back `<name>`, whatever the label contains |
| `ErrorRecording.ErrorPings` | glean-core/src/error_recording.rs:67-71 | the error pings contain `metrics`, start with the metric's own pings in order, and are one longer exactly when `metrics` was missing |
| `ErrorRecording.ErrorPingsOccurrences` | glean-core/src/error_recording.rs:68-71 | each ping occurs in the error pings as often as in the metric's list, except that a missing `metrics` occurs once |
| `ErrorRecording.ErrorPingsIdempotent` | glean-core/src/error_recording.rs:68-71 | augmenting the ping list twice is the same as once |
| `ErrorRecording.ErrorPingsNoDuplicates` | glean-core/src/error_recording.rs:68-71 | augmenting keeps a list free of duplicates |
| `ErrorRecording.ErrorCounter` | glean-core/src/error_recording.rs:73-79 | the error counter is in `glean.error` with `Ping` lifetime and is sent in the error pings |
| `ErrorRecording.ErrorCounterNameSplits` | glean-core/src/error_recording.rs:74 | the counter name splits at its first `/` into the error type's name and the metric's base name |
| `ErrorRecording.ErrorCounterInjective` | glean-core/src/error_recording.rs:73-79 | two error counters share a name exactly when the error types and the base names are equal |
| `ErrorRecording.RecordError` | glean-core/src/error_recording.rs:57-83 | recording raises the error counter in each error ping by the ping's occurrences there, creates exactly those locations, and changes nothing else |
| `ErrorRecording.RecordErrorAddsOne` | glean-core/src/error_recording.rs:68-82 | for a metric listing no ping twice, recording raises the counter by exactly 1 in every error ping and leaves every other location unchanged |
| `ErrorRecording.ErrorTypesIndependent` | glean-core/src/error_recording.rs:148-181 | recording one error type never touches a location of another error type's counter, on any metric |
| `ErrorRecording.TestGetNumRecordedErrors` | glean-core/src/error_recording.rs:98-119 | as written: for a metric with at least one ping, reads `<error type>/<full identifier>` in the given ping or the first ping, and fails exactly when nothing is stored there |
| `ErrorRecording.NumRecordedErrors` | glean-core/src/error_recording.rs:98-119 | corrected: for a metric with at least one ping, reads the counter `RecordError` writes (`<error type>/<base name>`), and fails exactly when nothing is stored there |
| `ErrorRecording.DefaultPingIsFirst` | glean-core/src/error_recording.rs:104 | without a ping name both getters read `send_in_pings[0]`; the list must be non-empty in every call, because the default is read before the ping name is consulted |
| `ErrorRecording.RecordErrorTimesAt` | glean-core/src/error_recording.rs:57-83 | for a metric listing no ping twice, after `n` more records a counter location in an error ping holds `n` more, and it exists once anything was recorded |
| `ErrorRecording.NumRecordedErrorsAfterRecords` | glean-core/src/error_recording.rs:105-118 | for a metric with at least one ping and no duplicates, after `n` records the getter fails only if `n` is 0 and nothing was there before, and otherwise reads the earlier count plus `n` |
| `ErrorRecording.TestGetNumRecordedErrorsWithoutLabel` | glean-core/src/error_recording.rs:104-110 | for an identifier without `/` the getter as written agrees with the corrected one |
| `ErrorRecording.LabeledErrorNotFoundAsWritten` | glean-core/src/error_recording.rs:106 | for an identifier `<name>/<label>` and a non-empty ping list, the getter as written fails in every ping after an error was recorded; when the list has no ping twice, the corrected getter reads 1 in every error ping |
| `ErrorRecording.LabeledErrorMissed` | glean-core/src/error_recording.rs:104-112 | for an identifier `<name>/<label>` and a non-empty ping list, the getter as written finds nothing in any ping after one error was recorded on an empty store |
| `ErrorRecording.LabeledErrorExample` | glean-core/src/error_recording.rs:106 | the concrete case `telemetry.labeled/label` sent in `store1` |
| `ErrorRecording.BothErrorTypesOnce` | glean-core/src/error_recording.rs:148-181 | one error of each type on a metric without a label, sent in at least one ping and listing no ping twice, reads 1 for each type in every error ping |
| `ErrorRecording.RecordingOfAllErrorTypes` | glean-core/src/error_recording.rs:136-182 | the module's own test: after one invalid value and one invalid label, both read 1 in `store1`, `store2` and `metrics` |

## Left out

- The warning logged by `record_error` (glean-core/src/error_recording.rs:81) is a logging side effect, and nothing from it is sent.
- The source of `CounterMetric::add` and `CounterMetric::test_get_value` is not part of this model. `Metrics.Add` and `Metrics.TestGetValue` give them a pure-map semantics. The increment is unconditional: the upload-enabled check, the rejection of non-positive amounts and the `disabled` flag are left out.
- The lifetime is not part of a counter's storage key, while the real storage is kept separately per lifetime. `CounterMeta` carries the lifetime, but `Metrics.Add` does not read it. Every error counter and both getters use `Ping`, so they all address the same part of the storage.
- `CommonMetricData::identifier()` is not part of this model. The identifier is an opaque string.
- TestGetNumRecordedErrors: counts are unbounded `nat`s rather than `i32`, so wrap-around after 2^31 errors is not modelled.
- TestGetNumRecordedErrors: the formatted "No error recorded for … in '…' store" message is represented by its parts, the counter and the ping.
- NumRecordedErrorsAfterRecords: in the failing case it states only that the getter fails, not which error value it returns.
- The error kinds that wrap foreign library errors (I/O, storage, JSON, FFI handles), the `Lifetime(i32)` kind and the conversion to `ExternError` with code 42 in glean-core/src/error.rs are left out. They are plumbing over libraries outside this model.
- glean-core/ffi/src/ping_type.rs is left out. It is C ABI glue over a global handle map, and it delegates to ping registration, which is not part of this model.
- What the date-format patterns mean to the date library is left out. They are literal strings here.
- The serialization derives on `TimeUnit` are left out.

## Findings

| source | as written | input that shows it | evidently intended | confidence | as-written member | corrected member |
|---|---|---|---|---|---|---|
| glean-core/src/error_recording.rs:106 | the test getter names the counter `<error type>/<full identifier>`, but `record_error` writes `<error type>/<part before the first />` (line 74) | identifier `telemetry.labeled/label`, `send_in_pings` `["store1"]`, one `InvalidValue` recorded, then the getter with no ping name: it reports nothing recorded | look up the counter under the base name, as `record_error` does | medium, not executed | `ErrorRecording.LabeledErrorNotFoundAsWritten` | `ErrorRecording.NumRecordedErrors` |
