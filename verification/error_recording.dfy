/** Error recording: when a metric is given an invalid value or label, a counter in the
    `glean.error` category is incremented in every ping the metric is sent in, plus the
    `metrics` ping. Counters are named `<error type>/<metric name>`. */
module ErrorRecording {
  import opened Wrappers
  import opened Metrics

  /** The kinds of recording error. */
  datatype ErrorType =
    | /** A value was rejected by the checks of the metric it was recorded on. */
      InvalidValue
    | /** A labeled metric was given a label it does not accept. */
      InvalidLabel

  /** The category every error counter is filed under. */
  const ErrorCategory: string := "glean.error"

  /** The ping every error is reported in, whatever pings the metric itself is sent in. */
  const MetricsPing: string := "metrics"

  /** The parts of a metric's metadata that error recording reads: its identifier (treated
      as an opaque string) and the pings it is sent in. A labeled metric's identifier has
      the shape `<name>/<label>`. */
  datatype MetricMeta = MetricMeta(identifier: string, sendInPings: seq<string>)

  /** The name under which counters for this kind of error are filed. */
  function ErrorTypeName(e: ErrorType): (s: string)
    ensures |s| > 0 && '/' !in s
  {
    match e
    case InvalidValue => "invalid_value"
    case InvalidLabel => "invalid_label"
  }

  /** Different error types have different metric names. */
  lemma ErrorTypeNameInjective(a: ErrorType, b: ErrorType)
    ensures ErrorTypeName(a) == ErrorTypeName(b) <==> a == b
  {
  }

  /** The identifier with any label split off: the part before the first `/`, or the whole
      identifier when it has none. */
  function BaseName(identifier: string): (name: string)
    ensures name <= identifier
    ensures '/' !in name
    ensures name == identifier || identifier[|name|] == '/'
  {
    if identifier == [] || identifier[0] == '/' then []
    else [identifier[0]] + BaseName(identifier[1..])
  }

  /** An identifier without a label is its own base name. */
  lemma BaseNameWithoutLabel(identifier: string)
    requires '/' !in identifier
    ensures BaseName(identifier) == identifier
  {
  }

  /** Splitting `<name>/<label>` gives back `<name>`, whatever the label `tail` holds (it may
      itself contain `/`). */
  lemma BaseNameOfLabeled(name: string, tail: string)
    requires '/' !in name
    ensures BaseName(name + "/" + tail) == name
  {
    var id := name + "/" + tail;
    var b := BaseName(id);
    assert id[|name|] == '/';
    assert |b| == |name|;
    forall i | 0 <= i < |b|
      ensures b[i] == name[i]
    {
      assert b[i] == id[i];
    }
  }

  /** The pings an error goes into: the metric's own pings with `metrics` appended when it
      is missing. */
  function ErrorPings(pings: seq<string>): (r: seq<string>)
    ensures MetricsPing in r
    ensures pings <= r
    ensures |r| == if MetricsPing in pings then |pings| else |pings| + 1
  {
    if MetricsPing in pings then pings else pings + [MetricsPing]
  }

  /** Each ping appears in the error pings as often as in the metric's own pings, except
      `metrics`, which appears at least once. */
  lemma ErrorPingsOccurrences(pings: seq<string>, p: string)
    ensures Occurrences(ErrorPings(pings), p) ==
              if p == MetricsPing && p !in pings then 1 else Occurrences(pings, p)
  {
    if MetricsPing !in pings {
      assert multiset(pings + [MetricsPing]) == multiset(pings) + multiset{MetricsPing};
    }
  }

  /** Augmenting the ping list a second time changes nothing. */
  lemma ErrorPingsIdempotent(pings: seq<string>)
    ensures ErrorPings(ErrorPings(pings)) == ErrorPings(pings)
  {
  }

  /** No ping is listed twice. */
  predicate NoDuplicates(pings: seq<string>) {
    forall i, j :: 0 <= i < j < |pings| ==> pings[i] != pings[j]
  }

  /** Augmenting a list without duplicates gives a list without duplicates. */
  lemma ErrorPingsNoDuplicates(pings: seq<string>)
    requires NoDuplicates(pings)
    ensures NoDuplicates(ErrorPings(pings))
  {
  }

  /** In a list without duplicates every ping occurs once or not at all. */
  lemma {:induction false} OccurrencesWithoutDuplicates(pings: seq<string>, p: string)
    requires NoDuplicates(pings)
    ensures Occurrences(pings, p) == if p in pings then 1 else 0
    decreases |pings|
  {
    if pings != [] {
      assert pings == [pings[0]] + pings[1..];
      assert multiset(pings) == multiset{pings[0]} + multiset(pings[1..]);
      OccurrencesWithoutDuplicates(pings[1..], p);
      if p == pings[0] {
        assert p !in pings[1..] by {
          forall i | 0 <= i < |pings[1..]| ensures pings[1..][i] != p {
            assert pings[1..][i] == pings[i + 1];
          }
        }
      }
    }
  }

  /** The name of the counter an error of type `e` on metric `meta` is recorded in. */
  function ErrorCounterName(meta: MetricMeta, e: ErrorType): string {
    ErrorTypeName(e) + "/" + BaseName(meta.identifier)
  }

  /** The counter an error is recorded in: named `<error type>/<base name>`, in the
      `glean.error` category, with ping lifetime, sent in the error pings. */
  function ErrorCounter(meta: MetricMeta, e: ErrorType): (c: CounterMeta)
    ensures c.category == ErrorCategory && c.lifetime == Ping
    ensures c.sendInPings == ErrorPings(meta.sendInPings)
  {
    CounterMeta(ErrorCategory, ErrorCounterName(meta, e), Ping, ErrorPings(meta.sendInPings))
  }

  /** The counter name splits at its first `/` into the error type's name and the metric's
      base name. */
  lemma ErrorCounterNameSplits(meta: MetricMeta, e: ErrorType)
    ensures BaseName(ErrorCounterName(meta, e)) == ErrorTypeName(e)
    ensures ErrorTypeName(e) + "/" <= ErrorCounterName(meta, e)
    ensures ErrorCounterName(meta, e)[|ErrorTypeName(e)| + 1..] == BaseName(meta.identifier)
  {
    BaseNameOfLabeled(ErrorTypeName(e), BaseName(meta.identifier));
  }

  /** The counter name determines both the error type and the base name: errors of
      different types, or on metrics with different base names, never share a counter. */
  lemma ErrorCounterInjective(m1: MetricMeta, e1: ErrorType, m2: MetricMeta, e2: ErrorType)
    ensures ErrorCounter(m1, e1).name == ErrorCounter(m2, e2).name <==>
              e1 == e2 && BaseName(m1.identifier) == BaseName(m2.identifier)
  {
    ErrorCounterNameSplits(m1, e1);
    ErrorCounterNameSplits(m2, e2);
    ErrorTypeNameInjective(e1, e2);
  }

  /** Records one error of type `e` on `meta`: the error counter is raised by one for each
      time a ping occurs in the error pings, and no other location changes. */
  function RecordError(store: Store, meta: MetricMeta, e: ErrorType): (r: Store)
    ensures forall k :: k in r <==> k in store || (Owns(ErrorCounter(meta, e), k) && k.ping in ErrorPings(meta.sendInPings))
    ensures forall k :: Count(r, k) == Count(store, k) +
              (if Owns(ErrorCounter(meta, e), k) then Occurrences(ErrorPings(meta.sendInPings), k.ping) else 0)
  {
    Add(store, ErrorCounter(meta, e), 1)
  }

  /** When the metric lists no ping twice, one error raises its counter by exactly one in
      each error ping and leaves every other location `k` unchanged. */
  lemma RecordErrorAddsOne(store: Store, meta: MetricMeta, e: ErrorType, k: Key)
    requires NoDuplicates(meta.sendInPings)
    ensures Count(RecordError(store, meta, e), k) == Count(store, k) +
              (if Owns(ErrorCounter(meta, e), k) && k.ping in ErrorPings(meta.sendInPings) then 1 else 0)
  {
    ErrorPingsNoDuplicates(meta.sendInPings);
    OccurrencesWithoutDuplicates(ErrorPings(meta.sendInPings), k.ping);
  }

  /** Counters of different error types are independent: recording one error type leaves
      every location of the other error type's counter untouched, on any metric. */
  lemma ErrorTypesIndependent(store: Store, meta: MetricMeta, e: ErrorType, other: MetricMeta, e': ErrorType, k: Key)
    requires e != e'
    requires Owns(ErrorCounter(other, e'), k)
    ensures Count(RecordError(store, meta, e), k) == Count(store, k)
    ensures k in RecordError(store, meta, e) <==> k in store
  {
    ErrorCounterInjective(meta, e, other, e');
  }

  /** The ping a test getter reads: the given one, or else the metric's first ping. The
      first ping is looked up before the choice is made, so a metric without pings has no
      answer even when a ping name is given. */
  function DefaultPing(meta: MetricMeta, pingName: Option<string>): string
    requires |meta.sendInPings| > 0
  {
    if pingName.Some? then pingName.value else meta.sendInPings[0]
  }

  /** Why a test getter found no count: the counter and the ping it looked in. */
  datatype NotRecorded = NotRecorded(counter: CounterMeta, ping: string)

  /** The number of errors of type `e` recorded for `meta` in `pingName` (by default the
      metric's first ping), as the code is written: the counter name is built from the
      whole identifier, label included. Fails when nothing was recorded there. The metric
      must be sent in at least one ping, whether or not a ping name is given. */
  function TestGetNumRecordedErrors(store: Store, meta: MetricMeta, e: ErrorType, pingName: Option<string>): (r: Result<nat, NotRecorded>)
    requires |meta.sendInPings| > 0
    ensures var k := Key(DefaultPing(meta, pingName), ErrorCategory, ErrorTypeName(e) + "/" + meta.identifier);
            && (r.Ok? <==> k in store)
            && (r.Ok? ==> r.value == Count(store, k))
  {
    var ping := DefaultPing(meta, pingName);
    var counter := CounterMeta(ErrorCategory, ErrorTypeName(e) + "/" + meta.identifier, Ping, meta.sendInPings);
    match TestGetValue(store, counter, ping)
    case Some(n) => Ok(n)
    case None => Err(NotRecorded(counter, ping))
  }

  /** The number of errors of type `e` recorded for `meta` in `pingName`, reading the
      counter that `RecordError` writes: named after the base name. As in the getter as
      written, the metric must be sent in at least one ping. */
  function NumRecordedErrors(store: Store, meta: MetricMeta, e: ErrorType, pingName: Option<string>): (r: Result<nat, NotRecorded>)
    requires |meta.sendInPings| > 0
    ensures var k := Key(DefaultPing(meta, pingName), ErrorCategory, ErrorCounterName(meta, e));
            && (r.Ok? <==> k in store)
            && (r.Ok? ==> r.value == Count(store, k))
  {
    var ping := DefaultPing(meta, pingName);
    var counter := ErrorCounter(meta, e);
    match TestGetValue(store, counter, ping)
    case Some(n) => Ok(n)
    case None => Err(NotRecorded(counter, ping))
  }

  /** Records `n` errors of type `e` on `meta`, one after another. */
  function RecordErrorTimes(store: Store, meta: MetricMeta, e: ErrorType, n: nat): Store
    decreases n
  {
    if n == 0 then store else RecordError(RecordErrorTimes(store, meta, e, n - 1), meta, e)
  }

  /** After `n` more errors, an error-counter location in one of the error pings holds `n`
      more than before, and it exists once anything was recorded there. */
  lemma {:induction false} RecordErrorTimesAt(store: Store, meta: MetricMeta, e: ErrorType, n: nat, k: Key)
    requires NoDuplicates(meta.sendInPings)
    requires Owns(ErrorCounter(meta, e), k) && k.ping in ErrorPings(meta.sendInPings)
    ensures Count(RecordErrorTimes(store, meta, e, n), k) == Count(store, k) + n
    ensures k in RecordErrorTimes(store, meta, e, n) <==> n > 0 || k in store
    decreases n
  {
    if n > 0 {
      var prev := RecordErrorTimes(store, meta, e, n - 1);
      RecordErrorTimesAt(store, meta, e, n - 1, k);
      RecordErrorAddsOne(prev, meta, e, k);
    }
  }

  /** After `n` errors, reading any error ping gives the earlier count plus `n`; it fails
      only when nothing was recorded there at all. */
  lemma NumRecordedErrorsAfterRecords(store: Store, meta: MetricMeta, e: ErrorType, n: nat, ping: string)
    requires |meta.sendInPings| > 0 && NoDuplicates(meta.sendInPings)
    requires ping in ErrorPings(meta.sendInPings)
    ensures var k := Key(ping, ErrorCategory, ErrorCounterName(meta, e));
            var r := NumRecordedErrors(RecordErrorTimes(store, meta, e, n), meta, e, Some(ping));
            && (r.Err? <==> n == 0 && k !in store)
            && (r.Ok? ==> r.value == Count(store, k) + n)
  {
    var k := Key(ping, ErrorCategory, ErrorCounterName(meta, e));
    RecordErrorTimesAt(store, meta, e, n, k);
    assert DefaultPing(meta, Some(ping)) == ping;
  }

  /** For an identifier without a label the getter as written reads the counter that
      `RecordError` writes, so it agrees with the corrected getter. */
  lemma TestGetNumRecordedErrorsWithoutLabel(store: Store, meta: MetricMeta, e: ErrorType, pingName: Option<string>)
    requires |meta.sendInPings| > 0
    requires '/' !in meta.identifier
    ensures TestGetNumRecordedErrors(store, meta, e, pingName).Ok? <==> NumRecordedErrors(store, meta, e, pingName).Ok?
    ensures TestGetNumRecordedErrors(store, meta, e, pingName).Ok? ==>
              TestGetNumRecordedErrors(store, meta, e, pingName) == NumRecordedErrors(store, meta, e, pingName)
  {
    BaseNameWithoutLabel(meta.identifier);
  }

  /** Without a ping name the getter reads the metric's first ping. */
  lemma DefaultPingIsFirst(store: Store, meta: MetricMeta, e: ErrorType)
    requires |meta.sendInPings| > 0
    ensures TestGetNumRecordedErrors(store, meta, e, None) == TestGetNumRecordedErrors(store, meta, e, Some(meta.sendInPings[0]))
    ensures NumRecordedErrors(store, meta, e, None) == NumRecordedErrors(store, meta, e, Some(meta.sendInPings[0]))
  {
  }

  /** The getter as written loses errors of labeled metrics: an error recorded on
      `<name>/<label>` is filed under `<error type>/<name>`, while the getter looks for
      `<error type>/<name>/<label>` and reports nothing recorded in any ping. The corrected
      getter reads 1 in every error ping. */
  lemma LabeledErrorNotFoundAsWritten(name: string, tail: string, pings: seq<string>, e: ErrorType, ping: string)
    requires '/' !in name && |pings| > 0 && NoDuplicates(pings)
    ensures var meta := MetricMeta(name + "/" + tail, pings);
            var store := RecordError(map[], meta, e);
            && TestGetNumRecordedErrors(store, meta, e, Some(ping)).Err?
            && (ping in ErrorPings(pings) ==> NumRecordedErrors(store, meta, e, Some(ping)) == Ok(1))
  {
    var meta := MetricMeta(name + "/" + tail, pings);
    LabeledErrorMissed(name, tail, pings, e, ping);
    if ping in ErrorPings(pings) {
      assert RecordErrorTimes(map[], meta, e, 0) == map[];
      NumRecordedErrorsAfterRecords(map[], meta, e, 1, ping);
    }
  }

  /** The half of `LabeledErrorNotFoundAsWritten` about the getter as written. */
  lemma LabeledErrorMissed(name: string, tail: string, pings: seq<string>, e: ErrorType, ping: string)
    requires '/' !in name && |pings| > 0
    ensures var meta := MetricMeta(name + "/" + tail, pings);
            TestGetNumRecordedErrors(RecordError(map[], meta, e), meta, e, Some(ping)).Err?
  {
    var meta := MetricMeta(name + "/" + tail, pings);
    BaseNameOfLabeled(name, tail);
    var read := Key(ping, ErrorCategory, ErrorTypeName(e) + "/" + meta.identifier);
    assert |ErrorCounterName(meta, e)| < |read.name|;
    assert !Owns(ErrorCounter(meta, e), read);
    assert DefaultPing(meta, Some(ping)) == ping;
  }

  /** The concrete case: `telemetry.labeled/label` sent in `store1`. */
  lemma LabeledErrorExample()
    ensures var meta := MetricMeta("telemetry.labeled/label", ["store1"]);
            var store := RecordError(map[], meta, InvalidValue);
            && TestGetNumRecordedErrors(store, meta, InvalidValue, None).Err?
            && NumRecordedErrors(store, meta, InvalidValue, None) == Ok(1)
  {
    assert "telemetry.labeled/label" == "telemetry.labeled" + "/" + "label";
    LabeledErrorNotFoundAsWritten("telemetry.labeled", "label", ["store1"], InvalidValue, "store1");
  }

  /** The recording scenario of the module's own test: a string metric sent in `store1` and
      `store2` gets one invalid value and one invalid label; afterwards each error type
      reads 1 in `store1`, `store2` and `metrics`. */
  lemma RecordingOfAllErrorTypes()
    ensures var meta := MetricMeta("telemetry.string_metric", ["store1", "store2"]);
            var store := RecordError(RecordError(map[], meta, InvalidValue), meta, InvalidLabel);
            forall p | p in ["store1", "store2", "metrics"] ::
              && TestGetNumRecordedErrors(store, meta, InvalidValue, Some(p)) == Ok(1)
              && TestGetNumRecordedErrors(store, meta, InvalidLabel, Some(p)) == Ok(1)
  {
    var meta := MetricMeta("telemetry.string_metric", ["store1", "store2"]);
    assert NoDuplicates(meta.sendInPings);
    assert ErrorPings(meta.sendInPings) == ["store1", "store2", "metrics"];
    forall p | p in ["store1", "store2", "metrics"]
      ensures var store := RecordError(RecordError(map[], meta, InvalidValue), meta, InvalidLabel);
              && TestGetNumRecordedErrors(store, meta, InvalidValue, Some(p)) == Ok(1)
              && TestGetNumRecordedErrors(store, meta, InvalidLabel, Some(p)) == Ok(1)
    {
      BothErrorTypesOnce(meta, p);
    }
  }

  /** One error of each type on a metric without a label reads 1 for each type in every
      error ping. */
  lemma BothErrorTypesOnce(meta: MetricMeta, p: string)
    requires '/' !in meta.identifier && |meta.sendInPings| > 0 && NoDuplicates(meta.sendInPings)
    requires p in ErrorPings(meta.sendInPings)
    ensures var store := RecordError(RecordError(map[], meta, InvalidValue), meta, InvalidLabel);
            && TestGetNumRecordedErrors(store, meta, InvalidValue, Some(p)) == Ok(1)
            && TestGetNumRecordedErrors(store, meta, InvalidLabel, Some(p)) == Ok(1)
  {
    var once := RecordError(map[], meta, InvalidValue);
    var store := RecordError(once, meta, InvalidLabel);
    BaseNameWithoutLabel(meta.identifier);
    var kv := Key(p, ErrorCategory, ErrorCounterName(meta, InvalidValue));
    var kl := Key(p, ErrorCategory, ErrorCounterName(meta, InvalidLabel));
    RecordErrorAddsOne(map[], meta, InvalidValue, kv);
    ErrorTypesIndependent(once, meta, InvalidLabel, meta, InvalidValue, kv);
    ErrorTypesIndependent(map[], meta, InvalidValue, meta, InvalidLabel, kl);
    RecordErrorAddsOne(once, meta, InvalidLabel, kl);
    assert kv in store && Count(store, kv) == 1;
    assert kl in store && Count(store, kl) == 1;
    assert DefaultPing(meta, Some(p)) == p;
    assert kv.name == ErrorTypeName(InvalidValue) + "/" + meta.identifier;
    assert kl.name == ErrorTypeName(InvalidLabel) + "/" + meta.identifier;
  }
}
