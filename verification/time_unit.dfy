/** The resolutions supported by time-related metrics, their date-format patterns and their
    decoding from the integer code the FFI layer passes in. */
module TimeUnits {
  import opened Wrappers
  import Errors

  type i32 = Errors.i32

  /** A resolution; each unit truncates a time to its own precision. */
  datatype TimeUnit = Nanosecond | Microsecond | Millisecond | Second | Minute | Hour | Day

  /** All units in declaration order, finest first. The FFI code of a unit is its index
      here, and the platform-specific bindings must use the same order. */
  const Units: seq<TimeUnit> := [Nanosecond, Microsecond, Millisecond, Second, Minute, Hour, Day]

  /** The declaration index of a unit. */
  function Ordinal(u: TimeUnit): (n: i32)
    ensures 0 <= n as int < |Units|
    ensures Units[n] == u
  {
    match u
    case Nanosecond => 0
    case Microsecond => 1
    case Millisecond => 2
    case Second => 3
    case Minute => 4
    case Hour => 5
    case Day => 6
  }

  /** Decodes an FFI integer into a unit; any value outside 0..6 is rejected with an
      error that carries the value. */
  function TryFrom(value: i32): (r: Result<TimeUnit, Errors.Error>)
    ensures r.Ok? <==> 0 <= value as int < |Units|
    ensures r.Ok? ==> r.value == Units[value]
    ensures r.Err? ==> r.error.kind == Errors.ErrorKind.TimeUnit(value)
  {
    if value == 0 then Ok(Nanosecond)
    else if value == 1 then Ok(Microsecond)
    else if value == 2 then Ok(Millisecond)
    else if value == 3 then Ok(Second)
    else if value == 4 then Ok(Minute)
    else if value == 5 then Ok(Hour)
    else if value == 6 then Ok(Day)
    else Err(Errors.Error(Errors.ErrorKind.TimeUnit(value)))
  }

  /** Decoding the declaration index of a unit gives the unit back. */
  lemma TryFromOrdinal(u: TimeUnit)
    ensures TryFrom(Ordinal(u)) == Ok(u)
  {
  }

  /** Decoding succeeds with `u` exactly on the declaration index of `u`. */
  lemma TryFromIsOrdinalInverse(value: i32, u: TimeUnit)
    ensures TryFrom(value) == Ok(u) <==> Ordinal(u) == value
  {
    if TryFrom(value) == Ok(u) {
      assert Units[value] == u == Units[Ordinal(u)];
      OrdinalInjective(Units[value], u);
    }
  }

  /** Distinct units have distinct codes. */
  lemma OrdinalInjective(a: TimeUnit, b: TimeUnit)
    ensures Ordinal(a) == Ordinal(b) <==> a == b
  {
  }

  /** The date-format pattern that prints a time truncated to the unit's precision. The
      pattern is an opaque string here; its interpretation by the date library is not
      modelled. */
  function FormatPattern(u: TimeUnit): (p: string)
    ensures DatePrefix <= p
    ensures |p| >= |OffsetSuffix| && p[|p| - |OffsetSuffix|..] == OffsetSuffix
  {
    match u
    case Nanosecond => "%Y-%m-%dT%H:%M:%S%.f%:z"
    case Microsecond => "%Y-%m-%dT%H:%M:%S%.6f%:z"
    case Millisecond => "%Y-%m-%dT%H:%M:%S%.3f%:z"
    case Second => "%Y-%m-%dT%H:%M:%S%:z"
    case Minute => "%Y-%m-%dT%H:%M%:z"
    case Hour => "%Y-%m-%dT%H%:z"
    case Day => "%Y-%m-%d%:z"
  }

  /** Every pattern starts with the calendar date ... */
  const DatePrefix: string := "%Y-%m-%d"

  /** ... and ends with the UTC offset. */
  const OffsetSuffix: string := "%:z"

  /** A pattern without its trailing UTC offset: the part that encodes the precision. */
  function Stem(u: TimeUnit): (s: string)
    ensures s + OffsetSuffix == FormatPattern(u)
  {
    match u
    case Nanosecond => "%Y-%m-%dT%H:%M:%S%.f"
    case Microsecond => "%Y-%m-%dT%H:%M:%S%.6f"
    case Millisecond => "%Y-%m-%dT%H:%M:%S%.3f"
    case Second => "%Y-%m-%dT%H:%M:%S"
    case Minute => "%Y-%m-%dT%H:%M"
    case Hour => "%Y-%m-%dT%H"
    case Day => "%Y-%m-%d"
  }

  /** Distinct units have distinct patterns. */
  lemma FormatPatternInjective(a: TimeUnit, b: TimeUnit)
    ensures FormatPattern(a) == FormatPattern(b) <==> a == b
  {
  }

  /** `coarse` truncates to a precision that `fine` refines by appending further fields:
      the unit itself, or a unit of at least a second that is coarser. */
  predicate Refines(coarse: TimeUnit, fine: TimeUnit) {
    coarse == fine || (Ordinal(coarse) >= Ordinal(Second) && Ordinal(coarse) > Ordinal(fine))
  }

  /** The truncation chain: Day's stem is a prefix of Hour's, Hour's of Minute's, Minute's
      of Second's, and Second's of each sub-second stem; the three sub-second stems are not
      prefixes of one another. */
  lemma TruncationChain(coarse: TimeUnit, fine: TimeUnit)
    ensures Stem(coarse) <= Stem(fine) <==> Refines(coarse, fine)
  {
    if Refines(coarse, fine) {
      RefinedStemIsPrefix(coarse, fine);
    } else {
      UnrefinedStemIsNotPrefix(coarse, fine);
    }
  }

  /** The prefix half of `TruncationChain`. */
  lemma RefinedStemIsPrefix(coarse: TimeUnit, fine: TimeUnit)
    requires Refines(coarse, fine)
    ensures Stem(coarse) <= Stem(fine)
  {
  }

  /** The non-prefix half of `TruncationChain`. */
  lemma UnrefinedStemIsNotPrefix(coarse: TimeUnit, fine: TimeUnit)
    requires !Refines(coarse, fine)
    ensures !(Stem(coarse) <= Stem(fine))
  {
    if Ordinal(coarse) < Ordinal(Second) && Ordinal(fine) < Ordinal(Second) {
      // The sub-second stems share their first 19 characters and differ at the 20th.
      assert Stem(coarse)[19] != Stem(fine)[19];
    } else {
      assert |Stem(coarse)| > |Stem(fine)|;
    }
  }
}
