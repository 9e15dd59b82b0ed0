/**
 * The five candle granularities (`TimeInterval` in src/models/time_interval.rs):
 * their wire names, the parser for those names and their durations.
 */
module TimeIntervals {
  import opened Wrappers

  datatype TimeInterval = Second1 | Minute1 | Minute5 | Minute15 | Hour1

  /** Every interval, in declaration order (the order the service iterates them). */
  const AllIntervals: seq<TimeInterval> := [Second1, Minute1, Minute5, Minute15, Hour1]

  /** The `#[serde(rename = ...)]` attribute on each variant. */
  const SerdeRenames: map<TimeInterval, string> :=
    map[Second1 := "1s", Minute1 := "1m", Minute5 := "5m", Minute15 := "15m", Hour1 := "1h"]

  /** `as_str`: the name the wire format uses; it agrees with the serde rename. */
  function AsStr(iv: TimeInterval): (name: string)
    ensures iv in SerdeRenames && name == SerdeRenames[iv]
    ensures |name| >= 2
  {
    match iv
    case Second1 => "1s"
    case Minute1 => "1m"
    case Minute5 => "5m"
    case Minute15 => "15m"
    case Hour1 => "1h"
  }

  /** `from_str`: the inverse of `AsStr` on the five names; anything else is an error. */
  function FromStr(s: string): (r: Result<TimeInterval, string>)
    ensures r.Ok? <==> s in {"1s", "1m", "5m", "15m", "1h"}
    ensures r.Ok? ==> AsStr(r.value) == s
    ensures r.Err? ==> r.error == "Invalid time interval: " + s
  {
    if s == "1s" then Ok(Second1)
    else if s == "1m" then Ok(Minute1)
    else if s == "5m" then Ok(Minute5)
    else if s == "15m" then Ok(Minute15)
    else if s == "1h" then Ok(Hour1)
    else Err("Invalid time interval: " + s)
  }

  /** `duration_seconds`. */
  function DurationSeconds(iv: TimeInterval): (d: nat)
    ensures d > 0 && 3600 % d == 0
  {
    match iv
    case Second1 => 1
    case Minute1 => 60
    case Minute5 => 300
    case Minute15 => 900
    case Hour1 => 3600
  }

  /** Parsing the name of any interval gives that interval back. */
  lemma ParseAsStrRoundTrip(iv: TimeInterval)
    ensures FromStr(AsStr(iv)) == Ok(iv)
  {
  }

  /** Distinct intervals have distinct names. */
  lemma AsStrInjective(a: TimeInterval, b: TimeInterval)
    ensures AsStr(a) == AsStr(b) ==> a == b
  {
  }

  /** Durations strictly increase in declaration order. */
  lemma DurationsIncreasing(i: nat, j: nat)
    requires i < j < |AllIntervals|
    ensures DurationSeconds(AllIntervals[i]) < DurationSeconds(AllIntervals[j])
  {
  }

  /** The enumeration lists every interval exactly once. */
  lemma AllIntervalsComplete(iv: TimeInterval)
    ensures iv in AllIntervals
    ensures forall i, j :: 0 <= i < j < |AllIntervals| ==> AllIntervals[i] != AllIntervals[j]
  {
  }
}
