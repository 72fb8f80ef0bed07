/** The departures client: unwrapping the `/stops/{id}/departures` envelope and
    turning a departure time into whole minutes for the board. */
module Vbb {

  /** A decoded JSON value. */
  datatype Json =
    | JNull
    | JBool(b: bool)
    | JNum(n: real)
    | JStr(s: string)
    | JArr(items: seq<Json>)
    | JObj(fields: map<string, Json>)

  /** `get_departures` after the request: the `departures` member of an object
      that has one, otherwise the response as it came. */
  function GetDepartures(data: Json): (r: Json)
    ensures r == data || (data.JObj? && "departures" in data.fields && r == data.fields["departures"])
  {
    if data.JObj? && "departures" in data.fields then data.fields["departures"] else data
  }

  /** An object with a `departures` member gives back that member, whatever its
      value and whatever other members the object carries. */
  lemma EnvelopeUnwrapped(fields: map<string, Json>, deps: Json)
    ensures GetDepartures(JObj(fields["departures" := deps])) == deps
  {
  }

  /** Anything else (a bare list, an object without `departures`, a scalar)
      passes through unchanged. */
  lemma OtherResponsesUnchanged(data: Json)
    requires !data.JObj? || "departures" !in data.fields
    ensures GetDepartures(data) == data
  {
  }

  /** The display offset: `minutes_until` subtracts a flat minute so that its count
      agrees with the operator's own app. */
  const OffsetSeconds: int := 60

  /** `minutes_until` over the whole seconds from now until departure: subtract
      the offset, clamp at zero, round up to whole minutes. */
  function MinutesUntil(secondsUntil: int): (m: nat)
    ensures secondsUntil <= OffsetSeconds ==> m == 0
    ensures secondsUntil > OffsetSeconds ==>
      60 * m >= secondsUntil - OffsetSeconds && 60 * (m - 1) < secondsUntil - OffsetSeconds
  {
    var diff := secondsUntil - OffsetSeconds;
    if diff <= 0 then 0
    else (diff + 59) / 60   // ceil(diff / 60); the final max(_, 0) of `minutes_until` never changes it
  }

  /** The result is the smallest whole number of minutes covering the time
      left after the offset. */
  lemma MinutesUntilIsLeast(secondsUntil: int, m: nat)
    requires 60 * m >= secondsUntil - OffsetSeconds
    ensures MinutesUntil(secondsUntil) <= m
  {
  }

  /** A later departure never shows fewer minutes. */
  lemma MinutesUntilMonotone(a: int, b: int)
    requires a <= b
    ensures MinutesUntil(a) <= MinutesUntil(b)
  {
  }

  /** Worked values: up to a minute away (or already gone) shows 0, between one
      and two minutes shows 1, and five minutes shows 4. */
  lemma MinutesUntilExamples(s: int)
    ensures s <= 60 ==> MinutesUntil(s) == 0
    ensures 60 < s <= 120 ==> MinutesUntil(s) == 1
    ensures MinutesUntil(300) == 4
  {
  }
}
