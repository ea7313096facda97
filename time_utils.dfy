/**
 * The clock abstraction. A date-time is a wall-clock reading in seconds and,
 * when it is time-zone aware, a fixed UTC offset in seconds. Subtraction
 * follows Python's `datetime` rules: two naive values subtract their wall
 * clocks, two aware values subtract their UTC instants, and a naive value
 * minus an aware one (or the reverse) raises TypeError.
 */
module TimeUtils {
  import opened Wrappers

  datatype DateTime = DateTime(wall: real, zone: Option<real>)

  /** The instant a date-time denotes; for a naive value, its wall clock. */
  function Seconds(d: DateTime): real
  {
    match d.zone
    case None => d.wall
    case Some(offset) => d.wall - offset
  }

  /** `(a - b).total_seconds()`, or None where Python raises TypeError. */
  function Diff(a: DateTime, b: DateTime): (r: Option<real>)
    ensures r.Some? <==> (a.zone.Some? <==> b.zone.Some?)
    ensures a.zone == b.zone ==> r == Some(a.wall - b.wall)
  {
    if a.zone.Some? == b.zone.Some? then Some(Seconds(a) - Seconds(b)) else None
  }

  /** `d.replace(tzinfo=zone)`: the same wall clock in another zone. */
  function WithZone(d: DateTime, zone: Option<real>): (r: DateTime)
    ensures r.wall == d.wall && r.zone == zone
  {
    d.(zone := zone)
  }
}
