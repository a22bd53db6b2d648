/** Value types the job and route classes consume but do not define.
    Their own classes (Location, SizeDimension, TimeWindow, TimeWindows,
    Coordinate) are opaque here: only equality and the constants below matter. */
module Problem {

  /** Stands for a Java reference that may be null. */
  datatype Option<+T> = None | Some(value: T)

  /** The outcome of a check that returns nothing: Pass, or Fail with the
      message of the exception the source throws. */
  datatype Outcome = Pass | Fail(message: string)

  /** A place, identified by its id. */
  datatype Location = Location(id: string)

  /** A planar coordinate attached to a location. */
  datatype Coordinate = Coordinate(x: real, y: real)

  /** A multi-dimensional capacity amount. */
  datatype SizeDimension = SizeDimension(dimensions: seq<int>)

  /** SizeDimension.EMPTY: the amount with no dimension at all. */
  const EmptySize: SizeDimension := SizeDimension([])

  /** Java's Double.MAX_VALUE, used as the "no upper bound" sentinel. */
  const MaxTime: real := 1.7976931348623157e308

  /** A closed interval [start, end] on the time axis. */
  datatype TimeWindow = TimeWindow(start: real, end: real)

  /** TimeWindows.ANY_TIME: the single universal window [0, Double.MAX_VALUE]. */
  const AnyTime: seq<TimeWindow> := [TimeWindow(0.0, MaxTime)]

  /** True when some window of `tws` contains time `t`. */
  predicate Admits(tws: seq<TimeWindow>, t: real)
  {
    exists i :: 0 <= i < |tws| && tws[i].start <= t <= tws[i].end
  }
}
