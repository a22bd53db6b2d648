/** End: the activity that closes a route, carrying the times the route
    computes for it, and the process-wide count of ends created through
    newInstance. */
module Route {
  import opened Problem

  /** Java's 32-bit `int`. */
  newtype Int32 = x: int | -0x8000_0000 <= x < 0x8000_0000

  const MaxInt32: Int32 := 0x7FFF_FFFF
  const MinInt32: Int32 := -0x8000_0000

  /** `x++` on a Java int: two's-complement wrap-around modulo 2^32. */
  function Increment(x: Int32): (r: Int32)
    ensures x < MaxInt32 ==> r as int == x as int + 1
    ensures x == MaxInt32 ==> r == MinInt32
  {
    ((x as int + 1 + 0x8000_0000) % 0x1_0000_0000 - 0x8000_0000) as Int32
  }

  /** The static field End.creation, made an object that newInstance
      is given. */
  class CreationCounter {
    var creation: Int32

    constructor ()
      ensures creation == 0
    {
      creation := 0;
    }
  }

  /** The fields of an End, as a value. `coordinate` is None while unset
      (the source's null). */
  datatype EndState = EndState(
    locationId: string,
    coordinate: Option<Coordinate>,
    endTime: real,
    arrTime: real,
    theoreticalEarliestOperationStartTime: real,
    theoreticalLatestOperationStartTime: real)

  /** The state of a copy made by the copy constructor: every field of
      `s` except the coordinate, which stays unset. */
  function CopiedState(s: EndState): (c: EndState)
    ensures c.coordinate == None
    ensures c.(coordinate := s.coordinate) == s
  {
    s.(coordinate := None)
  }

  class End {
    var locationId: string
    var coordinate: Option<Coordinate>
    var endTime: real
    var theoreticalEarliestOperationStartTime: real
    var theoreticalLatestOperationStartTime: real
    var arrTime: real

    /** All fields of this end. */
    function State(): EndState
      reads this
    {
      EndState(locationId, coordinate, endTime, arrTime,
               theoreticalEarliestOperationStartTime, theoreticalLatestOperationStartTime)
    }

    /** Counts one more creation and builds an end with the given bounds. */
    static method NewInstance(counter: CreationCounter, locationId: string, earliestArrival: real, latestArrival: real)
      returns (e: End)
      modifies counter
      ensures counter.creation == Increment(old(counter.creation))
      ensures fresh(e)
      ensures e.State() == EndState(locationId, None, latestArrival, 0.0, earliestArrival, latestArrival)
    {
      counter.creation := Increment(counter.creation);
      e := new End(locationId, earliestArrival, latestArrival);
    }

    /** A field copy of `end`, without counting it as a creation. */
    static method CopyOf(end: End) returns (e: End)
      ensures fresh(e)
      ensures e.State() == CopiedState(end.State())
    {
      e := new End.Copy(end);
    }

    /** An end at `locationId` whose theoretical start window is
        [theoreticalStart, theoreticalEnd]; its end time, initially -1,
        is set to theoreticalEnd. */
    constructor (locationId: string, theoreticalStart: real, theoreticalEnd: real)
      ensures State() == EndState(locationId, None, theoreticalEnd, 0.0, theoreticalStart, theoreticalEnd)
    {
      this.locationId := locationId;
      coordinate := None;
      endTime := -1.0;
      arrTime := 0.0;
      theoreticalEarliestOperationStartTime := theoreticalStart;
      theoreticalLatestOperationStartTime := theoreticalEnd;
      new;
      endTime := theoreticalEnd;
    }

    /** The copy constructor: location id, both theoretical bounds,
        arrival and end time are copied; the coordinate is not. */
    constructor Copy(end: End)
      ensures State() == CopiedState(end.State())
    {
      locationId := end.GetLocationId();
      coordinate := None;
      theoreticalEarliestOperationStartTime := end.GetTheoreticalEarliestOperationStartTime();
      theoreticalLatestOperationStartTime := end.GetTheoreticalLatestOperationStartTime();
      arrTime := end.GetArrTime();
      endTime := end.GetEndTime();
    }

    method Duplicate() returns (d: End)
      ensures fresh(d)
      ensures d.State() == CopiedState(State())
    {
      d := new End.Copy(this);
    }

    function GetCoordinate(): (c: Option<Coordinate>)
      reads this
      ensures c == State().coordinate
    {
      coordinate
    }

    method SetCoordinate(coordinate: Option<Coordinate>)
      modifies this
      ensures State() == old(State()).(coordinate := coordinate)
    {
      this.coordinate := coordinate;
    }

    method SetTheoreticalEarliestOperationStartTime(t: real)
      modifies this
      ensures State() == old(State()).(theoreticalEarliestOperationStartTime := t)
    {
      theoreticalEarliestOperationStartTime := t;
    }

    method SetTheoreticalLatestOperationStartTime(t: real)
      modifies this
      ensures State() == old(State()).(theoreticalLatestOperationStartTime := t)
    {
      theoreticalLatestOperationStartTime := t;
    }

    function GetTheoreticalEarliestOperationStartTime(): (t: real)
      reads this
      ensures t == State().theoreticalEarliestOperationStartTime
    {
      theoreticalEarliestOperationStartTime
    }

    function GetTheoreticalLatestOperationStartTime(): (t: real)
      reads this
      ensures t == State().theoreticalLatestOperationStartTime
    {
      theoreticalLatestOperationStartTime
    }

    function GetEndTime(): (t: real)
      reads this
      ensures t == State().endTime
    {
      endTime
    }

    method SetEndTime(endTime: real)
      modifies this
      ensures State() == old(State()).(endTime := endTime)
    {
      this.endTime := endTime;
    }

    method SetLocationId(locationId: string)
      modifies this
      ensures State() == old(State()).(locationId := locationId)
    {
      this.locationId := locationId;
    }

    function GetLocationId(): (id: string)
      reads this
      ensures id == State().locationId
    {
      locationId
    }

    /** Always 0: the function reads no state. */
    function GetOperationTime(): (t: real)
      ensures t == 0.0
    {
      0.0
    }

    /** Always "end": the function reads no state. */
    function GetName(): (n: string)
      ensures n == "end"
    {
      "end"
    }

    function GetArrTime(): (t: real)
      reads this
      ensures t == State().arrTime
    {
      arrTime
    }

    method SetArrTime(arrTime: real)
      modifies this
      ensures State() == old(State()).(arrTime := arrTime)
    {
      this.arrTime := arrTime;
    }

    /** Always 0: the function reads no state. */
    function GetCapacityDemand(): (d: Int32)
      ensures d == 0
    {
      0
    }
  }

  /** The creation count steps by one, modulo 2^32, in Java's int range. */
  lemma IncrementWraps(x: Int32)
    ensures (Increment(x) as int - x as int - 1) % 0x1_0000_0000 == 0
    ensures Increment(x) != x
  {
  }

  /** Copying a copy changes nothing: the state of duplicate() of a
      duplicate equals that of the first duplicate. */
  lemma CopyOfCopy(s: EndState)
    ensures CopiedState(CopiedState(s)) == CopiedState(s)
  {
  }
}
