/** GenericCustomJob: a job whose activities are declared one by one on a
    builder, each as a specification (type, location, size, name, operation
    time, time windows), and turned into activities when the job is created. */
module Job {
  import opened Problem

  /** The closed set of activity types a specification can carry. */
  datatype ActivityType = Service | Pickup | Delivery | Exchange {

    /** Enum.name(): the constant's identifier as declared. */
    function Name(): string
    {
      match this
      case Service => "SERVICE"
      case Pickup => "PICKUP"
      case Delivery => "DELIVERY"
      case Exchange => "EXCHANGE"
    }

    /** The name an activity gets when its specification names none:
        name().toLowerCase(). */
    function DefaultName(): string
    {
      ToLower(Name())
    }

    /** ActivityType.create: the activity of this type built from `info`,
        owned by `job`. */
    function Create(job: GenericCustomJob, info: ActivitySpec): (a: JobActivity)
      ensures a.Type() == this && a.job == job
      ensures a.location == info.location && a.operationTime == info.operationTime && a.size == info.size
      ensures a.name == (if info.name.Some? then info.name.value else DefaultName())
      ensures a.timeWindows == PrepareTimeWindows(info)
    {
      var name := if info.name == None then DefaultName() else info.name.value;
      var tws := PrepareTimeWindows(info);
      match this
      case Service => ServiceActivity(job, name, info.location, info.operationTime, info.size, tws)
      case Pickup => PickupActivity(job, name, info.location, info.operationTime, info.size, tws)
      case Delivery => DeliveryActivity(job, name, info.location, info.operationTime, info.size, tws)
      case Exchange => ExchangeActivity(job, name, info.location, info.operationTime, info.size, tws)
    }

    /** The windows an activity gets: the specification's own, or ANY_TIME
        when it declares none. */
    static function PrepareTimeWindows(info: ActivitySpec): (tws: seq<TimeWindow>)
      ensures tws != []
      ensures info.timeWindows != [] ==> tws == info.timeWindows
      ensures info.timeWindows == [] ==> tws == AnyTime
    {
      if |info.timeWindows| == 0 then AnyTime else info.timeWindows
    }
  }

  /** Upper case ASCII letters to lower case; every other character as is. */
  function LowerChar(c: char): char
  {
    if 'A' <= c <= 'Z' then (c as int - 'A' as int + 'a' as int) as char else c
  }

  /** String.toLowerCase, restricted to ASCII letters and to a locale that
      lowers 'I' to 'i'. */
  function ToLower(s: string): (r: string)
    ensures |r| == |s|
    ensures forall i :: 0 <= i < |r| ==> !('A' <= r[i] <= 'Z')
    ensures forall i :: 0 <= i < |s| && 'A' <= s[i] <= 'Z' ==> r[i] as int == s[i] as int + 32
    ensures forall i :: 0 <= i < |s| && !('A' <= s[i] <= 'Z') ==> r[i] == s[i]
  {
    seq(|s|, i requires 0 <= i < |s| => LowerChar(s[i]))
  }

  /** The state of one BuilderActivityInfo, as a value. `name` is None
      while no name was given (the source's null). */
  datatype ActivitySpec = ActivitySpec(
    kind: ActivityType,
    location: Location,
    size: SizeDimension,
    name: Option<string>,
    operationTime: real,
    timeWindows: seq<TimeWindow>)

  /** The state of a specification just added to a builder. */
  function FreshSpec(kind: ActivityType, location: Location): ActivitySpec
  {
    ActivitySpec(kind, location, EmptySize, None, 0.0, [])
  }

  /** The four activity classes a specification can turn into. */
  datatype JobActivity =
    | ServiceActivity(job: GenericCustomJob, name: string, location: Location, operationTime: real,
                      size: SizeDimension, timeWindows: seq<TimeWindow>)
    | PickupActivity(job: GenericCustomJob, name: string, location: Location, operationTime: real,
                     size: SizeDimension, timeWindows: seq<TimeWindow>)
    | DeliveryActivity(job: GenericCustomJob, name: string, location: Location, operationTime: real,
                       size: SizeDimension, timeWindows: seq<TimeWindow>)
    | ExchangeActivity(job: GenericCustomJob, name: string, location: Location, operationTime: real,
                       size: SizeDimension, timeWindows: seq<TimeWindow>)
  {
    /** The activity type whose create builds this variant. */
    function Type(): ActivityType
    {
      match this
      case ServiceActivity(_, _, _, _, _, _) => Service
      case PickupActivity(_, _, _, _, _, _) => Pickup
      case DeliveryActivity(_, _, _, _, _, _) => Delivery
      case ExchangeActivity(_, _, _, _, _, _) => Exchange
    }
  }

  /** One activity specification, refined in place by the with* setters. */
  class BuilderActivityInfo {
    const kind: ActivityType
    const location: Location
    var size: SizeDimension
    var name: Option<string>
    var operationTime: real
    var timeWindows: seq<TimeWindow>
    /** The builder this specification was added to (the enclosing instance). */
    const owner: Builder

    /** The current state of this specification. */
    function Spec(): ActivitySpec
      reads this
    {
      ActivitySpec(kind, location, size, name, operationTime, timeWindows)
    }

    constructor (kind: ActivityType, location: Location, owner: Builder)
      ensures Spec() == FreshSpec(kind, location)
      ensures this.owner == owner
    {
      this.kind := kind;
      this.location := location;
      this.owner := owner;
      size := EmptySize;
      name := None;
      operationTime := 0.0;
      timeWindows := [];
    }

    method WithSize(size: SizeDimension) returns (r: BuilderActivityInfo)
      modifies this
      ensures r == this
      ensures Spec() == old(Spec()).(size := size)
    {
      this.size := size;
      r := this;
    }

    method WithName(name: Option<string>) returns (r: BuilderActivityInfo)
      modifies this
      ensures r == this
      ensures Spec() == old(Spec()).(name := name)
    {
      this.name := name;
      r := this;
    }

    method WithTimeWindow(timeWindow: TimeWindow) returns (r: BuilderActivityInfo)
      modifies this
      ensures r == this
      ensures Spec() == old(Spec()).(timeWindows := old(timeWindows) + [timeWindow])
    {
      timeWindows := timeWindows + [timeWindow];
      r := this;
    }

    method WithTimeWindows(tws: seq<TimeWindow>) returns (r: BuilderActivityInfo)
      modifies this
      ensures r == this
      ensures Spec() == old(Spec()).(timeWindows := old(timeWindows) + tws)
    {
      timeWindows := timeWindows + tws;
      r := this;
    }

    method WithOperationTime(operationTime: real) returns (r: BuilderActivityInfo)
      modifies this
      ensures r == this
      ensures Spec() == old(Spec()).(operationTime := operationTime)
    {
      this.operationTime := operationTime;
      r := this;
    }

    /** Back to the builder, to declare the next activity. */
    method Finish() returns (b: Builder)
      ensures b == owner
    {
      b := owner;
    }
  }

  /** The states of the specifications `infos`, in order. */
  function SpecsOf(infos: seq<BuilderActivityInfo>): (specs: seq<ActivitySpec>)
    reads infos
    ensures |specs| == |infos|
    ensures forall i :: 0 <= i < |infos| ==> specs[i] == infos[i].Spec()
  {
    seq(|infos|, i reads infos requires 0 <= i < |infos| => infos[i].Spec())
  }

  /** GenericCustomJob.Builder: collects activity specifications in order. */
  class Builder {
    /** The job id handed to JobBuilder. */
    const id: string
    var acts: seq<BuilderActivityInfo>

    /** The states of the specifications added so far, in order. */
    ghost function Specs(): seq<ActivitySpec>
      reads this, acts
    {
      SpecsOf(acts)
    }

    constructor (id: string)
      ensures this.id == id && acts == []
    {
      this.id := id;
      acts := [];
    }

    method AddService(location: Location) returns (act: BuilderActivityInfo)
      modifies this
      ensures fresh(act) && act.owner == this
      ensures acts == old(acts) + [act]
      ensures Specs() == old(Specs()) + [FreshSpec(Service, location)]
    {
      act := new BuilderActivityInfo(Service, location, this);
      acts := acts + [act];
    }

    method AddPickup(location: Location) returns (act: BuilderActivityInfo)
      modifies this
      ensures fresh(act) && act.owner == this
      ensures acts == old(acts) + [act]
      ensures Specs() == old(Specs()) + [FreshSpec(Pickup, location)]
    {
      act := new BuilderActivityInfo(Pickup, location, this);
      acts := acts + [act];
    }

    method AddDelivery(location: Location) returns (act: BuilderActivityInfo)
      modifies this
      ensures fresh(act) && act.owner == this
      ensures acts == old(acts) + [act]
      ensures Specs() == old(Specs()) + [FreshSpec(Delivery, location)]
    {
      act := new BuilderActivityInfo(Delivery, location, this);
      acts := acts + [act];
    }

    method AddExchange(location: Location) returns (act: BuilderActivityInfo)
      modifies this
      ensures fresh(act) && act.owner == this
      ensures acts == old(acts) + [act]
      ensures Specs() == old(Specs()) + [FreshSpec(Exchange, location)]
    {
      act := new BuilderActivityInfo(Exchange, location, this);
      acts := acts + [act];
    }

    /** Fails, as the source's IllegalStateException, exactly when no
        activity has been added. */
    method Validate() returns (r: Outcome)
      ensures r.Fail? <==> acts == []
      ensures r.Fail? ==> r.message == "There is no activities defined for the job."
    {
      if |acts| == 0 {
        r := Fail("There is no activities defined for the job.");
      } else {
        r := Pass;
      }
    }

    method GetActs() returns (infos: seq<BuilderActivityInfo>)
      ensures infos == acts
    {
      infos := acts;
    }

    /** createInstance: a new job for this builder, before its activities
        are created. */
    method CreateInstance() returns (job: GenericCustomJob)
      ensures fresh(job) && job.id == id && job.activities == []
    {
      job := new GenericCustomJob(this);
    }
  }

  /** The activities createActivities builds from `specs`, one per
      specification and in the same order. */
  function CreateAll(job: GenericCustomJob, specs: seq<ActivitySpec>): (acts: seq<JobActivity>)
    ensures |acts| == |specs|
  {
    if specs == [] then []
    else
      var last := specs[|specs| - 1];
      CreateAll(job, specs[..|specs| - 1]) + [last.kind.Create(job, last)]
  }

  class GenericCustomJob {
    const id: string
    var activities: seq<JobActivity>

    constructor (builder: Builder)
      ensures id == builder.id && activities == []
    {
      id := builder.id;
      activities := [];
    }

    /** The job's own size: EMPTY whatever its activities are (the function
        reads no state). */
    function GetSize(): (s: SizeDimension)
      ensures s == EmptySize
    {
      EmptySize
    }

    /** Turns each specification of `builder`, in order, into an activity
        of its type and makes that list the job's activities. */
    method CreateActivities(builder: Builder)
      modifies this
      ensures activities == CreateAll(this, builder.Specs())
    {
      var infos := builder.GetActs();
      ghost var specs := SpecsOf(infos);
      var list: seq<JobActivity> := [];
      var i := 0;
      while i < |infos|
        invariant 0 <= i <= |infos| && |list| == i
        invariant forall k :: 0 <= k < i ==> list[k] == specs[k].kind.Create(this, specs[k])
      {
        var info := infos[i];
        var act := info.kind.Create(this, info.Spec());
        assert info.Spec() == specs[i];
        list := list + [act];
        i := i + 1;
      }
      CreateAllUnique(this, specs, list);
      assert specs == builder.Specs();
      activities := list;
    }
  }

  /** The creation is the one list with one activity per specification,
      the i-th created by the i-th specification's type. */
  lemma CreateAllUnique(job: GenericCustomJob, specs: seq<ActivitySpec>, acts: seq<JobActivity>)
    requires |acts| == |specs|
    requires forall k :: 0 <= k < |specs| ==> acts[k] == specs[k].kind.Create(job, specs[k])
    ensures acts == CreateAll(job, specs)
  {
    forall k | 0 <= k < |specs|
      ensures acts[k] == CreateAll(job, specs)[k]
    {
      CreateAllAt(job, specs, k);
    }
  }

  /** The i-th created activity is the i-th specification's create. */
  lemma {:induction false} CreateAllAt(job: GenericCustomJob, specs: seq<ActivitySpec>, i: nat)
    requires i < |specs|
    ensures CreateAll(job, specs)[i] == specs[i].kind.Create(job, specs[i])
  {
    if i < |specs| - 1 {
      CreateAllAt(job, specs[..|specs| - 1], i);
    }
  }

  /** Creating from a concatenation is concatenating the creations. */
  lemma {:induction false} CreateAllAppend(job: GenericCustomJob, s: seq<ActivitySpec>, t: seq<ActivitySpec>)
    ensures CreateAll(job, s + t) == CreateAll(job, s) + CreateAll(job, t)
  {
    if t != [] {
      var last := t[|t| - 1];
      assert (s + t)[..|s + t| - 1] == s + t[..|t| - 1];
      CreateAllAppend(job, s, t[..|t| - 1]);
    } else {
      assert s + t == s;
    }
  }

  /** What the i-th created activity carries: the variant of the i-th
      specification's type, its location, operation time and size, its
      name or else the type's lower-cased name, its windows or else
      ANY_TIME, and the job as owner. */
  lemma CreatedActivity(job: GenericCustomJob, specs: seq<ActivitySpec>, i: nat)
    requires i < |specs|
    ensures var a := CreateAll(job, specs)[i];
      && a.Type() == specs[i].kind
      && a.job == job
      && a.location == specs[i].location
      && a.operationTime == specs[i].operationTime
      && a.size == specs[i].size
      && a.name == (if specs[i].name.Some? then specs[i].name.value else specs[i].kind.DefaultName())
      && a.timeWindows == (if specs[i].timeWindows == [] then AnyTime else specs[i].timeWindows)
  {
    CreateAllAt(job, specs, i);
  }

  /** The default names are the lower-cased tags, in a default locale
      that lowers 'I' to 'i' (not the Turkish or Azerbaijani one, where
      "SERVICE" would become "serv\u0131ce"). */
  lemma DefaultNames()
    ensures Service.DefaultName() == "service"
    ensures Pickup.DefaultName() == "pickup"
    ensures Delivery.DefaultName() == "delivery"
    ensures Exchange.DefaultName() == "exchange"
  {
  }

  /** Lower-casing twice is lower-casing once. */
  lemma ToLowerIdempotent(s: string)
    ensures ToLower(ToLower(s)) == ToLower(s)
  {
  }

  /** An unnamed activity's name tells its type. */
  lemma DefaultNameDeterminesType(t: ActivityType, u: ActivityType)
    ensures t.DefaultName() == u.DefaultName() <==> t == u
  {
    DefaultNames();
  }

  /** The windows an activity gets admit a time exactly when the declared
      windows do, or when none were declared and the time is in
      [0, Double.MAX_VALUE]. */
  lemma PreparedWindowsAdmit(info: ActivitySpec, t: real)
    ensures Admits(ActivityType.PrepareTimeWindows(info), t)
        <==> (if info.timeWindows == [] then 0.0 <= t <= MaxTime else Admits(info.timeWindows, t))
  {
    if info.timeWindows == [] {
      if 0.0 <= t <= MaxTime {
        assert AnyTime[0].start <= t <= AnyTime[0].end;
      }
    }
  }

  /** A job built with exactly one Service added and nothing else set gets
      a single service activity named "service", with operation time 0,
      size EMPTY and the ANY_TIME window. */
  lemma SingleServiceJob(job: GenericCustomJob, location: Location)
    ensures CreateAll(job, [FreshSpec(Service, location)])
         == [ServiceActivity(job, "service", location, 0.0, EmptySize, AnyTime)]
  {
    DefaultNames();
    CreatedActivity(job, [FreshSpec(Service, location)], 0);
  }

  /** createActivities yields a non-empty activity list exactly when
      validate passes, i.e. when some specification was added. */
  lemma CreatedNonEmptyIffSpecified(job: GenericCustomJob, specs: seq<ActivitySpec>)
    ensures CreateAll(job, specs) != [] <==> specs != []
  {
    if specs != [] {
      assert |CreateAll(job, specs)| > 0;
    }
  }
}
