# jsprit job builder and route end activity, in Dafny

This project models two small pieces of jsprit's vehicle-routing data model:

- **`GenericCustomJob` and its builder** (module `Job`, file `job.dfy`). A `Builder` keeps an
  ordered list of activity specifications (`BuilderActivityInfo`). `addService`, `addPickup`,
  `addDelivery` and `addExchange` each append one. The `with*` setters refine one
  specification in place. `validate` rejects a builder with no specification.
  `createActivities` turns each specification, in order, into an activity of its type.
  The name defaults to the lower-cased type tag and the windows default to `TimeWindows.ANY_TIME`.
  The pure parts are `ActivityType.create`, `prepareTimeWindows` and `getSize`. They are
  Dafny functions. The parts that change state are classes whose methods carry `modifies`
  clauses. Each class's state is given as a value (`Spec()`, `Specs()`) so that every
  method's postcondition states the whole new state.
- **`End`, the activity that closes a route** (module `Route`, file `route.dfy`). It is a
  class with mutable fields: location id, coordinate, end time, arrival time, and theoretical
  earliest and latest operation start. It has two constructors, setters, getters, constant
  answers for operation time, capacity demand and name, `copyOf`, `duplicate`, and a
  `creation` counter that `newInstance` increments.

Module `Problem` (file `problem.dfy`) holds the value types both pieces use but do not
define: `Location`, `Coordinate`, `SizeDimension` with `EMPTY`, `TimeWindow` and
`ANY_TIME`. Java's `null` is written `None` for a specification's name and for End's coordinate. Java `double` times are `real`s.
Java's `int` is the `Int32` newtype, and its wrap-around on `creation++` is written out.

Modelling choices worth knowing:
- `validate` on an empty builder yields `Fail` with the message of the `IllegalStateException` the source throws.
- A `TimeWindow` is not required to satisfy start <= end.
- The static `creation` counter of `End` is modelled.

## Model

| member | source | states |
|---|---|---|
| `Job.ActivityType.Create` | jsprit-core/src/main/java/com/graphhopper/jsprit/core/problem/job/GenericCustomJob.java:50-83 | the activity built for a specification is the variant of the receiving type and belongs to the given job; it carries the specification's location, operation time and size, its name or else the type's default name, and the prepared windows |
| `Job.ActivityType.PrepareTimeWindows` | jsprit-core/src/main/java/com/graphhopper/jsprit/core/problem/job/GenericCustomJob.java:85-91 | the result is never empty: it is ANY_TIME when the specification declares no window and the specification's own windows otherwise |
| `Job.PreparedWindowsAdmit` | jsprit-core/src/main/java/com/graphhopper/jsprit/core/problem/job/GenericCustomJob.java:85-91 | the prepared windows admit a time exactly when the declared windows do, or, when none are declared, exactly when the time lies in [0, Double.MAX_VALUE] |
| `Job.ToLower` | jsprit-core/src/main/java/com/graphhopper/jsprit/core/problem/job/GenericCustomJob.java:54 | the result has the input's length and no upper-case ASCII letter; each upper-case letter becomes its lower-case letter and every other character is kept |
| `Job.ToLowerIdempotent` | jsprit-core/src/main/java/com/graphhopper/jsprit/core/problem/job/GenericCustomJob.java:54 | lower-casing an already lower-cased string changes nothing |
| `Job.DefaultNames` | jsprit-core/src/main/java/com/graphhopper/jsprit/core/problem/job/GenericCustomJob.java:54-78 | the default names `name().toLowerCase()` are "service", "pickup", "delivery" and "exchange" |
| `Job.DefaultNameDeterminesType` | jsprit-core/src/main/java/com/graphhopper/jsprit/core/problem/job/GenericCustomJob.java:54-78 | two types share a default name exactly when they are the same type |
| `Job.BuilderActivityInfo.constructor` | jsprit-core/src/main/java/com/graphhopper/jsprit/core/problem/job/GenericCustomJob.java:94-106 | a new specification has the given type and location, size EMPTY, no name, operation time 0 and no window |
| `Job.BuilderActivityInfo.WithSize` | jsprit-core/src/main/java/com/graphhopper/jsprit/core/problem/job/GenericCustomJob.java:120-123 | only the size changes, to the given one; the same specification is returned |
| `Job.BuilderActivityInfo.WithName` | jsprit-core/src/main/java/com/graphhopper/jsprit/core/problem/job/GenericCustomJob.java:129-132 | only the name changes, to the given one (possibly null); the same specification is returned |
| `Job.BuilderActivityInfo.WithTimeWindow` | jsprit-core/src/main/java/com/graphhopper/jsprit/core/problem/job/GenericCustomJob.java:138-141 | exactly one window is appended to the windows, nothing else changes; the same specification is returned |
| `Job.BuilderActivityInfo.WithTimeWindows` | jsprit-core/src/main/java/com/graphhopper/jsprit/core/problem/job/GenericCustomJob.java:143-146 | the given windows are appended in order, nothing else changes; the same specification is returned |
| `Job.BuilderActivityInfo.WithOperationTime` | jsprit-core/src/main/java/com/graphhopper/jsprit/core/problem/job/GenericCustomJob.java:156-159 | only the operation time changes, to the given one; the same specification is returned |
| `Job.BuilderActivityInfo.Finish` | jsprit-core/src/main/java/com/graphhopper/jsprit/core/problem/job/GenericCustomJob.java:148-150 | returns the builder the specification was added to |
| `Job.Builder.constructor` | jsprit-core/src/main/java/com/graphhopper/jsprit/core/problem/job/GenericCustomJob.java:163-167 | a new builder has the given id and no specification |
| `Job.Builder.AddService` | jsprit-core/src/main/java/com/graphhopper/jsprit/core/problem/job/GenericCustomJob.java:169-173 | appends exactly one fresh specification, returned, of type Service at the given location with default fields; earlier specifications keep their states |
| `Job.Builder.AddPickup` | jsprit-core/src/main/java/com/graphhopper/jsprit/core/problem/job/GenericCustomJob.java:175-179 | the same as AddService, with type Pickup |
| `Job.Builder.AddDelivery` | jsprit-core/src/main/java/com/graphhopper/jsprit/core/problem/job/GenericCustomJob.java:181-185 | the same as AddService, with type Delivery |
| `Job.Builder.AddExchange` | jsprit-core/src/main/java/com/graphhopper/jsprit/core/problem/job/GenericCustomJob.java:187-191 | the same as AddService, with type Exchange |
| `Job.Builder.Validate` | jsprit-core/src/main/java/com/graphhopper/jsprit/core/problem/job/GenericCustomJob.java:370-375 | fails, with the exception's message, if and only if no activity has been added |
| `Job.Builder.GetActs` | jsprit-core/src/main/java/com/graphhopper/jsprit/core/problem/job/GenericCustomJob.java:377-379 | returns the specifications in the order they were added |
| `Job.Builder.CreateInstance` | jsprit-core/src/main/java/com/graphhopper/jsprit/core/problem/job/GenericCustomJob.java:393-396 | returns a new job with the builder's id |
| `Job.GenericCustomJob.constructor` | jsprit-core/src/main/java/com/graphhopper/jsprit/core/problem/job/GenericCustomJob.java:406-409 | the job takes the builder's id and starts with no activity |
| `Job.GenericCustomJob.GetSize` | jsprit-core/src/main/java/com/graphhopper/jsprit/core/problem/job/GenericCustomJob.java:411-414 | the job's size is EMPTY, and it reads no state, so it is EMPTY whatever the activities are |
| `Job.GenericCustomJob.CreateActivities` | jsprit-core/src/main/java/com/graphhopper/jsprit/core/problem/job/GenericCustomJob.java:416-425 | the job's activities become the creation of the builder's specifications in order (`CreateAll`) |
| `Job.CreateAll` | jsprit-core/src/main/java/com/graphhopper/jsprit/core/problem/job/GenericCustomJob.java:417-425 | one activity per specification |
| `Job.CreateAllAt` | jsprit-core/src/main/java/com/graphhopper/jsprit/core/problem/job/GenericCustomJob.java:420-423 | the i-th activity is the i-th specification's type creating from that specification |
| `Job.CreateAllAppend` | jsprit-core/src/main/java/com/graphhopper/jsprit/core/problem/job/GenericCustomJob.java:420-423 | creating from a concatenation is the concatenation of the creations, so adding a specification adds exactly its activity at the end |
| `Job.CreatedActivity` | jsprit-core/src/main/java/com/graphhopper/jsprit/core/problem/job/GenericCustomJob.java:417-425 | the i-th activity is of the i-th specification's type and belongs to the job; it carries that specification's location, operation time and size, its name or else the default name, and its windows or else ANY_TIME |
| `Job.SingleServiceJob` | jsprit-core/src/main/java/com/graphhopper/jsprit/core/problem/job/GenericCustomJob.java:50-56 | a job with one Service added and nothing set gets one service activity named "service", with operation time 0, size EMPTY and the ANY_TIME window |
| `Job.CreatedNonEmptyIffSpecified` | jsprit-core/src/main/java/com/graphhopper/jsprit/core/problem/job/GenericCustomJob.java:371-375 | the created activity list is non-empty exactly when validation passes |
| `Route.Increment` | jsprit-core/src/main/java/basics/route/End.java:22 | `creation++` adds one below Integer.MAX_VALUE and wraps to Integer.MIN_VALUE at it |
| `Route.IncrementWraps` | jsprit-core/src/main/java/basics/route/End.java:22 | the increment always adds one modulo 2^32 and always changes the counter |
| `Route.CreationCounter.constructor` | jsprit-core/src/main/java/basics/route/End.java:19 | the counter starts at 0 |
| `Route.End.NewInstance` | jsprit-core/src/main/java/basics/route/End.java:21-24 | increments the counter by exactly one (with wrap-around) and returns a new end built from the given arguments |
| `Route.End.CopyOf` | jsprit-core/src/main/java/basics/route/End.java:26-28 | returns a new end with the copied state; it is given no counter, so it cannot change it |
| `Route.End.constructor` | jsprit-core/src/main/java/basics/route/End.java:59-65 | location id, earliest start and latest start are the arguments; end time is the latest start, overwriting the initial -1; arrival time is 0 and the coordinate unset |
| `Route.End.Copy` | jsprit-core/src/main/java/basics/route/End.java:67-73 | the copy has the original's location id, both theoretical starts, arrival time and end time, and no coordinate |
| `Route.CopiedState` | jsprit-core/src/main/java/basics/route/End.java:67-73 | a copy differs from its original at most in the coordinate, which it leaves unset |
| `Route.CopyOfCopy` | jsprit-core/src/main/java/basics/route/End.java:141-144 | duplicating a duplicate gives the same state as the first duplicate |
| `Route.End.Duplicate` | jsprit-core/src/main/java/basics/route/End.java:141-144 | returns a new end with the copied state |
| `Route.End.GetCoordinate` | jsprit-core/src/main/java/basics/route/End.java:34-36 | returns the stored coordinate |
| `Route.End.SetCoordinate` | jsprit-core/src/main/java/basics/route/End.java:38-40 | only the coordinate changes, to the given one |
| `Route.End.SetTheoreticalEarliestOperationStartTime` | jsprit-core/src/main/java/basics/route/End.java:51-53 | only the theoretical earliest start changes, to the given one |
| `Route.End.SetTheoreticalLatestOperationStartTime` | jsprit-core/src/main/java/basics/route/End.java:55-57 | only the theoretical latest start changes, to the given one |
| `Route.End.GetTheoreticalEarliestOperationStartTime` | jsprit-core/src/main/java/basics/route/End.java:75-77 | returns the stored theoretical earliest start |
| `Route.End.GetTheoreticalLatestOperationStartTime` | jsprit-core/src/main/java/basics/route/End.java:79-81 | returns the stored theoretical latest start |
| `Route.End.GetEndTime` | jsprit-core/src/main/java/basics/route/End.java:83-85 | returns the stored end time |
| `Route.End.SetEndTime` | jsprit-core/src/main/java/basics/route/End.java:87-89 | only the end time changes, to the given one |
| `Route.End.SetLocationId` | jsprit-core/src/main/java/basics/route/End.java:91-93 | only the location id changes, to the given one |
| `Route.End.GetLocationId` | jsprit-core/src/main/java/basics/route/End.java:95-98 | returns the stored location id |
| `Route.End.GetOperationTime` | jsprit-core/src/main/java/basics/route/End.java:100-103 | always 0, whatever the state (it reads none) |
| `Route.End.GetName` | jsprit-core/src/main/java/basics/route/End.java:120-123 | always "end", whatever the state (it reads none) |
| `Route.End.GetArrTime` | jsprit-core/src/main/java/basics/route/End.java:125-128 | returns the stored arrival time |
| `Route.End.SetArrTime` | jsprit-core/src/main/java/basics/route/End.java:130-134 | only the arrival time changes, to the given one |
| `Route.End.GetCapacityDemand` | jsprit-core/src/main/java/basics/route/End.java:136-139 | always 0, whatever the state (it reads none) |

Each setter's postcondition states the whole new `State()` as the old one with a single
field replaced. Each getter returns that field of `State()`. Together they say that a getter
returns the value most recently stored by the matching constructor or setter.

## Left out

- `JobBuilder`, `AbstractJob`, `SequentialJobActivityList` and the concrete activity classes are not part of this model. So is the order in which `JobBuilder.build` calls `validate`, `createInstance` and `createActivities`. `list.addActivity` is modelled as an append and `setActivities` as assigning the job's list.
- Job.GenericCustomJob.constructor: models only that the job takes the builder's id, and assumes the job's activity list is empty until `createActivities` runs (`Job.Builder.CreateInstance` states the same). What `AbstractJob`'s constructor does with the builder is not part of this model.
- The activity classes are a datatype with one variant per class, holding the constructor arguments. Their behaviour (capacity demand, runtime times) is not part of this model.
- `TimeWindowsImpl.add` and `addAll` are treated as appends. Any check they make on the windows is not part of this model.
- `TimeWindows.ANY_TIME` is modelled as the single window [0, Double.MAX_VALUE].
- `Location`, `Coordinate` and `SizeDimension` are opaque value types. Only their equality and `SizeDimension.EMPTY` are used.
- Job.ToLower: lowers ASCII letters only and assumes a default locale that lowers 'I' to 'i'. Java's `String.toLowerCase()` uses the default locale. In a Turkish or Azerbaijani locale 'I' lowers to the dotless 'ı' (U+0131), giving "servıce", "pıckup" and "delıvery". `Job.DefaultNames` and `Job.SingleServiceJob` hold only under this assumption.
- Java `null` is modelled (as `None`) only for a specification's name and for End's coordinate. The model cannot express a null `locationId` for `End`, a null `Location` passed to `add*`, a null size passed to `withSize`, a null `TimeWindow`, or the `NullPointerException` that `copyOf(null)` throws.
- Activities are values (`JobActivity`), so two equal specifications give equal activities. In Java each `create` allocates a distinct object.
- `prepareTimeWindows` returns the specification's own window collection, which the created activity may then share with the specification. The model gives the activity a copy of the windows, so later changes to the specification are not seen through the activity.
- The getters of `BuilderActivityInfo` are read as its fields (`Spec()`). `getActs` returns the sequence itself, not an unmodifiable view.
- The static field `End.creation` is an explicit `CreationCounter` object handed to `NewInstance`, because Dafny has no mutable global state.
- `End.toString` and its `round` helper are left out. They do floating-point rounding and string formatting for display only.
- Java `double` times are exact `real`s. There is no floating-point rounding or NaN.
- The overloads of `addService` and related methods that are commented out in `GenericCustomJob` are dead code and are left out.
- `SimpleEnRoutePickupAndDeliveryExample` is a `main` program that runs the solver and writes files. It is left out.
- Time-window propagation, feasibility checks, travel times and load tracking appear in none of the modelled files. They are not part of this model.
