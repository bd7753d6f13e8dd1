/**
 * The ride lifecycle of the rides service: building a ride from the booking request, and the
 * find-mutate-save operations that change a ride's status. The ride table is a map from ride id
 * to ride; every save and every notification sent to the dispatcher is recorded in a ghost log.
 */
module Rides {
  import opened Wrappers
  import opened Text

  datatype RideStatus = Pending | Accepted | Completed | Cancelled

  /** The booking request: every field is optional, and both spellings the client may use
      are carried along as they came. */
  datatype CreateRideInput = CreateRideInput(
    pickup_latitude: Option<real>,
    pickupLatitude: Option<real>,
    pickup_longitude: Option<real>,
    pickupLongitude: Option<real>,
    pickup_address: Option<string>,
    pickupLocation: Option<string>,
    dropoff_latitude: Option<real>,
    dropoffLatitude: Option<real>,
    dropoff_longitude: Option<real>,
    dropoffLongitude: Option<real>,
    dropoff_address: Option<string>,
    dropoffLocation: Option<string>,
    fare: Option<real>,
    distance: Option<real>,
    duration: Option<real>,
    vehicle_type: Option<string>,
    vehicleType: Option<string>)

  /** A ride row. `request` is the booking request spread into the row as it came;
      `vehicleType` overrides the request's own `vehicle_type`. */
  datatype Ride = Ride(
    id: string,
    riderId: string,
    driverId: Option<string>,
    request: CreateRideInput,
    vehicleType: Option<string>,
    estimatedDistanceKm: Option<real>,
    estimatedDurationMin: Option<real>,
    estimatedFare: Option<real>,
    status: RideStatus)

  /** What the service does to the outside world: a row saved, or a ride update sent to the dispatcher. */
  datatype RideEvent =
    | Saved(ride: Ride)
    | Notified(rideId: string, status: RideStatus, ride: Ride)

  // ---------------------------------------------------------------------------
  // Building a ride

  /** Lines 117-121: lower-case the vehicle type, then turn every `-` into `_`. */
  function NormalizeVehicleType(vehicleType: string): (r: string)
    ensures |r| == |vehicleType|
    ensures forall i :: 0 <= i < |r| ==> !IsUpper(r[i]) && r[i] != '-'
    ensures forall i :: 0 <= i < |r| ==> !IsUpper(vehicleType[i]) && vehicleType[i] != '-' ==> r[i] == vehicleType[i]
    ensures forall i :: 0 <= i < |r| ==>
      r[i] == if vehicleType[i] == '-' then '_' else LowerChar(vehicleType[i])
  {
    ReplaceAll(ToLower(vehicleType), '-', '_')
  }

  /** The normalised form is a fixed point: normalising again changes nothing. */
  lemma NormalizeVehicleTypeIdempotent(vehicleType: string)
    ensures NormalizeVehicleType(NormalizeVehicleType(vehicleType)) == NormalizeVehicleType(vehicleType)
  {
    var once := NormalizeVehicleType(vehicleType);
    var twice := NormalizeVehicleType(once);
    forall i | 0 <= i < |once| ensures twice[i] == once[i] {
    }
  }

  /** The example in the source comment. */
  lemma NormalizeBikeLite()
    ensures NormalizeVehicleType("Bike-lite") == "bike_lite"
  {
    assert ToLower("Bike-lite") == "bike-lite";
  }

  /** Lines 119-130: the row `createRide` saves. The estimates are the request's own numbers,
      copied without unit conversion and without recomputing the fare. */
  function BuildRide(input: CreateRideInput, riderId: string, id: string): (r: Ride)
    ensures r.id == id && r.riderId == riderId && r.driverId == None
    ensures r.status == Pending
    ensures r.request == input
    ensures input.vehicle_type.None? ==> r.vehicleType.None?
    ensures input.vehicle_type.Some? ==>
      (r.vehicleType.Some? && r.vehicleType.value == NormalizeVehicleType(input.vehicle_type.value))
    ensures r.estimatedDistanceKm == input.distance
    ensures r.estimatedDurationMin == input.duration
    ensures r.estimatedFare == input.fare
  {
    var vehicleType := match input.vehicle_type
      case None => None
      case Some(v) => Some(NormalizeVehicleType(v));
    Ride(id, riderId, None, input, vehicleType, input.distance, input.duration, input.fare, Pending)
  }

  /** A ride whose status has been overwritten and nothing else. */
  function WithStatus(ride: Ride, status: RideStatus): (r: Ride)
    ensures r.status == status
    ensures r.(status := ride.status) == ride
  {
    ride.(status := status)
  }

  // ---------------------------------------------------------------------------
  // The status graph the rides are meant to follow (not enforced by the service)

  /** PENDING -> ACCEPTED -> COMPLETED, and PENDING or ACCEPTED -> CANCELLED. */
  predicate IntendedTransition(from: RideStatus, to: RideStatus)
  {
    (from == Pending && to == Accepted) ||
    (from == Accepted && to == Completed) ||
    ((from == Pending || from == Accepted) && to == Cancelled)
  }

  /** How many intended transitions can still follow a status. */
  function StepsLeft(s: RideStatus): nat
  {
    match s
    case Pending => 2
    case Accepted => 1
    case Completed => 0
    case Cancelled => 0
  }

  predicate IntendedPath(path: seq<RideStatus>)
  {
    forall i :: 0 <= i < |path| - 1 ==> IntendedTransition(path[i], path[i + 1])
  }

  /** Every intended transition uses up one step: a ride following the graph visits at most
      three statuses, and nothing follows COMPLETED or CANCELLED. */
  lemma {:induction false} IntendedPathsAreShort(path: seq<RideStatus>)
    requires |path| > 0 && IntendedPath(path)
    ensures |path| <= StepsLeft(path[0]) + 1
    ensures forall i :: 0 <= i < |path| - 1 ==> path[i] != Completed && path[i] != Cancelled
  {
    if |path| > 1 {
      assert IntendedTransition(path[0], path[1]);
      var rest := path[1..];
      assert IntendedPath(rest) by {
        forall i | 0 <= i < |rest| - 1 ensures IntendedTransition(rest[i], rest[i + 1]) {
          assert rest[i] == path[i + 1] && rest[i + 1] == path[i + 2];
        }
      }
      IntendedPathsAreShort(rest);
      forall i | 0 <= i < |path| - 1 ensures path[i] != Completed && path[i] != Cancelled {
        assert IntendedTransition(path[i], path[i + 1]);
      }
    }
  }

  /** Writing a status ignores the graph: a completed ride can be put back to ACCEPTED. */
  lemma StatusWriteIsUnguarded(ride: Ride)
    requires ride.status == Completed
    ensures !IntendedTransition(ride.status, Accepted)
    ensures WithStatus(ride, Accepted).status == Accepted
  {
  }

  // ---------------------------------------------------------------------------
  // The ride table

  class RideStore {
    var rides: map<string, Ride>
    ghost var events: seq<RideEvent>

    /** Every ride is filed under its own id. */
    ghost predicate Valid()
      reads this
    {
      forall id :: id in rides ==> rides[id].id == id
    }

    constructor()
      ensures Valid()
      ensures rides == map[] && events == []
    {
      rides := map[];
      events := [];
    }

    /** Lines 107-112: the ride with this id, if there is one. */
    function GetRideById(rideId: string): (r: Option<Ride>)
      reads this
      requires Valid()
      ensures r.Some? <==> rideId in rides
      ensures r.Some? ==> r.value.id == rideId && r.value == rides[rideId]
    {
      if rideId in rides then Some(rides[rideId]) else None
    }

    /** Lines 100-105: the rides booked by this rider (in no particular order). */
    function GetMyRides(userId: string): (r: set<Ride>)
      reads this
      ensures forall ride :: ride in r <==> ride in rides.Values && ride.riderId == userId
    {
      set ride | ride in rides.Values && ride.riderId == userId
    }

    /** Lines 114-140: save a new PENDING ride under the id the database hands out,
        then send exactly one update for it. */
    method CreateRide(input: CreateRideInput, riderId: string, newId: string) returns (ride: Ride)
      requires Valid()
      requires newId !in rides
      modifies this
      ensures Valid()
      ensures ride == BuildRide(input, riderId, newId)
      ensures rides == old(rides)[newId := ride]
      ensures events == old(events) + [Saved(ride), Notified(newId, Pending, ride)]
    {
      ride := BuildRide(input, riderId, newId);
      rides := rides[newId := ride];
      events := events + [Saved(ride)];
      events := events + [Notified(ride.id, Pending, ride)];
    }

    /** Lines 142-155: write any status onto an existing ride, save, notify. An unknown id
        gives `None` and touches nothing. */
    method UpdateRideStatus(rideId: string, status: RideStatus) returns (r: Option<Ride>)
      requires Valid()
      modifies this
      ensures Valid()
      ensures rideId !in old(rides) ==> r.None? && rides == old(rides) && events == old(events)
      ensures rideId in old(rides) ==>
        r == Some(WithStatus(old(rides)[rideId], status)) &&
        rides == old(rides)[rideId := r.value] &&
        events == old(events) + [Saved(r.value), Notified(rideId, status, r.value)]
    {
      var found := GetRideById(rideId);
      if found.None? {
        return None;
      }
      var ride := WithStatus(found.value, status);
      rides := rides[rideId := ride];
      events := events + [Saved(ride)];
      events := events + [Notified(rideId, status, ride)];
      r := Some(ride);
    }

    /** Lines 157-171: assign the driver and mark the ride ACCEPTED, whatever its status was. */
    method AcceptRide(rideId: string, driverId: string) returns (r: Option<Ride>)
      requires Valid()
      modifies this
      ensures Valid()
      ensures rideId !in old(rides) ==> r.None? && rides == old(rides) && events == old(events)
      ensures rideId in old(rides) ==>
        r == Some(old(rides)[rideId].(driverId := Some(driverId), status := Accepted)) &&
        rides == old(rides)[rideId := r.value] &&
        events == old(events) + [Saved(r.value), Notified(rideId, Accepted, r.value)]
    {
      var found := GetRideById(rideId);
      if found.None? {
        return None;
      }
      var ride := found.value.(driverId := Some(driverId), status := Accepted);
      rides := rides[rideId := ride];
      events := events + [Saved(ride)];
      events := events + [Notified(rideId, Accepted, ride)];
      r := Some(ride);
    }

    /** Lines 173-175: a status update to CANCELLED. */
    method CancelRide(rideId: string) returns (r: Option<Ride>)
      requires Valid()
      modifies this
      ensures Valid()
      ensures rideId !in old(rides) ==> r.None? && rides == old(rides) && events == old(events)
      ensures rideId in old(rides) ==>
        r == Some(WithStatus(old(rides)[rideId], Cancelled)) &&
        rides == old(rides)[rideId := r.value] &&
        events == old(events) + [Saved(r.value), Notified(rideId, Cancelled, r.value)]
    {
      r := UpdateRideStatus(rideId, Cancelled);
    }
  }
}
