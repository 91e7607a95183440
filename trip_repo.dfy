/** `InMemoryBusinessTripRepository`: the business trips in a list. */
module TripRepo {
  import opened Errors
  import opened Lists
  import opened Roles
  import opened Records

  function HasId(id: int): BusinessTrip -> bool {
    (t: BusinessTrip) => t.id == id
  }

  function ByUser(userId: int): BusinessTrip -> bool {
    (t: BusinessTrip) => t.userId == userId
  }

  function IsPending(): BusinessTrip -> bool {
    (t: BusinessTrip) => t.status == Pending
  }

  /** Where the trip with `id` is stored (the first one), or -1. */
  function IndexOf(trips: seq<BusinessTrip>, id: int): int {
    FirstIndex(trips, HasId(id))
  }

  const TripNotFound: Error := KeyNotFound("Business trip not found")

  class BusinessTripRepository {
    var trips: seq<BusinessTrip>
    var nextId: int

    constructor ()
      ensures trips == [] && nextId == 1
    {
      trips := [];
      nextId := 1;
    }

    /** `GetAll`: a snapshot of the list. */
    method GetAll() returns (r: seq<BusinessTrip>)
      ensures r == trips
    {
      r := trips;
    }

    /** `GetById`: the first trip with that id; `KeyNotFoundException` when none has it. */
    method GetById(id: int) returns (r: Result<BusinessTrip>)
      ensures r.Ok? <==> exists t :: t in trips && t.id == id
      ensures r.Ok? ==> r.value.id == id && r.value == trips[IndexOf(trips, id)]
      ensures r.Err? ==> r.error == TripNotFound
    {
      var k := FirstIndex(trips, HasId(id));
      if k < 0 {
        return Err(TripNotFound);
      }
      return Ok(trips[k]);
    }

    /** `GetByUserId`: that user's trips, in order; unlike the leave store it
        throws `KeyNotFoundException` when the user has none. */
    method GetByUserId(userId: int) returns (r: Result<seq<BusinessTrip>>)
      ensures r.Err? <==> forall t :: t in trips ==> t.userId != userId
      ensures r.Err? ==> r.error == KeyNotFound("No business trips found for this user")
      ensures r.Ok? ==> r.value == Keep(trips, ByUser(userId)) && r.value != []
      ensures r.Ok? ==> forall t :: t in r.value <==> t in trips && t.userId == userId
    {
      var found := Keep(trips, ByUser(userId));
      if |found| == 0 {
        return Err(KeyNotFound("No business trips found for this user"));
      }
      return Ok(found);
    }

    /** `GetPendingRequests`: exactly the trips whose status is `Pending`. */
    method GetPendingRequests() returns (r: seq<BusinessTrip>)
      ensures r == Keep(trips, IsPending())
      ensures forall t :: t in r <==> t in trips && t.status == Pending
    {
      r := Keep(trips, IsPending());
    }

    /** `Add`: append, without looking for a duplicate id. */
    method Add(trip: BusinessTrip)
      modifies this`trips
      ensures trips == old(trips) + [trip]
    {
      trips := trips + [trip];
    }

    /** `Update`: replace the first trip with the same id, or `KeyNotFoundException`. */
    method Update(trip: BusinessTrip) returns (r: Outcome)
      modifies this`trips
      ensures r.Ok? <==> exists t :: t in old(trips) && t.id == trip.id
      ensures r.Ok? ==> trips == old(trips)[IndexOf(old(trips), trip.id) := trip]
      ensures r.Err? ==> r.error == TripNotFound && trips == old(trips)
    {
      var k := FirstIndex(trips, HasId(trip.id));
      if k < 0 {
        return Err(TripNotFound);
      }
      trips := trips[k := trip];
      return Done;
    }

    /** `Delete`: remove every trip with the id; the branches are inverted, so
        it throws exactly when it removed something. */
    method Delete(id: int) returns (r: Outcome)
      modifies this`trips
      ensures trips == Drop(old(trips), HasId(id))
      ensures r.Err? <==> exists t :: t in old(trips) && t.id == id
      ensures r.Err? ==> r.error == TripNotFound
    {
      var remaining := Drop(trips, HasId(id));
      var count := |trips| - |remaining|;
      trips := remaining;
      if count > 0 {
        return Err(TripNotFound);
      }
      return Done;
    }

    /** A key no stored trip has (the counter skips keys already in use). */
    method GenerateId() returns (id: int)
      modifies this`nextId
      ensures forall t :: t in trips ==> t.id != id
      ensures old(nextId) <= id < nextId
    {
      id := KeyAbove(trips, (t: BusinessTrip) => t.id, nextId);
      nextId := id + 1;
    }
  }
}
