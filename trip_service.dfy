/** CoreLibrary's `BusinessTripService`: an employee files a business trip
    with an estimated cost; a Supervisor or SysAdmin approves or rejects it;
    the actual cost is recorded afterwards. Costs are never negative. Unlike
    leave, a trip's status is not checked before a decision, so a decided trip
    can be decided again. */
module CoreTrips {
  import opened Errors
  import opened Lists
  import opened Roles
  import opened Records
  import UserRepo
  import TripRepo
  import opened CoreUsers

  /** Some stored trip has the id. */
  ghost predicate Filed(trips: seq<BusinessTrip>, id: int) {
    exists t :: t in trips && t.id == id
  }

  /** The trip stored under `id` (the first one). */
  function StoredTrip(trips: seq<BusinessTrip>, id: int): BusinessTrip
    requires Filed(trips, id)
  {
    trips[TripRepo.IndexOf(trips, id)]
  }

  /** The acting user exists and may approve trips. */
  ghost predicate MayApproveTrips(users: seq<User>, approverId: int) {
    Registered(users, approverId) && CanApproveTrips(Stored(users, approverId).role)
  }

  /** No stored trip is cancelled. */
  ghost predicate NoneCancelled(trips: seq<BusinessTrip>) {
    forall t :: t in trips ==> t.status != Cancelled
  }

  /** No stored trip has a negative estimated or actual cost. */
  ghost predicate CostsNonNegative(trips: seq<BusinessTrip>) {
    forall t :: t in trips ==> t.estimatedCost >= 0.0 && t.actualCost >= 0.0
  }

  /** `ValidateTripDates`: the trip starts today or later and does not end before it starts. */
  function ValidateTripDates(startDate: Day, endDate: Day, today: Day): (o: Outcome)
    ensures o.Ok? <==> today <= startDate <= endDate
    ensures o.Err? ==> o.error.Argument?
  {
    if startDate < today then Err(Argument("Start date cannot be in the past"))
    else if endDate < startDate then Err(Argument("End date cannot be before start date"))
    else Done
  }

  /** `ValidateCost`. */
  function ValidateCost(cost: real): (o: Outcome)
    ensures o.Ok? <==> cost >= 0.0
    ensures o.Err? ==> o == Err(Argument("Cost cannot be negative"))
  {
    if cost < 0.0 then Err(Argument("Cost cannot be negative")) else Done
  }

  /** `UpdateTripStatus` on one trip: status, approver and decision day are
      set; the reason only when the trip is rejected. */
  function WithDecision(t: BusinessTrip, status: RequestStatus, approverId: int,
                        reason: string, now: Day): (d: BusinessTrip)
    ensures d.status == status && d.approverId == approverId && d.approvalDate == now
    ensures d.rejectionReason == if status == Rejected then reason else t.rejectionReason
    ensures d.(status := t.status, approverId := t.approverId, approvalDate := t.approvalDate,
               rejectionReason := t.rejectionReason) == t
  {
    var d := t.(status := status, approverId := approverId, approvalDate := now);
    if status == Rejected then d.(rejectionReason := reason) else d
  }

  /** The stored trips after the trip `id` is decided. */
  function Decision(trips: seq<BusinessTrip>, id: int, status: RequestStatus,
                    approverId: int, reason: string, now: Day): seq<BusinessTrip>
    requires Filed(trips, id)
  {
    var k := TripRepo.IndexOf(trips, id);
    trips[k := WithDecision(trips[k], status, approverId, reason, now)]
  }

  class BusinessTripService {
    const repository: TripRepo.BusinessTripRepository
    const userRepository: UserRepo.UserRepository

    constructor (repository: TripRepo.BusinessTripRepository, userRepository: UserRepo.UserRepository)
      ensures this.repository == repository && this.userRepository == userRepository
    {
      this.repository := repository;
      this.userRepository := userRepository;
    }

    /** `SubmitRequest`: dates, then the estimate, then the user; on success one
        pending trip is filed under a fresh id. Nothing is filed on failure. */
    method SubmitRequest(userId: int, destination: string, startDate: Day, endDate: Day,
                         purpose: string, estimateCost: real, today: Day, now: Day)
      returns (r: Result<BusinessTrip>)
      modifies repository
      ensures r.Ok? <==> today <= startDate <= endDate && estimateCost >= 0.0
                         && Registered(userRepository.users, userId)
      ensures ValidateTripDates(startDate, endDate, today).Err? ==>
                r.Err? && r.error == ValidateTripDates(startDate, endDate, today).error
      ensures today <= startDate <= endDate && estimateCost < 0.0 ==>
                r == Err(Argument("Cost cannot be negative"))
      ensures today <= startDate <= endDate && estimateCost >= 0.0 && r.Err? ==>
                r == Err(UserRepo.UserNotFound)
      ensures r.Err? ==> repository.trips == old(repository.trips) && repository.nextId == old(repository.nextId)
      ensures r.Ok? ==> repository.trips == old(repository.trips) + [r.value]
      ensures r.Ok? ==> r.value == NewBusinessTrip(now).(id := r.value.id, userId := userId,
                          destination := destination, startDate := startDate, endDate := endDate,
                          purpose := purpose, estimatedCost := estimateCost)
      ensures r.Ok? ==> !Filed(old(repository.trips), r.value.id)
      ensures CostsNonNegative(old(repository.trips)) ==> CostsNonNegative(repository.trips)
      ensures NoneCancelled(old(repository.trips)) ==> NoneCancelled(repository.trips)
    {
      var dates := ValidateTripDates(startDate, endDate, today);
      if dates.Err? {
        return Err(dates.error);
      }
      var cost := ValidateCost(estimateCost);
      if cost.Err? {
        return Err(cost.error);
      }
      var user := userRepository.GetById(userId);
      if user.Err? {
        return Err(user.error);
      }
      var id := repository.GenerateId();
      var trip := NewBusinessTrip(now).(id := id, userId := userId, destination := destination,
                                        startDate := startDate, endDate := endDate, purpose := purpose,
                                        estimatedCost := estimateCost);
      repository.Add(trip);
      return Ok(trip);
    }

    /** `ValidateApprover`: the approver exists (`KeyNotFoundException`) and may
        approve trips (`UnauthorizedAccessException`). */
    method ValidateApprover(approverId: int) returns (r: Result<User>)
      ensures r.Ok? <==> MayApproveTrips(userRepository.users, approverId)
      ensures r.Ok? ==> r.value == Stored(userRepository.users, approverId)
      ensures !Registered(userRepository.users, approverId) ==> r == Err(UserRepo.UserNotFound)
      ensures Registered(userRepository.users, approverId) && r.Err? ==>
                r == Err(Unauthorized("Approver not authorized"))
    {
      r := userRepository.GetById(approverId);
      if r.Ok? && !CanApproveTrips(r.value.role) {
        r := Err(Unauthorized("Approver not authorized"));
      }
    }

    /** `ApproveRequest` and `RejectRequest`: the trip is looked up first, then
        the approver; whatever the trip's current status, it gets the new one. */
    method Decide(tripId: int, approverId: int, status: RequestStatus, reason: string, now: Day)
      returns (r: Outcome)
      modifies repository`trips
      ensures r.Ok? <==> Filed(old(repository.trips), tripId) && MayApproveTrips(userRepository.users, approverId)
      ensures r.Err? ==> repository.trips == old(repository.trips)
      ensures !Filed(old(repository.trips), tripId) ==> r == Err(TripRepo.TripNotFound)
      ensures Filed(old(repository.trips), tripId) && !Registered(userRepository.users, approverId) ==>
                r == Err(UserRepo.UserNotFound)
      ensures Filed(old(repository.trips), tripId) && Registered(userRepository.users, approverId) && r.Err? ==>
                r == Err(Unauthorized("Approver not authorized"))
      ensures r.Ok? ==> repository.trips == Decision(old(repository.trips), tripId, status, approverId, reason, now)
      ensures CostsNonNegative(old(repository.trips)) ==> CostsNonNegative(repository.trips)
    {
      var trip := repository.GetById(tripId);
      if trip.Err? {
        return Err(trip.error);
      }
      var approver := ValidateApprover(approverId);
      if approver.Err? {
        return Err(approver.error);
      }
      r := repository.Update(WithDecision(trip.value, status, approverId, reason, now));
      assert r.Ok?;
    }

    /** `ApproveRequest`. */
    method ApproveRequest(tripId: int, approverId: int, now: Day) returns (r: Outcome)
      modifies repository`trips
      ensures r.Ok? <==> Filed(old(repository.trips), tripId) && MayApproveTrips(userRepository.users, approverId)
      ensures r.Err? ==> repository.trips == old(repository.trips)
      ensures !Filed(old(repository.trips), tripId) ==> r == Err(TripRepo.TripNotFound)
      ensures Filed(old(repository.trips), tripId) && !Registered(userRepository.users, approverId) ==>
                r == Err(UserRepo.UserNotFound)
      ensures Filed(old(repository.trips), tripId) && Registered(userRepository.users, approverId) && r.Err? ==>
                r == Err(Unauthorized("Approver not authorized"))
      ensures r.Ok? ==> repository.trips == Decision(old(repository.trips), tripId, Approved, approverId, "", now)
      ensures CostsNonNegative(old(repository.trips)) ==> CostsNonNegative(repository.trips)
      ensures NoneCancelled(old(repository.trips)) ==> NoneCancelled(repository.trips)
    {
      r := Decide(tripId, approverId, Approved, "", now);
    }

    /** `RejectRequest`: as approval, and the reason is recorded. */
    method RejectRequest(tripId: int, approverId: int, reason: string, now: Day) returns (r: Outcome)
      modifies repository`trips
      ensures r.Ok? <==> Filed(old(repository.trips), tripId) && MayApproveTrips(userRepository.users, approverId)
      ensures r.Err? ==> repository.trips == old(repository.trips)
      ensures !Filed(old(repository.trips), tripId) ==> r == Err(TripRepo.TripNotFound)
      ensures Filed(old(repository.trips), tripId) && !Registered(userRepository.users, approverId) ==>
                r == Err(UserRepo.UserNotFound)
      ensures Filed(old(repository.trips), tripId) && Registered(userRepository.users, approverId) && r.Err? ==>
                r == Err(Unauthorized("Approver not authorized"))
      ensures r.Ok? ==> repository.trips == Decision(old(repository.trips), tripId, Rejected, approverId, reason, now)
      ensures CostsNonNegative(old(repository.trips)) ==> CostsNonNegative(repository.trips)
      ensures NoneCancelled(old(repository.trips)) ==> NoneCancelled(repository.trips)
    {
      r := Decide(tripId, approverId, Rejected, reason, now);
    }

    /** `UpdateActualCost`: the trip is looked up before the cost is checked;
        only the actual cost changes, whatever the trip's status. */
    method UpdateActualCost(tripId: int, actualCost: real) returns (r: Outcome)
      modifies repository`trips
      ensures r.Ok? <==> Filed(old(repository.trips), tripId) && actualCost >= 0.0
      ensures r.Err? ==> repository.trips == old(repository.trips)
      ensures !Filed(old(repository.trips), tripId) ==> r == Err(TripRepo.TripNotFound)
      ensures Filed(old(repository.trips), tripId) && r.Err? ==> r == Err(Argument("Cost cannot be negative"))
      ensures r.Ok? ==> var k := TripRepo.IndexOf(old(repository.trips), tripId);
                        repository.trips == old(repository.trips)[k := old(repository.trips)[k].(actualCost := actualCost)]
      ensures CostsNonNegative(old(repository.trips)) ==> CostsNonNegative(repository.trips)
    {
      var trip := repository.GetById(tripId);
      if trip.Err? {
        return Err(trip.error);
      }
      var cost := ValidateCost(actualCost);
      if cost.Err? {
        return cost;
      }
      r := repository.Update(trip.value.(actualCost := actualCost));
      assert r.Ok?;
    }

    /** `GetAllTrips`. */
    method GetAllTrips() returns (r: seq<BusinessTrip>)
      ensures r == repository.trips
    {
      r := repository.GetAll();
    }

    /** `GetPendingRequests`: the trips still waiting for a decision. */
    method GetPendingRequests() returns (r: seq<BusinessTrip>)
      ensures forall t :: t in r <==> t in repository.trips && t.status == Pending
      ensures multiset(r) <= multiset(repository.trips)
      ensures r == Keep(repository.trips, TripRepo.IsPending())
    {
      r := repository.GetPendingRequests();
    }

    /** `GetTripById`. */
    method GetTripById(tripId: int) returns (r: Result<BusinessTrip>)
      ensures r.Ok? <==> Filed(repository.trips, tripId)
      ensures r.Ok? ==> r.value == StoredTrip(repository.trips, tripId) && r.value.id == tripId
      ensures r.Err? ==> r == Err(TripRepo.TripNotFound)
    {
      r := repository.GetById(tripId);
    }

    /** `GetByUserId`: the user's trips; `KeyNotFoundException` when there are none. */
    method GetByUserId(userId: int) returns (r: Result<seq<BusinessTrip>>)
      ensures r.Ok? <==> exists t :: t in repository.trips && t.userId == userId
      ensures r.Err? ==> r == Err(KeyNotFound("No business trips found for this user"))
      ensures r.Ok? ==> forall t :: t in r.value <==> t in repository.trips && t.userId == userId
      ensures r.Ok? ==> multiset(r.value) <= multiset(repository.trips)
      ensures r.Ok? ==> r.value == Keep(repository.trips, TripRepo.ByUser(userId))
    {
      r := repository.GetByUserId(userId);
    }
  }

  /** A decision never hides the trip: afterwards it is still on file, with
      the new status, under the same id. With no pending check, an approved
      trip can then be rejected and a rejected one approved. */
  lemma {:induction false} RedecisionOverrides(trips: seq<BusinessTrip>, id: int, first: RequestStatus,
                                               second: RequestStatus, approverId: int, reason: string, now: Day)
    requires Filed(trips, id)
    ensures var once := Decision(trips, id, first, approverId, reason, now);
            Filed(once, id) && StoredTrip(once, id).status == first
            && var twice := Decision(once, id, second, approverId, reason, now);
               Filed(twice, id) && StoredTrip(twice, id).status == second
  {
    var k := TripRepo.IndexOf(trips, id);
    var d := WithDecision(trips[k], first, approverId, reason, now);
    var once := trips[k := d];
    FirstIndexUpdate(trips, k, d, TripRepo.HasId(id));
    assert once[k] == d;
    var d2 := WithDecision(d, second, approverId, reason, now);
    FirstIndexUpdate(once, k, d2, TripRepo.HasId(id));
    assert once[k := d2][k] == d2;
  }

  /** Deciding a trip changes neither its costs nor any other trip. */
  lemma DecisionKeepsCosts(trips: seq<BusinessTrip>, id: int, status: RequestStatus,
                           approverId: int, reason: string, now: Day)
    requires Filed(trips, id)
    ensures var after := Decision(trips, id, status, approverId, reason, now);
            |after| == |trips|
            && forall i :: 0 <= i < |trips| ==>
                 after[i].estimatedCost == trips[i].estimatedCost && after[i].actualCost == trips[i].actualCost
                 && after[i].id == trips[i].id && after[i].userId == trips[i].userId
  {
  }

  /** `Cancelled` is never assigned: filing adds a pending trip and a
      decision sets `Approved` or `Rejected`, so a store without cancelled
      trips never gets one. */
  lemma NeverCancelled(trips: seq<BusinessTrip>, t: BusinessTrip, id: int, status: RequestStatus,
                       approverId: int, reason: string, now: Day)
    requires NoneCancelled(trips) && t.status == Pending
    requires status == Approved || status == Rejected
    ensures NoneCancelled(trips + [t])
    ensures Filed(trips, id) ==> NoneCancelled(Decision(trips, id, status, approverId, reason, now))
  {
  }
}
