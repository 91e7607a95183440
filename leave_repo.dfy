/** `InMemoryLeaveRequestRepository`: the leave requests in a list. */
module LeaveRepo {
  import opened Errors
  import opened Lists
  import opened Roles
  import opened Records

  function HasId(id: int): LeaveRequest -> bool {
    (l: LeaveRequest) => l.id == id
  }

  function ByUser(userId: int): LeaveRequest -> bool {
    (l: LeaveRequest) => l.userId == userId
  }

  function IsPending(): LeaveRequest -> bool {
    (l: LeaveRequest) => l.status == Pending
  }

  /** Where the request with `id` is stored (the first one), or -1. */
  function IndexOf(requests: seq<LeaveRequest>, id: int): int {
    FirstIndex(requests, HasId(id))
  }

  class LeaveRequestRepository {
    var requests: seq<LeaveRequest>
    var nextId: int

    constructor ()
      ensures requests == [] && nextId == 1
    {
      requests := [];
      nextId := 1;
    }

    /** `GetAll`: a snapshot of the list. */
    method GetAll() returns (r: seq<LeaveRequest>)
      ensures r == requests
    {
      r := requests;
    }

    /** `GetById`: the first request with that id; `KeyNotFoundException` when none has it. */
    method GetById(id: int) returns (r: Result<LeaveRequest>)
      ensures r.Ok? <==> exists l :: l in requests && l.id == id
      ensures r.Ok? ==> r.value.id == id && r.value == requests[IndexOf(requests, id)]
      ensures r.Err? ==> r.error == KeyNotFound("Leave request not found")
    {
      var k := FirstIndex(requests, HasId(id));
      if k < 0 {
        return Err(KeyNotFound("Leave request not found"));
      }
      return Ok(requests[k]);
    }

    /** `GetByUserId`: that user's requests, in order; empty (not an error) when there are none. */
    method GetByUserId(userId: int) returns (r: seq<LeaveRequest>)
      ensures r == Keep(requests, ByUser(userId))
      ensures forall l :: l in r <==> l in requests && l.userId == userId
    {
      r := Keep(requests, ByUser(userId));
    }

    /** `GetPendingRequests`: exactly the requests whose status is `Pending`. */
    method GetPendingRequests() returns (r: seq<LeaveRequest>)
      ensures r == Keep(requests, IsPending())
      ensures forall l :: l in r <==> l in requests && l.status == Pending
    {
      r := Keep(requests, IsPending());
    }

    /** `Add`: append, without looking for a duplicate id. */
    method Add(request: LeaveRequest)
      modifies this`requests
      ensures requests == old(requests) + [request]
    {
      requests := requests + [request];
    }

    /** `Update`: replace the first request with the same id, or `KeyNotFoundException`. */
    method Update(request: LeaveRequest) returns (r: Outcome)
      modifies this`requests
      ensures r.Ok? <==> exists l :: l in old(requests) && l.id == request.id
      ensures r.Ok? ==> requests == old(requests)[IndexOf(old(requests), request.id) := request]
      ensures r.Err? ==> r.error == KeyNotFound("Leave request not found") && requests == old(requests)
    {
      var k := FirstIndex(requests, HasId(request.id));
      if k < 0 {
        return Err(KeyNotFound("Leave request not found"));
      }
      requests := requests[k := request];
      return Done;
    }

    /** `Delete`: remove every request with the id; the branches are inverted,
        so it throws exactly when it removed something. */
    method Delete(id: int) returns (r: Outcome)
      modifies this`requests
      ensures requests == Drop(old(requests), HasId(id))
      ensures r.Err? <==> exists l :: l in old(requests) && l.id == id
      ensures r.Err? ==> r.error == KeyNotFound("Request not found")
    {
      var remaining := Drop(requests, HasId(id));
      var count := |requests| - |remaining|;
      requests := remaining;
      if count > 0 {
        return Err(KeyNotFound("Request not found"));
      }
      return Done;
    }

    /** A key no stored request has (the counter skips keys already in use). */
    method GenerateId() returns (id: int)
      modifies this`nextId
      ensures forall l :: l in requests ==> l.id != id
      ensures old(nextId) <= id < nextId
    {
      id := KeyAbove(requests, (l: LeaveRequest) => l.id, nextId);
      nextId := id + 1;
    }
  }
}
