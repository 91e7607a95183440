/** WebAPI's `LeaveRequestService`: one shared list of leave requests and a
    counter that numbers them 1, 2, 3, ... in order of creation. A number is
    handed out once, so a deleted request's id is never given again. */
module WebApiLeaveRequests {
  import opened Errors
  import opened Lists

  type Day = int

  datatype LeaveRequest = LeaveRequest(
    id: int,
    employeeId: int,
    leaveType: string,
    startDate: Day,
    endDate: Day,
    reason: string,
    status: string,
    approverNotes: Option<string>,
    createdAt: Day,
    updateAt: Day)

  function HasId(id: int): LeaveRequest -> bool {
    (r: LeaveRequest) => r.id == id
  }

  function Id(r: LeaveRequest): int { r.id }

  class LeaveRequestService {
    var requests: seq<LeaveRequest>
    var nextId: int
    /** Every id the counter has handed out. */
    ghost var issued: set<int>

    /** The counter is ahead of every id it handed out; every stored id was
        handed out; ids increase along the list. */
    ghost predicate Valid()
      reads this
    {
      1 <= nextId
      && (forall i :: i in issued ==> 1 <= i < nextId)
      && (forall r :: r in requests ==> r.id in issued)
      && Increasing(requests, Id)
    }

    constructor ()
      ensures requests == [] && nextId == 1 && issued == {}
      ensures Valid()
    {
      requests := [];
      nextId := 1;
      issued := {};
    }

    /** `GetAllLeaveRequests`. */
    method GetAllLeaveRequests() returns (r: seq<LeaveRequest>)
      ensures r == requests
    {
      r := requests;
    }

    /** `GetLeaveRequestById`: the first request with the id, or nothing (`null`). */
    method GetLeaveRequestById(id: int) returns (r: Option<LeaveRequest>)
      ensures r.Some? <==> exists x :: x in requests && x.id == id
      ensures r.Some? ==> r.value.id == id && r.value == requests[FirstIndex(requests, HasId(id))]
    {
      var k := FirstIndex(requests, HasId(id));
      if k < 0 {
        return None;
      }
      return Some(requests[k]);
    }

    /** `Create`: the request gets the next number and status "Pending", is
        stamped with `now`, and is appended. */
    method Create(leaveRequest: LeaveRequest, now: Day) returns (r: LeaveRequest)
      modifies this
      ensures r == leaveRequest.(id := old(nextId), status := "Pending", createdAt := now, updateAt := now)
      ensures requests == old(requests) + [r]
      ensures nextId == old(nextId) + 1 && issued == old(issued) + {r.id}
      ensures old(Valid()) ==> Valid() && r.id !in old(issued) && r.id >= 1
      ensures old(Valid()) ==> forall x :: x in old(requests) ==> x.id < r.id
    {
      r := leaveRequest.(id := nextId, status := "Pending", createdAt := now, updateAt := now);
      nextId := nextId + 1;
      issued := issued + {r.id};
      requests := requests + [r];
    }

    /** `Update`: copy employee, type, dates and reason onto the stored
        request and stamp it; id, status and notes stay. Nothing (`null`) when
        no request has the id. */
    method Update(id: int, leaveRequest: LeaveRequest, now: Day) returns (r: Option<LeaveRequest>)
      modifies this`requests
      ensures r.Some? <==> exists x :: x in old(requests) && x.id == id
      ensures r.None? ==> requests == old(requests)
      ensures r.Some? ==>
                var k := FirstIndex(old(requests), HasId(id));
                r.value == old(requests)[k].(employeeId := leaveRequest.employeeId, leaveType := leaveRequest.leaveType,
                                             startDate := leaveRequest.startDate, endDate := leaveRequest.endDate,
                                             reason := leaveRequest.reason, updateAt := now)
                && requests == old(requests)[k := r.value]
      ensures old(Valid()) ==> Valid()
    {
      var k := FirstIndex(requests, HasId(id));
      if k < 0 {
        return None;
      }
      var existing := requests[k];
      var updated := existing.(employeeId := leaveRequest.employeeId, leaveType := leaveRequest.leaveType,
                               startDate := leaveRequest.startDate, endDate := leaveRequest.endDate,
                               reason := leaveRequest.reason, updateAt := now);
      requests := requests[k := updated];
      return Some(updated);
    }

    /** `Delete`: false when no request has the id; otherwise that request is
        removed. The counter and the issued ids stay, so the id is not reused. */
    method Delete(id: int) returns (removed: bool)
      modifies this`requests
      ensures removed <==> exists x :: x in old(requests) && x.id == id
      ensures !removed ==> requests == old(requests)
      ensures removed ==> requests == RemoveAt(old(requests), FirstIndex(old(requests), HasId(id)))
      ensures old(Valid()) ==> Valid() && forall x :: x in requests ==> x.id != id
    {
      var k := FirstIndex(requests, HasId(id));
      if k < 0 {
        return false;
      }
      if Valid() {
        RemoveAtKeepsIncreasing(requests, k, Id);
      }
      requests := RemoveAt(requests, k);
      return true;
    }

    /** `Approve` and `Reject`: the first request with the id gets the status
        and the notes and is stamped; its current status is not checked.
        Nothing (`null`) when no request has the id. */
    method Decide(id: int, status: string, approverNotes: string, now: Day) returns (r: Option<LeaveRequest>)
      modifies this`requests
      ensures r.Some? <==> exists x :: x in old(requests) && x.id == id
      ensures r.None? ==> requests == old(requests)
      ensures r.Some? ==>
                var k := FirstIndex(old(requests), HasId(id));
                r.value == old(requests)[k].(status := status, approverNotes := Some(approverNotes), updateAt := now)
                && requests == old(requests)[k := r.value]
      ensures old(Valid()) ==> Valid()
    {
      var k := FirstIndex(requests, HasId(id));
      if k < 0 {
        return None;
      }
      var decided := requests[k].(status := status, approverNotes := Some(approverNotes), updateAt := now);
      requests := requests[k := decided];
      return Some(decided);
    }

    /** `Approve`: status "Approved". */
    method Approve(id: int, approverNotes: string, now: Day) returns (r: Option<LeaveRequest>)
      modifies this`requests
      ensures r.Some? <==> exists x :: x in old(requests) && x.id == id
      ensures r.None? ==> requests == old(requests)
      ensures r.Some? ==>
                var k := FirstIndex(old(requests), HasId(id));
                r.value == old(requests)[k].(status := "Approved", approverNotes := Some(approverNotes), updateAt := now)
                && requests == old(requests)[k := r.value]
      ensures old(Valid()) ==> Valid()
    {
      r := Decide(id, "Approved", approverNotes, now);
    }

    /** `Reject`: status "Rejected". */
    method Reject(id: int, approverNotes: string, now: Day) returns (r: Option<LeaveRequest>)
      modifies this`requests
      ensures r.Some? <==> exists x :: x in old(requests) && x.id == id
      ensures r.None? ==> requests == old(requests)
      ensures r.Some? ==>
                var k := FirstIndex(old(requests), HasId(id));
                r.value == old(requests)[k].(status := "Rejected", approverNotes := Some(approverNotes), updateAt := now)
                && requests == old(requests)[k := r.value]
      ensures old(Valid()) ==> Valid()
    {
      r := Decide(id, "Rejected", approverNotes, now);
    }
  }
}
