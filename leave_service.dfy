/** CoreLibrary's `LeaveService`: an employee files a leave request for a
    range of days; an approver (a Supervisor or SysAdmin) approves it, which
    deducts its length from the employee's leave balance, or rejects it with a
    reason. Only pending requests can be decided. */
module CoreLeave {
  import opened Errors
  import opened Lists
  import opened Roles
  import opened Records
  import UserRepo
  import LeaveRepo
  import opened CoreUsers

  /** Some stored request has the id. */
  ghost predicate Filed(requests: seq<LeaveRequest>, id: int) {
    exists l :: l in requests && l.id == id
  }

  /** The request stored under `id` (the first one). */
  function StoredRequest(requests: seq<LeaveRequest>, id: int): LeaveRequest
    requires Filed(requests, id)
  {
    requests[LeaveRepo.IndexOf(requests, id)]
  }

  ghost predicate PendingIn(requests: seq<LeaveRequest>, id: int) {
    Filed(requests, id) && StoredRequest(requests, id).status == Pending
  }

  /** No stored request is cancelled. */
  ghost predicate NoneCancelled(requests: seq<LeaveRequest>) {
    forall l :: l in requests ==> l.status != Cancelled
  }

  /** The acting user exists and may approve leave. */
  ghost predicate MayApproveLeave(users: seq<User>, approverId: int) {
    Registered(users, approverId) && CanApproveLeave(Stored(users, approverId).role)
  }

  /** `ValidateLeaveDates`: the leave starts today or later and does not end before it starts. */
  function ValidateLeaveDates(startDate: Day, endDate: Day, today: Day): (o: Outcome)
    ensures o.Ok? <==> today <= startDate <= endDate
    ensures o.Err? ==> o.error.Argument?
  {
    if startDate < today then Err(Argument("Start date cannot be in the past"))
    else if startDate > endDate then Err(Argument("Start date cannot be after end date"))
    else Done
  }

  /** `ValidateAvailableLeaveDays`: the balance covers the whole leave. */
  function ValidateAvailableLeaveDays(remainingLeaveDays: int, duration: int): (o: Outcome)
    ensures o.Ok? <==> duration <= remainingLeaveDays
    ensures o.Err? ==> o == Err(Argument("User does not have enough leave days"))
  {
    if remainingLeaveDays < duration then Err(Argument("User does not have enough leave days"))
    else Done
  }

  /** `UpdateLeaveRequestStatus` on one request: status, approver and decision
      day are set; the reason only when the request is rejected. */
  function WithDecision(l: LeaveRequest, status: RequestStatus, approverId: int,
                        reason: string, now: Day): (d: LeaveRequest)
    ensures d.status == status && d.approverId == approverId && d.approvalDate == now
    ensures d.rejectionReason == if status == Rejected then reason else l.rejectionReason
    ensures d.id == l.id && d.userId == l.userId && d.Duration() == l.Duration()
    ensures d.(status := l.status, approverId := l.approverId, approvalDate := l.approvalDate,
               rejectionReason := l.rejectionReason) == l
  {
    var d := l.(status := status, approverId := approverId, approvalDate := now);
    if status == Rejected then d.(rejectionReason := reason) else d
  }

  /** The stored requests after the request `id` is decided. */
  function Decision(requests: seq<LeaveRequest>, id: int, status: RequestStatus,
                    approverId: int, reason: string, now: Day): seq<LeaveRequest>
    requires Filed(requests, id)
  {
    var k := LeaveRepo.IndexOf(requests, id);
    requests[k := WithDecision(requests[k], status, approverId, reason, now)]
  }

  /** The stored users after `days` are taken off the balance of user `userId`. */
  function Deduction(users: seq<User>, userId: int, days: int): seq<User>
    requires Registered(users, userId)
  {
    var j := UserRepo.IndexOf(users, userId);
    users[j := users[j].(remainingLeaveDays := users[j].remainingLeaveDays - days)]
  }

  function ApprovedTerm(userId: int): LeaveRequest -> int {
    (l: LeaveRequest) => if l.userId == userId && l.status == Approved then l.Duration() else 0
  }

  /** The days of approved leave the user `userId` has on file. */
  function ApprovedDays(requests: seq<LeaveRequest>, userId: int): int {
    SumOf(requests, ApprovedTerm(userId))
  }

  class LeaveService {
    const leaves: LeaveRepo.LeaveRequestRepository
    const userService: UserService

    constructor (leaves: LeaveRepo.LeaveRequestRepository, userService: UserService)
      ensures this.leaves == leaves && this.userService == userService
    {
      this.leaves := leaves;
      this.userService := userService;
    }

    /** `SubmitRequest`: check the dates against `today`, look the user up,
        check the balance, then file one pending request under a fresh id.
        Nothing is filed on failure and no balance changes either way. */
    method SubmitRequest(userId: int, startDate: Day, endDate: Day, description: string,
                         today: Day, now: Day) returns (r: Result<LeaveRequest>)
      modifies leaves
      ensures var users := userService.repo.users;
              r.Ok? <==> today <= startDate <= endDate && Registered(users, userId)
                         && endDate - startDate + 1 <= Stored(users, userId).remainingLeaveDays
      ensures ValidateLeaveDates(startDate, endDate, today).Err? ==>
                r.Err? && r.error == ValidateLeaveDates(startDate, endDate, today).error
      ensures today <= startDate <= endDate && !Registered(userService.repo.users, userId) ==>
                r == Err(UserRepo.UserNotFound)
      ensures today <= startDate <= endDate && Registered(userService.repo.users, userId) && r.Err? ==>
                r == Err(Argument("User does not have enough leave days"))
      ensures r.Err? ==> leaves.requests == old(leaves.requests) && leaves.nextId == old(leaves.nextId)
      ensures r.Ok? ==> leaves.requests == old(leaves.requests) + [r.value]
      ensures r.Ok? ==> r.value == NewLeaveRequest(now).(id := r.value.id, userId := userId,
                          startDate := startDate, endDate := endDate, description := description)
      ensures r.Ok? ==> !Filed(old(leaves.requests), r.value.id)
      ensures NoneCancelled(old(leaves.requests)) ==> NoneCancelled(leaves.requests)
    {
      var dates := ValidateLeaveDates(startDate, endDate, today);
      if dates.Err? {
        return Err(dates.error);
      }
      var user := userService.GetUserById(userId);
      if user.Err? {
        return Err(user.error);
      }
      var duration := endDate - startDate + 1;
      var balance := ValidateAvailableLeaveDays(user.value.remainingLeaveDays, duration);
      if balance.Err? {
        return Err(balance.error);
      }
      var id := leaves.GenerateId();
      var request := NewLeaveRequest(now).(id := id, userId := userId, startDate := startDate,
                                           endDate := endDate, description := description);
      leaves.Add(request);
      return Ok(request);
    }

    /** `ValidateApprover`: the approver exists and may approve leave. */
    method ValidateApprover(approverId: int) returns (r: Result<User>)
      ensures r.Ok? <==> MayApproveLeave(userService.repo.users, approverId)
      ensures r.Ok? ==> r.value == Stored(userService.repo.users, approverId)
      ensures !Registered(userService.repo.users, approverId) ==> r == Err(UserRepo.UserNotFound)
      ensures Registered(userService.repo.users, approverId) && r.Err? ==>
                r == Err(InvalidOperation("User is not an approver"))
    {
      r := userService.GetUserById(approverId);
      if r.Ok? && !CanApproveLeave(r.value.role) {
        r := Err(InvalidOperation("User is not an approver"));
      }
    }

    /** `GetAndValidatePendingRequest`: the request exists and is still pending. */
    method GetAndValidatePendingRequest(requestId: int) returns (r: Result<LeaveRequest>)
      ensures r.Ok? <==> PendingIn(leaves.requests, requestId)
      ensures r.Ok? ==> r.value == StoredRequest(leaves.requests, requestId)
      ensures !Filed(leaves.requests, requestId) ==> r == Err(KeyNotFound("Leave request not found"))
      ensures Filed(leaves.requests, requestId) && r.Err? ==>
                r == Err(InvalidOperation("Leave request is not pending"))
    {
      r := leaves.GetById(requestId);
      if r.Ok? && r.value.status != Pending {
        r := Err(InvalidOperation("Leave request is not pending"));
      }
    }

    /** `ApproveRequest`: approver check, pending check and requester lookup
        come first, so a failure changes nothing; on success the request is
        marked approved and its length is taken off the requester's balance.
        The balance is not checked again here. */
    method ApproveRequest(requestId: int, approverId: int, now: Day) returns (r: Outcome)
      modifies leaves`requests, userService.repo`users
      ensures var users := old(userService.repo.users);
              var requests := old(leaves.requests);
              r.Ok? <==> MayApproveLeave(users, approverId) && PendingIn(requests, requestId)
                         && Registered(users, StoredRequest(requests, requestId).userId)
      ensures r.Err? ==> leaves.requests == old(leaves.requests)
                         && userService.repo.users == old(userService.repo.users)
      ensures !Registered(old(userService.repo.users), approverId) ==> r == Err(UserRepo.UserNotFound)
      ensures Registered(old(userService.repo.users), approverId)
              && !MayApproveLeave(old(userService.repo.users), approverId) ==>
                r == Err(InvalidOperation("User is not an approver"))
      ensures MayApproveLeave(old(userService.repo.users), approverId) && !Filed(old(leaves.requests), requestId) ==>
                r == Err(KeyNotFound("Leave request not found"))
      ensures MayApproveLeave(old(userService.repo.users), approverId) && Filed(old(leaves.requests), requestId)
              && !PendingIn(old(leaves.requests), requestId) ==>
                r == Err(InvalidOperation("Leave request is not pending"))
      ensures MayApproveLeave(old(userService.repo.users), approverId) && PendingIn(old(leaves.requests), requestId)
              && !Registered(old(userService.repo.users), StoredRequest(old(leaves.requests), requestId).userId) ==>
                r == Err(UserRepo.UserNotFound)
      ensures r.Ok? ==> var l := StoredRequest(old(leaves.requests), requestId);
                        leaves.requests == Decision(old(leaves.requests), requestId, Approved, approverId, "", now)
                        && userService.repo.users == Deduction(old(userService.repo.users), l.userId, l.Duration())
      ensures NoneCancelled(old(leaves.requests)) ==> NoneCancelled(leaves.requests)
    {
      var approver := ValidateApprover(approverId);
      if approver.Err? {
        return Err(approver.error);
      }
      var request := GetAndValidatePendingRequest(requestId);
      if request.Err? {
        return Err(request.error);
      }
      var user := userService.GetUserById(request.value.userId);
      if user.Err? {
        return Err(user.error);
      }
      var updated := leaves.Update(WithDecision(request.value, Approved, approverId, "", now));
      assert updated.Ok?;
      var u := user.value;
      r := userService.UpdateUser(u.(remainingLeaveDays := u.remainingLeaveDays - request.value.Duration()));
      assert r.Ok?;
    }

    /** `RejectRequest`: approver check and pending check, then the request is
        marked rejected with the reason. No balance changes. */
    method RejectRequest(requestId: int, approverId: int, reason: string, now: Day) returns (r: Outcome)
      modifies leaves`requests
      ensures r.Ok? <==> MayApproveLeave(userService.repo.users, approverId) && PendingIn(old(leaves.requests), requestId)
      ensures r.Err? ==> leaves.requests == old(leaves.requests)
      ensures !Registered(userService.repo.users, approverId) ==> r == Err(UserRepo.UserNotFound)
      ensures Registered(userService.repo.users, approverId) && !MayApproveLeave(userService.repo.users, approverId) ==>
                r == Err(InvalidOperation("User is not an approver"))
      ensures MayApproveLeave(userService.repo.users, approverId) && !Filed(old(leaves.requests), requestId) ==>
                r == Err(KeyNotFound("Leave request not found"))
      ensures MayApproveLeave(userService.repo.users, approverId) && Filed(old(leaves.requests), requestId)
              && !PendingIn(old(leaves.requests), requestId) ==>
                r == Err(InvalidOperation("Leave request is not pending"))
      ensures r.Ok? ==> leaves.requests == Decision(old(leaves.requests), requestId, Rejected, approverId, reason, now)
      ensures NoneCancelled(old(leaves.requests)) ==> NoneCancelled(leaves.requests)
    {
      var approver := ValidateApprover(approverId);
      if approver.Err? {
        return Err(approver.error);
      }
      var request := GetAndValidatePendingRequest(requestId);
      if request.Err? {
        return Err(request.error);
      }
      r := leaves.Update(WithDecision(request.value, Rejected, approverId, reason, now));
      assert r.Ok?;
    }

    /** `GetAllRequests`. */
    method GetAllRequests() returns (r: seq<LeaveRequest>)
      ensures r == leaves.requests
    {
      r := leaves.GetAll();
    }

    /** `GetPendingRequest`: the requests still waiting for a decision. */
    method GetPendingRequest() returns (r: seq<LeaveRequest>)
      ensures forall l :: l in r <==> l in leaves.requests && l.status == Pending
      ensures multiset(r) <= multiset(leaves.requests)
      ensures r == Keep(leaves.requests, LeaveRepo.IsPending())
    {
      r := leaves.GetPendingRequests();
    }

    /** `GetById`: the stored request, or `KeyNotFoundException`. */
    method GetById(requestId: int) returns (r: Result<LeaveRequest>)
      ensures r.Ok? <==> Filed(leaves.requests, requestId)
      ensures r.Ok? ==> r.value == StoredRequest(leaves.requests, requestId) && r.value.id == requestId
      ensures r.Err? ==> r == Err(KeyNotFound("Leave request not found"))
    {
      r := leaves.GetById(requestId);
    }

    /** `GetByUserId`: that user's requests, possibly none. */
    method GetByUserId(userId: int) returns (r: seq<LeaveRequest>)
      ensures forall l :: l in r <==> l in leaves.requests && l.userId == userId
      ensures multiset(r) <= multiset(leaves.requests)
      ensures r == Keep(leaves.requests, LeaveRepo.ByUser(userId))
    {
      r := leaves.GetByUserId(userId);
    }
  }

  /** Approving a request moves its days from the requester's balance to the
      requester's approved leave: for every user, balance plus approved days
      is the same before and after. */
  lemma LeaveBalanceConserved(requests: seq<LeaveRequest>, users: seq<User>, requestId: int,
                              approverId: int, now: Day, userId: int)
    requires PendingIn(requests, requestId)
    requires Registered(users, StoredRequest(requests, requestId).userId)
    requires Registered(users, userId)
    ensures var l := StoredRequest(requests, requestId);
            var requests' := Decision(requests, requestId, Approved, approverId, "", now);
            var users' := Deduction(users, l.userId, l.Duration());
            Registered(users', userId)
            && Stored(users', userId).remainingLeaveDays + ApprovedDays(requests', userId)
               == Stored(users, userId).remainingLeaveDays + ApprovedDays(requests, userId)
  {
    var k := LeaveRepo.IndexOf(requests, requestId);
    var l := requests[k];
    var d := WithDecision(l, Approved, approverId, "", now);
    SumOfReplace(requests, k, d, ApprovedTerm(userId));
    var j := UserRepo.IndexOf(users, l.userId);
    var u := users[j].(remainingLeaveDays := users[j].remainingLeaveDays - l.Duration());
    var users' := users[j := u];
    FirstIndexUpdate(users, j, u, UserRepo.HasId(userId));
    var i := UserRepo.IndexOf(users, userId);
    assert users'[i].id == userId;
  }

  /** Rejecting a pending request changes nobody's approved leave. */
  lemma RejectionKeepsApprovedDays(requests: seq<LeaveRequest>, requestId: int, approverId: int,
                                   reason: string, now: Day, userId: int)
    requires PendingIn(requests, requestId)
    ensures ApprovedDays(Decision(requests, requestId, Rejected, approverId, reason, now), userId)
            == ApprovedDays(requests, userId)
  {
    var k := LeaveRepo.IndexOf(requests, requestId);
    SumOfReplace(requests, k, WithDecision(requests[k], Rejected, approverId, reason, now), ApprovedTerm(userId));
  }

  /** Filing a pending request changes nobody's approved leave. */
  lemma SubmissionKeepsApprovedDays(requests: seq<LeaveRequest>, l: LeaveRequest, userId: int)
    requires l.status == Pending
    ensures ApprovedDays(requests + [l], userId) == ApprovedDays(requests, userId)
  {
    SumOfAppend(requests, l, ApprovedTerm(userId));
  }

  /** A decided request is no longer pending, so a second approval or
      rejection of it is refused and no balance is deducted twice. */
  lemma DecisionIsFinal(requests: seq<LeaveRequest>, requestId: int, status: RequestStatus,
                        approverId: int, reason: string, now: Day)
    requires Filed(requests, requestId) && status != Pending
    ensures var requests' := Decision(requests, requestId, status, approverId, reason, now);
            Filed(requests', requestId) && !PendingIn(requests', requestId)
            && StoredRequest(requests', requestId).status == status
  {
    var k := LeaveRepo.IndexOf(requests, requestId);
    var d := WithDecision(requests[k], status, approverId, reason, now);
    FirstIndexUpdate(requests, k, d, LeaveRepo.HasId(requestId));
    assert requests[k := d][k] == d;
  }

  /** `Cancelled` is never assigned: filing adds a pending request and a
      decision sets `Approved` or `Rejected`, so a store without cancelled
      requests never gets one. */
  lemma NeverCancelled(requests: seq<LeaveRequest>, l: LeaveRequest, id: int, status: RequestStatus,
                       approverId: int, reason: string, now: Day)
    requires NoneCancelled(requests) && l.status == Pending
    requires status == Approved || status == Rejected
    ensures NoneCancelled(requests + [l])
    ensures Filed(requests, id) ==> NoneCancelled(Decision(requests, id, status, approverId, reason, now))
  {
  }
}
