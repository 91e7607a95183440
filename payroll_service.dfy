/** CoreLibrary's `PayrollService`: a payroll for a user and a period pays the
    monthly salary less one thirtieth of it for every day of approved leave
    that lies wholly inside the period; Finance or a SysAdmin marks it paid. */
module CorePayroll {
  import opened Errors
  import opened Lists
  import opened Text
  import opened Roles
  import opened Records
  import UserRepo
  import LeaveRepo
  import TripRepo
  import PayrollRepo
  import opened CoreUsers
  import CoreLeave

  /** The days in a month, as the daily rate divides by. */
  const DaysPerMonth: int := 30

  /** A leave request `CalculateLeaveDays` counts: approved and wholly inside the period. */
  function CountedInPeriod(periodStart: Day, periodEnd: Day): LeaveRequest -> bool {
    (l: LeaveRequest) => l.startDate >= periodStart && l.endDate <= periodEnd && l.status == Approved
  }

  function LeaveLength(): LeaveRequest -> int {
    (l: LeaveRequest) => l.Duration()
  }

  function PeriodTerm(periodStart: Day, periodEnd: Day): LeaveRequest -> int {
    (l: LeaveRequest) => if CountedInPeriod(periodStart, periodEnd)(l) then l.Duration() else 0
  }

  function UserPeriodTerm(userId: int, periodStart: Day, periodEnd: Day): LeaveRequest -> int {
    (l: LeaveRequest) => if l.userId == userId then PeriodTerm(periodStart, periodEnd)(l) else 0
  }

  /** The days of the user's approved leave that lie wholly inside the period. */
  function LeaveDaysIn(requests: seq<LeaveRequest>, userId: int, periodStart: Day, periodEnd: Day): int {
    SumOf(requests, UserPeriodTerm(userId, periodStart, periodEnd))
  }

  /** `CreatePayroll`'s pay: the salary less the daily rate (a thirtieth of the
      salary) for each leave day; no deduction unless there are leave days. */
  function NetSalary(basicSalary: real, leaveDays: int): (net: real)
    ensures leaveDays <= 0 ==> net == basicSalary
    ensures leaveDays > 0 ==> net * (DaysPerMonth as real) == basicSalary * ((DaysPerMonth - leaveDays) as real)
  {
    var dailySalary := basicSalary / DaysPerMonth as real;
    var salaryDeduction := if leaveDays > 0 then dailySalary * leaveDays as real else 0.0;
    basicSalary - salaryDeduction
  }

  function ForUser(userId: int): Payroll -> bool {
    (p: Payroll) => p.userId == userId
  }

  /** Some stored payroll has the id. */
  ghost predicate Issued(payrolls: seq<Payroll>, id: int) {
    exists p :: p in payrolls && p.id == id
  }

  /** The acting user exists and may manage payroll. */
  ghost predicate MayManagePayroll(users: seq<User>, approverId: int) {
    Registered(users, approverId) && CanManagePayroll(Stored(users, approverId).role)
  }

  function NotAuthorized(approverId: int): Error {
    Unauthorized("Approver with ID " + IntToString(approverId) + " not authorized")
  }

  function NoPayrolls(userId: int): Error {
    KeyNotFound("No payrolls found for user with ID " + IntToString(userId))
  }

  class PayrollService {
    const payrollRepository: PayrollRepo.PayrollRepository
    const userRepository: UserRepo.UserRepository
    const leaveRequestRepository: LeaveRepo.LeaveRequestRepository
    const businessTripRepository: TripRepo.BusinessTripRepository

    constructor (payrollRepository: PayrollRepo.PayrollRepository, userRepository: UserRepo.UserRepository,
                 leaveRequestRepository: LeaveRepo.LeaveRequestRepository,
                 businessTripRepository: TripRepo.BusinessTripRepository)
      ensures this.payrollRepository == payrollRepository && this.userRepository == userRepository
      ensures this.leaveRequestRepository == leaveRequestRepository
      ensures this.businessTripRepository == businessTripRepository
    {
      this.payrollRepository := payrollRepository;
      this.userRepository := userRepository;
      this.leaveRequestRepository := leaveRequestRepository;
      this.businessTripRepository := businessTripRepository;
    }

    /** `CalculateLeaveDays`: the user's requests, those approved and inside
        the period, summed by length. */
    method CalculateLeaveDays(userId: int, periodStart: Day, periodEnd: Day) returns (leaveDays: int)
      ensures leaveDays == LeaveDaysIn(leaveRequestRepository.requests, userId, periodStart, periodEnd)
    {
      var mine := leaveRequestRepository.GetByUserId(userId);
      var counted := Keep(mine, CountedInPeriod(periodStart, periodEnd));
      leaveDays := SumOf(counted, LeaveLength());
      SumOfKeep(mine, CountedInPeriod(periodStart, periodEnd), LeaveLength(), PeriodTerm(periodStart, periodEnd));
      SumOfKeep(leaveRequestRepository.requests, LeaveRepo.ByUser(userId), PeriodTerm(periodStart, periodEnd),
                UserPeriodTerm(userId, periodStart, periodEnd));
    }

    /** `GeneratePayroll`: look the user up, count the leave days, and store an
        unpaid payroll under a fresh id, due a week from `now`. The period is
        not validated. */
    method GeneratePayroll(userId: int, periodStart: Day, periodEnd: Day, now: Day) returns (r: Result<Payroll>)
      modifies payrollRepository
      ensures r.Ok? <==> Registered(userRepository.users, userId)
      ensures r.Err? ==> r == Err(UserRepo.UserNotFound)
                         && payrollRepository.payrolls == old(payrollRepository.payrolls)
                         && payrollRepository.nextId == old(payrollRepository.nextId)
      ensures r.Ok? ==> payrollRepository.payrolls == old(payrollRepository.payrolls) + [r.value]
      ensures r.Ok? ==> !Issued(old(payrollRepository.payrolls), r.value.id)
      ensures r.Ok? ==>
                var salary := Stored(userRepository.users, userId).basicSalary;
                var days := LeaveDaysIn(leaveRequestRepository.requests, userId, periodStart, periodEnd);
                r.value == NewPayroll(now).(id := r.value.id, userId := userId, periodStart := periodStart,
                                            periodEnd := periodEnd, basicSalary := NetSalary(salary, days))
    {
      var user := userRepository.GetById(userId);
      if user.Err? {
        return Err(user.error);
      }
      var leaveDays := CalculateLeaveDays(userId, periodStart, periodEnd);
      var id := payrollRepository.GenerateId();
      var payroll := NewPayroll(now).(id := id, userId := user.value.id, periodStart := periodStart,
                                      periodEnd := periodEnd,
                                      basicSalary := NetSalary(user.value.basicSalary, leaveDays));
      payrollRepository.Add(payroll);
      return Ok(payroll);
    }

    /** `MarkAsPaid`: the approver is checked first, then the payroll is looked
        up; it becomes paid on day `now`, also when it already was. */
    method MarkAsPaid(payrollId: int, approverId: int, now: Day) returns (r: Outcome)
      modifies payrollRepository`payrolls
      ensures r.Ok? <==> MayManagePayroll(userRepository.users, approverId)
                         && Issued(old(payrollRepository.payrolls), payrollId)
      ensures r.Err? ==> payrollRepository.payrolls == old(payrollRepository.payrolls)
      ensures !Registered(userRepository.users, approverId) ==> r == Err(UserRepo.UserNotFound)
      ensures Registered(userRepository.users, approverId) && !MayManagePayroll(userRepository.users, approverId) ==>
                r == Err(NotAuthorized(approverId))
      ensures MayManagePayroll(userRepository.users, approverId) && r.Err? ==>
                r == Err(KeyNotFound("Business trip not found"))
      ensures r.Ok? ==> var k := PayrollRepo.IndexOf(old(payrollRepository.payrolls), payrollId);
                        payrollRepository.payrolls ==
                          old(payrollRepository.payrolls)[k := old(payrollRepository.payrolls)[k].(isPaid := true, paymentDate := now)]
    {
      var approver := userRepository.GetById(approverId);
      if approver.Err? {
        return Err(approver.error);
      }
      if !CanManagePayroll(approver.value.role) {
        return Err(NotAuthorized(approverId));
      }
      var payroll := payrollRepository.GetById(payrollId);
      if payroll.Err? {
        return Err(payroll.error);
      }
      r := payrollRepository.Update(payroll.value.(isPaid := true, paymentDate := now));
      assert r.Ok?;
    }

    /** `GetPayrollsByUserId`: the user's payrolls in order; `KeyNotFoundException` when there are none. */
    method GetPayrollsByUserId(userId: int) returns (r: Result<seq<Payroll>>)
      ensures r.Ok? <==> exists p :: p in payrollRepository.payrolls && p.userId == userId
      ensures r.Err? ==> r == Err(NoPayrolls(userId))
      ensures r.Ok? ==> forall p :: p in r.value <==> p in payrollRepository.payrolls && p.userId == userId
      ensures r.Ok? ==> multiset(r.value) <= multiset(payrollRepository.payrolls)
      ensures r.Ok? ==> r.value == Keep(payrollRepository.payrolls, ForUser(userId))
    {
      var all := payrollRepository.GetAll();
      var mine := Keep(all, ForUser(userId));
      if |mine| == 0 {
        assert forall p :: p in all ==> p !in mine;
        return Err(NoPayrolls(userId));
      }
      assert mine[0] in mine;
      return Ok(mine);
    }

    /** `GetPayrollsByPeriod`: an `ArgumentException` when the period ends before
        it starts, otherwise the payrolls whose period lies inside it. */
    method GetPayrollsByPeriod(start: Day, end: Day) returns (r: Result<seq<Payroll>>)
      ensures r.Ok? <==> start <= end
      ensures r.Err? ==> r == Err(Argument("Start date must be before end date"))
      ensures r.Ok? ==> forall p :: p in r.value <==> p in payrollRepository.payrolls
                                                      && start <= p.periodStart && p.periodEnd <= end
      ensures r.Ok? ==> multiset(r.value) <= multiset(payrollRepository.payrolls)
      ensures r.Ok? ==> r.value == Keep(payrollRepository.payrolls, PayrollRepo.WithinPeriod(start, end))
    {
      if start > end {
        return Err(Argument("Start date must be before end date"));
      }
      var found := payrollRepository.GetByPeriod(start, end);
      return Ok(found);
    }
  }

  /** A payroll never deducts more leave than the user has approved in total,
      as long as no approved leave ends before it starts. */
  lemma LeaveDaysWithinApproved(requests: seq<LeaveRequest>, userId: int, periodStart: Day, periodEnd: Day)
    requires forall l :: l in requests && l.status == Approved ==> l.startDate <= l.endDate
    ensures 0 <= LeaveDaysIn(requests, userId, periodStart, periodEnd) <= CoreLeave.ApprovedDays(requests, userId)
  {
    var counted := UserPeriodTerm(userId, periodStart, periodEnd);
    forall i | 0 <= i < |requests|
      ensures 0 <= counted(requests[i]) <= CoreLeave.ApprovedTerm(userId)(requests[i])
    {
      var l := requests[i];
      assert l in requests;
      assert PeriodTerm(periodStart, periodEnd)(l) == if CountedInPeriod(periodStart, periodEnd)(l) then l.Duration() else 0;
      assert counted(l) == if l.userId == userId then PeriodTerm(periodStart, periodEnd)(l) else 0;
      assert CoreLeave.ApprovedTerm(userId)(l) == if l.userId == userId && l.status == Approved then l.Duration() else 0;
    }
    SumOfMono(requests, (l: LeaveRequest) => 0, counted);
    SumOfZero(requests);
    SumOfMono(requests, counted, CoreLeave.ApprovedTerm(userId));
  }

  /** When every request lies inside the period, the payroll counts all of the
      user's approved leave. */
  lemma WholePeriodCountsAllApproved(requests: seq<LeaveRequest>, userId: int, periodStart: Day, periodEnd: Day)
    requires forall l :: l in requests ==> periodStart <= l.startDate && l.endDate <= periodEnd
    ensures LeaveDaysIn(requests, userId, periodStart, periodEnd) == CoreLeave.ApprovedDays(requests, userId)
  {
    var counted := UserPeriodTerm(userId, periodStart, periodEnd);
    forall i | 0 <= i < |requests|
      ensures counted(requests[i]) == CoreLeave.ApprovedTerm(userId)(requests[i])
    {
      var l := requests[i];
      assert l in requests;
      assert PeriodTerm(periodStart, periodEnd)(l) == if CountedInPeriod(periodStart, periodEnd)(l) then l.Duration() else 0;
      assert counted(l) == if l.userId == userId then PeriodTerm(periodStart, periodEnd)(l) else 0;
      assert CoreLeave.ApprovedTerm(userId)(l) == if l.userId == userId && l.status == Approved then l.Duration() else 0;
    }
    SumOfMono(requests, counted, CoreLeave.ApprovedTerm(userId));
    SumOfMono(requests, CoreLeave.ApprovedTerm(userId), counted);
  }

  lemma {:induction false} SumOfZero(requests: seq<LeaveRequest>)
    ensures SumOf(requests, (l: LeaveRequest) => 0) == 0
  {
    if requests != [] {
      SumOfZero(requests[1..]);
    }
  }

  /** Each further day of leave lowers the pay by the same daily rate, so for
      a non-negative salary more leave never pays more; up to a full month of
      leave the pay stays between zero and the salary, and beyond that it is
      negative, as nothing caps the deduction. */
  lemma NetSalaryByLeave(basicSalary: real, d1: int, d2: int)
    requires basicSalary >= 0.0 && 0 <= d1 <= d2
    ensures NetSalary(basicSalary, d2) <= NetSalary(basicSalary, d1)
    ensures d2 <= DaysPerMonth ==> 0.0 <= NetSalary(basicSalary, d2) <= basicSalary
    ensures d2 > DaysPerMonth && basicSalary > 0.0 ==> NetSalary(basicSalary, d2) < 0.0
  {
    var rate := basicSalary / 30.0;
    var x1, x2 := d1 as real, d2 as real;
    NetSalaryLinear(basicSalary, d1);
    NetSalaryLinear(basicSalary, d2);
    MulMono(rate, x1, x2);
    MulMono(rate, 0.0, x2);
    assert NetSalary(basicSalary, d1) == basicSalary - rate * x1;
    assert NetSalary(basicSalary, d2) == basicSalary - rate * x2;
    assert NetSalary(basicSalary, d2) <= NetSalary(basicSalary, d1);
    if d2 <= DaysPerMonth {
      MulMono(rate, d2 as real, 30.0);
    }
    if d2 > DaysPerMonth && basicSalary > 0.0 {
      MulStrictMono(rate, 30.0, d2 as real);
    }
  }

  lemma NetSalaryLinear(basicSalary: real, d: int)
    requires d >= 0
    ensures NetSalary(basicSalary, d) == basicSalary - (basicSalary / 30.0) * (d as real)
    ensures (basicSalary / 30.0) * 30.0 == basicSalary
  {
  }

  lemma MulMono(c: real, x: real, y: real)
    requires c >= 0.0 && x <= y
    ensures c * x <= c * y
  {
    assert c * y - c * x == c * (y - x);
  }

  lemma MulStrictMono(c: real, x: real, y: real)
    requires c > 0.0 && x < y
    ensures c * x < c * y
  {
    assert c * y - c * x == c * (y - x);
  }
}
