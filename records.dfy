/** The records of CoreLibrary/ModelLib. C# classes whose objects the services
    modify in place and then write back with the repository's `Update`; here
    they are values, and the write-back replaces the stored value.

    Every date and time is a whole day number: `StartDate`, `EndDate`,
    `PeriodStart` and `PeriodEnd` are calendar days, and `DateTime.Now` is the
    day number `now` given by the caller. */
module Records {
  import opened Roles

  type Day = int

  /** The annual leave allotment a new user starts with. */
  const DefaultLeaveDays: int := 12

  /** Days between construction of a payroll and its default payment date. */
  const PaymentDelay: int := 7

  datatype User = User(
    id: int,
    name: string,
    email: string,
    password: string,
    role: Role,
    joinDate: Day,
    remainingLeaveDays: int,
    basicSalary: real)

  datatype LeaveRequest = LeaveRequest(
    id: int,
    userId: int,
    startDate: Day,
    endDate: Day,
    description: string,
    status: RequestStatus,
    requestDate: Day,
    approverId: int,
    approvalDate: Day,
    rejectionReason: string)
  {
    /** The derived, inclusive length of the leave in days. */
    function Duration(): int {
      (endDate - startDate) + 1
    }
  }

  datatype BusinessTrip = BusinessTrip(
    id: int,
    userId: int,
    destination: string,
    startDate: Day,
    endDate: Day,
    purpose: string,
    status: RequestStatus,
    estimatedCost: real,
    actualCost: real,
    approverId: int,
    rejectionReason: string,
    requestDate: Day,
    approvalDate: Day)

  datatype Payroll = Payroll(
    id: int,
    userId: int,
    periodStart: Day,
    periodEnd: Day,
    basicSalary: real,
    isPaid: bool,
    paymentDate: Day)

  /** `default(DateTime)`, the value of a date nobody assigned. */
  const NoDate: Day := 0

  /** `new User { Email = email, Password = password }` at day `now`. */
  function NewUser(email: string, password: string, now: Day): (u: User)
    ensures u.email == email && u.password == password
    ensures u.id == 0 && u.name == "" && u.role == Employee && u.joinDate == now
    ensures u.remainingLeaveDays == DefaultLeaveDays && u.basicSalary == 0.0
  {
    User(0, "", email, password, Employee, now, DefaultLeaveDays, 0.0)
  }

  /** `new LeaveRequest()` at day `now`: pending, undecided, with an empty reason. */
  function NewLeaveRequest(now: Day): (l: LeaveRequest)
    ensures l.status == Pending && l.approverId == 0 && l.rejectionReason == ""
    ensures l.description == "" && l.requestDate == now && l.approvalDate == now
  {
    LeaveRequest(0, 0, NoDate, NoDate, "", Pending, now, 0, now, "")
  }

  /** `new BusinessTrip()` at day `now`: pending, with no costs and no decision. */
  function NewBusinessTrip(now: Day): (t: BusinessTrip)
    ensures t.status == Pending && t.estimatedCost == 0.0 && t.actualCost == 0.0
    ensures t.approverId == 0 && t.rejectionReason == "" && t.requestDate == now
    ensures t.approvalDate == NoDate
  {
    BusinessTrip(0, 0, "", NoDate, NoDate, "", Pending, 0.0, 0.0, 0, "", now, NoDate)
  }

  /** `new Payroll()` at day `now`: unpaid, zero salary, paid a week later. */
  function NewPayroll(now: Day): (p: Payroll)
    ensures !p.isPaid && p.basicSalary == 0.0 && p.paymentDate == now + PaymentDelay
  {
    Payroll(0, 0, NoDate, NoDate, 0.0, false, now + PaymentDelay)
  }

  /** A leave that starts and ends on the same day lasts one day, and each day
      the end moves later lengthens the leave by one day. */
  lemma DurationCountsBothEnds(l: LeaveRequest, d: Day)
    ensures l.(endDate := l.startDate).Duration() == 1
    ensures l.(endDate := l.endDate + d).Duration() == l.Duration() + d
    ensures l.Duration() >= 1 <==> l.startDate <= l.endDate
  {
  }
}
