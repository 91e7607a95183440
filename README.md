# HR request lifecycle, modelled in Dafny

This project models the core of an HR back office written in C#:

- Employees file leave requests and business-trip requests.
- Approvers (Supervisors and SysAdmins) approve or reject them.
- Approved leave is taken off the employee's leave balance.
- Payroll pays the basic salary less a thirtieth of it for each approved leave day inside the period.
- HRD and SysAdmin manage user accounts.

Everything sits on in-memory, list-backed repositories (CoreLibrary). Beside that engine, the model covers:

- a small library with a generic table-driven state machine, a message lookup with a language prefix, a day counter and three tiny stores (MainLibrary);
- a leave-request store that numbers requests with a counter (WebAPI);
- two list-backed user stores (WebAPI);
- a console leave-submission handler driven by a status-message table (HRLeaveApplication).

How the C# becomes Dafny:

- **Repositories and services are classes.** A repository holds its list as a `seq` field and is changed in place by its methods. A service holds references to the repositories it uses.
- **Records are value datatypes.** The C# services look an object up, change its fields and write it back with the repository's `Update`. The model builds the changed value and passes it to `Update`. Both pick the first element with the id, so the result is the same.
- **Exceptions are results.** Each exception kind is a separate error constructor of `Result`: `KeyNotFound`, `Argument`, `InvalidOperation` and `Unauthorized`.
- **Time is a parameter.** Dates are whole day numbers, and `DateTime.Now`/`Today` are passed in as `now`/`today`.
- **Money is exact.** `decimal` becomes `real`.
- **List methods become recursive functions.** `FindIndex`/`FirstOrDefault`, `Where`, `RemoveAll`, `Any` and `Sum` are functions in module `Lists` (`FirstIndex`, `Keep`, `Drop`, `Any`, `SumOf`), each with its own contract.

Files:

| file | module | models |
|---|---|---|
| errors.dfy | `Errors` | the exception kinds, `Result`, `Option` |
| lists.dfy | `Lists` | the list operations the stores use |
| text.dfy | `Text` | ordinal case-insensitive comparison, integer formatting |
| roles.dfy | `Roles` | CoreLibrary/MainLib.cs |
| records.dfy | `Records` | CoreLibrary/ModelLib/*.cs |
| user_repo.dfy, leave_repo.dfy, trip_repo.dfy, payroll_repo.dfy | `UserRepo`, `LeaveRepo`, `TripRepo`, `PayrollRepo` | CoreLibrary/Repository/*.cs |
| user_service.dfy | `CoreUsers` | CoreLibrary/Service/UserService.cs |
| leave_service.dfy | `CoreLeave` | CoreLibrary/Service/LeaveService.cs |
| trip_service.dfy | `CoreTrips` | CoreLibrary/Service/BusinessService.cs |
| payroll_service.dfy | `CorePayroll` | CoreLibrary/Service/PayrollService.cs |
| main_library.dfy | `MainLibrary` | MainLibrary/Core.cs |
| webapi_leave.dfy | `WebApiLeaveRequests` | WebAPI/Services/LeaveRequestService.cs |
| webapi_users.dfy | `WebApiUsers` | WebAPI/Services/UserService.cs |
| webapi_seeded_users.dfy | `WebApiSeededUsers` | WebAPI/Service/UserService.cs |
| hr_leave.dfy | `HrLeave` | HRLeaveApplication/HRLeaveApplication/PengajuanHandler.cs |

The model keeps the code's behaviour as written, including these quirks:

- **Every repository `Delete` reports the wrong case.** The test `count !> 0` reads as `count > 0`, so it reports `KeyNotFoundException` after it removed something and succeeds when it removed nothing.
- **Trips can be decided again.** A trip decision does not check the current status, so a decided trip can be decided again.
- **The leave balance is not re-checked at approval,** so it can go negative.
- **Payroll has no travel allowance.**
- **A rejection reason may be empty.**
- **`MarkAsPaid` marks an already paid payroll again** and only moves the payment date.
- **The payroll repository's `GetById` reports "Business trip not found".**
- **The two WebAPI stores treat ids differently.** The integer-keyed user store hands out the largest id plus one, so a deleted newest id is given again (`WebApiUsers.NewestIdReused`). The leave-request store's counter never reuses an id.

## Model

| member | source | states |
|---|---|---|
| Roles.CapabilityHolders | CoreLibrary/MainLib.cs:9-12 | user management is granted exactly to HRD and SysAdmin, leave and trip approval to Supervisor and SysAdmin, payroll to Finance and SysAdmin |
| Roles.TripApprovalIsLeaveApproval | CoreLibrary/MainLib.cs:10-11 | approving trips and approving leave are granted to the same roles |
| Roles.SysAdminAllEmployeeNone | CoreLibrary/MainLib.cs:9-12 | SysAdmin holds all four capabilities, Employee none |
| Roles.AllRolesListed | CoreLibrary/MainLib.cs:5 | the five roles are all the roles there are |
| Records.NewUser | CoreLibrary/ModelLib/UserModel.cs:3-13 | a new user has an empty name, role Employee, 12 leave days, salary 0 and joins on the current day |
| Records.NewLeaveRequest | CoreLibrary/ModelLib/LeaveModel.cs:3-16 | a new leave request is Pending, has approver 0 and an empty rejection reason, and is requested on the current day |
| Records.NewBusinessTrip | CoreLibrary/ModelLib/BusinessModel.cs:3-18 | a new trip is Pending with estimated and actual cost 0, approver 0 and an empty reason |
| Records.NewPayroll | CoreLibrary/ModelLib/PayrollModel.cs:3-12 | a new payroll is unpaid, has salary 0 and is due 7 days after construction |
| Records.DurationCountsBothEnds | CoreLibrary/ModelLib/LeaveModel.cs:15 | a one-day leave lasts 1 day; moving the end by d days changes the derived duration by d; the duration is positive exactly when start <= end |
| Text.SameIgnoringCaseCharwise | CoreLibrary/Repository/UserRepo.cs:109 | two strings are equal ignoring case iff they have the same length and agree character by character after upper-casing |
| Text.UpperIdempotent | CoreLibrary/Repository/UserRepo.cs:109 | upper-casing twice equals upper-casing once, so a string equals its capitals ignoring case |
| Text.SameIgnoringCaseExamples | CoreLibrary/Repository/UserRepo.cs:109 | the comparison is reflexive, ignores case, and still tells different strings apart |
| Text.NatToStringRoundTrip | CoreLibrary/Service/PayrollService.cs:63 | the id written into an error message reads back as the same number |
| UserRepo.UserRepository.constructor | CoreLibrary/Repository/UserRepo.cs:9 | the repository starts empty |
| UserRepo.UserRepository.GetAll | CoreLibrary/Repository/UserRepo.cs:13-20 | returns the stored list |
| UserRepo.UserRepository.GetById | CoreLibrary/Repository/UserRepo.cs:22-35 | the first user with the id; KeyNotFound "User not found" iff none has it |
| UserRepo.UserRepository.GetByEmail | CoreLibrary/Repository/UserRepo.cs:37-50 | the first user whose email equals the argument ignoring case; KeyNotFound iff none |
| UserRepo.UserRepository.EmailCheck | CoreLibrary/Repository/UserRepo.cs:104-111 | true iff some stored email equals the argument ignoring case |
| UserRepo.UserRepository.Add | CoreLibrary/Repository/UserRepo.cs:52-65 | InvalidOperation and no change iff the email is taken ignoring case, otherwise appends; keeps emails unique ignoring case |
| UserRepo.UserRepository.Update | CoreLibrary/Repository/UserRepo.cs:67-84 | replaces exactly the first user with the id; KeyNotFound and no change iff none has it |
| UserRepo.UserRepository.Delete | CoreLibrary/Repository/UserRepo.cs:86-102 | removes every user with the id; fails with KeyNotFound exactly when it removed one |
| UserRepo.UserRepository.GenerateId | CoreLibrary/Service/UserService.cs:26 | returns an id no stored user has, and never the same id twice |
| LeaveRepo.LeaveRequestRepository.constructor | CoreLibrary/Repository/LeaveRepo.cs:9 | the repository starts empty |
| LeaveRepo.LeaveRequestRepository.GetAll | CoreLibrary/Repository/LeaveRepo.cs:13-20 | returns the stored list |
| LeaveRepo.LeaveRequestRepository.GetById | CoreLibrary/Repository/LeaveRepo.cs:22-35 | the first request with the id; KeyNotFound "Leave request not found" iff none has it |
| LeaveRepo.LeaveRequestRepository.GetByUserId | CoreLibrary/Repository/LeaveRepo.cs:37-44 | exactly the user's requests, in order, possibly none |
| LeaveRepo.LeaveRequestRepository.GetPendingRequests | CoreLibrary/Repository/LeaveRepo.cs:46-53 | exactly the pending requests, in order |
| LeaveRepo.LeaveRequestRepository.Add | CoreLibrary/Repository/LeaveRepo.cs:55-63 | appends, without checking the id |
| LeaveRepo.LeaveRequestRepository.Update | CoreLibrary/Repository/LeaveRepo.cs:65-82 | replaces exactly the first request with the id; KeyNotFound and no change iff none has it |
| LeaveRepo.LeaveRequestRepository.Delete | CoreLibrary/Repository/LeaveRepo.cs:84-100 | removes every request with the id; fails with KeyNotFound "Request not found" exactly when it removed one |
| LeaveRepo.LeaveRequestRepository.GenerateId | CoreLibrary/Service/LeaveService.cs:117 | returns an id no stored request has, and never the same id twice |
| TripRepo.BusinessTripRepository.constructor | CoreLibrary/Repository/BusinessRepo.cs:9 | the repository starts empty |
| TripRepo.BusinessTripRepository.GetAll | CoreLibrary/Repository/BusinessRepo.cs:13-20 | returns the stored list |
| TripRepo.BusinessTripRepository.GetById | CoreLibrary/Repository/BusinessRepo.cs:22-35 | the first trip with the id; KeyNotFound "Business trip not found" iff none has it |
| TripRepo.BusinessTripRepository.GetByUserId | CoreLibrary/Repository/BusinessRepo.cs:37-50 | exactly the user's trips, in order; KeyNotFound iff the user has none |
| TripRepo.BusinessTripRepository.GetPendingRequests | CoreLibrary/Repository/BusinessRepo.cs:52-59 | exactly the pending trips, in order |
| TripRepo.BusinessTripRepository.Add | CoreLibrary/Repository/BusinessRepo.cs:61-69 | appends unconditionally |
| TripRepo.BusinessTripRepository.Update | CoreLibrary/Repository/BusinessRepo.cs:71-88 | replaces exactly the first trip with the id; KeyNotFound and no change iff none has it |
| TripRepo.BusinessTripRepository.Delete | CoreLibrary/Repository/BusinessRepo.cs:90-106 | removes every trip with the id; fails with KeyNotFound exactly when it removed one |
| TripRepo.BusinessTripRepository.GenerateId | CoreLibrary/Service/BusinessService.cs:145 | returns an id no stored trip has, and never the same id twice |
| PayrollRepo.PayrollRepository.constructor | CoreLibrary/Repository/PayrollRepo.cs:9 | the repository starts empty |
| PayrollRepo.PayrollRepository.GetAll | CoreLibrary/Repository/PayrollRepo.cs:13-20 | returns the stored list |
| PayrollRepo.PayrollRepository.GetById | CoreLibrary/Repository/PayrollRepo.cs:22-35 | the first payroll with the id; KeyNotFound (with the trip message) iff none has it |
| PayrollRepo.PayrollRepository.GetByPeriod | CoreLibrary/Repository/PayrollRepo.cs:37-44 | exactly the payrolls with start >= s and end <= e, in order |
| PayrollRepo.PayrollRepository.Add | CoreLibrary/Repository/PayrollRepo.cs:46-54 | appends unconditionally, so equal periods can repeat |
| PayrollRepo.PayrollRepository.Update | CoreLibrary/Repository/PayrollRepo.cs:56-73 | replaces exactly the first payroll with the id; KeyNotFound and no change iff none has it |
| PayrollRepo.PayrollRepository.Delete | CoreLibrary/Repository/PayrollRepo.cs:75-91 | removes every payroll with the id; fails with KeyNotFound exactly when it removed one |
| PayrollRepo.PayrollRepository.GenerateId | CoreLibrary/Service/PayrollService.cs:132 | returns an id no stored payroll has, and never the same id twice |
| CoreUsers.ValidateRegistration | CoreLibrary/Service/UserService.cs:145-168 | succeeds iff the name and email are non-empty, the email is not taken ignoring case, the password has at least 8 characters and the salary is not negative; every failure is an ArgumentException |
| CoreUsers.ValidateNewPassword | CoreLibrary/Service/UserService.cs:74-79 | a new password passes iff it has at least 8 characters; otherwise ArgumentException |
| CoreUsers.UserService.constructor | CoreLibrary/Service/UserService.cs:12-16 | the service works on the given repository |
| CoreUsers.UserService.Register | CoreLibrary/Service/UserService.cs:18-37 | on a validation failure stores nothing and reports it; otherwise appends exactly one user with the given fields, 12 leave days and an unused id; keeps emails unique |
| CoreUsers.UserService.Authenticate | CoreLibrary/Service/UserService.cs:39-51 | returns the first stored user whose email matches ignoring case, exactly as the repository's first-match lookup finds it, iff its password is equal; otherwise KeyNotFound |
| CoreUsers.UserService.GetAllUser | CoreLibrary/Service/UserService.cs:53-57 | returns the stored users |
| CoreUsers.UserService.GetUserById | CoreLibrary/Service/UserService.cs:59 | the stored user with the id, or KeyNotFound |
| CoreUsers.UserService.ValidateAdminPermission | CoreLibrary/Service/UserService.cs:183-191 | passes iff the actor exists and may manage users; KeyNotFound for an unknown actor, ArgumentException otherwise |
| CoreUsers.UserService.UpdateUserProfile | CoreLibrary/Service/UserService.cs:61-70 | an empty name or email is an ArgumentException; otherwise only name and email of the user change, with no uniqueness check |
| CoreUsers.UserService.ChangePassword | CoreLibrary/Service/UserService.cs:72-92 | the new password is checked before the lookup; a wrong current password is an ArgumentException with no change; otherwise only the password changes |
| CoreUsers.UserService.DeleteUserAccount | CoreLibrary/Service/UserService.cs:94-99 | after the permission check removes every user with the id, and reports KeyNotFound exactly when one existed |
| CoreUsers.UserService.ChangeRole | CoreLibrary/Service/UserService.cs:101-116 | an unknown admin or an unknown target is KeyNotFound, an admin without user management rights is ArgumentException "Role SysAdmin needed", a role already held is ArgumentException "User Role already satisfied", each with no change; otherwise only the role changes |
| CoreUsers.UserService.UpdateSalary | CoreLibrary/Service/UserService.cs:118-127 | an unknown approver is KeyNotFound, one without rights an ArgumentException, an unknown target KeyNotFound; otherwise only the salary changes, with no sign check |
| CoreUsers.UserService.UpdateUser | CoreLibrary/Service/UserService.cs:129-141 | copies name, email, password, role and leave balance; salary and join date stay; KeyNotFound and no change for an unknown id |
| CoreLeave.ValidateLeaveDates | CoreLibrary/Service/LeaveService.cs:87-100 | passes iff today <= start <= end; otherwise ArgumentException |
| CoreLeave.ValidateAvailableLeaveDays | CoreLibrary/Service/LeaveService.cs:105-112 | passes iff the duration is within the balance; otherwise "User does not have enough leave days" |
| CoreLeave.WithDecision | CoreLibrary/Service/LeaveService.cs:152-164 | sets status, approver and decision day, and the reason only on rejection; nothing else of the request changes |
| CoreLeave.LeaveService.constructor | CoreLibrary/Service/LeaveService.cs:13-18 | the service works on the given repository and user service |
| CoreLeave.LeaveService.SubmitRequest | CoreLibrary/Service/LeaveService.cs:20-37 | dates, then user, then balance, each with its own error and no change on failure; on success appends one pending request with the given fields under an unused id; never adds a cancelled request |
| CoreLeave.LeaveService.ValidateApprover | CoreLibrary/Service/LeaveService.cs:126-137 | passes iff the approver exists and may approve leave; KeyNotFound, else InvalidOperation "User is not an approver" |
| CoreLeave.LeaveService.GetAndValidatePendingRequest | CoreLibrary/Service/LeaveService.cs:139-150 | the stored request iff it exists and is pending; KeyNotFound, else InvalidOperation "Leave request is not pending" |
| CoreLeave.LeaveService.ApproveRequest | CoreLibrary/Service/LeaveService.cs:39-51 | approver first, then pending request, then requester (KeyNotFound when the requester is no longer registered), with no change on any failure; on success the request is approved and the requester's balance drops by exactly its duration, unchecked |
| CoreLeave.LeaveService.RejectRequest | CoreLibrary/Service/LeaveService.cs:53-63 | approver, then pending request; on success the request is rejected with the reason, whatever it is, and no balance changes |
| CoreLeave.LeaveService.GetAllRequests | CoreLibrary/Service/LeaveService.cs:65-69 | returns the stored requests |
| CoreLeave.LeaveService.GetPendingRequest | CoreLibrary/Service/LeaveService.cs:71-75 | exactly the pending requests, in stored order with repeats kept (the repository's filter) |
| CoreLeave.LeaveService.GetById | CoreLibrary/Service/LeaveService.cs:77 | the stored request with the id, or KeyNotFound |
| CoreLeave.LeaveService.GetByUserId | CoreLibrary/Service/LeaveService.cs:79-85 | exactly the user's requests, in stored order with repeats kept (the repository's filter) |
| CoreLeave.LeaveBalanceConserved | CoreLibrary/Service/LeaveService.cs:166-170 | approval moves days from the requester's balance to their approved leave: balance plus approved days stays the same for every user |
| CoreLeave.RejectionKeepsApprovedDays | CoreLibrary/Service/LeaveService.cs:53-63 | rejecting a pending request changes nobody's approved leave |
| CoreLeave.SubmissionKeepsApprovedDays | CoreLibrary/Service/LeaveService.cs:114-124 | filing a pending request changes nobody's approved leave |
| CoreLeave.DecisionIsFinal | CoreLibrary/Service/LeaveService.cs:139-150 | after a decision the request is no longer pending, so a second decision is refused and nothing is deducted twice |
| CoreLeave.NeverCancelled | CoreLibrary/MainLib.cs:4 | filing and deciding never produce a cancelled request |
| CoreTrips.ValidateTripDates | CoreLibrary/Service/BusinessService.cs:105-118 | passes iff today <= start <= end; otherwise ArgumentException |
| CoreTrips.ValidateCost | CoreLibrary/Service/BusinessService.cs:120-127 | passes iff the cost is not negative; otherwise "Cost cannot be negative" |
| CoreTrips.WithDecision | CoreLibrary/Service/BusinessService.cs:182-194 | sets status, approver and decision day, and the reason only on rejection; nothing else of the trip changes |
| CoreTrips.BusinessTripService.constructor | CoreLibrary/Service/BusinessService.cs:13-18 | the service works on the given repositories |
| CoreTrips.BusinessTripService.SubmitRequest | CoreLibrary/Service/BusinessService.cs:20-35 | dates, then cost, then user, with no change on failure; on success appends one pending trip with the given fields, actual cost 0 and an unused id; keeps costs non-negative and adds no cancelled trip |
| CoreTrips.BusinessTripService.ValidateApprover | CoreLibrary/Service/BusinessService.cs:169-180 | passes iff the approver exists and may approve trips; KeyNotFound, else Unauthorized "Approver not authorized" |
| CoreTrips.BusinessTripService.Decide | CoreLibrary/Service/BusinessService.cs:182-194 | trip first, then approver, with no change on failure; on success the trip gets the new status whatever its current one |
| CoreTrips.BusinessTripService.ApproveRequest | CoreLibrary/Service/BusinessService.cs:37-47 | the trip is approved, keeping its rejection reason; an unknown trip is KeyNotFound, then an unknown approver KeyNotFound, then an approver without rights Unauthorized "Approver not authorized", each with no change |
| CoreTrips.BusinessTripService.RejectRequest | CoreLibrary/Service/BusinessService.cs:49-59 | the trip is rejected with the reason; an unknown trip is KeyNotFound, then an unknown approver KeyNotFound, then an approver without rights Unauthorized "Approver not authorized", each with no change |
| CoreTrips.BusinessTripService.UpdateActualCost | CoreLibrary/Service/BusinessService.cs:61-72 | KeyNotFound for an unknown trip, then ArgumentException for a negative amount; otherwise only the actual cost changes, whatever the status |
| CoreTrips.BusinessTripService.GetAllTrips | CoreLibrary/Service/BusinessService.cs:74-78 | returns the stored trips |
| CoreTrips.BusinessTripService.GetPendingRequests | CoreLibrary/Service/BusinessService.cs:80-84 | exactly the pending trips, in stored order with repeats kept |
| CoreTrips.BusinessTripService.GetTripById | CoreLibrary/Service/BusinessService.cs:86 | the stored trip with the id, or KeyNotFound |
| CoreTrips.BusinessTripService.GetByUserId | CoreLibrary/Service/BusinessService.cs:88-101 | exactly the user's trips, in stored order; KeyNotFound iff there are none |
| CoreTrips.RedecisionOverrides | CoreLibrary/Service/BusinessService.cs:182-194 | a decided trip can be decided again and then carries the second status |
| CoreTrips.DecisionKeepsCosts | CoreLibrary/Service/BusinessService.cs:182-194 | a decision changes no cost, id or owner of any trip |
| CoreTrips.NeverCancelled | CoreLibrary/MainLib.cs:4 | filing and deciding never produce a cancelled trip |
| CorePayroll.NetSalary | CoreLibrary/Service/PayrollService.cs:125-140 | with no leave the pay is the salary; with d days it is salary times (30 - d) / 30 |
| CorePayroll.NetSalaryLinear | CoreLibrary/Service/PayrollService.cs:125-140 | the pay is the salary less the daily rate (salary / 30) times the leave days |
| CorePayroll.NetSalaryByLeave | CoreLibrary/Service/PayrollService.cs:125-140 | more leave never raises the pay; up to 30 days it stays between 0 and the salary; beyond 30 days it goes negative |
| CorePayroll.PayrollService.constructor | CoreLibrary/Service/PayrollService.cs:15-27 | the service works on the given repositories |
| CorePayroll.PayrollService.CalculateLeaveDays | CoreLibrary/Service/PayrollService.cs:111-123 | the sum of the durations of the user's approved requests lying wholly inside the period |
| CorePayroll.PayrollService.GeneratePayroll | CoreLibrary/Service/PayrollService.cs:29-42 | KeyNotFound and no change for an unknown user; otherwise appends one unpaid payroll under an unused id with the net salary, even for a repeated or reversed period |
| CorePayroll.PayrollService.MarkAsPaid | CoreLibrary/Service/PayrollService.cs:44-54 | approver first, then payroll, with no change on failure; on success only paid and payment date change, even if already paid |
| CorePayroll.PayrollService.GetPayrollsByUserId | CoreLibrary/Service/PayrollService.cs:56-72 | exactly the user's payrolls, in stored order; KeyNotFound with the user's id iff there are none |
| CorePayroll.PayrollService.GetPayrollsByPeriod | CoreLibrary/Service/PayrollService.cs:74-96 | ArgumentException iff start > end; otherwise exactly the payrolls inside the period, in stored order |
| CorePayroll.LeaveDaysWithinApproved | CoreLibrary/Service/PayrollService.cs:111-123 | the leave days a payroll deducts are never negative and never exceed the user's total approved leave |
| CorePayroll.WholePeriodCountsAllApproved | CoreLibrary/Service/PayrollService.cs:111-123 | when every request lies inside the period, the payroll counts all of the user's approved leave |
| MainLibrary.StateMachine.constructor | MainLibrary/Core.cs:52 | a new machine is in its initial state with no transitions |
| MainLibrary.StateMachine.Configure | MainLibrary/Core.cs:54-55 | the pair (state, trigger) now leads to the next state, replacing any earlier entry |
| MainLibrary.StateMachine.Trigger | MainLibrary/Core.cs:57-65 | returns true and moves iff the pair is configured; otherwise returns false and stays |
| MainLibrary.ConfigureThenStep | MainLibrary/Core.cs:54-63 | after configuring a pair, firing it reaches the configured state and every other pair behaves as before |
| MainLibrary.RunConcat | MainLibrary/Core.cs:57-65 | firing triggers in two runs ends where firing them in one run does |
| MainLibrary.TerminalStateAbsorbs | MainLibrary/Core.cs:57-65 | a state with no configured transition is never left |
| MainLibrary.Translate | MainLibrary/Core.cs:163-167 | the entry for lang_key when present, otherwise the key itself |
| MainLibrary.TranslateLanguages | MainLibrary/Core.cs:157-167 | Indonesian is the default; in both languages exactly SUBMIT_SUCCESS is translated |
| MainLibrary.CalculateDays | MainLibrary/Core.cs:152 | the inclusive day count: at least 1 exactly when start is not after end, and 1 for a single day |
| MainLibrary.CalculateDaysIsDuration | MainLibrary/Core.cs:152 | agrees with CoreLibrary's leave duration, and counts a single day as one |
| MainLibrary.UserService.constructor | MainLibrary/Core.cs:115-117 | the store starts empty |
| MainLibrary.UserService.Add | MainLibrary/Core.cs:118 | stores the user under its id, replacing any earlier one; keeps every user under its own id |
| MainLibrary.UserService.Find | MainLibrary/Core.cs:119 | the user stored under the id, or nothing |
| MainLibrary.LeaveService.constructor | MainLibrary/Core.cs:122-124 | the list starts empty |
| MainLibrary.LeaveService.Submit | MainLibrary/Core.cs:125 | appends the request as Pending whatever status it came with |
| MainLibrary.TripService.constructor | MainLibrary/Core.cs:128-130 | the list starts empty |
| MainLibrary.TripService.Submit | MainLibrary/Core.cs:131 | appends the trip as Pending whatever status it came with |
| MainLibrary.CalculateSlip | MainLibrary/Core.cs:136-146 | the slip carries the id and is dated now |
| MainLibrary.SlipIgnoresEmployee | MainLibrary/Core.cs:136-146 | every employee gets the same fixed slip, with a deduction below the base salary |
| WebApiLeaveRequests.LeaveRequestService.constructor | WebAPI/Services/LeaveRequestService.cs:7-8 | no requests, counter at 1 |
| WebApiLeaveRequests.LeaveRequestService.GetAllLeaveRequests | WebAPI/Services/LeaveRequestService.cs:10 | returns the stored list |
| WebApiLeaveRequests.LeaveRequestService.GetLeaveRequestById | WebAPI/Services/LeaveRequestService.cs:12 | the first request with the id, or nothing iff none has it |
| WebApiLeaveRequests.LeaveRequestService.Create | WebAPI/Services/LeaveRequestService.cs:14-22 | the request gets the counter's id, which is fresh, at least 1 and above every stored id; status Pending; appended; counter advances |
| WebApiLeaveRequests.LeaveRequestService.Update | WebAPI/Services/LeaveRequestService.cs:24-37 | nothing iff the id is missing; otherwise copies employee, type, dates and reason, keeping id, status and notes |
| WebApiLeaveRequests.LeaveRequestService.Delete | WebAPI/Services/LeaveRequestService.cs:39-44 | false iff the id is missing; otherwise removes that request, after which no request has the id |
| WebApiLeaveRequests.LeaveRequestService.Decide | WebAPI/Services/LeaveRequestService.cs:46-68 | nothing iff the id is missing; otherwise sets status and notes whatever the current status |
| WebApiLeaveRequests.LeaveRequestService.Approve | WebAPI/Services/LeaveRequestService.cs:46-56 | as Decide with status "Approved" |
| WebApiLeaveRequests.LeaveRequestService.Reject | WebAPI/Services/LeaveRequestService.cs:58-68 | as Decide with status "Rejected" |
| Lists.RemoveAtKeepsIncreasing | WebAPI/Services/LeaveRequestService.cs:43 | removing one element keeps ids increasing and leaves no element with the removed id |
| WebApiUsers.MaxId | WebAPI/Services/UserService.cs:15 | the largest id: an id in use that no id exceeds |
| WebApiUsers.NextUserId | WebAPI/Services/UserService.cs:15 | 1 for an empty store, otherwise the least number above every id in use |
| WebApiUsers.NewestIdReused | WebAPI/Services/UserService.cs:13-18 | after adding a user and deleting it again, the next id is the one just freed |
| WebApiUsers.UserService.constructor | WebAPI/Services/UserService.cs:7 | the store starts empty |
| WebApiUsers.UserService.GetAllUsers | WebAPI/Services/UserService.cs:9 | returns the stored list |
| WebApiUsers.UserService.GetUserById | WebAPI/Services/UserService.cs:11 | the first user with the id, or nothing iff none has it |
| WebApiUsers.UserService.AddUser | WebAPI/Services/UserService.cs:13-18 | appends exactly one user whose id is above every existing id, and lookup by that id finds it; keeps ids increasing |
| WebApiUsers.UserService.UpdateUser | WebAPI/Services/UserService.cs:20-33 | nothing iff the id is missing; otherwise copies name, username, password, department and role, keeping the id |
| WebApiUsers.UserService.DeleteUser | WebAPI/Services/UserService.cs:35-40 | false iff the id is missing; otherwise removes that user, after which no user has the id |
| WebApiSeededUsers.Seed | WebAPI/Service/UserService.cs:9-20 | the seeded user has id "1", the test email, role Employee and is active |
| WebApiSeededUsers.ExistsIsCaseSensitive | WebAPI/Service/UserService.cs:36 | the seeded email in capitals does not exist here, though it is equal ignoring case |
| WebApiSeededUsers.UserService.constructor | WebAPI/Service/UserService.cs:9-20 | the store holds exactly the seeded user |
| WebApiSeededUsers.UserService.GetUserById | WebAPI/Service/UserService.cs:22 | the first user with the id, or nothing iff none has it |
| WebApiSeededUsers.UserService.GetAllUsers | WebAPI/Service/UserService.cs:24 | returns the stored list |
| WebApiSeededUsers.UserService.AddUser | WebAPI/Service/UserService.cs:26 | appends without any check, after which the email exists |
| WebApiSeededUsers.UserService.UpdateUser | WebAPI/Service/UserService.cs:28-32 | replaces the first user with the id, and changes nothing when there is none |
| WebApiSeededUsers.UserService.DeleteUser | WebAPI/Service/UserService.cs:34 | removes every user with the id, keeping the rest in order |
| WebApiSeededUsers.UserService.Exists | WebAPI/Service/UserService.cs:36 | true iff some stored email is exactly equal, case included |
| HrLeave.PesanStatusCoversStatuses | HRLeaveApplication/HRLeaveApplication/PengajuanHandler.cs:11-16 | the table has one distinct message for each of Menunggu, Disetujui and Ditolak and for nothing else |
| HrLeave.MissingStatus | HRLeaveApplication/HRLeaveApplication/PengajuanHandler.cs:32 | looking up a status outside the table is a KeyNotFound error |
| HrLeave.PengajuanHandler.constructor | HRLeaveApplication/HRLeaveApplication/PengajuanHandler.cs:8 | the list starts empty |
| HrLeave.PengajuanHandler.TambahPengajuan | HRLeaveApplication/HRLeaveApplication/PengajuanHandler.cs:19-23 | appends, without checking the id |
| HrLeave.PengajuanHandler.ProsesPengajuan | HRLeaveApplication/HRLeaveApplication/PengajuanHandler.cs:26-38 | an unknown id changes nothing and yields the not-found message; otherwise only the first match's status changes, and the result is its table message, or KeyNotFound after the change when the status is outside the table |

## Left out

- The `lock` in every repository is not modelled. The stores are sequential.
- Serilog logging and `LoggerConfig` are not modelled. They have no effect on the data.
- Console output is not modelled. `TambahPengajuan`'s confirmation line and `TampilkanSemua` only print. `ProsesPengajuan`'s printed line is returned as its result.
- `DateTime` is kept to whole days. `TotalDays` is a `double` in `CalculateDays`, and the model has no time of day. `RequestDate`, `ApprovalDate`, `PaymentDate`, `JoinDate`, `CreatedAt`, `UpdateAt` and `UpdatedAt` are the day passed in as `now`.
- CorePayroll.NetSalary: computed with exact `real` division, without the 28-digit rounding of `decimal`.
- CoreUsers.ValidateRegistration: `string.IsNullOrEmpty` is modelled as emptiness, because strings are never null here.
- Text.SameIgnoringCaseCharwise: case folding covers the ASCII letters only, not the full Unicode tables of `OrdinalIgnoreCase`.
- UserRepo.UserRepository.GenerateId: it is called by the services but not defined in any repository. It is modelled as a counter that skips ids in use.
- UserRepo.UserRepository.GetAll: returns the stored sequence. Snapshot copies and live-list aliasing are not modelled, because stored records are values.
- Records.NewBusinessTrip: `Destination` and `Purpose` have no initializer in the source, so they are `null` on a new trip; the model, which has no null strings, starts them empty. `SubmitRequest` sets both.
- MainLibrary.LeaveService.Submit, MainLibrary.TripService.Submit, WebApiLeaveRequests.LeaveRequestService.Create: the source sets `Status` (and in `Create` also `Id` and the timestamps) on the caller's object and stores that same object, so the caller's reference is the stored entry and later changes through it show in the store. The model stores a value, so this aliasing is not captured.
- LeaveRepo.LeaveRequestRepository.GetByUserId: the source returns a deferred `Where` query over the live list, which `LeaveService.GetByUserId` hands on to its callers, so later additions show through it; the model returns a snapshot sequence taken at the call.
- WebApiLeaveRequests.LeaveRequestService: the request list and counter are `static`, so they are shared by every instance. The model treats them as one object.
- The following source types are not part of this model:
  - `StatusPengajuan`, `JenisCuti` and `WebAPI.Models.User`. Their fields are inferred from use, and the two enums are kept as integer codes.
  - The `User` that WebAPI/Service/UserService.cs uses. It has `Id`, `JoinDate` and `IsActive`, which MainLibrary's `User` lacks, so it is its own datatype.
- `TableDrivenValidator` is not modelled: it wraps .NET regular expressions.
- `ApiClient` is not modelled: it is asynchronous HTTP.
- `AppConfig.LoadFromFile` and the Configuration project are not modelled: they are file and JSON I/O.
- `TestDataFactory` is not modelled: it only builds fixtures.
- The controllers, the WPF pages, the console programs and the thin WebAPI pass-through services are not modelled: they are transport, UI or wiring.
- CoreUsers.UserService.DeleteUserAccount: follows the code, not the test. CoreLibTest/UserServiceTest.cs:219-223 expects `KeyNotFoundException` for a missing id, but the repository's inverted test reports success there and fails after a real removal.
- MainLibraryTest/CoreTest.cs is not used as a reference: it targets an API that MainLibrary/Core.cs does not have.
