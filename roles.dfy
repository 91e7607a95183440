/** The request statuses and roles of CoreLibrary, and the four capability
    predicates that gate every privileged operation. */
module Roles {

  datatype RequestStatus = Pending | Approved | Rejected | Cancelled

  /** Declared in this order, so `Employee` is the default role. */
  datatype Role = Employee | HRD | Supervisor | Finance | SysAdmin

  const AllRoles: seq<Role> := [Employee, HRD, Supervisor, Finance, SysAdmin]

  predicate CanManageUsers(r: Role) { r == HRD || r == SysAdmin }

  predicate CanApproveLeave(r: Role) { r == Supervisor || r == SysAdmin }

  predicate CanApproveTrips(r: Role) { r == Supervisor || r == SysAdmin }

  predicate CanManagePayroll(r: Role) { r == Finance || r == SysAdmin }

  /** The roles a capability predicate grants. */
  function Holders(can: Role -> bool): set<Role> {
    set r | r in AllRoles && can(r)
  }

  lemma AllRolesListed(r: Role)
    ensures r in AllRoles
  {
  }

  /** Each capability is held by exactly two roles, one of them `SysAdmin`. */
  lemma CapabilityHolders()
    ensures Holders(CanManageUsers) == {HRD, SysAdmin}
    ensures Holders(CanApproveLeave) == {Supervisor, SysAdmin}
    ensures Holders(CanApproveTrips) == {Supervisor, SysAdmin}
    ensures Holders(CanManagePayroll) == {Finance, SysAdmin}
  {
  }

  /** Approving trips and approving leave are granted to the same roles. */
  lemma TripApprovalIsLeaveApproval(r: Role)
    ensures CanApproveTrips(r) <==> CanApproveLeave(r)
  {
  }

  /** `SysAdmin` holds every capability and `Employee` none. */
  lemma SysAdminAllEmployeeNone()
    ensures CanManageUsers(SysAdmin) && CanApproveLeave(SysAdmin)
    ensures CanApproveTrips(SysAdmin) && CanManagePayroll(SysAdmin)
    ensures !CanManageUsers(Employee) && !CanApproveLeave(Employee)
    ensures !CanApproveTrips(Employee) && !CanManagePayroll(Employee)
  {
  }
}
