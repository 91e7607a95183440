/** CoreLibrary's `UserService`: registration, credential check and the
    profile, password, role, salary and account operations over the user
    repository. Role changes, salary changes and deletions are gated by
    `CanManageUsers` of the acting user. */
module CoreUsers {
  import opened Errors
  import opened Lists
  import opened Text
  import opened Roles
  import opened Records
  import opened UserRepo

  /** Some stored user has the id. */
  ghost predicate Registered(users: seq<User>, id: int) {
    exists u :: u in users && u.id == id
  }

  /** Some stored email equals `email` ignoring case. */
  ghost predicate EmailTaken(users: seq<User>, email: string) {
    exists u :: u in users && SameIgnoringCase(u.email, email)
  }

  /** The user stored under `id` (the first one). */
  function Stored(users: seq<User>, id: int): User
    requires Registered(users, id)
  {
    users[IndexOf(users, id)]
  }

  /** `ValidateRegistration`, with its checks in the order the code makes them. */
  function ValidateRegistration(name: string, email: string, password: string,
                                basicSalary: real, emailTaken: bool): (o: Outcome)
    ensures o.Ok? <==> name != "" && email != "" && !emailTaken && |password| >= 8 && basicSalary >= 0.0
    ensures o.Err? ==> o.error.Argument?
  {
    if name == "" then Err(Argument("Name is required"))
    else if email == "" then Err(Argument("Email is required"))
    else if password == "" then Err(Argument("Password is required"))
    else if emailTaken then Err(Argument("Email already registered"))
    else if |password| < 8 then Err(Argument("Password must be at least 8 characters"))
    else if basicSalary < 0.0 then Err(Argument("Basic salary cannot be negative"))
    else Done
  }

  /** The checks on a new password that `ChangePassword` makes before any lookup. */
  function ValidateNewPassword(newPassword: string): (o: Outcome)
    ensures o.Ok? <==> |newPassword| >= 8
    ensures o.Err? ==> o.error.Argument?
  {
    if newPassword == "" then Err(Argument("New Password is required"))
    else if |newPassword| < 8 then Err(Argument("Password must be at least 8 characters"))
    else Done
  }

  /** The user a successful `Register` stores. */
  function RegisteredUser(id: int, name: string, email: string, password: string,
                          role: Role, basicSalary: real, now: Day): User
  {
    NewUser(email, password, now).(id := id, name := name, role := role, basicSalary := basicSalary)
  }

  class UserService {
    const repo: UserRepository

    constructor (repo: UserRepository)
      ensures this.repo == repo
    {
      this.repo := repo;
    }

    /** `Register`: validate, then store one new user under a fresh id with the
        default leave balance and join date `now`. A failed registration
        stores nothing. */
    method Register(name: string, email: string, password: string, role: Role,
                    basicSalary: real, now: Day) returns (r: Result<User>)
      modifies repo
      ensures var v := ValidateRegistration(name, email, password, basicSalary,
                                            EmailTaken(old(repo.users), email));
              (r.Ok? <==> v.Ok?) && (r.Err? ==> r.error == v.error)
      ensures r.Err? ==> repo.users == old(repo.users) && repo.nextId == old(repo.nextId)
      ensures r.Ok? ==> repo.users == old(repo.users) + [r.value]
      ensures r.Ok? ==> r.value == RegisteredUser(r.value.id, name, email, password, role, basicSalary, now)
      ensures r.Ok? ==> r.value.remainingLeaveDays == DefaultLeaveDays
      ensures r.Ok? ==> !Registered(old(repo.users), r.value.id)
      ensures EmailsUnique(old(repo.users)) ==> EmailsUnique(repo.users)
    {
      var taken := repo.EmailCheck(email);
      var v := ValidateRegistration(name, email, password, basicSalary, taken);
      if v.Err? {
        return Err(v.error);
      }
      var id := repo.GenerateId();
      var user := RegisteredUser(id, name, email, password, role, basicSalary, now);
      var added := repo.Add(user);
      assert added.Ok?;
      return Ok(user);
    }

    /** `Authenticate`: the user found by email (ignoring case), provided the
        password is exactly equal; `KeyNotFoundException` otherwise. */
    method Authenticate(email: string, password: string) returns (r: Result<User>)
      ensures r.Ok? <==> EmailTaken(repo.users, email)
                         && repo.users[FirstIndex(repo.users, HasEmail(email))].password == password
      ensures r.Ok? ==> r.value in repo.users && SameIgnoringCase(r.value.email, email)
                        && r.value.password == password
      ensures r.Ok? ==> r.value == repo.users[FirstIndex(repo.users, HasEmail(email))]
      ensures r.Err? ==> r.error.KeyNotFound?
    {
      var found := repo.GetByEmail(email);
      if found.Err? {
        return Err(found.error);
      }
      if found.value.password != password {
        return Err(KeyNotFound("Invalid credentials"));
      }
      return found;
    }

    /** `GetAllUser`. */
    method GetAllUser() returns (r: seq<User>)
      ensures r == repo.users
    {
      r := repo.GetAll();
    }

    /** `GetUserById`: the stored user, or `KeyNotFoundException`. */
    method GetUserById(userId: int) returns (r: Result<User>)
      ensures r.Ok? <==> Registered(repo.users, userId)
      ensures r.Ok? ==> r.value == Stored(repo.users, userId) && r.value.id == userId
      ensures r.Err? ==> r.error == UserNotFound
    {
      r := repo.GetById(userId);
    }

    /** `ValidateAdminPermission`: the acting user exists (else
        `KeyNotFoundException`) and may manage users (else `ArgumentException`). */
    method ValidateAdminPermission(adminId: int) returns (r: Outcome)
      ensures r.Ok? <==> Registered(repo.users, adminId) && CanManageUsers(Stored(repo.users, adminId).role)
      ensures !Registered(repo.users, adminId) ==> r == Err(UserNotFound)
      ensures Registered(repo.users, adminId) && r.Err? ==> r == Err(Argument("Role SysAdmin needed"))
    {
      var admin := repo.GetById(adminId);
      if admin.Err? {
        return Err(admin.error);
      }
      if !CanManageUsers(admin.value.role) {
        return Err(Argument("Role SysAdmin needed"));
      }
      return Done;
    }

    /** `UpdateUserProfile`: name and email must be non-empty; only those two
        fields change, and the new email is not checked for uniqueness. */
    method UpdateUserProfile(userId: int, name: string, email: string) returns (r: Outcome)
      modifies repo`users
      ensures r.Ok? <==> name != "" && email != "" && Registered(old(repo.users), userId)
      ensures r.Err? ==> repo.users == old(repo.users)
      ensures (name == "" || email == "") ==> r.Err? && r.error.Argument?
      ensures name != "" && email != "" && r.Err? ==> r.error == UserNotFound
      ensures r.Ok? ==> var u := Stored(old(repo.users), userId);
                        repo.users == old(repo.users)[IndexOf(old(repo.users), userId) := u.(name := name, email := email)]
    {
      if name == "" {
        return Err(Argument("Name is required"));
      }
      if email == "" {
        return Err(Argument("Email is required"));
      }
      var user := repo.GetById(userId);
      if user.Err? {
        return Err(user.error);
      }
      r := repo.Update(user.value.(name := name, email := email));
    }

    /** `ChangePassword`: the new password is checked before the lookup; a
        wrong current password is an `ArgumentException`; only the password changes. */
    method ChangePassword(userId: int, currentPassword: string, newPassword: string) returns (r: Outcome)
      modifies repo`users
      ensures ValidateNewPassword(newPassword).Err? ==> r == ValidateNewPassword(newPassword)
      ensures r.Ok? <==> |newPassword| >= 8 && Registered(old(repo.users), userId)
                         && Stored(old(repo.users), userId).password == currentPassword
      ensures r.Err? ==> repo.users == old(repo.users)
      ensures |newPassword| >= 8 && !Registered(old(repo.users), userId) ==> r == Err(UserNotFound)
      ensures |newPassword| >= 8 && Registered(old(repo.users), userId) && r.Err? ==>
                r == Err(Argument("Current password is incorrect"))
      ensures r.Ok? ==> var u := Stored(old(repo.users), userId);
                        repo.users == old(repo.users)[IndexOf(old(repo.users), userId) := u.(password := newPassword)]
    {
      var v := ValidateNewPassword(newPassword);
      if v.Err? {
        return v;
      }
      var user := repo.GetById(userId);
      if user.Err? {
        return Err(user.error);
      }
      if user.value.password != currentPassword {
        return Err(Argument("Current password is incorrect"));
      }
      r := repo.Update(user.value.(password := newPassword));
    }

    /** `DeleteUserAccount`: after the permission check, the repository's
        `Delete`, which removes the user and then reports `KeyNotFoundException`
        when it did remove one, and succeeds when there was none. */
    method DeleteUserAccount(adminId: int, userId: int) returns (r: Outcome)
      modifies repo`users
      ensures !Registered(old(repo.users), adminId) ==> r == Err(UserNotFound) && repo.users == old(repo.users)
      ensures Registered(old(repo.users), adminId) && !CanManageUsers(Stored(old(repo.users), adminId).role) ==>
                r == Err(Argument("Role SysAdmin needed")) && repo.users == old(repo.users)
      ensures Registered(old(repo.users), adminId) && CanManageUsers(Stored(old(repo.users), adminId).role) ==>
                repo.users == Drop(old(repo.users), HasId(userId))
                && (r.Err? <==> Registered(old(repo.users), userId))
    {
      r := ValidateAdminPermission(adminId);
      if r.Err? {
        return;
      }
      r := repo.Delete(userId);
    }

    /** `ChangeRole`: permission check, lookup, and an `ArgumentException` when
        the user already has the role; only the role changes. */
    method ChangeRole(adminId: int, userId: int, role: Role) returns (r: Outcome)
      modifies repo`users
      ensures r.Ok? <==> Registered(old(repo.users), adminId)
                         && CanManageUsers(Stored(old(repo.users), adminId).role)
                         && Registered(old(repo.users), userId)
                         && Stored(old(repo.users), userId).role != role
      ensures r.Err? ==> repo.users == old(repo.users)
      ensures Registered(old(repo.users), adminId) && !CanManageUsers(Stored(old(repo.users), adminId).role) ==>
                r == Err(Argument("Role SysAdmin needed"))
      ensures !Registered(old(repo.users), adminId) ==> r == Err(UserNotFound)
      ensures (Registered(old(repo.users), adminId) && CanManageUsers(Stored(old(repo.users), adminId).role)
               && !Registered(old(repo.users), userId)) ==> r == Err(UserNotFound)
      ensures (Registered(old(repo.users), adminId) && CanManageUsers(Stored(old(repo.users), adminId).role)
               && Registered(old(repo.users), userId) && Stored(old(repo.users), userId).role == role) ==>
                r == Err(Argument("User Role already satisfied"))
      ensures r.Ok? ==> var u := Stored(old(repo.users), userId);
                        repo.users == old(repo.users)[IndexOf(old(repo.users), userId) := u.(role := role)]
    {
      r := ValidateAdminPermission(adminId);
      if r.Err? {
        return;
      }
      var user := repo.GetById(userId);
      if user.Err? {
        return Err(user.error);
      }
      if user.value.role == role {
        return Err(Argument("User Role already satisfied"));
      }
      r := repo.Update(user.value.(role := role));
    }

    /** `UpdateSalary`: the approver is looked up (`KeyNotFoundException`) and
        must manage users (`ArgumentException`); the salary's sign is not checked. */
    method UpdateSalary(userId: int, salary: real, approverId: int) returns (r: Outcome)
      modifies repo`users
      ensures r.Ok? <==> Registered(old(repo.users), approverId)
                         && CanManageUsers(Stored(old(repo.users), approverId).role)
                         && Registered(old(repo.users), userId)
      ensures r.Err? ==> repo.users == old(repo.users)
      ensures !Registered(old(repo.users), approverId) ==> r == Err(UserNotFound)
      ensures Registered(old(repo.users), approverId) && !CanManageUsers(Stored(old(repo.users), approverId).role) ==>
                r == Err(Argument("Role SysAdmin needed"))
      ensures (Registered(old(repo.users), approverId) && CanManageUsers(Stored(old(repo.users), approverId).role)
               && !Registered(old(repo.users), userId)) ==> r == Err(UserNotFound)
      ensures r.Ok? ==> var u := Stored(old(repo.users), userId);
                        repo.users == old(repo.users)[IndexOf(old(repo.users), userId) := u.(basicSalary := salary)]
    {
      r := ValidateAdminPermission(approverId);
      if r.Err? {
        return;
      }
      var user := repo.GetById(userId);
      if user.Err? {
        return Err(user.error);
      }
      r := repo.Update(user.value.(basicSalary := salary));
    }

    /** `UpdateUser`: copy name, email, password, role and leave balance onto
        the stored user; its salary and join date stay as they were. */
    method UpdateUser(user: User) returns (r: Outcome)
      modifies repo`users
      ensures r.Ok? <==> Registered(old(repo.users), user.id)
      ensures r.Err? ==> r == Err(UserNotFound) && repo.users == old(repo.users)
      ensures r.Ok? ==> var u := Stored(old(repo.users), user.id);
                        repo.users == old(repo.users)[IndexOf(old(repo.users), user.id) :=
                          u.(name := user.name, email := user.email, password := user.password,
                             role := user.role, remainingLeaveDays := user.remainingLeaveDays)]
    {
      var existing := repo.GetById(user.id);
      if existing.Err? {
        return Err(existing.error);
      }
      var updated := existing.value.(name := user.name, email := user.email, password := user.password,
                                     role := user.role, remainingLeaveDays := user.remainingLeaveDays);
      r := repo.Update(updated);
    }
  }
}
