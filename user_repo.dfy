/** `InMemoryUserRepository`: the users in a list, looked up by id or by
    email (ignoring case), appended with an email-uniqueness check, replaced
    by id and removed by id. */
module UserRepo {
  import opened Errors
  import opened Lists
  import opened Text
  import opened Records

  function HasId(id: int): User -> bool {
    (u: User) => u.id == id
  }

  function HasEmail(email: string): User -> bool {
    (u: User) => SameIgnoringCase(u.email, email)
  }

  /** Where the user with `id` is stored (the first one), or -1. */
  function IndexOf(users: seq<User>, id: int): int {
    FirstIndex(users, HasId(id))
  }

  /** No two stored emails are equal ignoring case. */
  ghost predicate EmailsUnique(users: seq<User>) {
    forall i, j :: 0 <= i < j < |users| ==> !SameIgnoringCase(users[i].email, users[j].email)
  }

  const UserNotFound: Error := KeyNotFound("User not found")

  class UserRepository {
    var users: seq<User>
    var nextId: int

    constructor ()
      ensures users == [] && nextId == 1
    {
      users := [];
      nextId := 1;
    }

    /** `GetAll`: a snapshot of the list. */
    method GetAll() returns (r: seq<User>)
      ensures r == users
    {
      r := users;
    }

    /** `GetById`: the first user with that id; `KeyNotFoundException` when none has it. */
    method GetById(id: int) returns (r: Result<User>)
      ensures r.Ok? <==> exists u :: u in users && u.id == id
      ensures r.Ok? ==> r.value.id == id && r.value == users[IndexOf(users, id)]
      ensures r.Err? ==> r.error == UserNotFound
    {
      var k := FirstIndex(users, HasId(id));
      if k < 0 {
        return Err(UserNotFound);
      }
      return Ok(users[k]);
    }

    /** `GetByEmail`: the first user whose email equals `email` ignoring case. */
    method GetByEmail(email: string) returns (r: Result<User>)
      ensures r.Ok? <==> exists u :: u in users && SameIgnoringCase(u.email, email)
      ensures r.Ok? ==> SameIgnoringCase(r.value.email, email)
      ensures r.Ok? ==> r.value == users[FirstIndex(users, HasEmail(email))]
      ensures r.Err? ==> r.error == UserNotFound
    {
      var k := FirstIndex(users, HasEmail(email));
      if k < 0 {
        return Err(UserNotFound);
      }
      return Ok(users[k]);
    }

    /** `EmailCheck`: whether the email is taken, ignoring case. */
    method EmailCheck(email: string) returns (taken: bool)
      ensures taken <==> exists u :: u in users && SameIgnoringCase(u.email, email)
    {
      taken := Any(users, HasEmail(email));
    }

    /** `Add`: `InvalidOperationException` when the email is taken ignoring case,
        otherwise append. So `Add` never creates two equal emails. */
    method Add(user: User) returns (r: Outcome)
      modifies this`users
      ensures r.Err? <==> exists u :: u in old(users) && SameIgnoringCase(u.email, user.email)
      ensures r.Err? ==> r.error == InvalidOperation("Email already exists") && users == old(users)
      ensures r.Ok? ==> users == old(users) + [user]
      ensures EmailsUnique(old(users)) ==> EmailsUnique(users)
    {
      if Any(users, HasEmail(user.email)) {
        return Err(InvalidOperation("Email already exists"));
      }
      users := users + [user];
      return Done;
    }

    /** `Update`: replace the first user with the same id, or `KeyNotFoundException`. */
    method Update(user: User) returns (r: Outcome)
      modifies this`users
      ensures r.Ok? <==> exists u :: u in old(users) && u.id == user.id
      ensures r.Ok? ==> users == old(users)[IndexOf(old(users), user.id) := user]
      ensures r.Err? ==> r.error == UserNotFound && users == old(users)
    {
      var k := FirstIndex(users, HasId(user.id));
      if k < 0 {
        return Err(UserNotFound);
      }
      users := users[k := user];
      return Done;
    }

    /** `Delete`: remove every user with the id. The test `count !> 0` reads as
        `count > 0`, so it throws `KeyNotFoundException` exactly when it did
        remove someone, and returns quietly when there was no such user. */
    method Delete(id: int) returns (r: Outcome)
      modifies this`users
      ensures users == Drop(old(users), HasId(id))
      ensures r.Err? <==> exists u :: u in old(users) && u.id == id
      ensures r.Err? ==> r.error == UserNotFound
    {
      var remaining := Drop(users, HasId(id));
      var count := |users| - |remaining|;
      users := remaining;
      if count > 0 {
        return Err(UserNotFound);
      }
      return Done;
    }

    /** A key no stored user has (the counter skips keys already in use). */
    method GenerateId() returns (id: int)
      modifies this`nextId
      ensures forall u :: u in users ==> u.id != id
      ensures old(nextId) <= id < nextId
    {
      id := KeyAbove(users, (u: User) => u.id, nextId);
      nextId := id + 1;
    }
  }
}
