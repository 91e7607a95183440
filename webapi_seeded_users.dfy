/** WebAPI's string-keyed `UserService`: a list of users that starts with one
    seeded test user. It adds without checking ids or emails, updates and
    deletes by id, and compares emails exactly (case matters), unlike
    CoreLibrary's repository, which ignores case. */
module WebApiSeededUsers {
  import opened Errors
  import opened Lists
  import opened Text
  import opened Roles

  /** `DateTime.Now`, passed in. */
  type Instant = int

  datatype User = User(
    id: string,
    name: string,
    email: string,
    password: string,
    role: Role,
    joinDate: Instant,
    isActive: bool)

  function HasId(id: string): User -> bool {
    (u: User) => u.id == id
  }

  /** The one user the store starts with, joined at `now`. */
  function Seed(now: Instant): (u: User)
    ensures u.id == "1" && u.email == "test@example.com" && u.role == Employee && u.isActive
  {
    User("1", "Test User", "test@example.com", "password", Employee, now, true)
  }

  /** `Exists`: some stored email is exactly `email`. */
  predicate EmailExists(users: seq<User>, email: string) {
    exists u :: u in users && u.email == email
  }

  /** The seeded email written in capitals does not exist here, although
      CoreLibrary's comparison would count it as taken. */
  lemma ExistsIsCaseSensitive(now: Instant)
    ensures !EmailExists([Seed(now)], Upper(Seed(now).email))
    ensures SameIgnoringCase(Seed(now).email, Upper(Seed(now).email))
  {
    var email := Seed(now).email;
    assert Upper(email)[0] == 'T' != email[0];
    UpperIdempotent(email);
  }

  class UserService {
    var users: seq<User>

    /** The store holds exactly the seeded user. */
    constructor (now: Instant)
      ensures users == [Seed(now)]
    {
      users := [Seed(now)];
    }

    /** `GetUserById`: the first user with the id, or nothing (`null`). */
    method GetUserById(id: string) returns (r: Option<User>)
      ensures r.Some? <==> exists u :: u in users && u.id == id
      ensures r.Some? ==> r.value.id == id && r.value == users[FirstIndex(users, HasId(id))]
    {
      var k := FirstIndex(users, HasId(id));
      if k < 0 {
        return None;
      }
      return Some(users[k]);
    }

    /** `GetAllUsers`. */
    method GetAllUsers() returns (r: seq<User>)
      ensures r == users
    {
      r := users;
    }

    /** `AddUser`: append, with no check on the id or the email. */
    method AddUser(user: User)
      modifies this`users
      ensures users == old(users) + [user]
      ensures EmailExists(users, user.email)
    {
      users := users + [user];
      assert users[|users| - 1] == user;
    }

    /** `UpdateUser`: replace the first user with the same id; nothing changes
        when there is none. */
    method UpdateUser(user: User)
      modifies this`users
      ensures var k := FirstIndex(old(users), HasId(user.id));
              if k < 0 then users == old(users) else users == old(users)[k := user]
      ensures |users| == |old(users)|
      ensures forall i :: 0 <= i < |users| && old(users)[i].id != user.id ==> users[i] == old(users)[i]
    {
      var k := FirstIndex(users, HasId(user.id));
      if k != -1 {
        users := users[k := user];
      }
    }

    /** `DeleteUser`: remove every user with the id; the rest keep their order. */
    method DeleteUser(id: string)
      modifies this`users
      ensures users == Drop(old(users), HasId(id))
      ensures forall u :: u in users <==> u in old(users) && u.id != id
    {
      users := Drop(users, HasId(id));
    }

    /** `Exists`: true iff some stored email equals `email`, case included. */
    method Exists(email: string) returns (b: bool)
      ensures b <==> EmailExists(users, email)
    {
      b := Any(users, (u: User) => u.email == email);
    }
  }
}
