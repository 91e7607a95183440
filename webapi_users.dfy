/** WebAPI's integer-keyed `UserService`: one list of users; a new user gets
    the largest id in use plus one (1 in an empty store), so ids increase
    along the list. Unlike the leave-request store there is no separate
    counter, so deleting the newest user frees its id for the next one. */
module WebApiUsers {
  import opened Errors
  import opened Lists

  /** `DateTime.UtcNow`, passed in. */
  type Instant = int

  /** The store's user record; `role` is one of the role strings of `UserRole`. */
  datatype User = User(
    id: int,
    name: string,
    username: string,
    password: string,
    department: string,
    role: string,
    updatedAt: Instant)

  function Id(u: User): int { u.id }

  function HasId(id: int): User -> bool {
    (u: User) => u.id == id
  }

  /** LINQ `Max` over the ids of a non-empty list: an id in use, and no id is larger. */
  function MaxId(users: seq<User>): (m: int)
    requires |users| > 0
    ensures forall u :: u in users ==> u.id <= m
    ensures exists u :: u in users && u.id == m
  {
    if |users| == 1 then users[0].id
    else
      var rest := MaxId(users[1..]);
      assert forall u :: u in users ==> u == users[0] || u in users[1..];
      if users[0].id > rest then users[0].id else rest
  }

  /** The id `AddUser` hands out: 1 for an empty store, otherwise the least
      number above every id in use. */
  function NextUserId(users: seq<User>): (n: int)
    ensures users == [] ==> n == 1
    ensures forall u :: u in users ==> u.id < n
    ensures users != [] ==> exists u :: u in users && u.id == n - 1
  {
    if |users| == 0 then 1 else MaxId(users) + 1
  }

  /** Adding a user and then deleting it brings the next id back to where it
      was: the id of a deleted newest user is handed out again. */
  lemma NewestIdReused(users: seq<User>, user: User)
    ensures var added := users + [user.(id := NextUserId(users))];
            NextUserId(RemoveAt(added, |users|)) == NextUserId(users)
  {
    var added := users + [user.(id := NextUserId(users))];
    assert RemoveAt(added, |users|) == users;
  }

  class UserService {
    var users: seq<User>

    constructor ()
      ensures users == []
    {
      users := [];
    }

    /** Ids increase along the list, so no id appears twice. */
    ghost predicate Valid()
      reads this
    {
      Increasing(users, Id)
    }

    /** `GetAllUsers`. */
    method GetAllUsers() returns (r: seq<User>)
      ensures r == users
    {
      r := users;
    }

    /** `GetUserById`: the first user with the id, or nothing (`null`). */
    method GetUserById(id: int) returns (r: Option<User>)
      ensures r.Some? <==> exists u :: u in users && u.id == id
      ensures r.Some? ==> r.value.id == id && r.value == users[FirstIndex(users, HasId(id))]
    {
      var k := FirstIndex(users, HasId(id));
      if k < 0 {
        return None;
      }
      return Some(users[k]);
    }

    /** `AddUser`: the user gets an id above every id in use and is appended;
        looking that id up afterwards finds the new user. */
    method AddUser(user: User) returns (r: User)
      modifies this`users
      ensures r == user.(id := NextUserId(old(users)))
      ensures users == old(users) + [r]
      ensures forall u :: u in old(users) ==> u.id < r.id
      ensures FirstIndex(users, HasId(r.id)) == |old(users)|
      ensures old(Valid()) ==> Valid()
    {
      r := user.(id := NextUserId(users));
      assert !Any(users, HasId(r.id)) by {
        forall i | 0 <= i < |users|
          ensures !HasId(r.id)(users[i])
        {
          assert users[i] in users;
        }
      }
      FirstIndexAppend(users, r, HasId(r.id));
      users := users + [r];
    }

    /** `UpdateUser`: copy name, username, password, department and role onto
        the stored user and stamp it; the id stays. Nothing (`null`) when no
        user has the id. */
    method UpdateUser(id: int, user: User, now: Instant) returns (r: Option<User>)
      modifies this`users
      ensures r.Some? <==> exists u :: u in old(users) && u.id == id
      ensures r.None? ==> users == old(users)
      ensures r.Some? ==>
                var k := FirstIndex(old(users), HasId(id));
                r.value == old(users)[k].(name := user.name, username := user.username, password := user.password,
                                          department := user.department, role := user.role, updatedAt := now)
                && r.value.id == id
                && users == old(users)[k := r.value]
      ensures old(Valid()) ==> Valid()
    {
      var k := FirstIndex(users, HasId(id));
      if k < 0 {
        return None;
      }
      var updated := users[k].(name := user.name, username := user.username, password := user.password,
                               department := user.department, role := user.role, updatedAt := now);
      users := users[k := updated];
      return Some(updated);
    }

    /** `DeleteUser`: false when no user has the id; otherwise the user found
        is removed (`List.Remove` of that object, which sits at the first
        match) and, in a valid store, no user with the id is left. */
    method DeleteUser(id: int) returns (removed: bool)
      modifies this`users
      ensures removed <==> exists u :: u in old(users) && u.id == id
      ensures !removed ==> users == old(users)
      ensures removed ==> users == RemoveAt(old(users), FirstIndex(old(users), HasId(id)))
      ensures old(Valid()) ==> Valid() && forall u :: u in users ==> u.id != id
    {
      var k := FirstIndex(users, HasId(id));
      if k < 0 {
        return false;
      }
      if Valid() {
        RemoveAtKeepsIncreasing(users, k, Id);
      }
      users := RemoveAt(users, k);
      return true;
    }
  }
}
