/** MainLibrary/Core.cs: a table-driven state machine, the message lookup with
    a language prefix, the inclusive day counter, and three small in-memory
    stores (users by id, and submitted leave requests and trips). This library
    has its own records, keyed by string ids, and a status enum without
    `Cancelled`. */
module MainLibrary {
  import opened Errors
  import Roles
  import Records

  type Day = int

  datatype RequestStatus = Pending | Approved | Rejected

  datatype User = User(id: string, name: string, email: string, password: string, role: Roles.Role)

  datatype LeaveRequest = LeaveRequest(id: string, dateStart: Day, dateEnd: Day,
                                       description: string, status: RequestStatus)

  datatype BusinessTrip = BusinessTrip(id: string, destination: string, dateStart: Day, dateEnd: Day,
                                       description: string, status: RequestStatus, costEstimation: real)

  datatype Salary = Salary(id: string, baseSalary: real, travelAllowance: real,
                           leaveDeduction: real, period: Day)

  /** Where `trigger` takes the machine from `state`: the configured next
      state, or `state` itself when the pair is not configured. */
  function Step<S(==), T(==)>(transitions: map<(S, T), S>, state: S, trigger: T): S {
    if (state, trigger) in transitions then transitions[(state, trigger)] else state
  }

  /** The state reached by firing the triggers one after another. */
  function Run<S(==), T(==)>(transitions: map<(S, T), S>, state: S, triggers: seq<T>): S {
    if triggers == [] then state
    else Run(transitions, Step(transitions, state, triggers[0]), triggers[1..])
  }

  /** `StateMachine<TState, TTrigger>`: a transition table and the current state. */
  class StateMachine<S(==), T(==)> {
    var transitions: map<(S, T), S>
    var currentState: S

    constructor (initialState: S)
      ensures currentState == initialState && transitions == map[]
    {
      currentState := initialState;
      transitions := map[];
    }

    /** `Configure`: `(state, trigger)` now leads to `nextState`, replacing any
        earlier entry for that pair. */
    method Configure(state: S, trigger: T, nextState: S)
      modifies this`transitions
      ensures transitions == old(transitions)[(state, trigger) := nextState]
    {
      transitions := transitions[(state, trigger) := nextState];
    }

    /** `Trigger`: true and a move when the pair is configured; false and no
        move otherwise. */
    method Trigger(trigger: T) returns (fired: bool)
      modifies this`currentState
      ensures fired <==> (old(currentState), trigger) in transitions
      ensures currentState == Step(transitions, old(currentState), trigger)
      ensures !fired ==> currentState == old(currentState)
    {
      if (currentState, trigger) in transitions {
        currentState := transitions[(currentState, trigger)];
        return true;
      }
      return false;
    }
  }

  /** After `Configure(s, t, n)`, firing `t` in `s` reaches `n`; every other
      pair behaves as before. */
  lemma ConfigureThenStep<S, T>(transitions: map<(S, T), S>, s: S, t: T, n: S, s': S, t': T)
    ensures Step(transitions[(s, t) := n], s, t) == n
    ensures (s', t') != (s, t) ==> Step(transitions[(s, t) := n], s', t') == Step(transitions, s', t')
  {
  }

  /** Firing a sequence of triggers in two parts ends where firing it whole does. */
  lemma {:induction false} RunConcat<S, T>(transitions: map<(S, T), S>, state: S, a: seq<T>, b: seq<T>)
    ensures Run(transitions, state, a + b) == Run(transitions, Run(transitions, state, a), b)
  {
    if a == [] {
      assert a + b == b;
    } else {
      assert (a + b)[1..] == a[1..] + b;
      RunConcat(transitions, Step(transitions, state, a[0]), a[1..], b);
    }
  }

  /** A state with no configured way out is never left, whatever is fired. */
  lemma {:induction false} TerminalStateAbsorbs<S, T>(transitions: map<(S, T), S>, state: S, triggers: seq<T>)
    requires forall t :: (state, t) !in transitions
    ensures Run(transitions, state, triggers) == state
  {
    if triggers != [] {
      assert Step(transitions, state, triggers[0]) == state;
      TerminalStateAbsorbs(transitions, state, triggers[1..]);
    }
  }

  /** `Localization`'s table. */
  const Messages: map<string, string> :=
    map["id_SUBMIT_SUCCESS" := "Pengajuan berhasil.",
        "en_SUBMIT_SUCCESS" := "Submission successful."]

  /** `Localization.Translate`: the entry for `lang_key`, or the key itself. */
  function Translate(key: string, lang: string := "id"): (r: string)
    ensures lang + "_" + key in Messages ==> r == Messages[lang + "_" + key]
    ensures lang + "_" + key !in Messages ==> r == key
  {
    var dictKey := lang + "_" + key;
    if dictKey in Messages then Messages[dictKey] else key
  }

  /** In the two languages the table covers, exactly `SUBMIT_SUCCESS` is
      translated, and Indonesian is the default. */
  lemma TranslateLanguages(key: string)
    ensures Translate("SUBMIT_SUCCESS") == "Pengajuan berhasil."
    ensures Translate("SUBMIT_SUCCESS", "en") == "Submission successful."
    ensures Translate(key, "id") != key <==> key == "SUBMIT_SUCCESS"
    ensures Translate(key, "en") != key <==> key == "SUBMIT_SUCCESS"
  {
    assert "id" + "_" + "SUBMIT_SUCCESS" == "id_SUBMIT_SUCCESS";
    assert "en" + "_" + "SUBMIT_SUCCESS" == "en_SUBMIT_SUCCESS";
    var id := "id_" + key;
    var en := "en_" + key;
    assert "id" + "_" + key == id && "en" + "_" + key == en;
    if id in Messages {
      assert id[3..] == key;
      assert id == "id_SUBMIT_SUCCESS";
    }
    if en in Messages {
      assert en[3..] == key;
      assert en == "en_SUBMIT_SUCCESS";
    }
  }

  /** `DateHelper.CalculateDays`: the inclusive number of days from `start` to `end`. */
  function CalculateDays(start: Day, end: Day): (days: int)
    ensures days - 1 == end - start
    ensures days >= 1 <==> start <= end
    ensures start == end ==> days == 1
  {
    (end - start) + 1
  }

  /** The day counter agrees with the length CoreLibrary derives for a leave
      request, and counts a single day as one. */
  lemma CalculateDaysIsDuration(l: Records.LeaveRequest)
    ensures CalculateDays(l.startDate, l.endDate) == l.Duration()
    ensures CalculateDays(l.startDate, l.startDate) == 1
  {
  }

  /** Every user is stored under its own id. */
  ghost predicate KeyedById(data: map<string, User>) {
    forall k :: k in data ==> data[k].id == k
  }

  /** MainLibrary's `UserService`: users by id; `Add` overwrites. */
  class UserService {
    var data: map<string, User>

    constructor ()
      ensures data == map[]
    {
      data := map[];
    }

    /** `Add`: store the user under its id, replacing any user with the same id. */
    method Add(u: User)
      modifies this`data
      ensures data == old(data)[u.id := u]
      ensures KeyedById(old(data)) ==> KeyedById(data)
    {
      data := data[u.id := u];
    }

    /** `Find`: the user with the id, or nothing (`null`). */
    method Find(id: string) returns (r: Option<User>)
      ensures r.Some? <==> id in data
      ensures r.Some? ==> r.value == data[id]
      ensures KeyedById(data) && r.Some? ==> r.value.id == id
    {
      if id in data {
        return Some(data[id]);
      }
      return None;
    }
  }

  /** MainLibrary's `LeaveService`: submitted requests, in order. */
  class LeaveService {
    var list: seq<LeaveRequest>

    constructor ()
      ensures list == []
    {
      list := [];
    }

    /** `Submit`: append the request as `Pending`, whatever status it came with. */
    method Submit(c: LeaveRequest)
      modifies this`list
      ensures list == old(list) + [c.(status := Pending)]
      ensures (forall l :: l in old(list) ==> l.status == Pending) ==> forall l :: l in list ==> l.status == Pending
    {
      list := list + [c.(status := Pending)];
    }
  }

  /** MainLibrary's `TripService`: submitted trips, in order. */
  class TripService {
    var list: seq<BusinessTrip>

    constructor ()
      ensures list == []
    {
      list := [];
    }

    /** `Submit`: append the trip as `Pending`, whatever status it came with. */
    method Submit(d: BusinessTrip)
      modifies this`list
      ensures list == old(list) + [d.(status := Pending)]
      ensures (forall t :: t in old(list) ==> t.status == Pending) ==> forall t :: t in list ==> t.status == Pending
    {
      list := list + [d.(status := Pending)];
    }
  }

  /** MainLibrary's `PayrollService.CalculateSlip`: a fixed slip dated `now`. */
  function CalculateSlip(id: string, now: Day): (s: Salary)
    ensures s.id == id && s.period == now
  {
    Salary(id, 5000000.0, 1000000.0, 500000.0, now)
  }

  /** The slip does not depend on the employee: two employees' slips differ
      only in their id. */
  lemma SlipIgnoresEmployee(a: string, b: string, now: Day)
    ensures CalculateSlip(a, now).(id := b) == CalculateSlip(b, now)
    ensures CalculateSlip(a, now).baseSalary > CalculateSlip(a, now).leaveDeduction
  {
  }
}
