/** `InMemoryPayrollRepository`: the payrolls in a list. */
module PayrollRepo {
  import opened Errors
  import opened Lists
  import opened Records

  function HasId(id: int): Payroll -> bool {
    (p: Payroll) => p.id == id
  }

  /** The period of the payroll lies within `[start, end]`. */
  function WithinPeriod(start: Day, end: Day): Payroll -> bool {
    (p: Payroll) => p.periodStart >= start && p.periodEnd <= end
  }

  /** Where the payroll with `id` is stored (the first one), or -1. */
  function IndexOf(payrolls: seq<Payroll>, id: int): int {
    FirstIndex(payrolls, HasId(id))
  }

  class PayrollRepository {
    var payrolls: seq<Payroll>
    var nextId: int

    constructor ()
      ensures payrolls == [] && nextId == 1
    {
      payrolls := [];
      nextId := 1;
    }

    /** `GetAll`: a snapshot of the list. */
    method GetAll() returns (r: seq<Payroll>)
      ensures r == payrolls
    {
      r := payrolls;
    }

    /** `GetById`: the first payroll with that id; `KeyNotFoundException` (with
        the business-trip message the code carries) when none has it. */
    method GetById(id: int) returns (r: Result<Payroll>)
      ensures r.Ok? <==> exists p :: p in payrolls && p.id == id
      ensures r.Ok? ==> r.value.id == id && r.value == payrolls[IndexOf(payrolls, id)]
      ensures r.Err? ==> r.error == KeyNotFound("Business trip not found")
    {
      var k := FirstIndex(payrolls, HasId(id));
      if k < 0 {
        return Err(KeyNotFound("Business trip not found"));
      }
      return Ok(payrolls[k]);
    }

    /** `GetByPeriod`: exactly the payrolls whose period lies within `[start, end]`. */
    method GetByPeriod(start: Day, end: Day) returns (r: seq<Payroll>)
      ensures r == Keep(payrolls, WithinPeriod(start, end))
      ensures forall p :: p in r <==> p in payrolls && p.periodStart >= start && p.periodEnd <= end
    {
      r := Keep(payrolls, WithinPeriod(start, end));
    }

    /** `Add`: append unconditionally, so two payrolls of one user and period can coexist. */
    method Add(payroll: Payroll)
      modifies this`payrolls
      ensures payrolls == old(payrolls) + [payroll]
    {
      payrolls := payrolls + [payroll];
    }

    /** `Update`: replace the first payroll with the same id, or `KeyNotFoundException`. */
    method Update(payroll: Payroll) returns (r: Outcome)
      modifies this`payrolls
      ensures r.Ok? <==> exists p :: p in old(payrolls) && p.id == payroll.id
      ensures r.Ok? ==> payrolls == old(payrolls)[IndexOf(old(payrolls), payroll.id) := payroll]
      ensures r.Err? ==> r.error == KeyNotFound("Payroll not found") && payrolls == old(payrolls)
    {
      var k := FirstIndex(payrolls, HasId(payroll.id));
      if k < 0 {
        return Err(KeyNotFound("Payroll not found"));
      }
      payrolls := payrolls[k := payroll];
      return Done;
    }

    /** `Delete`: remove every payroll with the id; the branches are inverted,
        so it throws exactly when it removed something. */
    method Delete(id: int) returns (r: Outcome)
      modifies this`payrolls
      ensures payrolls == Drop(old(payrolls), HasId(id))
      ensures r.Err? <==> exists p :: p in old(payrolls) && p.id == id
      ensures r.Err? ==> r.error == KeyNotFound("Payroll not found")
    {
      var remaining := Drop(payrolls, HasId(id));
      var count := |payrolls| - |remaining|;
      payrolls := remaining;
      if count > 0 {
        return Err(KeyNotFound("Payroll not found"));
      }
      return Done;
    }

    /** A key no stored payroll has (the counter skips keys already in use). */
    method GenerateId() returns (id: int)
      modifies this`nextId
      ensures forall p :: p in payrolls ==> p.id != id
      ensures old(nextId) <= id < nextId
    {
      id := KeyAbove(payrolls, (p: Payroll) => p.id, nextId);
      nextId := id + 1;
    }
  }
}
