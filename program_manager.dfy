/** The ProgramManager contract: NGOs create aid programs with a budget, the
    admin allocates funds to active programs within their budget and may
    deactivate them, and an NGO issues vouchers out of what was allocated.
    Every field of `Manager` is one key of the contract's instance storage. */
module ProgramManager {
  import opened Soroban

  datatype ProgramCategory = Healthcare | Food | Education | Housing | Emergency

  datatype Program = Program(
    id: nat,
    name: string,
    category: ProgramCategory,
    ngo: Address,
    totalBudget: int,
    allocatedFunds: int,
    active: bool)

  /** A program is over budget only if nothing was ever allocated to it:
      creation allocates 0 and every allocation that succeeds ends within
      the budget. */
  predicate WithinBudget(p: Program) {
    p.allocatedFunds == 0 || p.allocatedFunds <= p.totalBudget
  }

  class Manager {
    var admin: Option<Address>      // "admin"
    var usdcToken: Option<Address>  // "usdc_tkn"
    var programCount: nat           // "prog_cnt", read with default 0
    var programs: map<nat, Program> // ("program", id)

    /** Program ids are exactly 1..prog_cnt, each stored under its own id,
        and every program keeps its allocation within its budget. */
    ghost predicate Valid()
      reads this
    {
      programs.Keys == Ids(programCount) &&
      forall id :: id in programs ==> programs[id].id == id && WithinBudget(programs[id])
    }

    constructor ()
      ensures admin == None && usdcToken == None && programCount == 0 && programs == map[]
      ensures Valid()
    {
      admin, usdcToken, programCount, programs := None, None, 0, map[];
    }

    /** `initialize`: stores admin and token and resets the counter; creating
        programs does not need it, so ids match the counter afterwards only
        if no program was created before. */
    method Initialize(adminAddress: Address, usdc: Address)
      modifies this
      ensures admin == Some(adminAddress) && usdcToken == Some(usdc)
      ensures programCount == 0 && programs == old(programs)
      ensures old(Valid()) ==> (Valid() <==> programs == map[])
    {
      admin, usdcToken, programCount := Some(adminAddress), Some(usdc), 0;
    }

    /** `create_program`: an NGO opens the next program id, active, with
        nothing allocated yet. */
    method CreateProgram(env: Env, ngo: Address, name: string, category: ProgramCategory,
                         budget: int) returns (r: Outcome<nat>)
      modifies this
      ensures r == if !Authorized(env, ngo) then Err(Unauthorized(ngo)) else Ok(old(programCount) + 1)
      ensures r.Err? ==> unchanged(this)
      ensures r.Ok? ==> (programs == old(programs)[r.value := Program(r.value, name, category, ngo, budget, 0, true)]
                      && programCount == r.value && admin == old(admin) && usdcToken == old(usdcToken))
      ensures old(Valid()) ==> Valid()
      ensures old(Valid()) && r.Ok? ==> r.value !in old(programs)
    {
      if !Authorized(env, ngo) { return Err(Unauthorized(ngo)); }
      var id := programCount + 1;
      programs := programs[id := Program(id, name, category, ngo, budget, 0, true)];
      programCount := id;
      r := Ok(id);
    }

    /** `get_program` */
    function GetProgram(id: nat): (r: Option<Program>)
      reads this
      ensures r.Some? <==> id in programs
      ensures r.Some? ==> r.value == programs[id]
      ensures Valid() ==> (r.Some? <==> 1 <= id <= programCount)
    {
      if id in programs then Some(programs[id]) else None
    }

    /** The admin check the admin-only entry points start with. */
    function AdminCheck(env: Env): (f: Option<Failure>)
      reads this
      ensures f.None? <==> admin.Some? && Authorized(env, admin.value)
    {
      if admin.None? then Some(MissingKey("admin"))
      else if !Authorized(env, admin.value) then Some(Unauthorized(admin.value))
      else None
    }

    /** `allocate_to_program`: the admin adds `amount` to an active program's
        allocation, refusing to go over its budget. */
    method AllocateToProgram(env: Env, id: nat, amount: int) returns (r: Outcome<()>)
      modifies this
      ensures r == if old(AdminCheck(env)).Some? then Err(old(AdminCheck(env)).value)
                   else if id !in old(programs) then Err(Panic("Program not found"))
                   else if !old(programs[id]).active then Err(Panic("Program is not active"))
                   else if old(programs[id]).allocatedFunds + amount > old(programs[id]).totalBudget
                     then Err(Panic("Allocation exceeds budget"))
                   else Ok(())
      ensures r.Err? ==> unchanged(this)
      ensures r.Ok? ==> (programs == old(programs)[id := old(programs[id]).(allocatedFunds := old(programs[id]).allocatedFunds + amount)]
                      && programCount == old(programCount) && admin == old(admin) && usdcToken == old(usdcToken))
      ensures r.Ok? ==> programs[id].allocatedFunds <= programs[id].totalBudget
      ensures old(Valid()) ==> Valid()
    {
      var check := AdminCheck(env);
      if check.Some? { return Err(check.value); }
      if id !in programs { return Err(Panic("Program not found")); }
      var program := programs[id];
      if !program.active { return Err(Panic("Program is not active")); }
      if program.allocatedFunds + amount > program.totalBudget { return Err(Panic("Allocation exceeds budget")); }
      programs := programs[id := program.(allocatedFunds := program.allocatedFunds + amount)];
      r := Ok(());
    }

    /** `issue_voucher`: the program's NGO sends up to the allocated amount
        to the voucher manager. The stored program is not touched, so the
        allocation is not drawn down. */
    method IssueVoucher(env: Env, id: nat, beneficiary: Address, amount: int,
                        voucherManager: Address) returns (r: Outcome<()>)
      ensures r == if id !in programs then Err(Panic("Program not found"))
                   else if !Authorized(env, programs[id].ngo) then Err(Unauthorized(programs[id].ngo))
                   else if amount > programs[id].allocatedFunds then Err(Panic("Insufficient allocated funds"))
                   else if usdcToken.None? then Err(MissingKey("usdc_tkn"))
                   else if !env.transfersSucceed then Err(TransferFailed)
                   else Ok(())
    {
      if id !in programs { return Err(Panic("Program not found")); }
      var program := programs[id];
      if !Authorized(env, program.ngo) { return Err(Unauthorized(program.ngo)); }
      if amount > program.allocatedFunds { return Err(Panic("Insufficient allocated funds")); }
      if usdcToken.None? { return Err(MissingKey("usdc_tkn")); }
      if !env.transfersSucceed { return Err(TransferFailed); }
      r := Ok(());
    }

    /** `deactivate_program`: the admin switches a program off; nothing else
        in it changes. */
    method DeactivateProgram(env: Env, id: nat) returns (r: Outcome<()>)
      modifies this
      ensures r == if old(AdminCheck(env)).Some? then Err(old(AdminCheck(env)).value)
                   else if id !in old(programs) then Err(Panic("Program not found"))
                   else Ok(())
      ensures r.Err? ==> unchanged(this)
      ensures r.Ok? ==> (programs == old(programs)[id := old(programs[id]).(active := false)]
                      && programCount == old(programCount) && admin == old(admin) && usdcToken == old(usdcToken))
      ensures old(Valid()) ==> Valid()
    {
      var check := AdminCheck(env);
      if check.Some? { return Err(check.value); }
      if id !in programs { return Err(Panic("Program not found")); }
      programs := programs[id := programs[id].(active := false)];
      r := Ok(());
    }

    /** `get_program_count`: the number of programs created. */
    function ProgramCount(): (n: nat)
      reads this
      ensures Valid() ==> n == |programs|
      ensures Valid() ==> forall id: nat :: GetProgram(id).Some? <==> 1 <= id <= n
    {
      IdsCount(programCount);
      programCount
    }
  }

  /** A program with a budget of 1000 takes an allocation of 600, refuses
      500 more, and its NGO cannot issue 700 out of the 600 allocated. */
  method AllocationScenario(env: Env, adminAddress: Address, usdc: Address, ngo: Address,
                            beneficiary: Address, voucherManager: Address)
    returns (id: Outcome<nat>, first: Outcome<()>, second: Outcome<()>, issue: Outcome<()>)
    requires adminAddress in env.signers && ngo in env.signers
    ensures id == Ok(1) && first == Ok(())
    ensures second == Err(Panic("Allocation exceeds budget"))
    ensures issue == Err(Panic("Insufficient allocated funds"))
  {
    var m := new Manager();
    m.Initialize(adminAddress, usdc);
    id := m.CreateProgram(env, ngo, "Clinic", Healthcare, 1000);
    first := m.AllocateToProgram(env, 1, 600);
    second := m.AllocateToProgram(env, 1, 500);
    issue := m.IssueVoucher(env, 1, beneficiary, 700, voucherManager);
  }
}
