/** The earlier draft of the ProgramManager contract (src/program_manager.rs).
    Programs are keyed "program_{id}". Besides the counter, the draft keeps
    an ordered list of the ids of active programs. It also has no admin
    check at all. */
module DraftProgramManager {
  import opened Soroban
  import opened Text

  datatype Program = Program(
    id: nat,
    category: string,
    totalFunding: nat,
    remainingFunding: nat,
    verifierSet: seq<Address>,
    isActive: bool,
    createdAt: nat)

  /** The storage key a program is kept under. */
  function ProgramKey(id: nat): string {
    "program_" + Decimal(id)
  }

  /** Different program ids are stored under different keys. */
  lemma ProgramKeyInjective(a: nat, b: nat)
    requires ProgramKey(a) == ProgramKey(b)
    ensures a == b
  {
    assert ProgramKey(a)[8..] == Decimal(a);
    assert ProgramKey(b)[8..] == Decimal(b);
    DecimalRoundTrip(a);
    DecimalRoundTrip(b);
  }

  predicate StrictlyIncreasing(s: seq<nat>) {
    forall i, j :: 0 <= i < j < |s| ==> s[i] < s[j]
  }

  /** The list `s` with every occurrence of `x` removed, the others kept in
      their order. */
  function Without(s: seq<nat>, x: nat): (r: seq<nat>)
    ensures forall y :: y in r <==> y in s && y != x
    ensures |r| <= |s|
    decreases |s|
  {
    if s == [] then []
    else
      var last := s[|s| - 1];
      Without(s[..|s| - 1], x) + (if last == x then [] else [last])
  }

  /** Appending an id larger than all listed keeps a list ascending. */
  lemma AppendIncreasing(s: seq<nat>, v: nat)
    requires StrictlyIncreasing(s)
    requires forall y :: y in s ==> y < v
    ensures StrictlyIncreasing(s + [v])
  {
    var t := s + [v];
    forall i, j | 0 <= i < j < |t|
      ensures t[i] < t[j]
    {
      if j == |s| {
        assert t[i] == s[i] && s[i] in s;
      }
    }
  }

  /** Removing ids from an ascending list leaves it ascending. */
  lemma {:induction false} WithoutKeepsIncreasing(s: seq<nat>, x: nat)
    requires StrictlyIncreasing(s)
    ensures StrictlyIncreasing(Without(s, x))
    decreases |s|
  {
    if s != [] {
      var init := s[..|s| - 1];
      assert StrictlyIncreasing(init);
      WithoutKeepsIncreasing(init, x);
      var last := s[|s| - 1];
      forall y | y in Without(init, x)
        ensures y < last
      {
        var k :| 0 <= k < |init| && init[k] == y;
        assert s[k] == y;
      }
      if last != x {
        AppendIncreasing(Without(init, x), last);
      }
    }
  }

  class Manager {
    var impactVault: Option<Address>        // VAULT
    var programCount: nat                   // PROGRAMS, 0 when absent
    var programs: map<nat, Program>         // "program_{id}"
    var activePrograms: seq<nat>            // ACTIVE, empty when absent

    /** The storage invariant: programs 1..count exist under their own ids,
        none has handed out more than its funding, and the active list holds
        exactly the ids of the active programs, in ascending order. */
    ghost predicate Valid()
      reads this
    {
      programs.Keys == Ids(programCount) &&
      (forall id :: id in programs ==> programs[id].id == id) &&
      (forall id :: id in programs ==> programs[id].remainingFunding <= programs[id].totalFunding) &&
      StrictlyIncreasing(activePrograms) &&
      (forall id :: id in activePrograms <==> id in programs && programs[id].isActive)
    }

    constructor ()
      ensures impactVault == None && programCount == 0
      ensures programs == map[] && activePrograms == []
      ensures Valid()
    {
      impactVault, programCount, programs, activePrograms := None, 0, map[], [];
    }

    /** `initialize`: records the vault; nothing else is touched. */
    method Initialize(vault: Address)
      modifies this
      ensures impactVault == Some(vault)
      ensures programCount == old(programCount) && programs == old(programs)
      ensures activePrograms == old(activePrograms)
      ensures old(Valid()) ==> Valid()
    {
      impactVault := Some(vault);
    }

    /** `create_program`: the new program takes id count + 1, starts with its
        whole funding remaining and active, and its id is appended to the
        active list. */
    method CreateProgram(env: Env, creator: Address, category: string, totalFunding: nat,
                         verifierSet: seq<Address>) returns (r: Outcome<nat>)
      modifies this
      ensures r == if !Authorized(env, creator) then Err(Unauthorized(creator))
                   else Ok(old(programCount) + 1)
      ensures r.Err? ==> unchanged(this)
      ensures r.Ok? ==> (programCount == r.value
                      && programs == old(programs)[r.value := Program(r.value, category, totalFunding,
                                                   totalFunding, verifierSet, true, env.timestamp)]
                      && activePrograms == old(activePrograms) + [r.value]
                      && impactVault == old(impactVault))
      ensures old(Valid()) ==> Valid()
    {
      if !Authorized(env, creator) { return Err(Unauthorized(creator)); }
      var id := programCount + 1;
      if old(Valid()) {
        AppendIncreasing(activePrograms, id);
      }
      programCount := id;
      programs := programs[id := Program(id, category, totalFunding, totalFunding, verifierSet, true, env.timestamp)];
      activePrograms := activePrograms + [id];
      r := Ok(id);
    }

    /** `allocate_voucher`: takes `amount` out of an active program's
        remaining funding. There is no authorization check. */
    method AllocateVoucher(programId: nat, beneficiary: Address, amount: nat, category: string)
      returns (r: Outcome<()>)
      modifies this
      ensures r == if programId !in old(programs) then Err(MissingKey(ProgramKey(programId)))
                   else if !old(programs)[programId].isActive then Err(Panic("Program is not active"))
                   else if old(programs)[programId].remainingFunding < amount
                   then Err(Panic("Insufficient program funding"))
                   else Ok(())
      ensures r.Err? ==> unchanged(this)
      ensures r.Ok? ==> (programs == old(programs)[programId := old(programs)[programId].(
                           remainingFunding := old(programs)[programId].remainingFunding - amount)]
                      && programCount == old(programCount)
                      && activePrograms == old(activePrograms)
                      && impactVault == old(impactVault))
      ensures old(Valid()) ==> Valid()
    {
      if programId !in programs { return Err(MissingKey(ProgramKey(programId))); }
      var program := programs[programId];
      if !program.isActive { return Err(Panic("Program is not active")); }
      if program.remainingFunding < amount { return Err(Panic("Insufficient program funding")); }
      programs := programs[programId := program.(remainingFunding := program.remainingFunding - amount)];
      r := Ok(());
    }

    /** `get_program` */
    function GetProgram(programId: nat): (r: Outcome<Program>)
      reads this
      ensures r.Ok? <==> programId in programs
      ensures r.Ok? ==> r.value == programs[programId]
      ensures r.Err? ==> r.failure == MissingKey(ProgramKey(programId))
    {
      if programId in programs then Ok(programs[programId])
      else Err(MissingKey(ProgramKey(programId)))
    }

    /** `get_active_programs`: under the invariant, exactly the active
        programs, oldest first. */
    function ActivePrograms(): (ids: seq<nat>)
      reads this
      ensures Valid() ==> StrictlyIncreasing(ids)
      ensures Valid() ==> forall id :: id in ids <==> GetProgram(id).Ok? && GetProgram(id).value.isActive
    {
      activePrograms
    }

    /** `deactivate_program`: marks the program inactive and rebuilds the
        active list without its id. There is no authorization check. */
    method DeactivateProgram(programId: nat) returns (r: Outcome<()>)
      modifies this
      ensures r == if programId in old(programs) then Ok(()) else Err(MissingKey(ProgramKey(programId)))
      ensures r.Err? ==> unchanged(this)
      ensures r.Ok? ==> (programs == old(programs)[programId := old(programs)[programId].(isActive := false)]
                      && activePrograms == Without(old(activePrograms), programId)
                      && programCount == old(programCount)
                      && impactVault == old(impactVault))
      ensures old(Valid()) ==> Valid()
    {
      if programId !in programs { return Err(MissingKey(ProgramKey(programId))); }
      programs := programs[programId := programs[programId].(isActive := false)];
      var newActive: seq<nat> := [];
      for i := 0 to |activePrograms|
        invariant newActive == Without(activePrograms[..i], programId)
      {
        assert activePrograms[..i + 1][..i] == activePrograms[..i];
        if activePrograms[i] != programId {
          newActive := newActive + [activePrograms[i]];
        }
      }
      assert activePrograms[..|activePrograms|] == activePrograms;
      if old(Valid()) {
        WithoutKeepsIncreasing(activePrograms, programId);
      }
      activePrograms := newActive;
      r := Ok(());
    }

    /** `get_program_count`: under the invariant, the number of programs
        created. */
    function ProgramCount(): (n: nat)
      reads this
      ensures Valid() ==> n == |programs|
    {
      IdsCount(programCount);
      programCount
    }
  }
}
