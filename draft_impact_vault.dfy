/** The earlier draft of the ImpactVault contract (src/impact_vault.rs): one
    pooled vault balance, withdrawals reserved to the program manager, and a
    running total of yield paid out. */
module DraftImpactVault {
  import opened Soroban

  class Vault {
    var programManager: Option<Address>     // PROG_MGR
    var vaultBalance: nat                   // VAULT_BAL, 0 when absent
    var yieldAccumulated: nat               // YIELD_ACC, 0 when absent

    constructor ()
      ensures programManager == None && vaultBalance == 0 && yieldAccumulated == 0
    {
      programManager, vaultBalance, yieldAccumulated := None, 0, 0;
    }

    /** `initialize`: records the program manager and sets the balance and
        the yield total to 0. There is no guard against a second call. */
    method Initialize(manager: Address)
      modifies this
      ensures programManager == Some(manager)
      ensures VaultBalance() == 0 && YieldDistributed() == 0
    {
      programManager := Some(manager);
      vaultBalance := 0;
      yieldAccumulated := 0;
    }

    /** `deposit`: the depositor's transfer in credits the vault balance. */
    method Deposit(env: Env, from: Address, amount: nat) returns (r: Outcome<()>)
      modifies this
      ensures r == if !Authorized(env, from) then Err(Unauthorized(from))
                   else if !env.transfersSucceed then Err(TransferFailed)
                   else Ok(())
      ensures r.Err? ==> unchanged(this)
      ensures r.Ok? ==> (VaultBalance() == old(VaultBalance()) + amount
                      && yieldAccumulated == old(yieldAccumulated)
                      && programManager == old(programManager))
    {
      if !Authorized(env, from) { return Err(Unauthorized(from)); }
      if !env.transfersSucceed { return Err(TransferFailed); }
      vaultBalance := vaultBalance + amount;
      r := Ok(());
    }

    /** `withdraw`: only the program manager may take money out, and never
        more than the vault balance. */
    method Withdraw(env: Env, to: Address, amount: nat) returns (r: Outcome<()>)
      modifies this
      ensures r == if old(programManager).None? then Err(MissingKey("PROG_MGR"))
                   else if !Authorized(env, old(programManager).value)
                   then Err(Unauthorized(old(programManager).value))
                   else if old(vaultBalance) < amount then Err(Panic("Insufficient vault balance"))
                   else if !env.transfersSucceed then Err(TransferFailed)
                   else Ok(())
      ensures r.Err? ==> unchanged(this)
      ensures r.Ok? ==> (VaultBalance() == old(VaultBalance()) - amount
                      && yieldAccumulated == old(yieldAccumulated)
                      && programManager == old(programManager))
    {
      if programManager.None? { return Err(MissingKey("PROG_MGR")); }
      if !Authorized(env, programManager.value) { return Err(Unauthorized(programManager.value)); }
      if vaultBalance < amount { return Err(Panic("Insufficient vault balance")); }
      if !env.transfersSucceed { return Err(TransferFailed); }
      vaultBalance := vaultBalance - amount;
      r := Ok(());
    }

    /** `distribute_yield`: pays the program manager and adds the amount to
        the yield total. Nobody has to authorize it, and the vault balance
        is neither checked nor lowered. */
    method DistributeYield(env: Env, yieldAmount: nat) returns (r: Outcome<()>)
      modifies this
      ensures r == if old(programManager).None? then Err(MissingKey("PROG_MGR"))
                   else if !env.transfersSucceed then Err(TransferFailed)
                   else Ok(())
      ensures r.Err? ==> unchanged(this)
      ensures r.Ok? ==> (YieldDistributed() == old(YieldDistributed()) + yieldAmount
                      && vaultBalance == old(vaultBalance)
                      && programManager == old(programManager))
    {
      if programManager.None? { return Err(MissingKey("PROG_MGR")); }
      if !env.transfersSucceed { return Err(TransferFailed); }
      yieldAccumulated := yieldAccumulated + yieldAmount;
      r := Ok(());
    }

    /** `get_vault_balance` */
    function VaultBalance(): (b: nat)
      reads this
      ensures b == vaultBalance
    {
      vaultBalance
    }

    /** `get_yield_distributed` */
    function YieldDistributed(): (y: nat)
      reads this
      ensures y == yieldAccumulated
    {
      yieldAccumulated
    }

    /** `get_program_manager`: fails until the vault is initialised. */
    function ProgramManager(): (r: Outcome<Address>)
      reads this
      ensures r.Ok? <==> programManager.Some?
      ensures r.Ok? ==> r.value == programManager.value
      ensures r.Err? ==> r.failure == MissingKey("PROG_MGR")
    {
      if programManager.Some? then Ok(programManager.value) else Err(MissingKey("PROG_MGR"))
    }
  }

  /** A deposit followed by a withdrawal of the same amount by the program
      manager leaves the vault balance where it was. */
  method DepositWithdrawScenario(env: Env, manager: Address, donor: Address, amount: nat)
    returns (before: nat, after: nat)
    requires manager in env.signers && donor in env.signers && env.transfersSucceed
    ensures before == 0 && after == 0
  {
    var v := new Vault();
    v.Initialize(manager);
    before := v.VaultBalance();
    var d := v.Deposit(env, donor, amount);
    var w := v.Withdraw(env, donor, amount);
    after := v.VaultBalance();
  }
}
