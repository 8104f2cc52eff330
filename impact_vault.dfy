/** The ImpactVault contract: donors deposit USDC and may withdraw their
    principal; the admin deploys vault funds to DeFi protocols, withdraws
    yield from them into a pool, and distributes that pool to the impact
    contract. Every field of `Vault` is one key of the contract's instance
    storage. */
module ImpactVault {
  import opened Soroban

  class Vault {
    var usdcToken: Option<Address>      // "usdc_tkn"
    var admin: Option<Address>          // "admin"
    var total: Option<int>              // "total"
    var balances: map<Address, int>     // ("balance", donor)
    var deployed: map<Address, int>     // ("deployed", protocol)
    var yieldPool: Option<int>          // "yield_p"

    /** The storage invariant: the configuration keys are written together,
        and the stored total is the sum of all donor balances. */
    ghost predicate Valid()
      reads this
    {
      (usdcToken.Some? <==> admin.Some?) &&
      (usdcToken.Some? <==> total.Some?) &&
      TotalDeposits() == Sum(balances)
    }

    /** A freshly deployed contract: nothing stored. */
    constructor ()
      ensures usdcToken == None && admin == None && total == None
      ensures balances == map[] && deployed == map[] && yieldPool == None
      ensures Valid()
    {
      usdcToken, admin, total := None, None, None;
      balances, deployed, yieldPool := map[], map[], None;
    }

    /** `get_balance`: a donor that never deposited has balance 0. */
    function Balance(donor: Address): (b: int)
      reads this
      ensures donor in balances ==> b == balances[donor]
      ensures donor !in balances ==> b == 0
    {
      GetOr(balances, donor, 0)
    }

    /** `get_total_deposits`: 0 until the vault is initialised. */
    function TotalDeposits(): (t: int)
      reads this
      ensures total.None? ==> t == 0
      ensures total.Some? ==> t == total.value
    {
      total.GetOr(0)
    }

    /** `get_total_yield`: the yield pool, 0 until first written. */
    function TotalYield(): (y: int)
      reads this
      ensures yieldPool.None? ==> y == 0
      ensures yieldPool.Some? ==> y == yieldPool.value
    {
      yieldPool.GetOr(0)
    }

    /** `get_deployed_amount`: 0 for a protocol never deployed to. */
    function Deployed(protocol: Address): (d: int)
      reads this
      ensures protocol in deployed ==> d == deployed[protocol]
      ensures protocol !in deployed ==> d == 0
    {
      GetOr(deployed, protocol, 0)
    }

    /** `initialize`: stores the token and admin and resets the total to 0.
        There is no guard against a second call, so the total matches the
        donor balances afterwards exactly when those balances sum to 0. */
    method Initialize(usdc: Address, adminAddress: Address)
      modifies this
      ensures usdcToken == Some(usdc) && admin == Some(adminAddress) && total == Some(0)
      ensures balances == old(balances) && deployed == old(deployed) && yieldPool == old(yieldPool)
      ensures Valid() <==> Sum(balances) == 0
    {
      usdcToken := Some(usdc);
      admin := Some(adminAddress);
      total := Some(0);
    }

    /** `deposit`: pulls `amount` from the donor and credits it to the donor's
        balance and to the total; returns the donor's new balance. Any amount
        is accepted, zero and negative included. */
    method Deposit(env: Env, donor: Address, amount: int) returns (r: Outcome<int>)
      modifies this
      ensures r == if !Authorized(env, donor) then Err(Unauthorized(donor))
                   else if old(usdcToken).None? then Err(MissingKey("usdc_tkn"))
                   else if !env.transfersSucceed then Err(TransferFailed)
                   else Ok(old(Balance(donor)) + amount)
      ensures r.Err? ==> unchanged(this)
      ensures r.Ok? ==> (balances == old(balances)[donor := r.value]
                      && total == Some(old(TotalDeposits()) + amount)
                      && usdcToken == old(usdcToken) && admin == old(admin)
                      && deployed == old(deployed) && yieldPool == old(yieldPool))
      ensures old(Valid()) ==> Valid()
    {
      if !Authorized(env, donor) { return Err(Unauthorized(donor)); }
      if usdcToken.None? { return Err(MissingKey("usdc_tkn")); }
      if !env.transfersSucceed { return Err(TransferFailed); }
      var newBalance := Balance(donor) + amount;
      SumUpdate(balances, donor, newBalance);
      balances := balances[donor := newBalance];
      total := Some(TotalDeposits() + amount);
      r := Ok(newBalance);
    }

    /** `withdraw`: a donor takes back up to their own balance; returns the
        new balance. */
    method Withdraw(env: Env, donor: Address, amount: int) returns (r: Outcome<int>)
      modifies this
      ensures r == if !Authorized(env, donor) then Err(Unauthorized(donor))
                   else if amount > old(Balance(donor)) then Err(Panic("Insufficient balance"))
                   else if old(usdcToken).None? then Err(MissingKey("usdc_tkn"))
                   else if !env.transfersSucceed then Err(TransferFailed)
                   else if old(total).None? then Err(MissingKey("total"))
                   else Ok(old(Balance(donor)) - amount)
      ensures r.Err? ==> unchanged(this)
      ensures r.Ok? ==> (balances == old(balances)[donor := r.value]
                      && total == Some(old(TotalDeposits()) - amount)
                      && usdcToken == old(usdcToken) && admin == old(admin)
                      && deployed == old(deployed) && yieldPool == old(yieldPool))
      ensures r.Ok? ==> r.value >= 0 || old(Balance(donor)) < 0
      ensures old(Valid()) ==> Valid() && r != Err(MissingKey("total"))
    {
      if !Authorized(env, donor) { return Err(Unauthorized(donor)); }
      var current := Balance(donor);
      if amount > current { return Err(Panic("Insufficient balance")); }
      if usdcToken.None? { return Err(MissingKey("usdc_tkn")); }
      if !env.transfersSucceed { return Err(TransferFailed); }
      if total.None? { return Err(MissingKey("total")); }
      var newBalance := current - amount;
      SumUpdate(balances, donor, newBalance);
      balances := balances[donor := newBalance];
      total := Some(total.value - amount);
      r := Ok(newBalance);
    }

    /** The admin check every admin-only entry point starts with:
        `admin.unwrap()` then `admin.require_auth()`. */
    function AdminCheck(env: Env): (f: Option<Failure>)
      reads this
      ensures f.None? <==> admin.Some? && Authorized(env, admin.value)
      ensures admin.None? ==> f == Some(MissingKey("admin"))
    {
      if admin.None? then Some(MissingKey("admin"))
      else if !Authorized(env, admin.value) then Some(Unauthorized(admin.value))
      else None
    }

    /** `deploy_to_defi`: sends `amount` to a protocol and records it as
        deployed there; donor balances and the total are untouched. */
    method DeployToDefi(env: Env, protocol: Address, amount: int) returns (r: Outcome<()>)
      modifies this
      ensures r == if old(AdminCheck(env)).Some? then Err(old(AdminCheck(env)).value)
                   else if old(usdcToken).None? then Err(MissingKey("usdc_tkn"))
                   else if !env.transfersSucceed then Err(TransferFailed)
                   else Ok(())
      ensures r.Err? ==> unchanged(this)
      ensures r.Ok? ==> (deployed == old(deployed)[protocol := old(Deployed(protocol)) + amount]
                      && balances == old(balances) && total == old(total)
                      && usdcToken == old(usdcToken) && admin == old(admin)
                      && yieldPool == old(yieldPool))
      ensures old(Valid()) ==> Valid()
    {
      var check := AdminCheck(env);
      if check.Some? { return Err(check.value); }
      if usdcToken.None? { return Err(MissingKey("usdc_tkn")); }
      if !env.transfersSucceed { return Err(TransferFailed); }
      deployed := deployed[protocol := Deployed(protocol) + amount];
      r := Ok(());
    }

    /** `withdraw_yield`: moves `amount` out of a protocol's deployed amount
        into the yield pool, refusing to take more than is deployed there. */
    method WithdrawYield(env: Env, protocol: Address, amount: int) returns (r: Outcome<()>)
      modifies this
      ensures r == if old(AdminCheck(env)).Some? then Err(old(AdminCheck(env)).value)
                   else if amount > old(Deployed(protocol)) then Err(Panic("Insufficient deployed amount"))
                   else Ok(())
      ensures r.Err? ==> unchanged(this)
      ensures r.Ok? ==> (deployed == old(deployed)[protocol := old(Deployed(protocol)) - amount]
                      && TotalYield() == old(TotalYield()) + amount
                      && yieldPool.Some?
                      && balances == old(balances) && total == old(total)
                      && usdcToken == old(usdcToken) && admin == old(admin))
      ensures r.Ok? ==> Deployed(protocol) + TotalYield() == old(Deployed(protocol) + TotalYield())
      ensures old(Valid()) ==> Valid()
    {
      var check := AdminCheck(env);
      if check.Some? { return Err(check.value); }
      var current := Deployed(protocol);
      if amount > current { return Err(Panic("Insufficient deployed amount")); }
      deployed := deployed[protocol := current - amount];
      yieldPool := Some(TotalYield() + amount);
      r := Ok(());
    }

    /** `distribute_yield`: pays `yieldAmount` out of the yield pool to the
        impact contract, refusing to pay more than the pool holds. */
    method DistributeYield(env: Env, impactContract: Address, yieldAmount: int) returns (r: Outcome<()>)
      modifies this
      ensures r == if old(AdminCheck(env)).Some? then Err(old(AdminCheck(env)).value)
                   else if yieldAmount > old(TotalYield()) then Err(Panic("Insufficient yield available"))
                   else if old(usdcToken).None? then Err(MissingKey("usdc_tkn"))
                   else if !env.transfersSucceed then Err(TransferFailed)
                   else Ok(())
      ensures r.Err? ==> unchanged(this)
      ensures r.Ok? ==> (TotalYield() == old(TotalYield()) - yieldAmount
                      && yieldPool.Some?
                      && deployed == old(deployed)
                      && balances == old(balances) && total == old(total)
                      && usdcToken == old(usdcToken) && admin == old(admin))
      ensures old(Valid()) ==> Valid()
    {
      var check := AdminCheck(env);
      if check.Some? { return Err(check.value); }
      var available := TotalYield();
      if yieldAmount > available { return Err(Panic("Insufficient yield available")); }
      if usdcToken.None? { return Err(MissingKey("usdc_tkn")); }
      if !env.transfersSucceed { return Err(TransferFailed); }
      yieldPool := Some(available - yieldAmount);
      r := Ok(());
    }
  }

  /** A donor's deposit followed by withdrawing it all: the balance first
      shows the deposit, then returns to 0, and so does the total. */
  method DepositWithdrawScenario(env: Env, usdc: Address, adminAddress: Address, donor: Address,
                                 amount: int) returns (afterDeposit: int, afterWithdraw: int, total: int)
    requires donor in env.signers && env.transfersSucceed
    ensures afterDeposit == amount && afterWithdraw == 0 && total == 0
  {
    var v := new Vault();
    v.Initialize(usdc, adminAddress);
    var d := v.Deposit(env, donor, amount);
    afterDeposit := v.Balance(donor);
    var w := v.Withdraw(env, donor, amount);
    afterWithdraw := v.Balance(donor);
    total := v.TotalDeposits();
  }
}
