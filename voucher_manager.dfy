/** The VoucherManager contract: the admin credits beneficiaries with
    per-program voucher balances, and a beneficiary redeems them at a
    merchant, which pays the merchant and records a numbered redemption.
    Every field of `Manager` is one key of the contract's instance storage. */
module VoucherManager {
  import opened Soroban

  datatype VoucherStatus = Active | Redeemed | Expired

  datatype Redemption = Redemption(
    beneficiary: Address,
    merchant: Address,
    programId: nat,
    amount: int,
    timestamp: nat,
    proofHash: string)

  class Manager {
    var usdcToken: Option<Address>               // "usdc_tkn"
    var admin: Option<Address>                   // "admin"
    var redeemCount: nat                         // "redeem_ct", read with default 0
    var vouchers: map<(Address, nat), int>       // ("voucher", beneficiary, program_id)
    var redemptions: map<nat, Redemption>        // ("redeem", redemption_id)
    var beneficiaryCounts: map<Address, nat>     // ("ben_count", beneficiary), read only

    /** Redemption ids are exactly 1..redeem_ct, and no entry point writes a
        per-beneficiary redemption count. */
    ghost predicate Valid()
      reads this
    {
      redemptions.Keys == Ids(redeemCount) && beneficiaryCounts == map[]
    }

    constructor ()
      ensures usdcToken == None && admin == None && redeemCount == 0
      ensures vouchers == map[] && redemptions == map[] && beneficiaryCounts == map[]
      ensures Valid()
    {
      usdcToken, admin, redeemCount := None, None, 0;
      vouchers, redemptions, beneficiaryCounts := map[], map[], map[];
    }

    /** `initialize`: stores token and admin and resets the counter; with no
        guard, ids match the counter afterwards only if nothing was redeemed
        before. */
    method Initialize(usdc: Address, adminAddress: Address)
      modifies this
      ensures usdcToken == Some(usdc) && admin == Some(adminAddress)
      ensures redeemCount == 0 && RedemptionCount() == 0
      ensures vouchers == old(vouchers) && redemptions == old(redemptions)
      ensures beneficiaryCounts == old(beneficiaryCounts)
      ensures old(Valid()) ==> (Valid() <==> redemptions == map[])
    {
      usdcToken, admin, redeemCount := Some(usdc), Some(adminAddress), 0;
    }

    /** `get_voucher_balance`: 0 for a pair never credited. */
    function VoucherBalance(beneficiary: Address, programId: nat): (b: int)
      reads this
      ensures (beneficiary, programId) in vouchers ==> b == vouchers[(beneficiary, programId)]
      ensures (beneficiary, programId) !in vouchers ==> b == 0
    {
      GetOr(vouchers, (beneficiary, programId), 0)
    }

    /** `issue_voucher`: the admin credits `amount` to one beneficiary's
        balance for one program. */
    method IssueVoucher(env: Env, beneficiary: Address, programId: nat, amount: int) returns (r: Outcome<()>)
      modifies this
      ensures r == if old(admin).None? then Err(MissingKey("admin"))
                   else if !Authorized(env, old(admin).value) then Err(Unauthorized(old(admin).value))
                   else Ok(())
      ensures r.Err? ==> unchanged(this)
      ensures r.Ok? ==> (vouchers == old(vouchers)[(beneficiary, programId) := old(VoucherBalance(beneficiary, programId)) + amount]
                      && redemptions == old(redemptions) && redeemCount == old(redeemCount)
                      && usdcToken == old(usdcToken) && admin == old(admin)
                      && beneficiaryCounts == old(beneficiaryCounts))
      ensures old(Valid()) ==> Valid()
    {
      if admin.None? { return Err(MissingKey("admin")); }
      if !Authorized(env, admin.value) { return Err(Unauthorized(admin.value)); }
      var key := (beneficiary, programId);
      vouchers := vouchers[key := VoucherBalance(beneficiary, programId) + amount];
      r := Ok(());
    }

    /** `redeem_voucher`: a beneficiary spends `amount` of one program's
        balance at a merchant; the merchant is paid and the redemption is
        stored under the next id, which is returned. The merchant is not
        checked against the registry. */
    method RedeemVoucher(env: Env, beneficiary: Address, merchant: Address, programId: nat,
                         amount: int, proofHash: string) returns (r: Outcome<nat>)
      modifies this
      ensures r == if !Authorized(env, beneficiary) then Err(Unauthorized(beneficiary))
                   else if amount > old(VoucherBalance(beneficiary, programId)) then Err(Panic("Insufficient voucher balance"))
                   else if old(usdcToken).None? then Err(MissingKey("usdc_tkn"))
                   else if !env.transfersSucceed then Err(TransferFailed)
                   else Ok(old(redeemCount) + 1)
      ensures r.Err? ==> unchanged(this)
      ensures r.Ok? ==> (vouchers == old(vouchers)[(beneficiary, programId) := old(VoucherBalance(beneficiary, programId)) - amount]
                      && redemptions == old(redemptions)[r.value := Redemption(beneficiary, merchant, programId, amount, env.timestamp, proofHash)]
                      && redeemCount == r.value
                      && usdcToken == old(usdcToken) && admin == old(admin)
                      && beneficiaryCounts == old(beneficiaryCounts))
      ensures old(Valid()) ==> Valid()
      ensures old(Valid()) && r.Ok? ==> r.value !in old(redemptions)
    {
      if !Authorized(env, beneficiary) { return Err(Unauthorized(beneficiary)); }
      var key := (beneficiary, programId);
      var current := VoucherBalance(beneficiary, programId);
      if amount > current { return Err(Panic("Insufficient voucher balance")); }
      if usdcToken.None? { return Err(MissingKey("usdc_tkn")); }
      if !env.transfersSucceed { return Err(TransferFailed); }
      vouchers := vouchers[key := current - amount];
      var id := redeemCount + 1;
      redemptions := redemptions[id := Redemption(beneficiary, merchant, programId, amount, env.timestamp, proofHash)];
      redeemCount := id;
      r := Ok(id);
    }

    /** `get_redemption`: None exactly for the ids never handed out. */
    function GetRedemption(id: nat): (r: Option<Redemption>)
      reads this
      ensures r.Some? <==> id in redemptions
      ensures r.Some? ==> r.value == redemptions[id]
      ensures Valid() ==> (r.Some? <==> 1 <= id <= redeemCount)
    {
      if id in redemptions then Some(redemptions[id]) else None
    }

    /** `get_redemption_count`: the number of redemptions made. */
    function RedemptionCount(): (n: nat)
      reads this
      ensures Valid() ==> n == |redemptions|
    {
      IdsCount(redeemCount);
      redeemCount
    }

    /** `get_beneficiary_redemptions`: always 0, since the key it reads is
        never written. */
    function BeneficiaryRedemptions(beneficiary: Address): (n: nat)
      reads this
      ensures Valid() ==> n == 0
    {
      GetOr(beneficiaryCounts, beneficiary, 0)
    }
  }

  /** A beneficiary credited 100 cannot redeem 150; redeeming 40 gets id 1
      and leaves 60, and one redemption is counted. */
  method IssueRedeemScenario(env: Env, usdc: Address, adminAddress: Address, beneficiary: Address,
                             merchant: Address) returns (refused: Outcome<nat>, id: Outcome<nat>,
                                                         balance: int, count: nat)
    requires adminAddress in env.signers && beneficiary in env.signers && env.transfersSucceed
    ensures refused == Err(Panic("Insufficient voucher balance"))
    ensures id == Ok(1) && balance == 60 && count == 1
  {
    var m := new Manager();
    m.Initialize(usdc, adminAddress);
    var issued := m.IssueVoucher(env, beneficiary, 2, 100);
    refused := m.RedeemVoucher(env, beneficiary, merchant, 2, 150, "proof");
    id := m.RedeemVoucher(env, beneficiary, merchant, 2, 40, "proof");
    balance := m.VoucherBalance(beneficiary, 2);
    count := m.RedemptionCount();
  }
}
