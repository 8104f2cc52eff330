/** The ImpactContract: receives yield from the vault, and records merchants'
    proofs of service delivery, which the admin then marks verified. Every
    field of `Contract` is one key, or one family of keys, of the contract's
    instance storage. */
module ImpactContract {
  import opened Soroban

  /** The two values stored under ("status", id). */
  const StatusPending: nat := 0
  const StatusVerified: nat := 1

  class Contract {
    var admin: Option<Address>        // "admin"
    var proofCount: nat               // "proof_cnt", read with default 0
    var yieldBalance: int             // "yield_bal", read with default 0
    var proofMerchant: map<nat, Address>  // ("proof", id)
    var proofAmount: map<nat, int>        // ("amount", id)
    var proofHash: map<nat, string>       // ("hash", id)
    var proofStatus: map<nat, nat>        // ("status", id)

    /** Proofs 1..proof_cnt have merchant, amount and hash stored, and every
        stored status is Pending or Verified. A status may exist for an id
        that was never submitted, because verification does not look. */
    ghost predicate Valid()
      reads this
    {
      proofMerchant.Keys == Ids(proofCount) &&
      proofAmount.Keys == Ids(proofCount) &&
      proofHash.Keys == Ids(proofCount) &&
      Ids(proofCount) <= proofStatus.Keys &&
      forall id :: id in proofStatus ==> proofStatus[id] in {StatusPending, StatusVerified}
    }

    constructor ()
      ensures admin == None && proofCount == 0 && yieldBalance == 0
      ensures proofMerchant == map[] && proofAmount == map[] && proofHash == map[] && proofStatus == map[]
      ensures Valid()
    {
      admin, proofCount, yieldBalance := None, 0, 0;
      proofMerchant, proofAmount, proofHash, proofStatus := map[], map[], map[], map[];
    }

    /** `initialize`: stores the admin and zeroes both counters. */
    method Initialize(adminAddress: Address)
      modifies this
      ensures admin == Some(adminAddress)
      ensures proofCount == 0 && yieldBalance == 0
      ensures TotalProofs() == 0 && YieldBalance() == 0
      ensures proofMerchant == old(proofMerchant) && proofAmount == old(proofAmount)
      ensures proofHash == old(proofHash) && proofStatus == old(proofStatus)
      ensures old(Valid()) ==>
                (Valid() <==> proofMerchant == map[] && proofAmount == map[] && proofHash == map[])
    {
      admin, proofCount, yieldBalance := Some(adminAddress), 0, 0;
    }

    /** `receive_yield`: any signer credits `amount` to the yield balance. */
    method ReceiveYield(env: Env, from: Address, amount: int) returns (r: Outcome<()>)
      modifies this
      ensures r == if !Authorized(env, from) then Err(Unauthorized(from)) else Ok(())
      ensures r.Err? ==> unchanged(this)
      ensures r.Ok? ==> (yieldBalance == old(yieldBalance) + amount
                      && admin == old(admin) && proofCount == old(proofCount)
                      && proofMerchant == old(proofMerchant) && proofAmount == old(proofAmount)
                      && proofHash == old(proofHash) && proofStatus == old(proofStatus))
      ensures old(Valid()) ==> Valid()
    {
      if !Authorized(env, from) { return Err(Unauthorized(from)); }
      yieldBalance := yieldBalance + amount;
      r := Ok(());
    }

    /** `submit_proof`: a merchant records a proof under the next id, Pending. */
    method SubmitProof(env: Env, merchant: Address, serviceType: string, amount: int,
                       hash: string) returns (r: Outcome<nat>)
      modifies this
      ensures r == if !Authorized(env, merchant) then Err(Unauthorized(merchant)) else Ok(old(proofCount) + 1)
      ensures r.Err? ==> unchanged(this)
      ensures r.Ok? ==> (proofCount == r.value
                      && proofMerchant == old(proofMerchant)[r.value := merchant]
                      && proofAmount == old(proofAmount)[r.value := amount]
                      && proofHash == old(proofHash)[r.value := hash]
                      && proofStatus == old(proofStatus)[r.value := StatusPending]
                      && admin == old(admin) && yieldBalance == old(yieldBalance))
      ensures old(Valid()) ==> Valid()
    {
      if !Authorized(env, merchant) { return Err(Unauthorized(merchant)); }
      var id := proofCount + 1;
      proofMerchant := proofMerchant[id := merchant];
      proofAmount := proofAmount[id := amount];
      proofHash := proofHash[id := hash];
      proofStatus := proofStatus[id := StatusPending];
      proofCount := id;
      r := Ok(id);
    }

    /** `verify_proof`: the admin marks a proof Verified and gets its id back
        as the NFT id. The id is not checked against the submitted proofs,
        and the proof count never changes. */
    method VerifyProof(env: Env, proofId: nat) returns (r: Outcome<nat>)
      modifies this
      ensures r == if old(admin).None? then Err(MissingKey("admin"))
                   else if !Authorized(env, old(admin).value) then Err(Unauthorized(old(admin).value))
                   else Ok(proofId)
      ensures r.Err? ==> unchanged(this)
      ensures r.Ok? ==> (proofStatus == old(proofStatus)[proofId := StatusVerified]
                      && proofCount == old(proofCount)
                      && proofMerchant == old(proofMerchant) && proofAmount == old(proofAmount)
                      && proofHash == old(proofHash)
                      && admin == old(admin) && yieldBalance == old(yieldBalance))
      ensures old(Valid()) ==> Valid()
    {
      if admin.None? { return Err(MissingKey("admin")); }
      if !Authorized(env, admin.value) { return Err(Unauthorized(admin.value)); }
      proofStatus := proofStatus[proofId := StatusVerified];
      r := Ok(proofId);
    }

    /** `get_total_proofs`: the number of proofs submitted. */
    function TotalProofs(): (n: nat)
      reads this
      ensures Valid() ==> n == |proofMerchant|
    {
      IdsCount(proofCount);
      proofCount
    }

    /** `get_yield_balance` */
    function YieldBalance(): (y: int)
      reads this
      ensures y == yieldBalance
    {
      yieldBalance
    }
  }

  /** The contract's own test: right after `initialize` there are no proofs
      and no yield. */
  method InitializeScenario(adminAddress: Address) returns (proofs: nat, yieldBal: int)
    ensures proofs == 0 && yieldBal == 0
  {
    var c := new Contract();
    c.Initialize(adminAddress);
    proofs := c.TotalProofs();
    yieldBal := c.YieldBalance();
  }
}
