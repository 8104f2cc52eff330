/** The earlier draft of the VoucherManager contract (src/voucher_manager.rs):
    voucher balances per (beneficiary, category), redemptions numbered by a
    counter and stored with a `verified` flag that a verifier sets later. */
module DraftVoucherManager {
  import opened Soroban
  import opened Text

  /** The record stored beside a balance when vouchers are allocated. */
  datatype VoucherDetails = VoucherDetails(beneficiary: Address, category: string, amount: nat, programId: nat)

  datatype Redemption = Redemption(
    id: nat,
    beneficiary: Address,
    merchant: Address,
    amount: nat,
    category: string,
    proofHash: seq<bv8>,
    timestamp: nat,
    verified: bool)

  /** The storage key a redemption is kept under. */
  function RedemptionKey(id: nat): string {
    "redemption_" + Decimal(id)
  }

  /** Different redemption ids are stored under different keys. */
  lemma RedemptionKeyInjective(a: nat, b: nat)
    requires RedemptionKey(a) == RedemptionKey(b)
    ensures a == b
  {
    assert RedemptionKey(a)[11..] == Decimal(a);
    assert RedemptionKey(b)[11..] == Decimal(b);
    DecimalRoundTrip(a);
    DecimalRoundTrip(b);
  }

  class Manager {
    var merchantRegistry: Option<Address>                 // MERCHANT_REG
    var balances: map<(Address, string), nat>             // "voucher_{b}_{c}", 0 when absent
    var details: map<(Address, string), VoucherDetails>   // "voucher_details_{b}_{c}"
    var redemptionCount: nat                              // REDEMPTIONS, 0 when absent
    var redemptions: map<nat, Redemption>                 // "redemption_{id}"

    /** The storage invariant: redemptions 1..count exist under their own
        ids; every details record names its own pair, and the amount it
        records (the balance right after the last allocation) bounds the
        balance, which redemptions only lower. */
    ghost predicate Valid()
      reads this
    {
      redemptions.Keys == Ids(redemptionCount) &&
      (forall id :: id in redemptions ==> redemptions[id].id == id) &&
      (forall k :: k in details ==> k in balances && balances[k] <= details[k].amount) &&
      (forall k :: k in details ==> details[k].beneficiary == k.0 && details[k].category == k.1)
    }

    constructor ()
      ensures merchantRegistry == None && balances == map[] && details == map[]
      ensures redemptionCount == 0 && redemptions == map[]
      ensures Valid()
    {
      merchantRegistry, balances, details := None, map[], map[];
      redemptionCount, redemptions := 0, map[];
    }

    /** `initialize`: records the merchant registry; nothing else changes. */
    method Initialize(registry: Address)
      modifies this
      ensures merchantRegistry == Some(registry)
      ensures balances == old(balances) && details == old(details)
      ensures redemptionCount == old(redemptionCount) && redemptions == old(redemptions)
      ensures old(Valid()) ==> Valid()
    {
      merchantRegistry := Some(registry);
    }

    /** `get_voucher_balance`: 0 for a pair never allocated. */
    function VoucherBalance(beneficiary: Address, category: string): (b: nat)
      reads this
      ensures (beneficiary, category) in balances ==> b == balances[(beneficiary, category)]
      ensures (beneficiary, category) !in balances ==> b == 0
    {
      GetOr(balances, (beneficiary, category), 0)
    }

    /** `allocate_voucher`: anyone may add `amount` to a pair's balance; the
        details record is rewritten with the new balance. */
    method AllocateVoucher(beneficiary: Address, category: string, amount: nat, programId: nat)
      modifies this
      ensures VoucherBalance(beneficiary, category) == old(VoucherBalance(beneficiary, category)) + amount
      ensures balances == old(balances)[(beneficiary, category) := VoucherBalance(beneficiary, category)]
      ensures details == old(details)[(beneficiary, category) :=
                VoucherDetails(beneficiary, category, VoucherBalance(beneficiary, category), programId)]
      ensures merchantRegistry == old(merchantRegistry)
      ensures redemptionCount == old(redemptionCount) && redemptions == old(redemptions)
      ensures old(Valid()) ==> Valid()
    {
      var key := (beneficiary, category);
      var newBalance := VoucherBalance(beneficiary, category) + amount;
      balances := balances[key := newBalance];
      details := details[key := VoucherDetails(beneficiary, category, newBalance, programId)];
    }

    /** `redeem_voucher`: the beneficiary spends `amount` of a category's
        balance at a merchant. The redemption is numbered count + 1 and
        stored unverified. The merchant is not checked. */
    method RedeemVoucher(env: Env, beneficiary: Address, merchant: Address, amount: nat,
                         category: string, proofHash: seq<bv8>) returns (r: Outcome<nat>)
      modifies this
      ensures r == if !Authorized(env, beneficiary) then Err(Unauthorized(beneficiary))
                   else if old(VoucherBalance(beneficiary, category)) < amount
                   then Err(Panic("Insufficient voucher balance"))
                   else Ok(old(redemptionCount) + 1)
      ensures r.Err? ==> unchanged(this)
      ensures r.Ok? ==> (redemptionCount == r.value
                      && redemptions == old(redemptions)[r.value := Redemption(r.value, beneficiary,
                                           merchant, amount, category, proofHash, env.timestamp, false)]
                      && balances == old(balances)[(beneficiary, category) :=
                                       old(VoucherBalance(beneficiary, category)) - amount]
                      && details == old(details) && merchantRegistry == old(merchantRegistry))
      ensures old(Valid()) ==> Valid()
    {
      if !Authorized(env, beneficiary) { return Err(Unauthorized(beneficiary)); }
      var key := (beneficiary, category);
      var current := VoucherBalance(beneficiary, category);
      if current < amount { return Err(Panic("Insufficient voucher balance")); }
      var id := redemptionCount + 1;
      redemptionCount := id;
      redemptions := redemptions[id := Redemption(id, beneficiary, merchant, amount, category,
                                                  proofHash, env.timestamp, false)];
      balances := balances[key := current - amount];
      r := Ok(id);
    }

    /** `verify_redemption`: any signing verifier marks an existing
        redemption verified; nothing else about it changes. */
    method VerifyRedemption(env: Env, redemptionId: nat, verifier: Address) returns (r: Outcome<()>)
      modifies this
      ensures r == if !Authorized(env, verifier) then Err(Unauthorized(verifier))
                   else if redemptionId !in old(redemptions) then Err(MissingKey(RedemptionKey(redemptionId)))
                   else Ok(())
      ensures r.Err? ==> unchanged(this)
      ensures r.Ok? ==> (redemptions == old(redemptions)[redemptionId :=
                                           old(redemptions)[redemptionId].(verified := true)]
                      && balances == old(balances) && details == old(details)
                      && redemptionCount == old(redemptionCount)
                      && merchantRegistry == old(merchantRegistry))
      ensures old(Valid()) ==> Valid()
    {
      if !Authorized(env, verifier) { return Err(Unauthorized(verifier)); }
      if redemptionId !in redemptions { return Err(MissingKey(RedemptionKey(redemptionId))); }
      redemptions := redemptions[redemptionId := redemptions[redemptionId].(verified := true)];
      r := Ok(());
    }

    /** `get_redemption`: under the invariant, exactly the ids 1..count are
        found. */
    function GetRedemption(redemptionId: nat): (r: Outcome<Redemption>)
      reads this
      ensures r.Ok? <==> redemptionId in redemptions
      ensures r.Ok? ==> r.value == redemptions[redemptionId]
      ensures r.Err? ==> r.failure == MissingKey(RedemptionKey(redemptionId))
      ensures Valid() ==> (r.Ok? <==> 1 <= redemptionId <= redemptionCount)
      ensures Valid() && r.Ok? ==> r.value.id == redemptionId
    {
      if redemptionId in redemptions then Ok(redemptions[redemptionId])
      else Err(MissingKey(RedemptionKey(redemptionId)))
    }

    /** `get_redemption_count`: under the invariant, the number of stored
        redemptions. */
    function RedemptionCount(): (n: nat)
      reads this
      ensures Valid() ==> n == |redemptions|
    {
      IdsCount(redemptionCount);
      redemptionCount
    }
  }

  /** Allocating and then redeeming part of it leaves the difference, and
      the new redemption is stored unverified under id 1. */
  method AllocateRedeemScenario(env: Env, beneficiary: Address, merchant: Address, category: string)
    returns (balance: nat, id: Outcome<nat>, verified: bool)
    requires beneficiary in env.signers
    ensures balance == 600 && id == Ok(1) && !verified
  {
    var m := new Manager();
    m.AllocateVoucher(beneficiary, category, 1000, 1);
    id := m.RedeemVoucher(env, beneficiary, merchant, 400, category, []);
    balance := m.VoucherBalance(beneficiary, category);
    var stored := m.GetRedemption(1);
    verified := stored.Ok? && stored.value.verified;
  }
}
