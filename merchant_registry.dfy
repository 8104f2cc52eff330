/** The MerchantRegistry contract: merchants register themselves once, the
    admin verifies or suspends them, and redemptions are tallied per
    merchant. Every field of `Registry` is one key of the contract's instance
    storage. */
module MerchantRegistry {
  import opened Soroban

  datatype MerchantStatus = Pending | Verified | Suspended | Rejected

  datatype Merchant = Merchant(
    address: Address,
    name: string,
    category: string,
    status: MerchantStatus,
    documentHash: string,
    totalRedemptions: nat,
    totalVolume: int)

  class Registry {
    var admin: Option<Address>            // "admin"
    var merchantCount: nat                // "merch_c", read with default 0
    var merchants: map<Address, Merchant> // ("merchant", address)

    /** The counter counts the registered merchants, each profile is stored
        under its own address, and no entry point ever makes a merchant
        Rejected. */
    ghost predicate Valid()
      reads this
    {
      merchantCount == |merchants| &&
      forall a :: a in merchants ==> merchants[a].address == a && merchants[a].status != Rejected
    }

    constructor ()
      ensures admin == None && merchantCount == 0 && merchants == map[]
      ensures Valid()
    {
      admin, merchantCount, merchants := None, 0, map[];
    }

    /** `initialize`: stores the admin and resets the counter; registration
        does not need it, so the counter is right afterwards only if no
        merchant registered before. */
    method Initialize(adminAddress: Address)
      modifies this
      ensures admin == Some(adminAddress) && merchantCount == 0 && merchants == old(merchants)
      ensures old(Valid()) ==> (Valid() <==> merchants == map[])
    {
      admin, merchantCount := Some(adminAddress), 0;
    }

    /** `register_merchant`: a merchant registers itself once, as Pending with
        no redemptions. */
    method RegisterMerchant(env: Env, merchant: Address, name: string, category: string,
                            documentHash: string) returns (r: Outcome<()>)
      modifies this
      ensures r == if !Authorized(env, merchant) then Err(Unauthorized(merchant))
                   else if merchant in old(merchants) then Err(Panic("Merchant already registered"))
                   else Ok(())
      ensures r.Err? ==> unchanged(this)
      ensures r.Ok? ==> (merchants == old(merchants)[merchant := Merchant(merchant, name, category, Pending, documentHash, 0, 0)]
                      && merchantCount == old(merchantCount) + 1 && admin == old(admin))
      ensures old(Valid()) ==> Valid()
    {
      if !Authorized(env, merchant) { return Err(Unauthorized(merchant)); }
      if merchant in merchants { return Err(Panic("Merchant already registered")); }
      merchants := merchants[merchant := Merchant(merchant, name, category, Pending, documentHash, 0, 0)];
      merchantCount := merchantCount + 1;
      r := Ok(());
    }

    /** The admin check and profile fetch `verify_merchant` and
        `suspend_merchant` start with. */
    function AdminFetch(env: Env, merchant: Address): (f: Option<Failure>)
      reads this
      ensures f.None? <==> admin.Some? && Authorized(env, admin.value) && merchant in merchants
      ensures admin.Some? && Authorized(env, admin.value) && merchant !in merchants ==>
                f == Some(Panic("Merchant not found"))
    {
      if admin.None? then Some(MissingKey("admin"))
      else if !Authorized(env, admin.value) then Some(Unauthorized(admin.value))
      else if merchant !in merchants then Some(Panic("Merchant not found"))
      else None
    }

    /** `verify_merchant`: the admin marks a merchant Verified, whatever its
        status was; nothing else in the profile changes. */
    method VerifyMerchant(env: Env, merchant: Address) returns (r: Outcome<()>)
      modifies this
      ensures r == if old(AdminFetch(env, merchant)).Some? then Err(old(AdminFetch(env, merchant)).value) else Ok(())
      ensures r.Err? ==> unchanged(this)
      ensures r.Ok? ==> (merchants == old(merchants)[merchant := old(merchants[merchant]).(status := Verified)]
                      && merchantCount == old(merchantCount) && admin == old(admin))
      ensures r.Ok? ==> IsVerified(merchant)
      ensures old(Valid()) ==> Valid()
    {
      var check := AdminFetch(env, merchant);
      if check.Some? { return Err(check.value); }
      merchants := merchants[merchant := merchants[merchant].(status := Verified)];
      r := Ok(());
    }

    /** `suspend_merchant`: the admin marks a merchant Suspended; nothing
        else in the profile changes. */
    method SuspendMerchant(env: Env, merchant: Address) returns (r: Outcome<()>)
      modifies this
      ensures r == if old(AdminFetch(env, merchant)).Some? then Err(old(AdminFetch(env, merchant)).value) else Ok(())
      ensures r.Err? ==> unchanged(this)
      ensures r.Ok? ==> (merchants == old(merchants)[merchant := old(merchants[merchant]).(status := Suspended)]
                      && merchantCount == old(merchantCount) && admin == old(admin))
      ensures r.Ok? ==> !IsVerified(merchant)
      ensures old(Valid()) ==> Valid()
    {
      var check := AdminFetch(env, merchant);
      if check.Some? { return Err(check.value); }
      merchants := merchants[merchant := merchants[merchant].(status := Suspended)];
      r := Ok(());
    }

    /** `get_merchant` */
    function GetMerchant(merchant: Address): (r: Option<Merchant>)
      reads this
      ensures r.Some? <==> merchant in merchants
      ensures r.Some? ==> r.value == merchants[merchant]
    {
      if merchant in merchants then Some(merchants[merchant]) else None
    }

    /** `is_verified`: true exactly for a registered merchant whose status is
        Verified. */
    function IsVerified(merchant: Address): (b: bool)
      reads this
      ensures b <==> merchant in merchants && merchants[merchant].status == Verified
    {
      match GetMerchant(merchant)
      case Some(profile) => profile.status == Verified
      case None => false
    }

    /** `record_redemption`: counts one more redemption of `amount` for a
        registered merchant; does nothing for an unknown address. No caller
        is checked. */
    method RecordRedemption(merchant: Address, amount: int)
      modifies this
      ensures merchant in old(merchants) ==>
                merchants == old(merchants)[merchant := old(merchants[merchant]).(
                  totalRedemptions := old(merchants[merchant]).totalRedemptions + 1,
                  totalVolume := old(merchants[merchant]).totalVolume + amount)]
      ensures merchant !in old(merchants) ==> merchants == old(merchants)
      ensures merchantCount == old(merchantCount) && admin == old(admin)
      ensures old(Valid()) ==> Valid()
    {
      if merchant in merchants {
        var profile := merchants[merchant];
        merchants := merchants[merchant := profile.(totalRedemptions := profile.totalRedemptions + 1,
                                                    totalVolume := profile.totalVolume + amount)];
      }
    }

    /** `get_merchant_count`: the number of registered merchants. */
    function MerchantCount(): (n: nat)
      reads this
      ensures Valid() ==> n == |merchants|
    {
      merchantCount
    }
  }

  /** A merchant registers once (a second attempt is refused), the admin
      verifies it, and the count is 1. */
  method RegisterVerifyScenario(env: Env, adminAddress: Address, merchant: Address)
    returns (again: Outcome<()>, verified: bool, count: nat)
    requires adminAddress in env.signers && merchant in env.signers
    ensures again == Err(Panic("Merchant already registered")) && verified && count == 1
  {
    var reg := new Registry();
    reg.Initialize(adminAddress);
    var first := reg.RegisterMerchant(env, merchant, "Corner Pharmacy", "healthcare", "doc");
    again := reg.RegisterMerchant(env, merchant, "Corner Pharmacy", "healthcare", "doc");
    var v := reg.VerifyMerchant(env, merchant);
    verified := reg.IsVerified(merchant);
    count := reg.MerchantCount();
  }
}
