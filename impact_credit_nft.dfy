/** The ImpactCreditNFT contract: one proof-of-impact NFT is minted per voucher
    redemption, owned at first by the admin and listed for sale at the aid
    amount; owners transfer or re-list them and anyone may buy a listed one.
    Every field of `Registry` is one key of the contract's instance storage. */
module ImpactCreditNft {
  import opened Soroban

  const MetadataUri: string := "ipfs://impact-credit/metadata"

  datatype Nft = Nft(
    tokenId: nat,
    redemptionId: nat,
    beneficiary: Address,
    merchant: Address,
    programId: nat,
    amount: int,
    timestamp: nat,
    proofHash: string,
    metadataUri: string,
    owner: Address,
    forSale: bool,
    price: int)

  class Registry {
    var admin: Option<Address>       // "admin"
    var usdcToken: Option<Address>   // "usdc_tkn"
    var nftCount: nat                // "nft_cnt", read with default 0
    var nfts: map<nat, Nft>          // ("nft", token_id)

    /** Minted ids are exactly 1..nft_cnt and each NFT is stored under its
        own id. */
    ghost predicate Valid()
      reads this
    {
      nfts.Keys == Ids(nftCount) &&
      forall id :: id in nfts ==> nfts[id].tokenId == id
    }

    constructor ()
      ensures admin == None && usdcToken == None && nftCount == 0 && nfts == map[]
      ensures Valid()
    {
      admin, usdcToken, nftCount, nfts := None, None, 0, map[];
    }

    /** `initialize`: stores admin and token and resets the counter. With no
        guard against a second call, the minted ids match the counter
        afterwards only if nothing was minted before. */
    method Initialize(adminAddress: Address, usdc: Address)
      modifies this
      ensures admin == Some(adminAddress) && usdcToken == Some(usdc)
      ensures nftCount == 0 && TotalSupply() == 0 && nfts == old(nfts)
      ensures Valid() <==> nfts == map[]
    {
      admin, usdcToken, nftCount := Some(adminAddress), Some(usdc), 0;
    }

    /** `mint_impact_nft`: the admin mints the next id. */
    method MintImpactNft(env: Env, redemptionId: nat, beneficiary: Address, merchant: Address,
                         programId: nat, amount: int, proofHash: string) returns (r: Outcome<nat>)
      modifies this
      ensures r == if old(admin).None? then Err(MissingKey("admin"))
                   else if !Authorized(env, old(admin).value) then Err(Unauthorized(old(admin).value))
                   else Ok(old(nftCount) + 1)
      ensures r.Err? ==> unchanged(this)
      ensures r.Ok? ==> (nftCount == r.value
                      && nfts == old(nfts)[r.value := Nft(r.value, redemptionId, beneficiary, merchant,
                                                           programId, amount, env.timestamp, proofHash,
                                                           MetadataUri, old(admin).value, true, amount)]
                      && admin == old(admin) && usdcToken == old(usdcToken))
      ensures old(Valid()) ==> Valid()
      ensures old(Valid()) && r.Ok? ==> r.value !in old(nfts) && |nfts| == |old(nfts)| + 1
    {
      if admin.None? { return Err(MissingKey("admin")); }
      if !Authorized(env, admin.value) { return Err(Unauthorized(admin.value)); }
      var tokenId := nftCount + 1;
      var nft := Nft(tokenId, redemptionId, beneficiary, merchant, programId, amount,
                     env.timestamp, proofHash, MetadataUri, admin.value, true, amount);
      nfts := nfts[tokenId := nft];
      nftCount := tokenId;
      r := Ok(tokenId);
    }

    /** `get_nft` */
    function GetNft(tokenId: nat): (r: Option<Nft>)
      reads this
      ensures r.Some? <==> tokenId in nfts
      ensures r.Some? ==> r.value == nfts[tokenId]
    {
      if tokenId in nfts then Some(nfts[tokenId]) else None
    }

    /** `owner_of`: None exactly for the ids never minted. */
    function OwnerOf(tokenId: nat): (r: Option<Address>)
      reads this
      ensures r.Some? <==> tokenId in nfts
      ensures Valid() ==> (r.Some? <==> 1 <= tokenId <= nftCount)
      ensures r.Some? ==> r.value == nfts[tokenId].owner
    {
      match GetNft(tokenId)
      case Some(nft) => Some(nft.owner)
      case None => None
    }

    /** `get_total_supply`: the number of NFTs minted. */
    function TotalSupply(): (n: nat)
      reads this
      ensures Valid() ==> n == |nfts|
    {
      IdsCount(nftCount);
      nftCount
    }

    /** The fetch-and-check both `transfer` and `list_for_sale` start with. */
    function OwnedCheck(tokenId: nat, claimed: Address): (f: Option<Failure>)
      reads this
      ensures f.None? <==> tokenId in nfts && nfts[tokenId].owner == claimed
      ensures tokenId !in nfts ==> f == Some(Panic("NFT not found"))
    {
      if tokenId !in nfts then Some(Panic("NFT not found"))
      else if nfts[tokenId].owner != claimed then Some(Panic("Not the owner"))
      else None
    }

    /** `transfer`: the owner hands the NFT to `to`, which also takes it off
        sale; nothing else about the NFT changes. */
    method Transfer(env: Env, from: Address, to: Address, tokenId: nat) returns (r: Outcome<()>)
      modifies this
      ensures r == if !Authorized(env, from) then Err(Unauthorized(from))
                   else if old(OwnedCheck(tokenId, from)).Some? then Err(old(OwnedCheck(tokenId, from)).value)
                   else Ok(())
      ensures r.Err? ==> unchanged(this)
      ensures r.Ok? ==> (nfts == old(nfts)[tokenId := old(nfts[tokenId]).(owner := to, forSale := false)]
                      && nftCount == old(nftCount) && admin == old(admin) && usdcToken == old(usdcToken))
      ensures old(Valid()) ==> Valid()
    {
      if !Authorized(env, from) { return Err(Unauthorized(from)); }
      var check := OwnedCheck(tokenId, from);
      if check.Some? { return Err(check.value); }
      nfts := nfts[tokenId := nfts[tokenId].(owner := to, forSale := false)];
      r := Ok(());
    }

    /** `list_for_sale`: the owner puts the NFT up for sale at `price`. */
    method ListForSale(env: Env, owner: Address, tokenId: nat, price: int) returns (r: Outcome<()>)
      modifies this
      ensures r == if !Authorized(env, owner) then Err(Unauthorized(owner))
                   else if old(OwnedCheck(tokenId, owner)).Some? then Err(old(OwnedCheck(tokenId, owner)).value)
                   else Ok(())
      ensures r.Err? ==> unchanged(this)
      ensures r.Ok? ==> (nfts == old(nfts)[tokenId := old(nfts[tokenId]).(forSale := true, price := price)]
                      && nftCount == old(nftCount) && admin == old(admin) && usdcToken == old(usdcToken))
      ensures old(Valid()) ==> Valid()
    {
      if !Authorized(env, owner) { return Err(Unauthorized(owner)); }
      var check := OwnedCheck(tokenId, owner);
      if check.Some? { return Err(check.value); }
      nfts := nfts[tokenId := nfts[tokenId].(forSale := true, price := price)];
      r := Ok(());
    }

    /** `buy_nft`: anyone may buy a listed NFT; the price goes to the seller
        and the NFT to the buyer, off sale. Buying one's own NFT is not
        refused. */
    method BuyNft(env: Env, buyer: Address, tokenId: nat) returns (r: Outcome<()>)
      modifies this
      ensures r == if !Authorized(env, buyer) then Err(Unauthorized(buyer))
                   else if tokenId !in old(nfts) then Err(Panic("NFT not found"))
                   else if !old(nfts[tokenId]).forSale then Err(Panic("NFT not for sale"))
                   else if old(usdcToken).None? then Err(MissingKey("usdc_tkn"))
                   else if !env.transfersSucceed then Err(TransferFailed)
                   else Ok(())
      ensures r.Err? ==> unchanged(this)
      ensures r.Ok? ==> (nfts == old(nfts)[tokenId := old(nfts[tokenId]).(owner := buyer, forSale := false)]
                      && nftCount == old(nftCount) && admin == old(admin) && usdcToken == old(usdcToken))
      ensures old(Valid()) ==> Valid()
    {
      if !Authorized(env, buyer) { return Err(Unauthorized(buyer)); }
      if tokenId !in nfts { return Err(Panic("NFT not found")); }
      var nft := nfts[tokenId];
      if !nft.forSale { return Err(Panic("NFT not for sale")); }
      if usdcToken.None? { return Err(MissingKey("usdc_tkn")); }
      if !env.transfersSucceed { return Err(TransferFailed); }
      nfts := nfts[tokenId := nft.(owner := buyer, forSale := false)];
      r := Ok(());
    }
  }

  /** The supply is 0 right after `initialize`; the admin's first mint gets
      id 1, owned by the admin and listed; after a transfer the new owner
      holds it off sale, and the supply is 1. */
  method MintTransferScenario(env: Env, adminAddress: Address, usdc: Address, buyer: Address)
    returns (before: nat, id: Outcome<nat>, owner: Option<Address>, listed: bool, supply: nat)
    requires adminAddress in env.signers
    ensures before == 0 && id == Ok(1) && owner == Some(buyer) && !listed && supply == 1
  {
    var c := new Registry();
    c.Initialize(adminAddress, usdc);
    before := c.TotalSupply();
    id := c.MintImpactNft(env, 7, buyer, buyer, 3, 500, "proof");
    var t := c.Transfer(env, adminAddress, buyer, 1);
    owner := c.OwnerOf(1);
    var nft := c.GetNft(1);
    listed := nft.Some? && nft.value.forSale;
    supply := c.TotalSupply();
  }
}
