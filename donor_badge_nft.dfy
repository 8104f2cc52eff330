/** The DonorBadgeNFT contract: anyone may mint a donor badge to any address;
    badges get consecutive ids from 1, and a donor's badges are found by
    scanning every id minted. Every field of `Contract` is one key, or one
    family of keys, of the contract's instance storage. */
module DonorBadgeNft {
  import opened Soroban

  const BadgeImageUrl: string := "https://ipfs.io/ipfs/badge-image-hash"

  datatype BadgeMetadata = BadgeMetadata(
    name: string,
    description: string,
    imageUrl: string,
    badgeType: string,
    rarity: string)

  /** `next_id` is written only as 1 or as an incremented value. */
  type PositiveId = n: nat | n >= 1 witness 1

  /** Whether `owner` holds badge `id` according to the ("owner", id) keys. */
  predicate Holds(owners: map<nat, Address>, id: nat, owner: Address) {
    id in owners && owners[id] == owner
  }

  class Contract {
    var admin: Option<Address>           // "admin"
    var nextId: PositiveId               // "next_id", read with default 1
    var badges: map<nat, BadgeMetadata>  // ("badge", id)
    var owners: map<nat, Address>        // ("owner", id)

    /** Badges 1..next_id-1 have metadata and an owner, and nothing else
        does. */
    ghost predicate Valid()
      reads this
    {
      badges.Keys == Ids(nextId - 1) && owners.Keys == Ids(nextId - 1)
    }

    /** A freshly deployed contract: nothing stored, so `next_id` reads as 1. */
    constructor ()
      ensures admin == None && nextId == 1 && badges == map[] && owners == map[]
      ensures Valid()
    {
      admin, nextId, badges, owners := None, 1, map[], map[];
    }

    /** `initialize`: stores the admin and sets `next_id` to 1, so the supply
        reads 0; without a guard, ids match again only if nothing was minted. */
    method Initialize(adminAddress: Address)
      modifies this
      ensures admin == Some(adminAddress) && nextId == 1 && TotalSupply() == 0
      ensures badges == old(badges) && owners == old(owners)
      ensures Valid() <==> badges == map[] && owners == map[]
    {
      admin, nextId := Some(adminAddress), 1;
    }

    /** `mint_badge`: stores metadata and owner under the current `next_id`,
        advances it, and returns the id used. Nobody's authorisation is
        asked for. */
    method MintBadge(to: Address, name: string, description: string, badgeType: string,
                     rarity: string) returns (id: nat)
      modifies this
      ensures id == old(nextId) && nextId == id + 1
      ensures badges == old(badges)[id := BadgeMetadata(name, description, BadgeImageUrl, badgeType, rarity)]
      ensures owners == old(owners)[id := to]
      ensures admin == old(admin)
      ensures old(Valid()) ==> Valid() && id !in old(owners) && TotalSupply() == old(TotalSupply()) + 1
    {
      id := nextId;
      badges := badges[id := BadgeMetadata(name, description, BadgeImageUrl, badgeType, rarity)];
      owners := owners[id := to];
      nextId := id + 1;
    }

    /** `get_badge` */
    function GetBadge(id: nat): (r: Option<BadgeMetadata>)
      reads this
      ensures r.Some? <==> id in badges
      ensures r.Some? ==> r.value == badges[id]
    {
      if id in badges then Some(badges[id]) else None
    }

    /** `get_owner`: None exactly for the ids never minted. */
    function GetOwner(id: nat): (r: Option<Address>)
      reads this
      ensures r.Some? <==> id in owners
      ensures r.Some? ==> r.value == owners[id]
      ensures Valid() ==> (r.Some? <==> 1 <= id < nextId)
    {
      if id in owners then Some(owners[id]) else None
    }

    /** `total_supply`: `next_id` - 1, the number of badges minted. */
    function TotalSupply(): (n: nat)
      reads this
      ensures Valid() ==> n == |owners|
    {
      IdsCount(nextId - 1);
      nextId - 1
    }

    /** `get_badges_by_owner`: the ids in 1..total_supply that `owner` holds,
        in ascending order. */
    method BadgesByOwner(owner: Address) returns (ids: seq<nat>)
      ensures forall id :: id in ids <==> 1 <= id <= TotalSupply() && Holds(owners, id, owner)
      ensures forall i, j :: 0 <= i < j < |ids| ==> ids[i] < ids[j]
    {
      var total := TotalSupply();
      ids := [];
      var i := 1;
      while i <= total
        invariant 1 <= i <= total + 1
        invariant forall id :: id in ids <==> 1 <= id < i && Holds(owners, id, owner)
        invariant forall k :: 0 <= k < |ids| ==> ids[k] < i
        invariant forall k, l :: 0 <= k < l < |ids| ==> ids[k] < ids[l]
      {
        var badgeOwner := GetOwner(i);
        if badgeOwner.Some? && badgeOwner.value == owner {
          ids := ids + [i];
        }
        i := i + 1;
      }
    }
  }

  /** The contract's own test: the first badge minted after `initialize`
      gets id 1, after which the supply is 1. */
  method FirstMintScenario(adminAddress: Address, user: Address) returns (id: nat, supply: nat)
    ensures id == 1 && supply == 1
  {
    var c := new Contract();
    c.Initialize(adminAddress);
    id := c.MintBadge(user, "Rising Star", "A badge for new donors making their first impact",
                      "achievement", "common");
    supply := c.TotalSupply();
  }
}
