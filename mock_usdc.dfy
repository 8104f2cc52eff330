/** The MockUSDC test token: initialised once with its name, symbol and
    decimals; `mint` only announces a mint. The storage fields are the
    contract's four instance keys; `events` is the log of what it published. */
module MockUsdc {
  import opened Soroban

  datatype MintEvent = MintEvent(to: Address, amount: int)

  class Token {
    var admin: Option<Address>   // DataKey::Admin
    var name: Option<string>     // DataKey::Name
    var symbol: Option<string>   // DataKey::Symbol
    var decimals: Option<nat>    // DataKey::Decimals
    var events: seq<MintEvent>

    /** The four keys are written together, so either all are there or none. */
    ghost predicate Valid()
      reads this
    {
      (admin.Some? <==> name.Some?) && (admin.Some? <==> symbol.Some?) && (admin.Some? <==> decimals.Some?)
    }

    constructor ()
      ensures admin == None && name == None && symbol == None && decimals == None && events == []
      ensures Valid()
    {
      admin, name, symbol, decimals, events := None, None, None, None, [];
    }

    /** `initialize`: refuses a second call; otherwise stores the four values. */
    method Initialize(adminAddress: Address, tokenName: string, tokenSymbol: string,
                      tokenDecimals: nat) returns (r: Outcome<()>)
      modifies this
      ensures r == if old(admin).Some? then Err(Panic("Already initialized")) else Ok(())
      ensures r.Err? ==> unchanged(this)
      ensures r.Ok? ==> (admin == Some(adminAddress)
                      && Name() == Ok(tokenName) && Symbol() == Ok(tokenSymbol)
                      && Decimals() == Ok(tokenDecimals) && events == old(events))
      ensures old(Valid()) ==> Valid()
    {
      if admin.Some? { return Err(Panic("Already initialized")); }
      admin := Some(adminAddress);
      name := Some(tokenName);
      symbol := Some(tokenSymbol);
      decimals := Some(tokenDecimals);
      r := Ok(());
    }

    /** `mint`: anyone may call it; it publishes a mint event and stores
        nothing. */
    method Mint(to: Address, amount: int)
      modifies this
      ensures admin == old(admin) && name == old(name) && symbol == old(symbol) && decimals == old(decimals)
      ensures events == old(events) + [MintEvent(to, amount)]
    {
      events := events + [MintEvent(to, amount)];
    }

    /** `name`: fails before `initialize`. */
    function Name(): (r: Outcome<string>)
      reads this
      ensures r.Ok? <==> name.Some?
      ensures r.Ok? ==> r.value == name.value
      ensures r.Err? ==> r.failure == MissingKey("Name")
    {
      if name.Some? then Ok(name.value) else Err(MissingKey("Name"))
    }

    /** `symbol`: fails before `initialize`. */
    function Symbol(): (r: Outcome<string>)
      reads this
      ensures r.Ok? <==> symbol.Some?
      ensures r.Ok? ==> r.value == symbol.value
      ensures r.Err? ==> r.failure == MissingKey("Symbol")
    {
      if symbol.Some? then Ok(symbol.value) else Err(MissingKey("Symbol"))
    }

    /** `decimals`: fails before `initialize`. */
    function Decimals(): (r: Outcome<nat>)
      reads this
      ensures r.Ok? <==> decimals.Some?
      ensures r.Ok? ==> r.value == decimals.value
      ensures r.Err? ==> r.failure == MissingKey("Decimals")
    {
      if decimals.Some? then Ok(decimals.value) else Err(MissingKey("Decimals"))
    }
  }

  /** Before `initialize` every getter fails; after it, each returns what
      was passed in, and a second `initialize` is refused. */
  method InitializeOnceScenario(adminAddress: Address, other: Address)
    returns (before: Outcome<string>, after: Outcome<string>, second: Outcome<()>)
    ensures before.Err? && after == Ok("USD Coin") && second == Err(Panic("Already initialized"))
  {
    var t := new Token();
    before := t.Name();
    var first := t.Initialize(adminAddress, "USD Coin", "USDC", 7);
    after := t.Name();
    second := t.Initialize(other, "Other", "OTH", 2);
  }
}
