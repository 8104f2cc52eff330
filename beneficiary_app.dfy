/** The beneficiary web app (frontend/beneficiary-app.js): demo voucher
    balances per category, a redemption history with the newest record
    first, and the "time ago" text shown beside each record. Amounts are in
    cents. */
module BeneficiaryApp {
  import opened Soroban
  import opened Text
  import opened Rpc

  datatype Category = Healthcare | Food | Education

  /** The category's key in `voucherBalances` and in voucher QR codes. */
  function Key(c: Category): string {
    match c
    case Healthcare => "healthcare"
    case Food => "food"
    case Education => "education"
  }

  /** The label a redemption record shows: the key capitalised. */
  function Label(c: Category): (l: string)
    ensures l == match c
                 case Healthcare => "Healthcare"
                 case Food => "Food"
                 case Education => "Education"
  {
    var l := Capitalize(Key(c));
    assert l == [UpperChar(Key(c)[0])] + Key(c)[1..];
    l
  }

  /** A history record. Neither the loaded history nor `redeemVoucher`
      gives a record an `id`. */
  datatype Redemption = Redemption(
    id: Option<string>,
    category: string,
    merchant: string,
    description: string,
    amount: int,
    timestamp: int,
    verified: bool)

  /** The balances object: one property per category. */
  datatype Balances = Balances(healthcare: int, food: int, education: int) {
    /** `voucherBalances[key]` */
    function Get(c: Category): int {
      match c
      case Healthcare => healthcare
      case Food => food
      case Education => education
    }

    /** `voucherBalances[key] = v`: that category changes, no other. */
    function Set(c: Category, v: int): (b: Balances)
      ensures b.Get(c) == v
      ensures forall d: Category :: d != c ==> b.Get(d) == Get(d)
    {
      match c
      case Healthcare => this.(healthcare := v)
      case Food => this.(food := v)
      case Education => this.(education := v)
    }
  }

  function InitialBalance(c: Category): int {
    match c
    case Healthcare => 15000
    case Food => 7500
    case Education => 5000
  }

  /** The history `loadRedemptionHistory` installs, relative to the time it
      runs. */
  function InitialHistory(now: int): seq<Redemption> {
    [Redemption(None, "Healthcare", "Pharmacy", "Medicines & consultation", 2500, now - 2 * HourMs, true),
     Redemption(None, "Food", "Grocery Store", "Fresh vegetables & rice", 1500, now - DayMs, true)]
  }

  /** The total amount of records labelled with category `c`. */
  function SpentOn(records: seq<Redemption>, c: Category): int {
    if records == [] then 0
    else (if records[0].category == Label(c) then records[0].amount else 0) + SpentOn(records[1..], c)
  }

  /** `records.find(r => r.id === id)`: the index of the first record with
      that id. */
  function Find(records: seq<Redemption>, id: Option<string>): (k: Option<nat>)
    ensures k.Some? ==> k.value < |records| && records[k.value].id == id
    ensures k.Some? ==> forall j :: 0 <= j < k.value ==> records[j].id != id
    ensures k.None? ==> forall j :: 0 <= j < |records| ==> records[j].id != id
  {
    if records == [] then None
    else if records[0].id == id then Some(0)
    else
      var rest := Find(records[1..], id);
      if rest.Some? then Some(rest.value + 1) else None
  }

  class App {
    var beneficiaryId: string
    var balances: Balances               // voucherBalances, in cents
    var history: seq<Redemption>         // redemptionHistory, newest first

    /** The app's invariant: every category has a balance, and each
        balance plus what the records added since start-up spent on it is
        the starting balance; the two loaded records stay last, and no
        record has an id. */
    ghost predicate Valid()
      reads this
    {
      |history| >= 2 &&
      (forall c: Category :: balances.Get(c) + SpentOn(history[..|history| - 2], c) == InitialBalance(c)) &&
      (forall i :: 0 <= i < |history| ==> history[i].id.None?)
    }

    /** The constructor and `init`: the starting balances and the two
        loaded records. The id is random in the source, so it is given. */
    constructor (beneficiaryId: string, now: int)
      ensures this.beneficiaryId == beneficiaryId
      ensures forall c: Category :: balances.Get(c) == InitialBalance(c)
      ensures history == InitialHistory(now)
      ensures Valid()
    {
      this.beneficiaryId := beneficiaryId;
      balances := Balances(15000, 7500, 5000);
      history := InitialHistory(now);
      new;
      forall c: Category
        ensures balances.Get(c) == InitialBalance(c)
      {
        match c
        case Healthcare =>
        case Food =>
        case Education =>
      }
      assert history[..|history| - 2] == [];
    }

    /** `redeemVoucher`: refuses an amount above the category's balance;
        otherwise debits exactly that balance and puts an unverified record
        at the front of the history. */
    method RedeemVoucher(category: Category, amount: int, merchantId: string, now: int)
      returns (r: Attempt<Redemption>)
      modifies this
      ensures old(balances.Get(category)) < amount ==> r == Threw("Insufficient voucher balance") && unchanged(this)
      ensures old(balances.Get(category)) >= amount ==>
                (r == Returned(Redemption(None, Label(category), "Merchant " + merchantId,
                                          Key(category) + " services", amount, now, false))
                 && balances == old(balances).Set(category, old(balances.Get(category)) - amount)
                 && history == [r.value] + old(history)
                 && beneficiaryId == old(beneficiaryId))
      ensures old(Valid()) ==> Valid()
    {
      if balances.Get(category) < amount {
        return Threw("Insufficient voucher balance");
      }
      balances := balances.Set(category, balances.Get(category) - amount);
      var record := Redemption(None, Capitalize(Key(category)), "Merchant " + merchantId,
                               Key(category) + " services", amount, now, false);
      assert record.category == Label(category);
      ghost var before := history;
      history := [record] + history;
      if old(Valid()) {
        assert history[..|history| - 2] == [record] + before[..|before| - 2];
        assert history[..|history| - 2][1..] == before[..|before| - 2];
      }
      r := Returned(record);
    }

    /** `verifyRedemption`: marks the first record whose id equals the
        argument, if any. Since no record has an id, a defined id changes
        nothing, and an undefined one (`undefined === undefined`) marks the
        newest record. */
    method VerifyRedemption(redemptionId: Option<string>)
      modifies this
      ensures var k := Find(old(history), redemptionId);
              history == if k.Some? then old(history)[k.value := old(history)[k.value].(verified := true)]
                         else old(history)
      ensures balances == old(balances) && beneficiaryId == old(beneficiaryId)
      ensures old(Valid()) && redemptionId.Some? ==> history == old(history)
      ensures old(Valid()) && redemptionId.None? ==> history == old(history)[0 := old(history)[0].(verified := true)]
      ensures old(Valid()) ==> Valid()
    {
      var k := Find(history, redemptionId);
      if k.Some? {
        ghost var before := history;
        history := history[k.value := history[k.value].(verified := true)];
        if old(Valid()) {
          SpentOnSameAmounts(before[..|before| - 2], history[..|history| - 2]);
        }
      }
    }
  }

  /** Changing only the verification flags leaves the amounts spent per
      category as they were. */
  lemma {:induction false} SpentOnSameAmounts(a: seq<Redemption>, b: seq<Redemption>)
    requires |a| == |b|
    requires forall i :: 0 <= i < |a| ==> a[i].category == b[i].category && a[i].amount == b[i].amount
    ensures forall c :: SpentOn(a, c) == SpentOn(b, c)
  {
    if a != [] {
      SpentOnSameAmounts(a[1..], b[1..]);
    }
  }

  /** `formatTimeAgo`, given the milliseconds elapsed: "Just now" under an
      hour, then whole hours under a day, then whole days. The count shown
      is the number of whole units elapsed, and the unit is plural exactly
      when the count exceeds 1. */
  function FormatTimeAgo(elapsedMs: int): (r: string)
    ensures r == "Just now" <==> elapsedMs < HourMs
    ensures HourMs <= elapsedMs < DayMs ==>
              var n := CountShown(r);
              1 <= n < 24 && n * HourMs <= elapsedMs < (n + 1) * HourMs && r == Ago(n, "hour")
    ensures DayMs <= elapsedMs ==>
              var n := CountShown(r);
              1 <= n && n * DayMs <= elapsedMs < (n + 1) * DayMs && r == Ago(n, "day")
  {
    var hours := elapsedMs / HourMs;
    if hours < 1 then "Just now"
    else if hours < 24 then
      assert Ago(hours, "hour")[0] != "Just now"[0];
      Ago(hours, "hour")
    else
      var days := hours / 24;
      assert Ago(days, "day")[0] != "Just now"[0];
      Ago(days, "day")
  }

  /** Over-spending the education voucher is refused; spending exactly its
      balance empties it and adds a third, unverified, history record. */
  method RedeemScenario(now: int) returns (refused: Attempt<Redemption>, accepted: Attempt<Redemption>,
                                           left: int, entries: nat)
    ensures refused == Threw("Insufficient voucher balance")
    ensures accepted.Returned? && !accepted.value.verified && accepted.value.category == "Education"
    ensures left == 0 && entries == 3
  {
    var app := new App("BEN0001", now);
    refused := app.RedeemVoucher(Education, 5001, "MER0001", now);
    accepted := app.RedeemVoucher(Education, 5000, "MER0001", now);
    left := app.balances.Get(Education);
    entries := |app.history|;
  }
}
