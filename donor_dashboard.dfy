/** The donor dashboard's two deposit handlers, `handleDeposit` and
    `handleCauseDeposit`. Both build, simulate, sign and send a `deposit`
    call to the vault and then poll for its result. They run the same code
    except for four things, which `Handler` selects:
    - the send statuses they accept;
    - the message a FAILED status throws;
    - the error text they treat as "still processing";
    - whether a success clears the amount field. */
module DonorDashboard {
  import opened Soroban
  import opened Text
  import opened Rpc

  /** From this attempt on, an ambiguous poll error triggers a balance
      reload. */
  const RecheckFrom: nat := 6
  /** From this attempt on, an ambiguous poll error ends polling as a
      presumed success. */
  const GiveUpFrom: nat := 8

  datatype Handler = Deposit | CauseDeposit

  /** The final text of the status line. */
  datatype TxStatus =
    | Idle                    // nothing shown yet
    | DepositSuccessful       // "✅ Deposit successful!"
    | TransactionConfirmed    // "✅ Transaction confirmed! Refreshing..."
    | SubmittedRefreshing     // "✅ Transaction submitted! Refreshing balance..."
    | SubmittedSuccessfully   // "✅ Transaction submitted successfully! Refreshing..."
    | Failed(message: string) // "❌ Error: " + message

  /** `error.message || "Transaction failed"` */
  function ErrorText(message: string): (t: string)
    ensures t != ""
    ensures message != "" ==> t == message
  {
    if message == "" then "Transaction failed" else message
  }

  /** The stages before polling, identical in both handlers: an error thrown
      by any of them aborts the handler, and the simulation checks come
      before the wallet is asked to sign. */
  function Submit(net: Network): (s: Submission)
    ensures s.Aborted? && !s.signRequested <==>
              net.account.Threw? || net.simulation.Threw? || !net.simulation.value.Simulated?
    ensures s.Sent? <==> net.account.Returned? && net.simulation == Returned(Simulated) &&
                         net.signing.Returned? && net.parsing.Returned? && net.sending.Returned?
    ensures s.Sent? ==> s.status == net.sending.value
    ensures s.Aborted? ==> s.message != ""
  {
    if net.account.Threw? then Aborted(ErrorText(net.account.message), false)
    else if net.simulation.Threw? then
      Aborted("Simulation request failed: " +
              (if net.simulation.message == "" then "Network error" else net.simulation.message), false)
    else if net.simulation.value.SimulationError? then
      Aborted("Simulation failed: " + net.simulation.value.error, false)
    else if net.simulation.value.NoResult? then Aborted("Simulation returned no result", false)
    else if net.signing.Threw? then Aborted(ErrorText(net.signing.message), true)
    else if net.parsing.Threw? then Aborted(ErrorText(net.parsing.message), true)
    else if net.sending.Threw? then Aborted(ErrorText(net.sending.message), true)
    else Sent(net.sending.value)
  }

  /** The send statuses after which a handler polls. */
  predicate Accepts(h: Handler, status: string) {
    match h
    case Deposit => status == "PENDING" || status == "DUPLICATE"
    case CauseDeposit => status == "PENDING"
  }

  /** What a FAILED poll status throws inside the poll's own `try`. */
  function FailedMessage(h: Handler): string {
    match h
    case Deposit => "Transaction failed on-chain"
    case CauseDeposit => "Transaction failed"
  }

  /** The poll errors read as "the transaction is still processing". */
  predicate Ambiguous(h: Handler, message: string) {
    match h
    case Deposit => Contains(message, "Bad union switch") || Contains(message, "union")
    case CauseDeposit => Contains(message, "Bad union switch")
  }

  function SuccessStatus(h: Handler): TxStatus {
    match h
    case Deposit => DepositSuccessful
    case CauseDeposit => TransactionConfirmed
  }

  /** The message the catch block of the poll loop sees for a response, if
      the response throws. */
  function Thrown(h: Handler, p: PollResponse): (m: Option<string>)
    ensures p.PollThrew? ==> m == Some(p.message)
    ensures p == Status("FAILED") ==> m == Some(FailedMessage(h))
    ensures p.Status? && p.status != "FAILED" ==> m.None?
  {
    match p
    case Status(s) => if s == "FAILED" then Some(FailedMessage(h)) else None
    case PollThrew(m) => Some(m)
  }

  /** Poll `i` (attempt i + 1) failed with an ambiguous error. */
  predicate AmbiguousAt(h: Handler, polls: seq<PollResponse>, i: nat)
    requires i < |polls|
  {
    polls[i].PollThrew? && Ambiguous(h, polls[i].message)
  }

  /** Poll `i` (attempt i + 1) ends the loop: a success, or an ambiguous
      error once the give-up attempt is reached. */
  predicate StopsAt(h: Handler, polls: seq<PollResponse>, i: nat)
    requires i < |polls|
  {
    polls[i] == Status("SUCCESS") || (AmbiguousAt(h, polls, i) && i + 1 >= GiveUpFrom)
  }

  /** How many of the first `n` polls caused a balance reload while
      polling went on. */
  function Rechecks(h: Handler, polls: seq<PollResponse>, n: nat): nat
    requires n <= |polls|
  {
    if n == 0 then 0
    else Rechecks(h, polls, n - 1) + (if n >= RecheckFrom && AmbiguousAt(h, polls, n - 1) then 1 else 0)
  }

  /** How polling ends, stated on the poll responses: the final status
      line, the number of `getTransaction` queries and the number of balance
      reloads. Polling stops at the first stopping poll, or after
      MaxAttempts polls. Balances are reloaded once for each ambiguous error
      from attempt RecheckFrom on, and once more when polling ends. */
  ghost predicate PollSettled(h: Handler, polls: seq<PollResponse>, status: TxStatus, queries: nat, loads: int)
    requires |polls| == MaxAttempts
  {
    0 < queries <= MaxAttempts &&
    (forall i :: 0 <= i < queries - 1 ==> !StopsAt(h, polls, i)) &&
    (queries < MaxAttempts ==> StopsAt(h, polls, queries - 1)) &&
    if polls[queries - 1] == Status("SUCCESS") then
      status == SuccessStatus(h) && loads == Rechecks(h, polls, queries - 1) + 1
    else if StopsAt(h, polls, queries - 1) then
      status == SubmittedRefreshing && loads == Rechecks(h, polls, queries) + 1
    else
      status == SubmittedSuccessfully && loads == Rechecks(h, polls, queries) + 1
  }

  /** How a handler run ends: an error before polling, the send-failed
      error for a status the handler does not accept, or polling as
      `PollSettled` states. */
  ghost predicate Settled(h: Handler, net: Network, status: TxStatus, queries: nat, loads: int)
    requires |net.polls| == MaxAttempts
  {
    match Submit(net)
    case Aborted(message, _) => status == Failed(message) && queries == 0 && loads == 0
    case Sent(sent) =>
      if !Accepts(h, sent) then
        status == Failed("Transaction send failed: " + sent) && queries == 0 && loads == 0
      else
        PollSettled(h, net.polls, status, queries, loads)
  }

  /** The poll loop shared by both handlers. */
  method Poll(h: Handler, polls: seq<PollResponse>) returns (status: TxStatus, queries: nat, loads: nat)
    requires |polls| == MaxAttempts
    ensures PollSettled(h, polls, status, queries, loads)
  {
    FailedIsNotAmbiguous(h);
    var attempts: nat := 0;
    loads := 0;
    while attempts < MaxAttempts
      invariant attempts <= MaxAttempts
      invariant forall i :: 0 <= i < attempts ==> !StopsAt(h, polls, i)
      invariant loads == Rechecks(h, polls, attempts)
    {
      attempts := attempts + 1;
      var response := polls[attempts - 1];
      if response == Status("SUCCESS") {
        return SuccessStatus(h), attempts, loads + 1;
      }
      var thrown := Thrown(h, response);
      if thrown.Some? && Ambiguous(h, thrown.value) && attempts >= RecheckFrom {
        loads := loads + 1;
        if attempts >= GiveUpFrom {
          return SubmittedRefreshing, attempts, loads + 1;
        }
      }
    }
    assert !StopsAt(h, polls, MaxAttempts - 1);
    return SubmittedSuccessfully, MaxAttempts, loads + 1;
  }

  /** The dashboard's state that the handlers set. */
  class Dashboard {
    var publicKey: Option<Address>      // the connected wallet
    var depositAmount: string           // the vault deposit field
    var causeDepositAmount: string      // the cause deposit field
    var loading: bool
    var txStatus: TxStatus
    var balanceLoads: nat               // calls to `loadBalances` so far

    constructor (publicKey: Option<Address>)
      ensures this.publicKey == publicKey && depositAmount == "" && causeDepositAmount == ""
      ensures !loading && txStatus == Idle && balanceLoads == 0
    {
      this.publicKey := publicKey;
      depositAmount, causeDepositAmount := "", "";
      loading, txStatus, balanceLoads := false, Idle, 0;
    }

    /** `handleDeposit`: without a wallet or an amount nothing happens. */
    method HandleDeposit(net: Network) returns (queries: nat)
      requires |net.polls| == MaxAttempts
      modifies this
      ensures old(publicKey.None? || depositAmount == "") ==> unchanged(this) && queries == 0
      ensures old(publicKey.Some? && depositAmount != "") ==>
                (Settled(Deposit, net, txStatus, queries, balanceLoads - old(balanceLoads))
                 && !loading && publicKey == old(publicKey)
                 && causeDepositAmount == old(causeDepositAmount)
                 && depositAmount == if txStatus == DepositSuccessful then "" else old(depositAmount))
    {
      if publicKey.None? || depositAmount == "" { return 0; }
      queries := Run(Deposit, net);
    }

    /** `handleCauseDeposit`: the same, on the cause deposit field, which a
        success leaves as it was. */
    method HandleCauseDeposit(net: Network) returns (queries: nat)
      requires |net.polls| == MaxAttempts
      modifies this
      ensures old(publicKey.None? || causeDepositAmount == "") ==> unchanged(this) && queries == 0
      ensures old(publicKey.Some? && causeDepositAmount != "") ==>
                (Settled(CauseDeposit, net, txStatus, queries, balanceLoads - old(balanceLoads))
                 && !loading && publicKey == old(publicKey)
                 && causeDepositAmount == old(causeDepositAmount)
                 && depositAmount == old(depositAmount))
    {
      if publicKey.None? || causeDepositAmount == "" { return 0; }
      queries := Run(CauseDeposit, net);
    }

    /** The body of either handler from `setLoading(true)` to the `finally`
        that clears it; returns how many polls were made. */
    method Run(h: Handler, net: Network) returns (queries: nat)
      requires |net.polls| == MaxAttempts
      modifies this
      ensures Settled(h, net, txStatus, queries, balanceLoads - old(balanceLoads))
      ensures !loading && publicKey == old(publicKey) && causeDepositAmount == old(causeDepositAmount)
      ensures depositAmount == if h == Deposit && txStatus == DepositSuccessful then "" else old(depositAmount)
    {
      loading := true;
      var submission := Submit(net);
      if submission.Aborted? {
        txStatus := Failed(submission.message);
        loading := false;
        return 0;
      }
      if !Accepts(h, submission.status) {
        txStatus := Failed("Transaction send failed: " + submission.status);
        loading := false;
        return 0;
      }
      var status, polled, loads := Poll(h, net.polls);
      txStatus := status;
      if h == Deposit && status == DepositSuccessful { depositAmount := ""; }
      balanceLoads := balanceLoads + loads;
      loading := false;
      queries := polled;
    }
  }

  /** What a FAILED status throws is never read as "still processing". */
  lemma FailedIsNotAmbiguous(h: Handler)
    ensures !Ambiguous(h, FailedMessage(h))
  {
    AbsentFirstChar(FailedMessage(h), "Bad union switch");
    if h == Deposit {
      AbsentFirstChar(FailedMessage(h), "union");
    }
  }

  /** In `handleDeposit` the test for "Bad union switch" adds nothing: the
      errors it treats as ambiguous are exactly those mentioning "union". */
  lemma DepositAmbiguousIsUnion(message: string)
    ensures Ambiguous(Deposit, message) <==> Contains(message, "union")
  {
    if Contains(message, "Bad union switch") {
      assert OccursAt("Bad union switch", "union", 4);
      ContainsTransitive(message, "Bad union switch", "union");
    }
  }

  /** Once the deposit is sent and accepted, no poll response, FAILED
      included, ends in an error status. */
  lemma AcceptedNeverFails(h: Handler, net: Network, status: TxStatus, queries: nat, loads: int)
    requires |net.polls| == MaxAttempts
    requires Settled(h, net, status, queries, loads)
    requires Submit(net).Sent? && Accepts(h, Submit(net).status)
    ensures !status.Failed? && 0 < queries
  {
  }

  /** A DUPLICATE send status is polled by `handleDeposit` but is an error
      for `handleCauseDeposit`. */
  lemma DuplicateOnlyForDeposit(net: Network, status: TxStatus, queries: nat, loads: int)
    requires |net.polls| == MaxAttempts
    requires Submit(net) == Sent("DUPLICATE")
    ensures Settled(CauseDeposit, net, status, queries, loads) ==>
              status == Failed("Transaction send failed: DUPLICATE") && queries == 0
    ensures Settled(Deposit, net, status, queries, loads) ==> !status.Failed? && queries > 0
  {
  }

  /** A transaction the RPC keeps answering with "Bad union switch" is
      given up on at the eighth poll, as a presumed success, after the
      balances were reloaded at attempts 6, 7 and 8 and once more at the
      end. */
  lemma UnionErrorsGiveUpAtEight(h: Handler, net: Network, status: TxStatus, queries: nat, loads: int)
    requires |net.polls| == MaxAttempts
    requires forall i :: 0 <= i < MaxAttempts ==> net.polls[i] == PollThrew("Bad union switch")
    requires Submit(net) == Sent("PENDING")
    requires Settled(h, net, status, queries, loads)
    ensures queries == GiveUpFrom && status == SubmittedRefreshing && loads == 4
  {
    assert Contains("Bad union switch", "Bad union switch") by {
      assert OccursAt("Bad union switch", "Bad union switch", 0);
    }
    assert StopsAt(h, net.polls, 7);
    forall i | 0 <= i < 7
      ensures !StopsAt(h, net.polls, i)
    {
    }
    ZeroBeforeRecheck(h, net.polls, 5);
    assert AmbiguousAt(h, net.polls, 5) && AmbiguousAt(h, net.polls, 6) && AmbiguousAt(h, net.polls, 7);
    assert Rechecks(h, net.polls, 6) == 1;
    assert Rechecks(h, net.polls, 7) == 2;
    assert Rechecks(h, net.polls, 8) == 3;
  }

  /** No reload happens before attempt RecheckFrom. */
  lemma {:induction false} ZeroBeforeRecheck(h: Handler, polls: seq<PollResponse>, n: nat)
    requires n < RecheckFrom && n <= |polls|
    ensures Rechecks(h, polls, n) == 0
  {
    if n > 0 {
      ZeroBeforeRecheck(h, polls, n - 1);
    }
  }
}
