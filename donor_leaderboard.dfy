/** The leaderboard's `handleMintBadge`: it builds, simulates, signs and
    sends a `mint_badge` call, then polls for the result. Unlike the
    dashboard it never looks at the send status, and a poll error other
    than "Bad union switch" ends the flow with an error. */
module DonorLeaderboard {
  import opened Soroban
  import opened Text
  import opened Rpc

  /** The final text of the mint status line. */
  datatype MintStatus =
    | Idle                        // nothing shown yet
    | AwaitingConfirmation        // "Transaction submitted! Waiting for confirmation..."
    | BadgeMinted                 // "✅ Badge minted successfully!"
    | MintFailed(message: string) // "❌ Error: " + message

  /** The stages before polling. Errors propagate with their own message:
      there is no wrapper around the simulation request, and the send
      status is ignored. */
  function Submit(net: Network): (s: Submission)
    ensures s.Aborted? && !s.signRequested <==>
              net.account.Threw? || net.simulation.Threw? || !net.simulation.value.Simulated?
    ensures s.Sent? <==> net.account.Returned? && net.simulation == Returned(Simulated) &&
                         net.signing.Returned? && net.parsing.Returned? && net.sending.Returned?
    ensures net.account.Returned? && net.simulation.Returned? && net.simulation.value.SimulationError? ==>
              s == Aborted("Simulation failed: " + net.simulation.value.error, false)
  {
    if net.account.Threw? then Aborted(net.account.message, false)
    else if net.simulation.Threw? then Aborted(net.simulation.message, false)
    else if net.simulation.value.SimulationError? then
      Aborted("Simulation failed: " + net.simulation.value.error, false)
    else if net.simulation.value.NoResult? then Aborted("Simulation returned no result", false)
    else if net.signing.Threw? then Aborted(net.signing.message, true)
    else if net.parsing.Threw? then Aborted(net.parsing.message, true)
    else if net.sending.Threw? then Aborted(net.sending.message, true)
    else Sent(net.sending.value)
  }

  /** Poll `i` ends the loop: a SUCCESS or FAILED status, or an error that
      is not "Bad union switch". */
  predicate StopsAt(polls: seq<PollResponse>, i: nat)
    requires i < |polls|
  {
    match polls[i]
    case Status(s) => s == "SUCCESS" || s == "FAILED"
    case PollThrew(m) => !Contains(m, "Bad union switch")
  }

  /** The status a stopping poll leaves. */
  function StopStatus(p: PollResponse): MintStatus {
    match p
    case Status(s) => if s == "SUCCESS" then BadgeMinted else MintFailed("Transaction failed")
    case PollThrew(m) => MintFailed(m)
  }

  /** How the loop ends on given poll responses: at the first stopping
      poll, or after MaxAttempts polls with the waiting message left in
      place. */
  ghost predicate PollSettled(polls: seq<PollResponse>, status: MintStatus, queries: nat)
    requires |polls| == MaxAttempts
  {
    0 < queries <= MaxAttempts &&
    (forall i :: 0 <= i < queries - 1 ==> !StopsAt(polls, i)) &&
    (queries < MaxAttempts ==> StopsAt(polls, queries - 1)) &&
    status == if StopsAt(polls, queries - 1) then StopStatus(polls[queries - 1]) else AwaitingConfirmation
  }

  /** How a run of the handler ends: an error before polling, or polling
      as `PollSettled` states, whatever the send status. */
  ghost predicate Settled(net: Network, status: MintStatus, queries: nat)
    requires |net.polls| == MaxAttempts
  {
    match Submit(net)
    case Aborted(message, _) => status == MintFailed(message) && queries == 0
    case Sent(_) => PollSettled(net.polls, status, queries)
  }

  /** The leaderboard's state that the handler sets. */
  class Leaderboard {
    var publicKey: Option<Address>
    var isMinting: bool
    var mintStatus: MintStatus

    constructor (publicKey: Option<Address>)
      ensures this.publicKey == publicKey && !isMinting && mintStatus == Idle
    {
      this.publicKey := publicKey;
      isMinting, mintStatus := false, Idle;
    }

    /** `handleMintBadge`: without a wallet nothing happens; otherwise the
        flow runs and `isMinting` is false again at the end. */
    method HandleMintBadge(net: Network) returns (queries: nat)
      requires |net.polls| == MaxAttempts
      modifies this
      ensures old(publicKey).None? ==> unchanged(this) && queries == 0
      ensures old(publicKey).Some? ==> Settled(net, mintStatus, queries) && !isMinting
      ensures publicKey == old(publicKey)
    {
      if publicKey.None? { return 0; }
      isMinting := true;
      var submission := Submit(net);
      if submission.Aborted? {
        mintStatus := MintFailed(submission.message);
        isMinting := false;
        return 0;
      }
      mintStatus := AwaitingConfirmation;
      var status, polled := Poll(net.polls);
      mintStatus := status;
      isMinting := false;
      queries := polled;
    }
  }

  /** The poll loop: `break` on SUCCESS; FAILED is thrown and rethrown by
      the catch, which lets only "Bad union switch" through. */
  method Poll(polls: seq<PollResponse>) returns (status: MintStatus, queries: nat)
    requires |polls| == MaxAttempts
    ensures PollSettled(polls, status, queries)
  {
    FailedIsNotUnion();
    status := AwaitingConfirmation;
    var attempts: nat := 0;
    while attempts < MaxAttempts
      invariant attempts <= MaxAttempts
      invariant forall i :: 0 <= i < attempts ==> !StopsAt(polls, i)
    {
      attempts := attempts + 1;
      var response := polls[attempts - 1];
      var thrown: Option<string> := None;
      match response {
        case Status(s) =>
          if s == "SUCCESS" {
            return BadgeMinted, attempts;
          } else if s == "FAILED" {
            thrown := Some("Transaction failed");
          }
        case PollThrew(m) =>
          thrown := Some(m);
      }
      if thrown.Some? && !Contains(thrown.value, "Bad union switch") {
        return MintFailed(thrown.value), attempts;
      }
    }
    assert !StopsAt(polls, MaxAttempts - 1);
    queries := MaxAttempts;
  }

  /** The message a FAILED status throws is not a "Bad union switch"
      error, so the catch rethrows it. */
  lemma FailedIsNotUnion()
    ensures !Contains("Transaction failed", "Bad union switch")
  {
    AbsentFirstChar("Transaction failed", "Bad union switch");
  }

  /** A FAILED status ends the flow with "❌ Error: Transaction failed". */
  lemma FailedEndsInError(net: Network, status: MintStatus, queries: nat, k: nat)
    requires |net.polls| == MaxAttempts && Submit(net).Sent?
    requires Settled(net, status, queries)
    requires k < MaxAttempts && net.polls[k] == Status("FAILED")
    requires forall i :: 0 <= i < k ==> !StopsAt(net.polls, i)
    ensures queries == k + 1 && status == MintFailed("Transaction failed")
  {
    assert StopsAt(net.polls, k);
  }

  /** Polling starts whatever status the send resolved with: a send that
      returns leads to at least one query. */
  lemma SendStatusIgnored(net: Network, status: MintStatus, queries: nat)
    requires |net.polls| == MaxAttempts
    requires Settled(net, status, queries)
    requires net.account.Returned? && net.simulation == Returned(Simulated)
    requires net.signing.Returned? && net.parsing.Returned? && net.sending.Returned?
    ensures queries > 0 && !status.Idle?
  {
  }
}
