/** What the web client sees of the Stellar network while it submits a
    contract call: each awaited request either returns or throws, and the
    status polls after submission are given up front, one per attempt. */
module Rpc {

  /** At most this many `getTransaction` polls are made after a send. */
  const MaxAttempts: nat := 20

  /** The result of one awaited call: its value, or the message of the error
      it threw. */
  datatype Attempt<+T> = Returned(value: T) | Threw(message: string)

  /** What `simulateTransaction` resolved to. */
  datatype Simulation =
    | SimulationError(error: string)   // `isSimulationError` holds
    | NoResult                         // no `result` field
    | Simulated                        // usable for `assembleTransaction`

  /** One `getTransaction` poll: the status it resolved with ("SUCCESS",
      "FAILED", "NOT_FOUND", ...), or the message of the error it threw. */
  datatype PollResponse = Status(status: string) | PollThrew(message: string)

  /** The network's behaviour during one submission, stage by stage. */
  datatype Network = Network(
    account: Attempt<()>,             // Horizon `loadAccount`
    simulation: Attempt<Simulation>,  // Soroban RPC `simulateTransaction`
    signing: Attempt<()>,             // assembling the transaction and the wallet's `signTx`
    parsing: Attempt<()>,             // `TransactionEnvelope.fromXDR` of the signed XDR
    sending: Attempt<string>,         // `sendTransaction`, resolving to its status
    polls: seq<PollResponse>)         // `getTransaction`, attempt by attempt

  /** How the stages before polling ended: the send resolved with a status,
      or an error aborted the handler, possibly after the wallet had been
      asked to sign. */
  datatype Submission = Sent(status: string) | Aborted(message: string, signRequested: bool)
}
