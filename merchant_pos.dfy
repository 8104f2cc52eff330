/** The merchant point-of-sale web app (frontend/merchant-pos.js): a scanned
    voucher QR code opens a pending transaction, the merchant types an
    amount, and a processed transaction is put at the front of the recent
    list. Amounts are in cents. */
module MerchantPos {
  import opened Soroban
  import opened Text

  /** What a voucher QR code carries (the signature is not consulted). */
  datatype QrData = QrData(beneficiaryId: string, category: string, amount: int)

  /** The transaction being entered. */
  datatype Pending = Pending(
    beneficiaryId: string,
    category: string,
    availableBalance: int,
    amount: int,
    timestamp: int,
    status: string)

  /** An entry of the recent transactions list. */
  datatype Recorded = Recorded(
    id: string,
    beneficiaryId: string,
    category: string,
    description: string,
    amount: int,
    timestamp: int,
    status: string)

  /** How `processTransaction` ended. */
  datatype Result =
    | InvalidAmount          // alert "Please enter a valid amount."
    | ExceedsBalance         // alert "Amount exceeds available balance."
    | ChainFailed            // result "Blockchain transaction failed"
    | Processed(transaction: Recorded)

  /** The list `loadRecentTransactions` installs, relative to the time it
      runs. */
  function InitialTransactions(now: int): seq<Recorded> {
    [Recorded("TXN001", "BEN123456", "Healthcare", "Medicines & consultation", 2500, now - 2 * MinuteMs, "verified"),
     Recorded("TXN002", "BEN789012", "Food", "Fresh vegetables & rice", 1500, now - 15 * MinuteMs, "verified")]
  }

  class Pos {
    var merchantId: string
    var current: Option<Pending>       // currentTransaction, null as None
    var recent: seq<Recorded>          // recentTransactions, newest first
    var processDisabled: bool          // the process button's `disabled`

    /** Every listed transaction was verified and moved a positive amount. */
    ghost predicate Valid()
      reads this
    {
      forall i :: 0 <= i < |recent| ==> recent[i].status == "verified" && recent[i].amount > 0
    }

    /** The constructor and `init`. The id is random in the source, so it is
        given. */
    constructor (merchantId: string, now: int)
      ensures this.merchantId == merchantId && current == None && !processDisabled
      ensures recent == InitialTransactions(now)
      ensures Valid()
    {
      this.merchantId := merchantId;
      current := None;
      recent := InitialTransactions(now);
      processDisabled := false;
    }

    /** `processScannedQR`: opens a pending transaction of amount 0 whose
        available balance is the amount in the code. */
    method ProcessScannedQR(qr: QrData, now: int)
      modifies this
      ensures current == Some(Pending(qr.beneficiaryId, qr.category, qr.amount, 0, now, "pending"))
      ensures recent == old(recent) && processDisabled == old(processDisabled)
      ensures merchantId == old(merchantId)
      ensures old(Valid()) ==> Valid()
    {
      current := Some(Pending(qr.beneficiaryId, qr.category, qr.amount, 0, now, "pending"));
    }

    /** `updateTransactionAmount`: with an open transaction, records the
        amount and disables processing exactly when it exceeds the available
        balance; otherwise does nothing. */
    method UpdateTransactionAmount(amount: int)
      modifies this
      ensures old(current).None? ==> unchanged(this)
      ensures old(current).Some? ==>
                (current == Some(old(current).value.(amount := amount))
                 && (processDisabled <==> amount > old(current).value.availableBalance)
                 && recent == old(recent) && merchantId == old(merchantId))
      ensures old(Valid()) ==> Valid()
    {
      if current.Some? {
        current := Some(current.value.(amount := amount));
        processDisabled := amount > current.value.availableBalance;
      }
    }

    /** `processTransaction`. The chain call succeeds at random in the
        source, so its outcome is given, as is the random transaction id.
        The open transaction is not cleared. */
    method ProcessTransaction(chainSucceeds: bool, transactionId: string, now: int) returns (r: Result)
      modifies this
      ensures r == if old(current).None? || old(current).value.amount <= 0 then InvalidAmount
                   else if old(current).value.amount > old(current).value.availableBalance then ExceedsBalance
                   else if !chainSucceeds then ChainFailed
                   else Processed(Recorded(transactionId, old(current).value.beneficiaryId,
                                           Capitalize(old(current).value.category),
                                           old(current).value.category + " services",
                                           old(current).value.amount, now, "verified"))
      ensures r.Processed? ==> 0 < r.transaction.amount <= old(current).value.availableBalance
      ensures recent == if r.Processed? then [r.transaction] + old(recent) else old(recent)
      ensures current == old(current) && processDisabled == old(processDisabled)
      ensures merchantId == old(merchantId)
      ensures old(Valid()) ==> Valid()
    {
      if current.None? || current.value.amount <= 0 { return InvalidAmount; }
      var tx := current.value;
      if tx.amount > tx.availableBalance { return ExceedsBalance; }
      if !chainSucceeds { return ChainFailed; }
      var recorded := Recorded(transactionId, tx.beneficiaryId, Capitalize(tx.category),
                               tx.category + " services", tx.amount, now, "verified");
      recent := [recorded] + recent;
      r := Processed(recorded);
    }

    /** `cancelTransaction`: drops the open transaction. */
    method CancelTransaction()
      modifies this
      ensures current == None
      ensures recent == old(recent) && processDisabled == old(processDisabled)
      ensures merchantId == old(merchantId)
      ensures old(Valid()) ==> Valid()
    {
      current := None;
    }
  }

  /** `formatTimeAgo`, given the milliseconds elapsed: "Just now" under a
      minute, then whole minutes under an hour, then whole hours. The count
      shown is the number of whole units elapsed, and the unit is plural
      exactly when the count exceeds 1. */
  function FormatTimeAgo(elapsedMs: int): (r: string)
    ensures r == "Just now" <==> elapsedMs < MinuteMs
    ensures MinuteMs <= elapsedMs < HourMs ==>
              var n := CountShown(r);
              1 <= n < 60 && n * MinuteMs <= elapsedMs < (n + 1) * MinuteMs && r == Ago(n, "minute")
    ensures HourMs <= elapsedMs ==>
              var n := CountShown(r);
              1 <= n && n * HourMs <= elapsedMs < (n + 1) * HourMs && r == Ago(n, "hour")
  {
    var minutes := elapsedMs / MinuteMs;
    if minutes < 1 then "Just now"
    else if minutes < 60 then
      assert Ago(minutes, "minute")[0] != "Just now"[0];
      Ago(minutes, "minute")
    else
      var hours := minutes / 60;
      assert Ago(hours, "hour")[0] != "Just now"[0];
      Ago(hours, "hour")
  }

  /** Scanning a code and entering an amount within its balance lets the
      transaction through, and the recent list grows by that transaction. */
  method ScanAndPayScenario(qr: QrData, amount: int, now: int) returns (r: Result, listed: nat)
    requires 0 < amount <= qr.amount
    ensures r.Processed? && r.transaction.amount == amount && r.transaction.beneficiaryId == qr.beneficiaryId
    ensures listed == 3
  {
    var pos := new Pos("MER0001", now);
    pos.ProcessScannedQR(qr, now);
    pos.UpdateTransactionAmount(amount);
    r := pos.ProcessTransaction(true, "TXN003", now);
    listed := |pos.recent|;
  }
}
