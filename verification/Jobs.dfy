/** One message of either worker from its claim to its last commit, and why that is a run of the protocol. */
module Jobs {
  import opened Wrappers
  import opened Outcomes
  import opened Xrpl
  import opened Rows

  /** The word a job returns, or the exception that ends it. */
  datatype JobOutcome = Skipped | Completed | Failed | Requeued(delay: nat) | Held | Raises

  /** What came back after the transaction was signed and persisted. */
  datatype Answer = Raised | ClientError(reliable: bool, text: string) | Validated(code: string)

  /** How the submission of one job went. */
  datatype Submission =
    | BadAmount
    | RaisedUnsigned                 // anything that raised before the hash was persisted
    | SignError                      // reported as not submitted
    | Signed(hash: nat, last: Option<nat>, submitted: nat, answer: Answer)

  datatype Provisioning = ProvisionRaises | Provision(trust: bool)

  /** xrpl_service.submit: the result it returns, when it returns one. */
  function ResultOf(a: Submission): XrplResult
    requires a.SignError? || (a.Signed? && !a.answer.Raised?)
  {
    if a.SignError? then XrplResult(false, "sign_error", None, Some(NotSubmitted))
    else
      match a.answer
      case ClientError(reliable, text) =>
        var (resolution, code) := Classify(reliable, text);
        XrplResult(false, code, Some(a.hash), Some(resolution))
      case Validated(code) =>
        XrplResult(code == SUCCESS, code, Some(a.hash), Some(if code == SUCCESS then Succeeded else Resolution.Failed))
  }

  /** What a signed submission tells its worker. */
  function ResolutionOf(answer: Answer): Resolution {
    match answer
    case Raised => Unknown
    case ClientError(reliable, text) => Classify(reliable, text).0
    case Validated(code) => if code == SUCCESS then Succeeded else Resolution.Failed
  }

  function BurnJob(db: Tables, r: nat, start: nat, end: nat, a: Submission): Tables {
    if |db.requests| <= r || !BurnClaimable(db.requests[r], start) then db
    else
      var claimed := ClaimBurn(db, r, start);
      if claimed.requests[r].user !in db.wallets || a.BadAmount? then FailAndRestore(claimed, r, None)
      else if !a.Signed? then RetryOrFailBurn(claimed, r, claimed.requests[r].attempts)
      else
        var signed := RememberBurn(claimed, r, a.hash, a.last, a.submitted);
        match ResolutionOf(a.answer)
        case Succeeded => CompleteBurn(signed, r, a.hash, end)
        case Failed => FailAndRestore(signed, r, Some(a.hash))
        case _ => HoldUnknown(signed, r)
  }

  /** A transient failure of attempt number `attempts`. */
  function RetryOutcomeAfter(attempts: nat): JobOutcome {
    if MAX_ATTEMPTS <= attempts then JobOutcome.Failed else Requeued(RetryDelay(attempts))
  }

  function BurnJobOutcome(db: Tables, r: nat, start: nat, a: Submission): JobOutcome {
    if |db.requests| <= r || !BurnClaimable(db.requests[r], start) then Skipped
    else if db.requests[r].user !in db.wallets then JobOutcome.Raises
    else if a.BadAmount? then JobOutcome.Failed
    else if !a.Signed? then RetryOutcomeAfter(db.requests[r].attempts + 1)
    else
      match ResolutionOf(a.answer)
      case Succeeded => JobOutcome.Completed
      case Failed => JobOutcome.Failed
      case _ => Held
  }

  function Provisioned(db: Tables, user: nat, trust: bool): Tables {
    var w := if user in db.wallets then db.wallets[user] else Wallet(0, false);
    db.(wallets := db.wallets[user := w.(trustSet := w.trustSet || trust)])
  }

  function PayJob(db: Tables, t: nat, start: nat, signed: nat, end: nat, wallet: Provisioning, a: Submission): Tables {
    if |db.transfers| <= t || !PayClaimable(db.transfers[t]) then db
    else
      var claimed := ClaimPay(db, t, start);
      var x := claimed.transfers[t];
      var ready := if wallet.Provision? then Provisioned(claimed, x.recipient, wallet.trust) else claimed;
      if wallet.ProvisionRaises? || !ready.wallets[x.recipient].trustSet then RetryOrFailPay(ready, t, x.attempts, end)
      else if a.BadAmount? then FailSettlement(ready, t, None, end, Processing)
      else if !a.Signed? then RetryOrFailPay(ready, t, x.attempts, end)
      else
        var remembered := RememberPay(ready, t, a.hash, a.last, a.submitted, signed);
        if ResolutionOf(a.answer).Succeeded? then CompleteSettlement(remembered, t, a.hash, end, Processing)
        else FailSettlement(remembered, t, Some(a.hash), end, Processing)
  }

  function PayJobOutcome(db: Tables, t: nat, wallet: Provisioning, a: Submission): JobOutcome {
    if |db.transfers| <= t || !PayClaimable(db.transfers[t]) then Skipped
    else
      var x := db.transfers[t];
      var trusted := wallet.Provision?
          && (wallet.trust || (x.recipient in db.wallets && db.wallets[x.recipient].trustSet));
      if trusted && a.BadAmount? then JobOutcome.Failed
      else if !trusted || !a.Signed? then RetryOutcomeAfter(x.attempts + 1)
      else if ResolutionOf(a.answer).Succeeded? then JobOutcome.Completed
      else JobOutcome.Failed
  }

  datatype ReconcileOutcome = AlreadyResolved | NothingSubmitted | Completed | Failed | Undecided | Raises

  function ReconcileOutcomeOf(db: Tables, r: nat, view: View, answer: Option<string>): ReconcileOutcome
    requires r < |db.requests|
  {
    var q := db.requests[r];
    if q.status.Completed? || q.status.Failed? then AlreadyResolved
    else if !q.status.Approved? || q.hash.None? then NothingSubmitted
    else
      match ReconcileVerdict(q.last, q.submitted, view, answer)
      case Moved => ReconcileOutcome.Completed
      case NeverMoved => if q.user in db.wallets then ReconcileOutcome.Failed else ReconcileOutcome.Raises
      case Unresolved => Undecided
  }

  /** The tables after one reconcile that nobody interleaves with. */
  function ReconcileJob(db: Tables, r: nat, view: View, answer: Option<string>, now: nat): Tables
    requires r < |db.requests|
  {
    match ReconcileOutcomeOf(db, r, view, answer)
    case Completed => CompleteBurn(db, r, db.requests[r].hash.value, now)
    case Failed => FailAndRestore(db, r, db.requests[r].hash)
    case _ => db
  }

  datatype RetryOutcome = NotRetryable | NotProvablyDead | Reconciled | Resent

  function RetryOutcomeOf(x: Transfer, view: View, answer: Option<string>, now: nat): RetryOutcome {
    if !Retryable(x, now) then NotRetryable
    else if x.hash.Some? && answer == Some(SUCCESS) then Reconciled
    else if x.hash.Some? && answer.None? && !ProvablyDead(x.last, x.submitted, view) then NotProvablyDead
    else Resent
  }

  function RetryJob(db: Tables, t: nat, view: View, answer: Option<string>, now: nat): Tables
    requires t < |db.transfers|
  {
    match RetryOutcomeOf(db.transfers[t], view, answer, now)
    case Reconciled => CompleteSettlement(db, t, db.transfers[t].hash.value, now, db.transfers[t].status)
    case Resent => Resend(db, t, db.transfers[t], now)
    case _ => db
  }

  /** The rows a sweep republishes: selected, and taken by the queue. */
  function Republished(requests: seq<CashOut>, now: nat, accepts: seq<bool>): seq<nat>
    requires |accepts| == |requests|
  {
    if requests == [] then []
    else
      var n := |requests| - 1;
      Republished(requests[..n], now, accepts[..n]) + if Sweepable(requests[n], now) && accepts[n] then [n] else []
  }

  /**
   A sweep republishes exactly the approved, unsigned rows that nobody can be working on and that
   the queue accepts; each of them can be claimed at once.
  */
  lemma {:induction false} SweepIsExact(requests: seq<CashOut>, now: nat, accepts: seq<bool>, r: nat)
    requires |accepts| == |requests|
    ensures r in Republished(requests, now, accepts) <==> r < |requests| && Sweepable(requests[r], now) && accepts[r]
    ensures r in Republished(requests, now, accepts) ==> BurnClaimable(requests[r], now) && requests[r].hash.None?
  {
    if requests != [] {
      var n := |requests| - 1;
      SweepIsExact(requests[..n], now, accepts[..n], r);
    }
  }
}
