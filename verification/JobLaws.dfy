/** What each way a job can go leaves on the row and in the wallet, field by field. */
module JobLaws {
  import opened Wrappers
  import opened CompleteLedgers
  import opened Outcomes
  import opened Xrpl
  import opened Rows
  import opened Jobs

  // ---------------------------------------------------------------- what an answer means

  predicate TellsSuccess(answer: Answer) { answer == Validated(SUCCESS) }

  /** A validated code that is no success, or one of the two messages that prove no funds moved. */
  ghost predicate TellsFailure(answer: Answer) {
    match answer
    case Raised => false
    case ClientError(reliable, text) =>
      reliable && exists code :: SaysValidatedFailure(text, code) || SaysMalformed(text, code)
    case Validated(code) => code != SUCCESS
  }

  lemma ResolutionExactly(answer: Answer)
    ensures ResolutionOf(answer).Succeeded? <==> TellsSuccess(answer)
    ensures ResolutionOf(answer).Failed? <==> TellsFailure(answer)
    ensures !ResolutionOf(answer).NotSubmitted?
  {
    if answer.ClientError? { FailedExactly(answer.reliable, answer.text); }
  }

  /** The result the worker branches on says the same, and names the signed hash. */
  lemma ResultSaysTheSame(a: Submission)
    requires a.SignError? || (a.Signed? && !a.answer.Raised?)
    ensures a.SignError? ==> ResultOf(a).Resolution().NotSubmitted?
    ensures a.Signed? ==> ResultOf(a).Resolution() == ResolutionOf(a.answer) && ResultOf(a).txHash == Some(a.hash)
    ensures ResultOf(a).success <==> a.Signed? && TellsSuccess(a.answer)
  {
  }

  /** The answer is true of transaction `x`: a validated code is its own, and an error means what its text says. */
  ghost predicate IsTrue(answer: Answer, x: SignedTx) {
    match answer
    case Raised => true
    case ClientError(reliable, text) =>
      reliable ==>
        && (forall code :: SaysValidatedFailure(text, code) ==> Rejected(x) && x.fate.code == code)
        && (forall code :: SaysMalformed(text, code) ==> x.fate.Open? && x.malformed)
    case Validated(code) => x.fate.Included? && x.fate.code == code
  }

  /** What a worker concludes from a true answer is so, and a validated answer always decides. */
  lemma TrueAnswersDecide(answer: Answer, x: SignedTx)
    requires IsTrue(answer, x)
    ensures ResolutionOf(answer).Succeeded? ==> Success(x)
    ensures ResolutionOf(answer).Failed? ==> Rejected(x) || (x.fate.Open? && x.malformed)
    ensures answer.Validated? ==>
              (ResolutionOf(answer).Succeeded? <==> Success(x)) && (ResolutionOf(answer).Failed? <==> Rejected(x))
  {
    ResolutionExactly(answer);
  }

  // ---------------------------------------------------------------- one burn message

  function BalanceIn(wallets: map<nat, Wallet>, u: nat): int { if u in wallets then wallets[u].balance else 0 }

  /** No balance but that of `u` differs, and that one by `amount`. */
  predicate OnlyMoved(before: map<nat, Wallet>, after: map<nat, Wallet>, u: nat, amount: int) {
    && (forall v :: v in before ==> v in after)
    && (forall v :: v in after && v !in before ==> v == u)
    && (forall v :: v in after && v != u ==> after[v].balance == before[v].balance)
    && BalanceIn(after, u) == BalanceIn(before, u) + amount
  }

  datatype BurnEnd = Paid | GivenBack | KeptForLedger | Retried

  ghost function BurnEndOf(attempts: nat, a: Submission): BurnEnd {
    if a.Signed? then
      if TellsSuccess(a.answer) then Paid else if TellsFailure(a.answer) then GivenBack else KeptForLedger
    else if a.BadAmount? || 2 <= attempts then GivenBack
    else Retried
  }

  /** What the job returns, by how it ends; `attempts` were made before it. */
  function BurnWord(attempts: nat, end: BurnEnd): JobOutcome {
    match end
    case Paid => JobOutcome.Completed
    case GivenBack => JobOutcome.Failed
    case KeptForLedger => Held
    case Retried => Requeued(if attempts == 0 then 10 else 30)
  }

  /** Status, payout, claim and reserve at the end of the job. */
  predicate BurnEnded(q: CashOut, q': CashOut, before: map<nat, Wallet>, after: map<nat, Wallet>, start: nat, now: nat,
      end: BurnEnd) {
    match end
    case Paid =>
      q'.status.Completed? && q'.paidAt == Some(now) && !q'.held && after == before
    case GivenBack =>
      q'.status.Failed? && q'.paidAt == q.paidAt && !q'.held && OnlyMoved(before, after, q.user, q.terms.uctusd)
    case KeptForLedger =>
      q'.status.Approved? && q'.paidAt == q.paidAt && q'.held && q'.startedAt == Some(start) && after == before
    case Retried =>
      q'.status.Approved? && q'.paidAt == q.paidAt && q'.held == q.held && q'.startedAt.None? && after == before
  }

  /** Owner, terms and approval stay; the attempt is counted; a signature, and only that, is recorded. */
  predicate BurnRecorded(q: CashOut, q': CashOut, a: Submission) {
    && q'.user == q.user && q'.terms == q.terms && q'.approvedAt == q.approvedAt && q'.attempts == q.attempts + 1
    && (if a.Signed? then q'.hash == Some(a.hash) && q'.last == a.last && q'.submitted == Some(a.submitted)
        else q'.hash == q.hash && q'.last == q.last && q'.submitted == q.submitted)
  }

  ghost predicate OtherRequestsStay(db: Tables, after: Tables, r: nat) {
    && r < |db.requests| == |after.requests| && after.transfers == db.transfers
    && forall k :: 0 <= k < |db.requests| && k != r ==> after.requests[k] == db.requests[k]
  }

  /** One burn message for a claimable row whose wallet exists: how it ends, on the row and in the wallet. */
  lemma BurnJobExactly(db: Tables, r: nat, start: nat, now: nat, a: Submission)
    requires r < |db.requests| && BurnClaimable(db.requests[r], start) && db.requests[r].user in db.wallets
    ensures var after, end := BurnJob(db, r, start, now, a), BurnEndOf(db.requests[r].attempts, a);
            && OtherRequestsStay(db, after, r)
            && BurnRecorded(db.requests[r], after.requests[r], a)
            && BurnEnded(db.requests[r], after.requests[r], db.wallets, after.wallets, start, now, end)
            && BurnJobOutcome(db, r, start, a) == BurnWord(db.requests[r].attempts, end)
  {
    if a.Signed? { ResolutionExactly(a.answer); }
  }

  /** Any other message changes no money: it is skipped, or the claim is stamped and the missing wallet raises. */
  lemma OtherBurnJobs(db: Tables, r: nat, start: nat, now: nat, a: Submission)
    requires r < |db.requests| ==> !(BurnClaimable(db.requests[r], start) && db.requests[r].user in db.wallets)
    ensures var after := BurnJob(db, r, start, now, a);
            if r < |db.requests| && BurnClaimable(db.requests[r], start) then
              && BurnJobOutcome(db, r, start, a) == JobOutcome.Raises && after.wallets == db.wallets
              && OtherRequestsStay(db, after, r)
              && after.requests[r] == db.requests[r].(startedAt := Some(start), attempts := db.requests[r].attempts + 1)
            else BurnJobOutcome(db, r, start, a) == Skipped && after == db
  {
  }

  // ---------------------------------------------------------------- one settlement message

  datatype PayEnd = Credited | GivenUp | BackToQueue

  /** The recipient has, or just got, a wallet with a trust line. */
  predicate HasTrust(wallets: map<nat, Wallet>, u: nat, wallet: Provisioning) {
    wallet.Provision? && (wallet.trust || (u in wallets && wallets[u].trustSet))
  }

  ghost function PayEndOf(attempts: nat, trusted: bool, a: Submission): PayEnd {
    if trusted && a.Signed? then if TellsSuccess(a.answer) then Credited else GivenUp
    else if (trusted && a.BadAmount?) || 2 <= attempts then GivenUp
    else BackToQueue
  }

  function PayWord(attempts: nat, end: PayEnd): JobOutcome {
    match end
    case Credited => JobOutcome.Completed
    case GivenUp => JobOutcome.Failed
    case BackToQueue => Requeued(if attempts == 0 then 10 else 30)
  }

  predicate PayEnded(x: Transfer, x': Transfer, before: map<nat, Wallet>, after: map<nat, Wallet>, now: nat,
      end: PayEnd) {
    && x'.updatedAt == now
    && match end
       case Credited => x'.status.Settled? && OnlyMoved(before, after, x.recipient, x.quote.uctusd)
       case GivenUp => x'.status.Unsettled? && OnlyMoved(before, after, x.recipient, 0)
       case BackToQueue => x'.status.Queued? && OnlyMoved(before, after, x.recipient, 0)
  }

  predicate PayRecorded(x: Transfer, x': Transfer, trusted: bool, a: Submission) {
    && x'.send == x.send && x'.recipient == x.recipient && x'.quote == x.quote && x'.history == x.history
    && x'.attempts == x.attempts + 1
    && (if trusted && a.Signed? then x'.hash == Some(a.hash) && x'.last == a.last && x'.submitted == Some(a.submitted)
        else x'.hash == x.hash && x'.last == x.last && x'.submitted == x.submitted)
  }

  ghost predicate OtherTransfersStay(db: Tables, after: Tables, t: nat) {
    && t < |db.transfers| == |after.transfers| && after.requests == db.requests
    && forall k :: 0 <= k < |db.transfers| && k != t ==> after.transfers[k] == db.transfers[k]
  }

  /** One settlement message for a claimable row: how it ends, on the row and in the recipient's wallet. */
  lemma PayJobExactly(db: Tables, t: nat, start: nat, signed: nat, now: nat, wallet: Provisioning, a: Submission)
    requires t < |db.transfers| && PayClaimable(db.transfers[t])
    ensures var x, after := db.transfers[t], PayJob(db, t, start, signed, now, wallet, a);
            var trusted := HasTrust(db.wallets, x.recipient, wallet);
            var end := PayEndOf(x.attempts, trusted, a);
            && OtherTransfersStay(db, after, t)
            && PayRecorded(x, after.transfers[t], trusted, a)
            && PayEnded(x, after.transfers[t], db.wallets, after.wallets, now, end)
            && PayJobOutcome(db, t, wallet, a) == PayWord(x.attempts, end)
            && (x.recipient in after.wallets <==> x.recipient in db.wallets || wallet.Provision?)
  {
    if a.Signed? { ResolutionExactly(a.answer); }
  }

  lemma OtherPayJobs(db: Tables, t: nat, start: nat, signed: nat, now: nat, wallet: Provisioning, a: Submission)
    requires t < |db.transfers| ==> !PayClaimable(db.transfers[t])
    ensures PayJob(db, t, start, signed, now, wallet, a) == db && PayJobOutcome(db, t, wallet, a) == Skipped
  {
  }

  // ---------------------------------------------------------------- reconcile

  /** Not found, past the deadline, and the server lists the whole range: it can never be included. */
  predicate Lapsed(last: Option<nat>, submitted: Option<nat>, view: View) {
    && last.Some? && submitted.Some? && last.value < view.latest
    && HasCompleteRange(view.complete, submitted.value, last.value)
  }

  /** What one reconcile answers and does, for every row and every answer of the ledger. */
  lemma ReconcileExactly(db: Tables, r: nat, view: View, answer: Option<string>, now: nat)
    requires r < |db.requests|
    ensures var q, after := db.requests[r], ReconcileJob(db, r, view, answer, now);
            var word := ReconcileOutcomeOf(db, r, view, answer);
            if q.status.Completed? || q.status.Failed? then word == AlreadyResolved && after == db
            else if q.status.Requested? || q.hash.None? then word == NothingSubmitted && after == db
            else if answer == Some(SUCCESS) then
              && word == ReconcileOutcome.Completed && OtherRequestsStay(db, after, r) && after.wallets == db.wallets
              && after.requests[r] == q.(status := CashOutStatus.Completed, held := false, paidAt := Some(now))
            else if answer.None? && !Lapsed(q.last, q.submitted, view) then word == Undecided && after == db
            else if q.user !in db.wallets then word == ReconcileOutcome.Raises && after == db
            else
              && word == ReconcileOutcome.Failed && OtherRequestsStay(db, after, r)
              && OnlyMoved(db.wallets, after.wallets, q.user, q.terms.uctusd)
              && after.requests[r] == q.(status := CashOutStatus.Failed, held := false)
  {
  }

  // ---------------------------------------------------------------- retry

  /** Failed, or processing and untouched for ten minutes, with the sender's payment received. */
  predicate MayRetry(x: Transfer, now: nat) {
    && x.send.cashin.Received?
    && (x.status.Unsettled? || (x.status.Processing? && x.updatedAt + 600_000_000 <= now))
  }

  /** Nothing was signed, or the ledger shows that what was signed moved nothing and never will. */
  predicate MayResend(x: Transfer, view: View, answer: Option<string>) {
    x.hash.None? || (answer.Some? && answer != Some(SUCCESS)) || (answer.None? && Lapsed(x.last, x.submitted, view))
  }

  /** What one retry answers and does, for every row and every answer of the ledger. */
  lemma RetryExactly(db: Tables, t: nat, view: View, answer: Option<string>, now: nat)
    requires t < |db.transfers|
    ensures var x, after := db.transfers[t], RetryJob(db, t, view, answer, now);
            var word := RetryOutcomeOf(x, view, answer, now);
            && (word.NotRetryable? <==> !MayRetry(x, now))
            && (word.Reconciled? <==> MayRetry(x, now) && x.hash.Some? && answer == Some(SUCCESS))
            && (word.Resent? <==> MayRetry(x, now) && MayResend(x, view, answer))
            && (if word.Reconciled? then
                  && OtherTransfersStay(db, after, t)
                  && after.transfers[t] == x.(status := Settled, updatedAt := now)
                  && (x.recipient in db.wallets ==> OnlyMoved(db.wallets, after.wallets, x.recipient, x.quote.uctusd))
                  && (x.recipient !in db.wallets ==> after.wallets == db.wallets)
                else if word.Resent? then
                  && OtherTransfersStay(db, after, t) && after.wallets == db.wallets
                  && Requeues(x, after.transfers[t], now)
                else after == db)
  {
  }

  /** Queued for a clean attempt; a signed attempt moves to the end of the history, range and all. */
  predicate Requeues(x: Transfer, y: Transfer, now: nat) {
    && y.status.Queued? && y.attempts == 0 && y.hash.None? && y.last.None? && y.submitted.None? && y.updatedAt == now
    && y.send == x.send && y.recipient == x.recipient && y.quote == x.quote
    && |x.history| <= |y.history| <= |x.history| + 1 && y.history[..|x.history|] == x.history
    && (x.hash.Some? <==> |y.history| == |x.history| + 1)
    && (x.hash.Some? ==> y.history[|x.history|] == Attempt(x.hash.value, x.last, x.submitted, x.attempts))
  }
}
