/**
 The commits of the services and workers, run against the tables in place. Each method is one
 database transaction and is proved equal to the commit that the protocol of module Machine uses.
*/
module Database {
  import opened Wrappers
  import opened Fx
  import opened Limits
  import opened CompleteLedgers
  import opened Outcomes
  import opened Xrpl
  import opened Rows
  import opened Jobs
  import opened JobLaws

  class Store {
    var requests: seq<CashOut>
    var transfers: seq<Transfer>
    var wallets: map<nat, Wallet>

    constructor ()
      ensures Snapshot() == Tables([], [], map[])
    {
      requests, transfers, wallets := [], [], map[];
    }

    function Snapshot(): Tables
      reads this
    {
      Tables(requests, transfers, wallets)
    }

    // -------------------------------------------------------------- cash-out desk

    method CreateRequest(c: FeeConfig, user: nat, amount: int, currency: Currency, shown: Option<Pricing>)
        returns (created: bool)
      modifies this
      ensures created == Rows.CreateRequest(old(Snapshot()), c, user, amount, currency, shown).Some?
      ensures Snapshot() ==
              if created then Rows.CreateRequest(old(Snapshot()), c, user, amount, currency, shown).value
              else old(Snapshot())
    {
      if user !in wallets { return false; }
      var available := wallets[user].balance - HeldForRequests(Snapshot(), user);
      if available < amount { return false; }
      var p := PriceCashout(c, amount, currency);
      if p.None? || !PricingMatches(p.value, shown) { return false; }
      requests := requests + [CashOut(user, p.value, Requested, None, None, None, None, None, 0, false, None)];
      return true;
    }

    method Approve(r: nat, now: nat) returns (outcome: ApproveOutcome)
      requires r < |requests|
      modifies this
      ensures outcome == ApproveOutcomeOf(old(Snapshot()), r)
      ensures Snapshot() == Rows.Approve(old(Snapshot()), r, now)
      ensures outcome.Reserved?
         <==> old(requests)[r].status.Requested? && old(requests)[r].user in old(wallets)
              && old(requests)[r].terms.uctusd <= old(wallets)[old(requests)[r].user].balance
      ensures outcome.Reserved? ==>
                var q := old(requests)[r];
                && requests == old(requests)[r := q.(status := Approved, approvedAt := Some(now))]
                && transfers == old(transfers)
                && q.user in wallets && wallets[q.user].balance == old(wallets)[q.user].balance - q.terms.uctusd
                && forall u :: u in old(wallets) && u != q.user ==> u in wallets && wallets[u] == old(wallets)[u]
    {
      var q := requests[r];
      if q.user !in wallets { return WalletMissing; }
      var wallet := wallets[q.user];
      if wallet.balance < q.terms.uctusd { return ShortBalance; }
      if !q.status.Requested? { return AlreadyActioned; }
      requests := requests[r := q.(status := Approved, approvedAt := Some(now))];
      wallets := wallets[q.user := wallet.(balance := wallet.balance - q.terms.uctusd)];
      return ApproveOutcome.Reserved;
    }

    method Reject(r: nat, now: nat) returns (done: bool)
      requires r < |requests|
      modifies this
      ensures done == old(requests[r].status.Requested?)
      ensures Snapshot() == Rows.Reject(old(Snapshot()), r, now)
      ensures OnlyRequestDiffers(old(Snapshot()), Snapshot(), r)
      ensures done ==> forall now :: !BurnClaimable(requests[r], now)
      ensures done ==> requests[r].status.Failed?
    {
      if !requests[r].status.Requested? { return false; }
      requests := requests[r := requests[r].(status := CashOutStatus.Failed, approvedAt := Some(now))];
      return true;
    }

    /** `accepts[r]` says whether the queue takes the message of row `r` or raises. */
    method SweepUnpublished(now: nat, accepts: seq<bool>) returns (republished: seq<nat>)
      requires |accepts| == |requests|
      ensures republished == Republished(requests, now, accepts)
    {
      republished := [];
      var r := 0;
      while r < |requests|
        invariant 0 <= r <= |requests|
        invariant republished == Republished(requests[..r], now, accepts[..r])
      {
        assert requests[..r + 1][..r] == requests[..r] && accepts[..r + 1][..r] == accepts[..r];
        if Sweepable(requests[r], now) && accepts[r] { republished := republished + [r]; }
        r := r + 1;
      }
      assert requests[..r] == requests && accepts[..r] == accepts;
    }

    /** reconcile: refuse, or decide from the ledger's evidence and finalise. */
    method Reconcile(r: nat, view: View, answer: Option<string>, now: nat) returns (outcome: ReconcileOutcome)
      requires r < |requests|
      modifies this
      ensures outcome == ReconcileOutcomeOf(old(Snapshot()), r, view, answer)
      ensures Snapshot() == ReconcileJob(old(Snapshot()), r, view, answer, now)
    {
      var q := requests[r];
      if q.status.Completed? || q.status.Failed? { return AlreadyResolved; }
      if !q.status.Approved? || q.hash.None? { return NothingSubmitted; }
      if answer == Some(SUCCESS) {
        var _ := CompleteBurn(r, q.hash.value, now);
        return ReconcileOutcome.Completed;
      }
      if answer.Some? {
        var restored := FailAndRestore(r, q.hash);
        return if restored.RolledBack? then ReconcileOutcome.Raises else ReconcileOutcome.Failed;
      }
      if q.last.None? || q.submitted.None? { return Undecided; }
      if view.latest <= q.last.value { return Undecided; }
      if !HasCompleteRange(view.complete, q.submitted.value, q.last.value) { return Undecided; }
      var restored := FailAndRestore(r, q.hash);
      return if restored.RolledBack? then ReconcileOutcome.Raises else ReconcileOutcome.Failed;
    }

    // -------------------------------------------------------------- burn worker

    method ClaimBurn(r: nat, now: nat) returns (claimed: Option<CashOut>)
      modifies this
      ensures claimed.Some? == (r < |old(requests)| && BurnClaimable(old(requests)[r], now))
      ensures claimed.Some? ==> Snapshot() == Rows.ClaimBurn(old(Snapshot()), r, now) && claimed.value == requests[r]
      ensures claimed.None? ==> Snapshot() == old(Snapshot())
      ensures claimed.Some? ==>
                OnlyRequestDiffers(old(Snapshot()), Snapshot(), r) && !BurnClaimable(requests[r], now + STUCK_AFTER)
      ensures claimed.Some?
         <==> r < |old(requests)| && old(requests)[r].status.Approved? && old(requests)[r].hash.None?
              && (old(requests)[r].startedAt.Some? ==> old(requests)[r].startedAt.value + STUCK_AFTER < now)
      ensures claimed.Some? ==>
                requests[r] == old(requests)[r].(startedAt := Some(now), attempts := old(requests)[r].attempts + 1)
    {
      if |requests| <= r || !BurnClaimable(requests[r], now) { return None; }
      requests := requests[r := requests[r].(startedAt := Some(now), attempts := requests[r].attempts + 1)];
      return Some(requests[r]);
    }

    method ReleaseClaim(r: nat)
      requires r < |requests|
      modifies this
      ensures Snapshot() == Rows.ReleaseClaim(old(Snapshot()), r)
      ensures OnlyRequestDiffers(old(Snapshot()), Snapshot(), r)
      ensures requests[r].status.Approved? && requests[r].hash.None? ==> forall now :: BurnClaimable(requests[r], now)
      ensures requests[r] == old(requests)[r].(startedAt := None)
    {
      requests := requests[r := requests[r].(startedAt := None)];
    }

    method RememberBurn(r: nat, hash: nat, last: Option<nat>, submitted: nat)
      requires r < |requests|
      modifies this
      ensures Snapshot() == Rows.RememberBurn(old(Snapshot()), r, hash, last, submitted)
      ensures OnlyRequestDiffers(old(Snapshot()), Snapshot(), r)
      ensures requests[r].status == old(requests)[r].status && forall now :: !BurnClaimable(requests[r], now)
      ensures requests[r].hash == Some(hash) && requests[r].last == last && requests[r].submitted == Some(submitted)
    {
      requests := requests[r := requests[r].(hash := Some(hash), last := last, submitted := Some(submitted))];
    }

    method CompleteBurn(r: nat, hash: nat, now: nat) returns (done: bool)
      requires r < |requests|
      modifies this
      ensures done == old(requests[r].status.Approved?)
      ensures Snapshot() == Rows.CompleteBurn(old(Snapshot()), r, hash, now)
      ensures OnlyRequestDiffers(old(Snapshot()), Snapshot(), r)
      ensures forall now :: !BurnClaimable(requests[r], now) && !Sweepable(requests[r], now)
      ensures done ==> requests[r].status.Completed? && requests[r].paidAt == Some(now)
      ensures done ==> requests[r].hash == Some(hash)
    {
      if !requests[r].status.Approved? { return false; }
      requests := requests[r := requests[r].(status := CashOutStatus.Completed, hash := Some(hash), held := false,
          paidAt := Some(now))];
      return true;
    }

    /** A missing wallet row raises, and the exception rolls the transition back with it. */
    method FailAndRestore(r: nat, hash: Option<nat>) returns (outcome: RestoreOutcome)
      requires r < |requests|
      modifies this
      ensures outcome == RestoreOutcomeOf(old(Snapshot()), r)
      ensures Snapshot() == Rows.FailAndRestore(old(Snapshot()), r, hash)
      ensures !outcome.RolledBack? ==> forall now :: !BurnClaimable(requests[r], now)
      ensures transfers == old(transfers) && wallets.Keys == old(wallets).Keys
      ensures outcome.Restored? ==>
                var q := old(requests)[r];
                && requests[r].status.Failed? && requests[r].hash == (if hash.Some? then hash else q.hash)
                && q.user in wallets && q.user in old(wallets)
                && wallets[q.user].balance == old(wallets)[q.user].balance + q.terms.uctusd
      ensures !outcome.Restored? ==> requests == old(requests) && wallets == old(wallets)
    {
      var q := requests[r];
      if !q.status.Approved? { return LeftAlone; }
      if q.user !in wallets { return RolledBack; }
      requests := requests[r := q.(status := CashOutStatus.Failed, held := false,
          hash := if hash.Some? then hash else q.hash)];
      wallets := wallets[q.user := wallets[q.user].(balance := wallets[q.user].balance + q.terms.uctusd)];
      return Restored;
    }

    method HoldUnknown(r: nat)
      requires r < |requests|
      modifies this
      ensures Snapshot() == Rows.HoldUnknown(old(Snapshot()), r)
      ensures OnlyRequestDiffers(old(Snapshot()), Snapshot(), r)
      ensures requests[r] == old(requests)[r].(held := requests[r].held)
      ensures requests[r].held == (old(requests)[r].held || old(requests)[r].status.Approved?)
    {
      if requests[r].status.Approved? { requests := requests[r := requests[r].(held := true)]; }
    }

    method RetryOrFailBurn(r: nat, attempts: nat) returns (outcome: JobOutcome)
      requires r < |requests| && 0 < attempts
      modifies this
      ensures Snapshot() == Rows.RetryOrFailBurn(old(Snapshot()), r, attempts)
      ensures outcome ==
              if MAX_ATTEMPTS <= attempts && RestoreOutcomeOf(old(Snapshot()), r).RolledBack? then JobOutcome.Raises
              else RetryOutcomeAfter(attempts)
      ensures attempts < 3 ==> outcome == Requeued([10, 30, 60][attempts - 1]) && wallets == old(wallets)
      ensures attempts < 3 ==> requests[r].startedAt.None? && requests[r].status == old(requests)[r].status
      ensures 3 <= attempts ==> outcome.Raises? || (outcome == JobOutcome.Failed && !requests[r].status.Approved?)
    {
      if MAX_ATTEMPTS <= attempts {
        var restored := FailAndRestore(r, None);
        return if restored.RolledBack? then JobOutcome.Raises else JobOutcome.Failed;
      }
      var delay := RETRY_DELAYS[if attempts - 1 < |RETRY_DELAYS| - 1 then attempts - 1 else |RETRY_DELAYS| - 1];
      ReleaseClaim(r);
      return Requeued(delay);
    }

    /** One burn message, start to end. `start` and `end` are the clock at its first and last commit. */
    method ProcessBurn(r: nat, start: nat, end: nat, attempt: Submission) returns (outcome: JobOutcome)
      modifies this
      ensures Snapshot() == BurnJob(old(Snapshot()), r, start, end, attempt)
      ensures outcome == BurnJobOutcome(old(Snapshot()), r, start, attempt)
      ensures r < |old(requests)| && BurnClaimable(old(requests)[r], start) && old(requests)[r].user in old(wallets)
              && attempt.Signed? && attempt.answer == Validated(SUCCESS) ==>
                && outcome == JobOutcome.Completed && r < |requests| && requests[r].status.Completed?
                && requests[r].hash == Some(attempt.hash) && wallets == old(wallets)
      ensures r < |old(requests)| && BurnClaimable(old(requests)[r], start) && old(requests)[r].user in old(wallets)
              && attempt.Signed? && attempt.answer.Validated? && attempt.answer.code != SUCCESS ==>
                var u := old(requests)[r].user;
                && outcome == JobOutcome.Failed && r < |requests| && requests[r].status.Failed? && u in wallets
                && wallets[u].balance == old(wallets)[u].balance + old(requests)[r].terms.uctusd
    {
      var claimed := ClaimBurn(r, start);
      if claimed.None? { return Skipped; }
      var q := claimed.value;
      if q.user !in wallets {
        var _ := FailAndRestore(r, None);
        return JobOutcome.Raises;
      }
      var signedHash: Option<nat> := None;
      if attempt.Signed? {
        RememberBurn(r, attempt.hash, attempt.last, attempt.submitted);
        signedHash := Some(attempt.hash);
      }
      if attempt.BadAmount? {
        var _ := FailAndRestore(r, None);
        return JobOutcome.Failed;
      }
      if attempt.RaisedUnsigned? || (attempt.Signed? && attempt.answer.Raised?) {
        if signedHash.Some? {
          HoldUnknown(r);
          return Held;
        }
        outcome := RetryOrFailBurn(r, q.attempts);
        return;
      }
      var result := ResultOf(attempt);
      if result.Resolution() == Succeeded {
        var _ := CompleteBurn(r, attempt.hash, end);
        return JobOutcome.Completed;
      }
      if result.Resolution() == NotSubmitted {
        outcome := RetryOrFailBurn(r, q.attempts);
        return;
      }
      if result.Resolution() == Unknown {
        HoldUnknown(r);
        return Held;
      }
      var _ := FailAndRestore(r, result.txHash);
      return JobOutcome.Failed;
    }

    // -------------------------------------------------------------- settlement worker

    method ClaimPay(t: nat, now: nat) returns (claimed: Option<Transfer>)
      modifies this
      ensures claimed.Some? == (t < |old(transfers)| && PayClaimable(old(transfers)[t]))
      ensures claimed.Some? ==> Snapshot() == Rows.ClaimPay(old(Snapshot()), t, now) && claimed.value == transfers[t]
      ensures claimed.None? ==> Snapshot() == old(Snapshot())
      ensures claimed.Some? ==> OnlyTransferDiffers(old(Snapshot()), Snapshot(), t) && !PayClaimable(transfers[t])
      ensures claimed.Some?
         <==> t < |old(transfers)| && old(transfers)[t].status.Queued? && old(transfers)[t].hash.None?
              && old(transfers)[t].send.cashin.Received?
      ensures claimed.Some? ==>
                && transfers[t].status.Processing? && transfers[t].attempts == old(transfers)[t].attempts + 1
                && transfers[t].updatedAt == now
    {
      if |transfers| <= t || !PayClaimable(transfers[t]) { return None; }
      transfers := transfers[t := transfers[t].(status := Processing, attempts := transfers[t].attempts + 1,
          updatedAt := now)];
      return Some(transfers[t]);
    }

    method RememberPay(t: nat, hash: nat, last: Option<nat>, submitted: nat, now: nat)
      requires t < |transfers|
      modifies this
      ensures Snapshot() == Rows.RememberPay(old(Snapshot()), t, hash, last, submitted, now)
      ensures OnlyTransferDiffers(old(Snapshot()), Snapshot(), t)
      ensures transfers[t].status == old(transfers)[t].status && !PayClaimable(transfers[t])
      ensures transfers[t].hash == Some(hash) && transfers[t].last == last && transfers[t].submitted == Some(submitted)
    {
      transfers := transfers[t := transfers[t].(hash := Some(hash), last := last, submitted := Some(submitted),
          updatedAt := now)];
    }

    method CompleteSettlement(t: nat, hash: nat, now: nat, from: SettlementStatus) returns (done: bool)
      requires t < |transfers|
      modifies this
      ensures done == (old(transfers[t].status) == from)
      ensures Snapshot() == Rows.CompleteSettlement(old(Snapshot()), t, hash, now, from)
      ensures done ==> !PayClaimable(transfers[t]) && !Retryable(transfers[t], now)
      ensures requests == old(requests) && wallets.Keys == old(wallets).Keys
      ensures done ==>
                var x := old(transfers)[t];
                && transfers[t].status.Settled? && transfers[t].hash == Some(hash)
                && (x.recipient in old(wallets) ==>
                     x.recipient in wallets && wallets[x.recipient].balance
                         == old(wallets)[x.recipient].balance + x.quote.uctusd)
      ensures !done ==> transfers == old(transfers) && wallets == old(wallets)
    {
      var x := transfers[t];
      if x.status != from { return false; }
      transfers := transfers[t := x.(status := Settled, hash := Some(hash), updatedAt := now)];
      if x.recipient in wallets {
        var w := wallets[x.recipient];
        wallets := wallets[x.recipient := w.(balance := w.balance + x.quote.uctusd)];
      }
      return true;
    }

    method FailSettlement(t: nat, hash: Option<nat>, now: nat, from: SettlementStatus) returns (done: bool)
      requires t < |transfers|
      modifies this
      ensures done == (old(transfers[t].status) == from)
      ensures Snapshot() == Rows.FailSettlement(old(Snapshot()), t, hash, now, from)
      ensures OnlyTransferDiffers(old(Snapshot()), Snapshot(), t)
      ensures done && transfers[t].send.cashin.Received? ==> Retryable(transfers[t], now)
      ensures done ==> transfers[t].status.Unsettled?
      ensures !done ==> transfers == old(transfers)
    {
      var x := transfers[t];
      if x.status != from { return false; }
      transfers := transfers[t := x.(status := Unsettled,
          hash := if hash.Some? then hash else x.hash, updatedAt := now)];
      return true;
    }

    method RetryOrFailPay(t: nat, attempts: nat, now: nat) returns (outcome: JobOutcome)
      requires t < |transfers|
      modifies this
      ensures Snapshot() == Rows.RetryOrFailPay(old(Snapshot()), t, attempts, now)
      ensures outcome ==
              if attempts < MAX_ATTEMPTS && !old(transfers[t].status.Processing?) then Skipped
              else RetryOutcomeAfter(attempts)
      ensures OnlyTransferDiffers(old(Snapshot()), Snapshot(), t)
      ensures transfers[t].hash == old(transfers)[t].hash && transfers[t].history == old(transfers)[t].history
      ensures old(transfers)[t].status.Processing? && 3 <= attempts ==>
                outcome == JobOutcome.Failed && transfers[t].status.Unsettled?
      ensures old(transfers)[t].status.Processing? && attempts < 3 ==>
                transfers[t].status.Queued? && outcome == Requeued([10, 10, 30][attempts])
    {
      if MAX_ATTEMPTS <= attempts {
        var _ := FailSettlement(t, None, now, Processing);
        return JobOutcome.Failed;
      }
      var step := if attempts < 1 then 0 else attempts - 1;
      var delay := RETRY_DELAYS[if step < |RETRY_DELAYS| - 1 then step else |RETRY_DELAYS| - 1];
      if !transfers[t].status.Processing? { return Skipped; }
      transfers := transfers[t := transfers[t].(status := Queued, updatedAt := now)];
      return Requeued(delay);
    }

    /** provision_wallet: reuse or create the row, then try its trust line. */
    method ProvisionWallet(user: nat, trust: bool)
      modifies this
      ensures Snapshot() == Provisioned(old(Snapshot()), user, trust)
      ensures requests == old(requests) && transfers == old(transfers)
      ensures forall u :: u in old(wallets) ==> u in wallets && wallets[u].balance == old(wallets)[u].balance
    {
      if user !in wallets { wallets := wallets[user := Wallet(0, false)]; }
      if !wallets[user].trustSet && trust { wallets := wallets[user := wallets[user].(trustSet := true)]; }
    }

    /** One settlement message, start to end; `signed` is the clock when the hash is persisted. */
    method ProcessSettlement(t: nat, start: nat, signed: nat, end: nat, wallet: Provisioning, attempt: Submission)
        returns (outcome: JobOutcome)
      modifies this
      ensures Snapshot() == PayJob(old(Snapshot()), t, start, signed, end, wallet, attempt)
      ensures outcome == PayJobOutcome(old(Snapshot()), t, wallet, attempt)
      ensures t < |old(transfers)| && PayClaimable(old(transfers)[t]) && attempt.Signed?
              && wallet.Provision? && wallet.trust && attempt.answer == Validated(SUCCESS) ==>
                var u := old(transfers)[t].recipient;
                && outcome == JobOutcome.Completed && t < |transfers| && transfers[t].status.Settled?
                && transfers[t].hash == Some(attempt.hash) && u in wallets
                && wallets[u].balance == BalanceIn(old(wallets), u) + old(transfers)[t].quote.uctusd
      ensures t < |old(transfers)| && PayClaimable(old(transfers)[t]) && attempt.Signed?
              && wallet.Provision? && wallet.trust && attempt.answer.Validated? && attempt.answer.code != SUCCESS ==>
                var u := old(transfers)[t].recipient;
                && outcome == JobOutcome.Failed && t < |transfers| && transfers[t].status.Unsettled?
                && transfers[t].hash == Some(attempt.hash) && u in wallets
                && wallets[u].balance == BalanceIn(old(wallets), u)
    {
      var claimed := ClaimPay(t, start);
      if claimed.None? { return Skipped; }
      var x := claimed.value;
      if wallet.Provision? { ProvisionWallet(x.recipient, wallet.trust); }
      if wallet.ProvisionRaises? || !wallets[x.recipient].trustSet {
        outcome := RetryOrFailPay(t, x.attempts, end);
        return;
      }
      var signedHash: Option<nat> := None;
      if attempt.Signed? {
        RememberPay(t, attempt.hash, attempt.last, attempt.submitted, signed);
        signedHash := Some(attempt.hash);
      }
      if attempt.BadAmount? {
        var _ := FailSettlement(t, None, end, Processing);
        return JobOutcome.Failed;
      }
      if attempt.RaisedUnsigned? || (attempt.Signed? && attempt.answer.Raised?) {
        if signedHash.Some? {
          var _ := FailSettlement(t, signedHash, end, Processing);
          return JobOutcome.Failed;
        }
        outcome := RetryOrFailPay(t, x.attempts, end);
        return;
      }
      var result := ResultOf(attempt);
      if result.Resolution() == Succeeded {
        var _ := CompleteSettlement(t, attempt.hash, end, Processing);
        return JobOutcome.Completed;
      }
      if result.Resolution() == NotSubmitted {
        outcome := RetryOrFailPay(t, x.attempts, end);
        return;
      }
      var _ := FailSettlement(t, result.txHash, end, Processing);
      return JobOutcome.Failed;
    }

    // -------------------------------------------------------------- cash-in desk and retry

    method MarkReceived(t: nat, now: nat) returns (done: bool)
      requires t < |transfers|
      modifies this
      ensures done == old(transfers[t].send.cashin.Pending?)
      ensures Snapshot() == Rows.MarkReceived(old(Snapshot()), t, now)
      ensures OnlyTransferDiffers(old(Snapshot()), Snapshot(), t)
      ensures done && transfers[t].hash.None? ==> PayClaimable(transfers[t])
      ensures done ==> transfers[t].send.cashin.Received? && transfers[t].status.Queued?
    {
      var x := transfers[t];
      if !x.send.cashin.Pending? { return false; }
      transfers := transfers[t := x.(send := x.send.(cashin := Received), status := Queued, updatedAt := now)];
      return true;
    }

    method MarkCashinFailed(t: nat, now: nat) returns (done: bool)
      requires t < |transfers|
      modifies this
      ensures done == old(transfers[t].send.cashin.Pending?)
      ensures Snapshot() == Rows.MarkCashinFailed(old(Snapshot()), t, now)
      ensures OnlyTransferDiffers(old(Snapshot()), Snapshot(), t)
      ensures done ==> !PayClaimable(transfers[t]) && transfers[t].status == old(transfers)[t].status
      ensures done ==> transfers[t].send.cashin.Declined?
    {
      var x := transfers[t];
      if !x.send.cashin.Pending? { return false; }
      transfers := transfers[t := x.(send := x.send.(cashin := Declined), updatedAt := now)];
      return true;
    }

    method Resend(t: nat, seen: Transfer, now: nat) returns (done: bool)
      requires t < |transfers|
      modifies this
      ensures done == (old(transfers[t].status) == seen.status && old(transfers[t].updatedAt) == seen.updatedAt)
      ensures Snapshot() == Rows.Resend(old(Snapshot()), t, seen, now)
      ensures OnlyTransferDiffers(old(Snapshot()), Snapshot(), t)
      ensures done && transfers[t].send.cashin.Received? ==> PayClaimable(transfers[t])
      ensures done && seen == old(transfers)[t] ==> Requeues(seen, transfers[t], now)
    {
      var x := transfers[t];
      if x.status != seen.status || x.updatedAt != seen.updatedAt { return false; }
      transfers := transfers[t := x.(status := Queued, attempts := 0, hash := None, last := None, submitted := None,
                                     history := ArchivedAttempts(seen), updatedAt := now)];
      return true;
    }

    /** expire_stale_cashins: one statement over the table; returns how many moved. */
    method ExpireStaleCashins(now: nat) returns (expired: nat)
      modifies this
      ensures Snapshot() == Rows.ExpireStale(old(Snapshot()), now)
      ensures expired == |set t | 0 <= t < |old(transfers)| && Stale(old(transfers)[t], now)|
    {
      var stale := set t | 0 <= t < |transfers| && Stale(transfers[t], now);
      transfers := seq(|transfers|, i requires 0 <= i < |transfers| reads this => Expired(transfers[i], now));
      return |stale|;
    }

    /** retry_settlement up to its commit; a re-send still has to be published. */
    method RetrySettlement(t: nat, view: View, answer: Option<string>, now: nat) returns (outcome: RetryOutcome)
      requires t < |transfers|
      modifies this
      ensures outcome == RetryOutcomeOf(old(transfers)[t], view, answer, now)
      ensures Snapshot() == RetryJob(old(Snapshot()), t, view, answer, now)
    {
      var x := transfers[t];
      if !Retryable(x, now) { return NotRetryable; }
      if x.hash.Some? {
        if answer == Some(SUCCESS) {
          var _ := CompleteSettlement(t, x.hash.value, now, x.status);
          return Reconciled;
        }
        if answer.None? {
          if x.last.None? || x.submitted.None? { return NotProvablyDead; }
          if view.latest <= x.last.value { return NotProvablyDead; }
          if !HasCompleteRange(view.complete, x.submitted.value, x.last.value) { return NotProvablyDead; }
        }
      }
      var _ := Resend(t, x, now);
      return Resent;
    }
  }
}
