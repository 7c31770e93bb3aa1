/** What every reachable state of the protocol satisfies, row by row. */
module Invariant {
  import opened Wrappers
  import opened Xrpl
  import opened Rows
  import opened Machine

  // ---------------------------------------------------------------- rows

  /** The signed transaction carries the row's own terms and recorded range. */
  predicate Carries(x: SignedTx, purpose: Purpose, user: nat, amount: int, last: Option<nat>, submitted: Option<nat>) {
    x.purpose == purpose && x.account == user && x.amount == amount && last == x.last
        && submitted == Some(x.submittedAt)
  }

  ghost predicate RequestOk(r: nat, q: CashOut, wallets: map<nat, Wallet>, l: Ledger) {
    && 0 < q.terms.uctusd && q.user in wallets
    && (q.hash.Some? ==>
         q.hash.value < |l.txs| && Carries(l.txs[q.hash.value], Purpose.Burn(r), q.user, q.terms.uctusd, q.last,
             q.submitted))
    && (q.status.Requested? ==> q.hash.None? && q.startedAt.None? && q.attempts == 0)
    && (q.status.Approved? ==> q.approvedAt.Some?)
    && (q.status.Completed? ==> q.hash.Some? && Success(l.txs[q.hash.value]))
    && (q.status.Failed? && q.hash.Some? ==> Dead(l.txs[q.hash.value], l.index))
    && (q.paidAt.Some? <==> q.status.Completed?)
    && (q.held ==> q.status.Approved? && q.hash.Some?)
  }

  ghost predicate RequestsOk(requests: seq<CashOut>, wallets: map<nat, Wallet>, l: Ledger) {
    forall r :: 0 <= r < |requests| ==> RequestOk(r, requests[r], wallets, l)
  }

  /** A request is signed for at most once: its recorded hash. */
  ghost predicate BurnTxsOk(requests: seq<CashOut>, l: Ledger) {
    forall h :: 0 <= h < |l.txs| && l.txs[h].purpose.Burn? ==>
      l.txs[h].purpose.request < |requests| && requests[l.txs[h].purpose.request].hash == Some(h)
  }

  ghost predicate AttemptOk(t: nat, e: Attempt, l: Ledger) {
    && e.hash < |l.txs| && l.txs[e.hash].purpose == Purpose.Pay(t)
    && e.last == l.txs[e.hash].last && e.submitted == Some(l.txs[e.hash].submittedAt)
    && Dead(l.txs[e.hash], l.index)
  }

  /** Retired attempts in the order they were signed, each dead, each with its own range. */
  ghost predicate HistoryOk(t: nat, x: Transfer, l: Ledger) {
    && (forall k :: 0 <= k < |x.history| ==> AttemptOk(t, x.history[k], l))
    && (forall i, k :: 0 <= i < k < |x.history| ==> x.history[i].hash < x.history[k].hash)
    && (x.hash.Some? ==> forall k :: 0 <= k < |x.history| ==> x.history[k].hash < x.hash.value)
  }

  /** What a status says about the rest of the row. */
  ghost predicate StatusOk(x: Transfer, l: Ledger) {
    && (x.hash.Some? ==> x.status.Processing? || x.status.Unsettled? || x.status.Settled?)
    && (x.status.Settled? ==> x.hash.Some? && x.hash.value < |l.txs| && Success(l.txs[x.hash.value]))
    && (!x.status.NotQueued? <==> x.send.cashin.Received?)
    && x.attempts <= MAX_ATTEMPTS && (x.status.NotQueued? ==> x.attempts == 0)
    && (x.status.Queued? ==> x.attempts < MAX_ATTEMPTS)
    && (x.status.Processing? ==> 1 <= x.attempts)
  }

  ghost predicate TransferOk(t: nat, x: Transfer, wallets: map<nat, Wallet>, l: Ledger, now: nat) {
    && 0 < x.quote.uctusd && x.updatedAt <= now
    && (x.hash.Some? ==>
         && x.hash.value < |l.txs| && x.recipient in wallets
         && Carries(l.txs[x.hash.value], Purpose.Pay(t), x.recipient, x.quote.uctusd, x.last, x.submitted))
    && StatusOk(x, l)
    && HistoryOk(t, x, l)
  }

  ghost predicate TransfersOk(transfers: seq<Transfer>, wallets: map<nat, Wallet>, l: Ledger, now: nat) {
    forall t :: 0 <= t < |transfers| ==> TransferOk(t, transfers[t], wallets, l, now)
  }

  predicate Archived(x: Transfer, h: nat) { exists k :: 0 <= k < |x.history| && x.history[k].hash == h }

  /** Every payment ever signed is the row's live hash or one of its retired attempts. */
  ghost predicate PayTxsOk(transfers: seq<Transfer>, l: Ledger) {
    forall h :: 0 <= h < |l.txs| && l.txs[h].purpose.Pay? ==> PayTxOk(transfers, l.txs[h].purpose.transfer, h)
  }

  predicate PayTxOk(transfers: seq<Transfer>, t: nat, h: nat) {
    t < |transfers| && (transfers[t].hash == Some(h) || Archived(transfers[t], h))
  }

  // ---------------------------------------------------------------- workers and admins

  /** A live burn worker owns its row: alone while unsigned, and by hash afterwards. */
  ghost predicate BurnJobOk(job: Job, requests: seq<CashOut>, published: set<nat>, l: Ledger) {
    && job.row < |requests| && job.row in published
    && var q := requests[job.row];
       match job.phase
       case Claimed =>
         && q.status.Approved? && q.hash.None? && q.startedAt == Some(job.claimedAt)
         && q.attempts == job.attempts && 0 < job.attempts
       case Persisted(h) => q.hash == Some(h) && h < |l.txs| && !l.txs[h].sent
       case Sent(h) => q.hash == Some(h) && h < |l.txs| && l.txs[h].sent
  }

  /** A live worker has request `r` in hand. */
  predicate Worked(s: State, r: nat) { exists j :: j in s.burners && s.burners[j].row == r }

  ghost predicate BurnersOk(s: State) {
    && (forall j :: j in s.burners ==> BurnJobOk(s.burners[j], s.db.requests, s.published, s.ledger))
    && (forall j, k :: j in s.burners && k in s.burners && s.burners[j].row == s.burners[k].row ==> j == k)
  }

  ghost predicate PayJobOk(job: Job, transfers: seq<Transfer>, l: Ledger) {
    && job.row < |transfers|
    && var x := transfers[job.row];
       && job.claimedAt <= x.updatedAt
       && match job.phase
          case Claimed => x.status.Processing? && x.hash.None? && x.attempts == job.attempts
          case Persisted(h) =>
            x.hash == Some(h) && h < |l.txs| && !l.txs[h].sent && (x.status.Processing? || x.status.Settled?)
          case Sent(h) =>
            x.hash == Some(h) && h < |l.txs| && l.txs[h].sent && (x.status.Processing? || x.status.Settled?)
  }

  ghost predicate SettlersOk(s: State) {
    && (forall j :: j in s.settlers ==> PayJobOk(s.settlers[j], s.db.transfers, s.ledger))
    && (forall j, k :: j in s.settlers && k in s.settlers && s.settlers[j].row == s.settlers[k].row ==> j == k)
  }

  /** `seen` is a past value of the row; an unchanged time stamp means an unchanged row. */
  ghost predicate SeenOk(t: nat, seen: Transfer, transfers: seq<Transfer>, l: Ledger, now: nat) {
    && t < |transfers|
    && seen.updatedAt <= transfers[t].updatedAt
    && (seen.updatedAt == transfers[t].updatedAt ==> transfers[t] == seen)
    && (seen.status.Unsettled? || (seen.status.Processing? && seen.updatedAt + STUCK_AFTER <= now))
    && seen.send.cashin.Received?
    && (seen.hash.Some? ==>
         seen.hash.value < |l.txs|
             && Carries(l.txs[seen.hash.value], Purpose.Pay(t), seen.recipient, seen.quote.uctusd, seen.last,
                seen.submitted))
  }

  /** Dead, and for a reason that a ledger lookup can show. */
  predicate ProvedDead(x: SignedTx, index: nat) { Dead(x, index) && (x.fate.Included? || x.last.Some?) }

  ghost predicate AdminOk(m: Admin, requests: seq<CashOut>, transfers: seq<Transfer>, l: Ledger, now: nat) {
    match m
    case BurnSeen(r, q) =>
      && r < |requests| && q.hash.Some? && requests[r].hash == q.hash && q.hash.value < |l.txs|
      && l.txs[q.hash.value].last == q.last && q.submitted == Some(l.txs[q.hash.value].submittedAt)
    case BurnJudged(r, h, landed) =>
      && r < |requests| && requests[r].hash == Some(h) && h < |l.txs|
      && (if landed then Success(l.txs[h]) else ProvedDead(l.txs[h], l.index))
    case PaySeen(t, seen) => SeenOk(t, seen, transfers, l, now)
    case PayLanded(t, h, from) =>
      t < |transfers| && h < |l.txs| && l.txs[h].purpose == Purpose.Pay(t) && Success(l.txs[h])
          && (from.Unsettled? || from.Processing?)
    case PayDead(t, seen) =>
      SeenOk(t, seen, transfers, l, now) && (seen.hash.Some? ==> ProvedDead(l.txs[seen.hash.value], l.index))
  }

  ghost predicate AdminsOk(s: State) {
    forall j :: j in s.admins ==> AdminOk(s.admins[j], s.db.requests, s.db.transfers, s.ledger, s.now)
  }

  /** An approval that is still publishing has no message, no worker and no hash. */
  ghost predicate PublishingOk(s: State) {
    && (forall r :: r in s.publishing ==>
         r < |s.db.requests| && r !in s.published
         && s.db.requests[r].status.Approved? && s.db.requests[r].hash.None? && s.db.requests[r].startedAt.None?)
    && (forall r :: r in s.published ==> r < |s.db.requests| && !s.db.requests[r].status.Requested?)
  }

  ghost predicate Inv(s: State) {
    && Timely(s)
    && s.db.wallets.Keys == s.ledger.balances.Keys
    && LedgerOk(s.ledger)
    && RequestsOk(s.db.requests, s.db.wallets, s.ledger)
    && BurnTxsOk(s.db.requests, s.ledger)
    && TransfersOk(s.db.transfers, s.db.wallets, s.ledger, s.now)
    && PayTxsOk(s.db.transfers, s.ledger)
    && BurnersOk(s)
    && SettlersOk(s)
    && AdminsOk(s)
    && PublishingOk(s)
  }
}
