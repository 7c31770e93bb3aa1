/** The database rows, and the commits that change them. Times are microseconds. */
module Rows {
  import opened Wrappers
  import opened Sums
  import opened Fx
  import opened Limits

  const SECOND := 1_000_000
  const MAX_ATTEMPTS := 3
  const RETRY_DELAYS: seq<nat> := [10, 30, 60]
  const STUCK_AFTER: nat := 600 * SECOND
  const PUBLISH_GRACE: nat := 120 * SECOND

  datatype CashOutStatus = Requested | Approved | Completed | Failed

  datatype CashOut = CashOut(
    user: nat,                  // recipient, whose one wallet is debited
    terms: Pricing,             // snapshot taken at request time
    status: CashOutStatus,
    approvedAt: Option<nat>,
    hash: Option<nat>, last: Option<nat>, submitted: Option<nat>,
    startedAt: Option<nat>,     // the worker claim
    attempts: nat,
    held: bool,                 // failure_reason starts with outcome_unknown
    paidAt: Option<nat>)        // the simulated fiat payout

  datatype Attempt = Attempt(hash: nat, last: Option<nat>, submitted: Option<nat>, attempts: nat)

  datatype SettlementStatus = NotQueued | Queued | Processing | Settled | Unsettled

  datatype Transfer = Transfer(
    send: Send,                 // sender, ZAR, creation time and cash-in state
    recipient: nat,
    quote: Quote,
    updatedAt: nat,
    status: SettlementStatus,
    hash: Option<nat>, last: Option<nat>, submitted: Option<nat>,
    attempts: nat,
    history: seq<Attempt>)

  datatype Wallet = Wallet(balance: int, trustSet: bool)

  /** Rows are never deleted, so a row's position is its id; wallets are keyed by their unique user. */
  datatype Tables = Tables(requests: seq<CashOut>, transfers: seq<Transfer>, wallets: map<nat, Wallet>)

  function SetRequest(db: Tables, r: nat, q: CashOut): Tables
    requires r < |db.requests|
  {
    db.(requests := db.requests[r := q])
  }

  function SetTransfer(db: Tables, t: nat, x: Transfer): Tables
    requires t < |db.transfers|
  {
    db.(transfers := db.transfers[t := x])
  }

  /** No row but request `r`, and no wallet, differs. */
  predicate OnlyRequestDiffers(a: Tables, b: Tables, r: nat) {
    && r < |a.requests| == |b.requests| && b.transfers == a.transfers && b.wallets == a.wallets
    && forall k :: 0 <= k < |a.requests| && k != r ==> b.requests[k] == a.requests[k]
  }

  /** No row but transaction `t`, and no wallet, differs. */
  predicate OnlyTransferDiffers(a: Tables, b: Tables, t: nat) {
    && t < |a.transfers| == |b.transfers| && b.requests == a.requests && b.wallets == a.wallets
    && forall k :: 0 <= k < |a.transfers| && k != t ==> b.transfers[k] == a.transfers[k]
  }

  /** Adds to a wallet's cached balance; a missing wallet row is left alone. */
  function AddBalance(db: Tables, user: nat, amount: int): (after: Tables)
    ensures after.wallets.Keys == db.wallets.Keys
  {
    if user !in db.wallets then db
    else
      var w := db.wallets[user];
      db.(wallets := db.wallets[user := w.(balance := w.balance + amount)])
  }

  /** The delay before the next attempt, after `attempts` of them. */
  function RetryDelay(attempts: nat): nat {
    var k := if attempts < 1 then 0 else attempts - 1;
    RETRY_DELAYS[if k < |RETRY_DELAYS| - 1 then k else |RETRY_DELAYS| - 1]
  }

  // ---------------------------------------------------------------- cash-out desk

  function HeldBy(u: nat): CashOut -> int {
    (q: CashOut) => if q.user == u && q.status.Requested? then q.terms.uctusd else 0
  }

  function HeldForRequests(db: Tables, user: nat): int { Sum(db.requests, HeldBy(user)) }

  predicate PricingMatches(p: Pricing, accepted: Option<Pricing>) {
    accepted.None?
    || (p.marketRate == accepted.value.marketRate && p.feeUsd == accepted.value.feeUsd
       && p.netPayout == accepted.value.netPayout)
  }

  /** None is a refusal. */
  function CreateRequest(db: Tables, c: FeeConfig, user: nat, amount: int, currency: Currency,
      accepted: Option<Pricing>): Option<Tables> {
    if user !in db.wallets then None
    else if db.wallets[user].balance - HeldForRequests(db, user) < amount then None
    else
      var p := PriceCashout(c, amount, currency);
      if p.None? || !PricingMatches(p.value, accepted) then None
      else
        var q := CashOut(user, p.value, Requested, None, None, None, None, None, 0, false, None);
        Some(db.(requests := db.requests + [q]))
  }

  datatype ApproveOutcome = WalletMissing | ShortBalance | AlreadyActioned | Reserved

  function ApproveOutcomeOf(db: Tables, r: nat): ApproveOutcome
    requires r < |db.requests|
  {
    var q := db.requests[r];
    if q.user !in db.wallets then WalletMissing
    else if db.wallets[q.user].balance < q.terms.uctusd then ShortBalance
    else if !q.status.Requested? then AlreadyActioned
    else ApproveOutcome.Reserved
  }

  function Approve(db: Tables, r: nat, now: nat): Tables
    requires r < |db.requests|
  {
    if !ApproveOutcomeOf(db, r).Reserved? then db
    else
      var q := db.requests[r];
      AddBalance(SetRequest(db, r, q.(status := Approved, approvedAt := Some(now))), q.user, -q.terms.uctusd)
  }

  function Reject(db: Tables, r: nat, now: nat): Tables
    requires r < |db.requests|
  {
    var q := db.requests[r];
    if q.status.Requested? then SetRequest(db, r, q.(status := Failed, approvedAt := Some(now))) else db
  }

  /** The rows the sweep selects. */
  predicate Sweepable(q: CashOut, now: nat) {
    && q.status.Approved? && q.hash.None?
    && (if q.startedAt.None? then q.approvedAt.Some? && q.approvedAt.value + PUBLISH_GRACE < now
        else q.startedAt.value + STUCK_AFTER < now)
  }

  // ---------------------------------------------------------------- burn worker

  predicate BurnClaimable(q: CashOut, now: nat) {
    q.status.Approved? && q.hash.None? && (q.startedAt.None? || q.startedAt.value + STUCK_AFTER < now)
  }

  function ClaimBurn(db: Tables, r: nat, now: nat): Tables
    requires r < |db.requests|
  {
    var q := db.requests[r];
    if BurnClaimable(q, now) then SetRequest(db, r, q.(startedAt := Some(now), attempts := q.attempts + 1)) else db
  }

  /** Unconditional: only the owner of the claim may run it. */
  function ReleaseClaim(db: Tables, r: nat): Tables
    requires r < |db.requests|
  {
    SetRequest(db, r, db.requests[r].(startedAt := None))
  }

  /** Hash and ledger range in one commit; unconditional. */
  function RememberBurn(db: Tables, r: nat, hash: nat, last: Option<nat>, submitted: nat): Tables
    requires r < |db.requests|
  {
    SetRequest(db, r, db.requests[r].(hash := Some(hash), last := last, submitted := Some(submitted)))
  }

  function CompleteBurn(db: Tables, r: nat, hash: nat, now: nat): Tables
    requires r < |db.requests|
  {
    var q := db.requests[r];
    if q.status.Approved? then
      SetRequest(db, r, q.(status := CashOutStatus.Completed, hash := Some(hash), held := false, paidAt := Some(now)))
    else db
  }

  datatype RestoreOutcome = Restored | LeftAlone | RolledBack

  function RestoreOutcomeOf(db: Tables, r: nat): RestoreOutcome
    requires r < |db.requests|
  {
    var q := db.requests[r];
    if !q.status.Approved? then LeftAlone else if q.user !in db.wallets then RolledBack else Restored
  }

  /** The restore lives inside the conditional transition; a missing wallet row raises and rolls both back. */
  function FailAndRestore(db: Tables, r: nat, hash: Option<nat>): Tables
    requires r < |db.requests|
  {
    var q := db.requests[r];
    if RestoreOutcomeOf(db, r).Restored? then
      AddBalance(SetRequest(db, r, q.(status := Failed, held := false, hash := if hash.Some? then hash else q.hash)),
                 q.user, q.terms.uctusd)
    else db
  }

  function HoldUnknown(db: Tables, r: nat): Tables
    requires r < |db.requests|
  {
    var q := db.requests[r];
    if q.status.Approved? then SetRequest(db, r, q.(held := true)) else db
  }

  /** `attempts` is the count the worker read when it claimed the row. */
  function RetryOrFailBurn(db: Tables, r: nat, attempts: nat): Tables
    requires r < |db.requests|
  {
    if MAX_ATTEMPTS <= attempts then FailAndRestore(db, r, None) else ReleaseClaim(db, r)
  }

  // ---------------------------------------------------------------- settlement worker

  predicate PayClaimable(x: Transfer) {
    x.status.Queued? && x.send.cashin.Received? && x.hash.None?
  }

  function ClaimPay(db: Tables, t: nat, now: nat): Tables
    requires t < |db.transfers|
  {
    var x := db.transfers[t];
    if PayClaimable(x) then
      SetTransfer(db, t, x.(status := Processing, attempts := x.attempts + 1, updatedAt := now))
    else db
  }

  function RememberPay(db: Tables, t: nat, hash: nat, last: Option<nat>, submitted: nat, now: nat): Tables
    requires t < |db.transfers|
  {
    SetTransfer(db, t, db.transfers[t].(hash := Some(hash), last := last, submitted := Some(submitted),
        updatedAt := now))
  }

  /** Completion and credit in one commit. */
  function CompleteSettlement(db: Tables, t: nat, hash: nat, now: nat, from: SettlementStatus): Tables
    requires t < |db.transfers|
  {
    var x := db.transfers[t];
    if x.status == from then
      AddBalance(SetTransfer(db, t, x.(status := Settled, hash := Some(hash), updatedAt := now)),
                 x.recipient, x.quote.uctusd)
    else db
  }

  function FailSettlement(db: Tables, t: nat, hash: Option<nat>, now: nat, from: SettlementStatus): Tables
    requires t < |db.transfers|
  {
    var x := db.transfers[t];
    if x.status == from then
      SetTransfer(db, t, x.(status := Unsettled, hash := if hash.Some? then hash else x.hash, updatedAt := now))
    else db
  }

  function RetryOrFailPay(db: Tables, t: nat, attempts: nat, now: nat): Tables
    requires t < |db.transfers|
  {
    if MAX_ATTEMPTS <= attempts then FailSettlement(db, t, None, now, Processing)
    else if db.transfers[t].status.Processing? then
      SetTransfer(db, t, db.transfers[t].(status := Queued, updatedAt := now))
    else db
  }

  // ---------------------------------------------------------------- cash-in desk and retry

  /** None is a refusal. `dayAt` and `monthAt` are when the two limit windows were computed. */
  function CreateRemittance(db: Tables, c: FeeConfig, tier: Option<Tier>, calendar: Calendar,
                            sender: nat, recipient: nat,
                            zarMicro: int, currency: Currency, accepted: (int, int, int),
                            dayAt: nat, monthAt: nat, declined: bool, now: nat): Option<Tables>
    requires ValidConfig(c)
  {
    var q := QuoteFor(c, zarMicro, currency);
    if q.None? || (q.value.exchangeRate, q.value.transactionFee, q.value.uctusd) != accepted then None
    else if !CheckLimit(Sends(db), sender, q.value.zarAmount, tier, calendar, dayAt, monthAt).allowed then None
    else
      var send := Send(sender, q.value.zarAmount, now, if declined then Declined else Pending);
      var row := Transfer(send, recipient, q.value, now, NotQueued, None, None, None, 0, []);
      Some(db.(transfers := db.transfers + [row]))
  }

  function Sends(db: Tables): seq<Send> {
    seq(|db.transfers|, i requires 0 <= i < |db.transfers| => db.transfers[i].send)
  }

  function MarkReceived(db: Tables, t: nat, now: nat): Tables
    requires t < |db.transfers|
  {
    var x := db.transfers[t];
    if x.send.cashin.Pending? then
      SetTransfer(db, t, x.(send := x.send.(cashin := Received), status := Queued, updatedAt := now))
    else db
  }

  function MarkCashinFailed(db: Tables, t: nat, now: nat): Tables
    requires t < |db.transfers|
  {
    var x := db.transfers[t];
    if x.send.cashin.Pending? then SetTransfer(db, t, x.(send := x.send.(cashin := Declined), updatedAt := now)) else db
  }

  predicate Stale(x: Transfer, now: nat) { x.send.cashin.Pending? && x.send.createdAt + CASHIN_EXPIRY < now }

  function Expired(x: Transfer, now: nat): Transfer {
    if Stale(x, now) then x.(send := x.send.(cashin := Declined), updatedAt := now) else x
  }

  /** One statement over the whole table. */
  function ExpireStale(db: Tables, now: nat): Tables {
    db.(transfers := seq(|db.transfers|, i requires 0 <= i < |db.transfers| => Expired(db.transfers[i], now)))
  }

  predicate Stuck(x: Transfer, now: nat) { x.status.Processing? && x.updatedAt + STUCK_AFTER <= now }

  predicate Retryable(x: Transfer, now: nat) {
    (x.status.Unsettled? || Stuck(x, now)) && x.send.cashin.Received?
  }

  function ArchivedAttempts(x: Transfer): seq<Attempt> {
    if x.hash.None? then x.history else x.history + [Attempt(x.hash.value, x.last, x.submitted, x.attempts)]
  }

  /** The guarded re-send: nothing changes unless the row is still as `seen`. */
  function Resend(db: Tables, t: nat, seen: Transfer, now: nat): Tables
    requires t < |db.transfers|
  {
    var x := db.transfers[t];
    if x.status == seen.status && x.updatedAt == seen.updatedAt then
      SetTransfer(db, t, x.(status := Queued, attempts := 0, hash := None, last := None, submitted := None,
                            history := ArchivedAttempts(seen), updatedAt := now))
    else db
  }
}
