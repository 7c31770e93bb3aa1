/**
 The protocol: web requests, burn and settlement workers, admins, the clock and the
 ledger, interleaved one database commit or one ledger event at a time.

 The environment assumptions are guards of the actions that the environment controls:
   E1 every commit reads the current rows;
   E2, E3 the clock does not pass a live job's or an approving request's deadline (Tick, Timely);
   E4 ledger inclusion obeys Includable, and a successful burn is funded (Include);
   E5 a lookup and its view describe one validated state (ReconcileLook, RetryLook, Honest);
   E6 hash and range are persisted in one step or not at all (PayPersist, BurnPersist);
   E7 two writes of one transaction row carry different times (Fresh).
 Messages of the settlement queue are not represented: a delivery may happen at any time,
 any number of times, or never. For burns, `published` holds the requests for which a
 message was ever enqueued; each may likewise be delivered at any later time.
*/
module Machine {
  import opened Wrappers
  import opened Fx
  import opened Limits
  import opened Outcomes
  import opened Xrpl
  import opened Rows

  datatype Params = Params(tier: Option<Tier>, calendar: Calendar)

  /** Where a worker is: nothing signed, hash persisted, or submitted. */
  datatype Phase = Claimed | Persisted(hash: nat) | Sent(hash: nat)
  datatype Job = Job(row: nat, claimedAt: nat, attempts: nat, phase: Phase)

  /** An admin between reading a row, looking at the ledger, and committing. */
  datatype Admin =
    | BurnSeen(request: nat, seenRequest: CashOut)
    | BurnJudged(request: nat, hash: nat, landed: bool)
    | PaySeen(transfer: nat, seen: Transfer)
    | PayLanded(transfer: nat, hash: nat, from: SettlementStatus)
    | PayDead(transfer: nat, seen: Transfer)

  datatype State = State(
    now: nat, db: Tables, ledger: Ledger,
    publishing: set<nat>, published: set<nat>,
    burners: map<nat, Job>, settlers: map<nat, Job>, admins: map<nat, Admin>,
    deaths: multiset<nat>)       // burn workers that died, by request

  const INIT := State(0, Tables([], [], map[]), Ledger(0, [], map[]), {}, {}, map[], map[], map[], multiset{})

  datatype WorldEvent =
    | Tick(dt: nat)
    | CloseLedger
    | Include(hash: nat, code: string)

  datatype CashInEvent =
    | Book(sender: nat, recipient: nat, zarMicro: int, currency: Currency, config: FeeConfig,
        accepted: (int, int, int), dayAt: nat, monthAt: nat, declined: bool)
    | Receive(t: nat)
    | Decline(t: nat)
    | ExpireCashins
    | PublishRaises(t: nat)

  datatype SettleEvent =
    | PayClaim(t: nat)
    | Provision(trust: bool)
    | PayRefuse
    | PayTransient
    | PayPersist(submitted: nat, last: Option<nat>, malformed: bool)
    | PaySend
    | PayResult(result: Resolution)
    | PayCrash

  datatype CashOutEvent =
    | Request(user: nat, amount: int, currency: Currency, config: FeeConfig, shown: Option<Pricing>)
    | Approve(r: nat)
    | Reject(r: nat)
    | PublishOk(r: nat)
    | PublishFails(r: nat)
    | PublishDies(r: nat)
    | Sweep(r: nat)

  datatype BurnEvent =
    | BurnClaim(r: nat)
    | BurnRefuse
    | BurnTransient
    | BurnPersist(submitted: nat, last: Option<nat>, malformed: bool)
    | BurnSend
    | BurnResult(result: Resolution)
    | BurnCrash

  datatype AdminEvent =
    | ReconcileRead(r: nat)
    | ReconcileLook(view: View, answer: Option<string>)
    | ReconcileCommit
    | RetryRead(t: nat)
    | RetryLook(view: View, answer: Option<string>)
    | RetryCommit
    | Leave

  /** One atomic step; `j` names a job or an admin's page. */
  datatype Action =
    | World(w: WorldEvent)
    | CashInDesk(c: CashInEvent)
    | Settler(j: nat, p: SettleEvent)
    | CashOutDesk(d: CashOutEvent)
    | Burner(j: nat, b: BurnEvent)
    | Administrator(j: nat, m: AdminEvent)

  // ---------------------------------------------------------------- guards

  /** E2 and E3. */
  predicate Timely(s: State) {
    && (forall j :: j in s.burners ==> s.now < s.burners[j].claimedAt + STUCK_AFTER)
    && (forall j :: j in s.settlers ==> s.now < s.settlers[j].claimedAt + STUCK_AFTER)
    && (forall r :: r in s.publishing ==> PublishingInGrace(s, r))
  }

  predicate PublishingInGrace(s: State, r: nat) {
    r < |s.db.requests| && s.db.requests[r].approvedAt.Some?
        && s.now <= s.db.requests[r].approvedAt.value + PUBLISH_GRACE
  }

  /** E7. */
  predicate Fresh(s: State, t: nat) { t < |s.db.transfers| && s.db.transfers[t].updatedAt < s.now }

  predicate BurnerAt(s: State, j: nat) { j in s.burners && s.burners[j].row < |s.db.requests| }
  predicate SettlerAt(s: State, j: nat) { j in s.settlers && s.settlers[j].row < |s.db.transfers| }
  predicate Signed(phase: Phase, l: Ledger) { !phase.Claimed? && phase.hash < |l.txs| }

  /** What a worker may be told about the transaction it sent. */
  predicate Reported(phase: Phase, l: Ledger, result: Resolution)
    requires Signed(phase, l)
  {
    match result
    case Succeeded => Success(l.txs[phase.hash])
    case Failed => phase.Sent?
        && (Rejected(l.txs[phase.hash]) || (l.txs[phase.hash].fate.Open? && l.txs[phase.hash].malformed))
    case Unknown => true
    case NotSubmitted => false
  }

  predicate WorldEnabled(s: State, w: WorldEvent) {
    match w
    case Tick(dt) => Timely(s.(now := s.now + dt))
    case CloseLedger => true
    case Include(h, code) =>
      && h < |s.ledger.txs| && Includable(s.ledger.txs[h], s.ledger.index)
      && (code == SUCCESS ==>
           var x := s.ledger.txs[h];
           x.account in s.ledger.balances && (x.purpose.Burn? ==> x.amount <= s.ledger.balances[x.account]))
  }

  predicate CashInEnabled(p: Params, s: State, c: CashInEvent) {
    match c
    case Book(sender, recipient, zar, currency, config, accepted, dayAt, monthAt, declined) =>
      && ValidConfig(config) && dayAt <= s.now && monthAt <= s.now
      && CreateRemittance(s.db, config, p.tier, p.calendar, sender, recipient, zar, currency, accepted, dayAt, monthAt,
         declined, s.now).Some?
    case Receive(t) => Fresh(s, t) && s.db.transfers[t].send.cashin.Pending?
    case Decline(t) => Fresh(s, t) && s.db.transfers[t].send.cashin.Pending?
    case ExpireCashins => forall t :: 0 <= t < |s.db.transfers| && Stale(s.db.transfers[t], s.now) ==> Fresh(s, t)
    case PublishRaises(t) => Fresh(s, t)
  }

  /** A refusal before signing (bad amount, unknown recipient) is allowed at any time, and so is a transient failure. */
  predicate SettleEnabled(s: State, j: nat, e: SettleEvent) {
    if e.PayClaim? then j !in s.settlers && Fresh(s, e.t) && PayClaimable(s.db.transfers[e.t])
    else
      && SettlerAt(s, j)
      && var job := s.settlers[j];
         var x := s.db.transfers[job.row];
         match e
         case PayClaim(_) => false
         case Provision(_) => job.phase.Claimed?
         case PayRefuse => job.phase.Claimed? && Fresh(s, job.row)
         case PayTransient => job.phase.Claimed? && Fresh(s, job.row)
         case PayPersist(submitted, last, malformed) =>
           && job.phase.Claimed? && Fresh(s, job.row) && submitted <= s.ledger.index
           && x.recipient in s.db.wallets && s.db.wallets[x.recipient].trustSet
         case PaySend => job.phase.Persisted? && Signed(job.phase, s.ledger)
         case PayResult(result) => Signed(job.phase, s.ledger) && Fresh(s, job.row)
             && Reported(job.phase, s.ledger, result)
         case PayCrash => true
  }

  predicate CashOutEnabled(s: State, d: CashOutEvent) {
    match d
    case Request(user, amount, currency, config, shown) =>
      ValidConfig(config) && CreateRequest(s.db, config, user, amount, currency, shown).Some?
    case Approve(r) => r < |s.db.requests| && ApproveOutcomeOf(s.db, r).Reserved?
    case Reject(r) => r < |s.db.requests| && s.db.requests[r].status.Requested?
    case PublishOk(r) => r in s.publishing
    case PublishFails(r) => r in s.publishing && r < |s.db.requests|
    case PublishDies(r) => r in s.publishing
    case Sweep(r) => r < |s.db.requests| && Sweepable(s.db.requests[r], s.now)
  }

  predicate BurnEnabled(s: State, j: nat, e: BurnEvent) {
    if e.BurnClaim? then j !in s.burners && e.r in s.published && e.r < |s.db.requests|
        && BurnClaimable(s.db.requests[e.r], s.now)
    else
      && BurnerAt(s, j)
      && var job := s.burners[j];
         match e
         case BurnClaim(_) => false
         case BurnRefuse => job.phase.Claimed?
         case BurnTransient => job.phase.Claimed?
         case BurnPersist(submitted, last, malformed) => job.phase.Claimed? && submitted <= s.ledger.index
         case BurnSend => job.phase.Persisted? && Signed(job.phase, s.ledger)
         case BurnResult(result) => Signed(job.phase, s.ledger) && Reported(job.phase, s.ledger, result)
         case BurnCrash => true
  }

  predicate AdminEnabled(s: State, j: nat, m: AdminEvent) {
    if m.ReconcileRead? then
      j !in s.admins && m.r < |s.db.requests| && s.db.requests[m.r].status.Approved? && s.db.requests[m.r].hash.Some?
    else if m.RetryRead? then
      j !in s.admins && m.t < |s.db.transfers| && Retryable(s.db.transfers[m.t], s.now)
    else
      && j in s.admins
      && var page := s.admins[j];
         match m
         case ReconcileRead(_) => false
         case RetryRead(_) => false
         case ReconcileLook(view, answer) =>
           && page.BurnSeen? && page.seenRequest.hash.Some? && page.seenRequest.hash.value < |s.ledger.txs|
           && Honest(s.ledger.txs[page.seenRequest.hash.value], s.ledger.index, view, answer)
         case ReconcileCommit => page.BurnJudged? && page.request < |s.db.requests|
         case RetryLook(view, answer) =>
           && page.PaySeen?
           && (page.seen.hash.Some? ==>
                page.seen.hash.value < |s.ledger.txs|
                && Honest(s.ledger.txs[page.seen.hash.value], s.ledger.index, view, answer))
         case RetryCommit => (page.PayLanded? || page.PayDead?) && Fresh(s, page.transfer)
         case Leave => true
  }

  predicate Enabled(p: Params, s: State, a: Action) {
    match a
    case World(w) => WorldEnabled(s, w)
    case CashInDesk(c) => CashInEnabled(p, s, c)
    case Settler(j, e) => SettleEnabled(s, j, e)
    case CashOutDesk(d) => CashOutEnabled(s, d)
    case Burner(j, e) => BurnEnabled(s, j, e)
    case Administrator(j, m) => AdminEnabled(s, j, m)
  }

  // ---------------------------------------------------------------- effects

  function Validate(l: Ledger, h: nat, code: string): Ledger
    requires h < |l.txs|
    requires code == SUCCESS ==> l.txs[h].account in l.balances
  {
    var x := l.txs[h];
    var txs := l.txs[h := x.(fate := Included(l.index, code))];
    if code != SUCCESS then l.(txs := txs)
    else
      var change := if x.purpose.Burn? then -x.amount else x.amount;
      l.(txs := txs, balances := l.balances[x.account := l.balances[x.account] + change])
  }

  function Submit(l: Ledger, h: nat): Ledger
    requires h < |l.txs|
  {
    l.(txs := l.txs[h := l.txs[h].(sent := true)])
  }

  function Register(l: Ledger, x: SignedTx): Ledger { l.(txs := l.txs + [x]) }

  function WorldStep(s: State, w: WorldEvent): State
    requires WorldEnabled(s, w)
  {
    match w
    case Tick(dt) => s.(now := s.now + dt)
    case CloseLedger => s.(ledger := s.ledger.(index := s.ledger.index + 1))
    case Include(h, code) => s.(ledger := Validate(s.ledger, h, code))
  }

  function CashInStep(p: Params, s: State, c: CashInEvent): State
    requires CashInEnabled(p, s, c)
  {
    match c
    case Book(sender, recipient, zar, currency, config, accepted, dayAt, monthAt, declined) =>
      s.(db := CreateRemittance(s.db, config, p.tier, p.calendar, sender, recipient, zar, currency, accepted,
          dayAt, monthAt, declined, s.now).value)
    case Receive(t) => s.(db := MarkReceived(s.db, t, s.now))
    case Decline(t) => s.(db := MarkCashinFailed(s.db, t, s.now))
    case ExpireCashins => s.(db := ExpireStale(s.db, s.now))
    case PublishRaises(t) => s.(db := FailSettlement(s.db, t, None, s.now, Queued))
  }

  /** provision_wallet: reuse or create the wallet row, then try its trust line. */
  function AfterProvision(s: State, u: nat, trust: bool): State {
    var w := if u in s.db.wallets then s.db.wallets[u] else Wallet(0, false);
    s.(db := s.db.(wallets := s.db.wallets[u := w.(trustSet := w.trustSet || trust)]),
       ledger := if u in s.ledger.balances then s.ledger else s.ledger.(balances := s.ledger.balances[u := 0]))
  }

  function PayTx(t: nat, x: Transfer, submitted: nat, last: Option<nat>, malformed: bool): SignedTx {
    SignedTx(Purpose.Pay(t), x.recipient, x.quote.uctusd, submitted, last, malformed, false, Open)
  }

  function SettleStep(s: State, j: nat, e: SettleEvent): State
    requires SettleEnabled(s, j, e)
  {
    if e.PayClaim? then
      s.(db := ClaimPay(s.db, e.t, s.now),
          settlers := s.settlers[j := Job(e.t, s.now, s.db.transfers[e.t].attempts + 1, Claimed)])
    else
      var job := s.settlers[j];
      match e
      case PayClaim(_) => s
      case Provision(trust) => AfterProvision(s, s.db.transfers[job.row].recipient, trust)
      case PayRefuse => s.(db := FailSettlement(s.db, job.row, None, s.now, Processing), settlers := s.settlers - {j})
      case PayTransient => s.(db := RetryOrFailPay(s.db, job.row, job.attempts, s.now), settlers := s.settlers - {j})
      case PayPersist(submitted, last, malformed) =>
        var h := |s.ledger.txs|;
        s.(db := RememberPay(s.db, job.row, h, last, submitted, s.now),
           ledger := Register(s.ledger, PayTx(job.row, s.db.transfers[job.row], submitted, last, malformed)),
           settlers := s.settlers[j := job.(phase := Persisted(h))])
      case PaySend =>
        s.(ledger := Submit(s.ledger, job.phase.hash), settlers := s.settlers[j := job.(phase := Sent(job.phase.hash))])
      case PayResult(result) =>
        s.(db := if result.Succeeded? then CompleteSettlement(s.db, job.row, job.phase.hash, s.now, Processing)
                 else FailSettlement(s.db, job.row, Some(job.phase.hash), s.now, Processing),
           settlers := s.settlers - {j})
      case PayCrash => s.(settlers := s.settlers - {j})
  }

  function CashOutStep(s: State, d: CashOutEvent): State
    requires CashOutEnabled(s, d)
  {
    match d
    case Request(user, amount, currency, config, shown) =>
      s.(db := CreateRequest(s.db, config, user, amount, currency, shown).value)
    case Approve(r) => s.(db := Rows.Approve(s.db, r, s.now), publishing := s.publishing + {r})
    case Reject(r) => s.(db := Rows.Reject(s.db, r, s.now))
    case PublishOk(r) => s.(publishing := s.publishing - {r}, published := s.published + {r})
    case PublishFails(r) => s.(db := FailAndRestore(s.db, r, None), publishing := s.publishing - {r})
    case PublishDies(r) => s.(publishing := s.publishing - {r})
    case Sweep(r) => s.(published := s.published + {r})
  }

  function BurnTx(r: nat, q: CashOut, submitted: nat, last: Option<nat>, malformed: bool): SignedTx {
    SignedTx(Purpose.Burn(r), q.user, q.terms.uctusd, submitted, last, malformed, false, Open)
  }

  function BurnStep(s: State, j: nat, e: BurnEvent): State
    requires BurnEnabled(s, j, e)
  {
    if e.BurnClaim? then
      s.(db := ClaimBurn(s.db, e.r, s.now),
          burners := s.burners[j := Job(e.r, s.now, s.db.requests[e.r].attempts + 1, Claimed)])
    else
      var job := s.burners[j];
      match e
      case BurnClaim(_) => s
      case BurnRefuse => s.(db := FailAndRestore(s.db, job.row, None), burners := s.burners - {j})
      case BurnTransient => s.(db := RetryOrFailBurn(s.db, job.row, job.attempts), burners := s.burners - {j})
      case BurnPersist(submitted, last, malformed) =>
        var h := |s.ledger.txs|;
        s.(db := RememberBurn(s.db, job.row, h, last, submitted),
           ledger := Register(s.ledger, BurnTx(job.row, s.db.requests[job.row], submitted, last, malformed)),
           burners := s.burners[j := job.(phase := Persisted(h))])
      case BurnSend =>
        s.(ledger := Submit(s.ledger, job.phase.hash), burners := s.burners[j := job.(phase := Sent(job.phase.hash))])
      case BurnResult(result) =>
        s.(db := if result.Succeeded? then CompleteBurn(s.db, job.row, job.phase.hash, s.now)
                 else if result.Failed? then FailAndRestore(s.db, job.row, Some(job.phase.hash))
                 else HoldUnknown(s.db, job.row),
           burners := s.burners - {j})
      case BurnCrash => s.(burners := s.burners - {j}, deaths := s.deaths + multiset{job.row})
  }

  /** reconcile between its ledger queries and its commit. */
  function AfterReconcileLook(s: State, j: nat, page: Admin, view: View, answer: Option<string>): State
    requires page.BurnSeen? && page.seenRequest.hash.Some?
  {
    var q := page.seenRequest;
    match ReconcileVerdict(q.last, q.submitted, view, answer)
    case Unresolved => s.(admins := s.admins - {j})
    case Moved => s.(admins := s.admins[j := BurnJudged(page.request, q.hash.value, true)])
    case NeverMoved => s.(admins := s.admins[j := BurnJudged(page.request, q.hash.value, false)])
  }

  /** retry_settlement between its ledger queries and its commit. */
  function AfterRetryLook(s: State, j: nat, page: Admin, view: View, answer: Option<string>): State
    requires page.PaySeen?
  {
    var t, x := page.transfer, page.seen;
    if x.hash.Some? && answer == Some(SUCCESS) then s.(admins := s.admins[j := PayLanded(t, x.hash.value, x.status)])
    else if x.hash.Some? && answer.None? && !ProvablyDead(x.last, x.submitted, view) then s.(admins := s.admins - {j})
    else s.(admins := s.admins[j := PayDead(t, x)])
  }

  function AdminStep(s: State, j: nat, m: AdminEvent): State
    requires AdminEnabled(s, j, m)
  {
    if m.ReconcileRead? then s.(admins := s.admins[j := BurnSeen(m.r, s.db.requests[m.r])])
    else if m.RetryRead? then s.(admins := s.admins[j := PaySeen(m.t, s.db.transfers[m.t])])
    else
      var page := s.admins[j];
      match m
      case ReconcileRead(_) => s
      case RetryRead(_) => s
      case ReconcileLook(view, answer) => AfterReconcileLook(s, j, page, view, answer)
      case ReconcileCommit =>
        s.(db := if page.landed then CompleteBurn(s.db, page.request, page.hash, s.now)
                 else FailAndRestore(s.db, page.request, Some(page.hash)),
           admins := s.admins - {j})
      case RetryLook(view, answer) => AfterRetryLook(s, j, page, view, answer)
      case RetryCommit =>
        s.(db := if page.PayLanded? then CompleteSettlement(s.db, page.transfer, page.hash, s.now, page.from)
                 else Resend(s.db, page.transfer, page.seen, s.now),
           admins := s.admins - {j})
      case Leave => s.(admins := s.admins - {j})
  }

  function Step(p: Params, s: State, a: Action): State
    requires Enabled(p, s, a)
  {
    match a
    case World(w) => WorldStep(s, w)
    case CashInDesk(c) => CashInStep(p, s, c)
    case Settler(j, e) => SettleStep(s, j, e)
    case CashOutDesk(d) => CashOutStep(s, d)
    case Burner(j, e) => BurnStep(s, j, e)
    case Administrator(j, m) => AdminStep(s, j, m)
  }

  /** Plays a list of actions; None if one of them is not enabled when its turn comes. */
  function Play(p: Params, s: State, run: seq<Action>): Option<State>
    decreases |run|
  {
    if run == [] then Some(s)
    else if Enabled(p, s, run[0]) then Play(p, Step(p, s, run[0]), run[1..])
    else None
  }
}
