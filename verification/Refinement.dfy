/**
 The protocol behaves like the exactly-once machine of module Money: every step of every
 actor is one of that machine's events or changes nothing it can see.
*/
module Refinement {
  import opened Wrappers
  import opened Sums
  import opened Outcomes
  import opened Xrpl
  import opened Rows
  import opened Machine
  import opened Invariant
  import opened Preservation
  import FxLaws
  import Money

  predicate Landed(hash: Option<nat>, l: Ledger) {
    hash.Some? && hash.value < |l.txs| && Success(l.txs[hash.value])
  }

  function PaymentOf(x: Transfer, l: Ledger): Money.Payment {
    Money.Payment(x.recipient, x.quote.uctusd,
      if x.status.Settled? then Money.Credited else if Landed(x.hash, l) then Money.Paid else Money.Due)
  }

  function RedemptionOf(q: CashOut, l: Ledger): Money.Redemption {
    Money.Redemption(q.user, q.terms.uctusd,
      match q.status
      case Requested => Money.Requested
      case Approved => if Landed(q.hash, l) then Money.Burnt else Money.Reserved
      case Completed => Money.PaidOut
      case Failed => Money.Closed)
  }

  function Payments(transfers: seq<Transfer>, l: Ledger): seq<Money.Payment> {
    seq(|transfers|, i requires 0 <= i < |transfers| => PaymentOf(transfers[i], l))
  }

  function Redemptions(requests: seq<CashOut>, l: Ledger): seq<Money.Redemption> {
    seq(|requests|, i requires 0 <= i < |requests| => RedemptionOf(requests[i], l))
  }

  function Cache(wallets: map<nat, Wallet>): map<nat, int> { map u | u in wallets :: wallets[u].balance }

  /** The books behind a state of the protocol. */
  function BooksOf(s: State): Money.Books {
    Money.Books(Cache(s.db.wallets), s.ledger.balances, Payments(s.db.transfers, s.ledger),
        Redemptions(s.db.requests, s.ledger))
  }

  lemma HeldAgrees(s: State, u: nat)
    ensures Money.Held(BooksOf(s), u) == HeldForRequests(s.db, u)
  {
    SumAgree(s.db.requests, HeldBy(u), BooksOf(s).redemptions, Money.HeldBy(u));
  }

  // What the books see of a step; None is a stutter.

  function WorldEventOf(s: State, w: WorldEvent): Option<Money.Event>
    requires WorldEnabled(s, w)
  {
    if !w.Include? || w.code != SUCCESS then None
    else
      match s.ledger.txs[w.hash].purpose
      case Burn(r) => Some(Money.Burn(r))
      case Pay(i) => Some(Money.Pay(i))
  }

  function CashInEventOf(p: Params, s: State, c: CashInEvent): Option<Money.Event>
    requires CashInEnabled(p, s, c)
  {
    if c.Book? then
      var t := CashInStep(p, s, c).db.transfers[|s.db.transfers|];
      Some(Money.Book(t.recipient, t.quote.uctusd))
    else None
  }

  function SettleEventOf(s: State, j: nat, e: SettleEvent): Option<Money.Event>
    requires SettleEnabled(s, j, e)
  {
    match e
    case Provision(_) =>
      var u := s.db.transfers[s.settlers[j].row].recipient;
      if u in s.db.wallets then None else Some(Money.OpenWallet(u))
    case PayResult(result) =>
      var t := s.settlers[j].row;
      if result.Succeeded? && s.db.transfers[t].status.Processing? then Some(Money.Credit(t)) else None
    case _ => None
  }

  function CashOutEventOf(s: State, d: CashOutEvent): Option<Money.Event>
    requires CashOutEnabled(s, d)
  {
    match d
    case Request(user, amount, _, _, _) => Some(Money.Request(user, amount))
    case Approve(r) => Some(Money.Approve(r))
    case Reject(r) => Some(Money.Withdraw(r))
    case PublishFails(r) => Some(Money.Restore(r))
    case _ => None
  }

  /** The event of finalising request `r`; one that is already final does not move again. */
  function FinalEvent(s: State, r: nat, landed: bool): Option<Money.Event>
    requires r < |s.db.requests|
  {
    if !s.db.requests[r].status.Approved? then None else Some(if landed then Money.PayOut(r) else Money.Restore(r))
  }

  function BurnEventOf(s: State, j: nat, e: BurnEvent): Option<Money.Event>
    requires BurnEnabled(s, j, e)
  {
    match e
    case BurnRefuse => Some(Money.Restore(s.burners[j].row))
    case BurnTransient => if MAX_ATTEMPTS <= s.burners[j].attempts then Some(Money.Restore(s.burners[j].row)) else None
    case BurnResult(result) => if result.Unknown? then None else FinalEvent(s, s.burners[j].row, result.Succeeded?)
    case _ => None
  }

  function AdminEventOf(s: State, j: nat, m: AdminEvent): Option<Money.Event>
    requires AdminEnabled(s, j, m)
  {
    match m
    case ReconcileCommit => FinalEvent(s, s.admins[j].request, s.admins[j].landed)
    case RetryCommit =>
      var page := s.admins[j];
      if page.PayLanded? && s.db.transfers[page.transfer].status == page.from then Some(Money.Credit(page.transfer))
          else None
    case _ => None
  }

  function EventOf(p: Params, s: State, a: Action): Option<Money.Event>
    requires Enabled(p, s, a)
  {
    match a
    case World(w) => WorldEventOf(s, w)
    case CashInDesk(c) => CashInEventOf(p, s, c)
    case Settler(j, e) => SettleEventOf(s, j, e)
    case CashOutDesk(d) => CashOutEventOf(s, d)
    case Burner(j, e) => BurnEventOf(s, j, e)
    case Administrator(j, m) => AdminEventOf(s, j, m)
  }

  ghost predicate Simulates(s: State, e: Option<Money.Event>, s': State) {
    match e
    case None => BooksOf(s') == BooksOf(s)
    case Some(event) => Money.Enabled(BooksOf(s), event) && BooksOf(s') == Money.Apply(BooksOf(s), event)
  }

  // ---------------------------------------------------------------- frames

  /** The ledger moved, but no recorded hash changed between landed and not landed. */
  ghost predicate SameLandings(s: State, l: Ledger) {
    && (forall t :: 0 <= t < |s.db.transfers| ==>
       Landed(s.db.transfers[t].hash, l) == Landed(s.db.transfers[t].hash, s.ledger))
    && (forall r :: 0 <= r < |s.db.requests| ==>
       Landed(s.db.requests[r].hash, l) == Landed(s.db.requests[r].hash, s.ledger))
  }

  lemma BooksUnmoved(s: State, s': State)
    requires SameLandings(s, s'.ledger) && s'.ledger.balances == s.ledger.balances
    requires Cache(s'.db.wallets) == Cache(s.db.wallets)
    requires |s'.db.transfers| == |s.db.transfers| && |s'.db.requests| == |s.db.requests|
    requires forall t :: 0 <= t < |s.db.transfers| ==>
             PaymentOf(s'.db.transfers[t], s'.ledger) == PaymentOf(s.db.transfers[t], s'.ledger)
    requires forall r :: 0 <= r < |s.db.requests| ==>
             RedemptionOf(s'.db.requests[r], s'.ledger) == RedemptionOf(s.db.requests[r], s'.ledger)
    ensures BooksOf(s') == BooksOf(s)
  {
  }

  /** One payment moved, and possibly one wallet with it. */
  lemma OnePayment(s: State, s': State, t: nat)
    requires t < |s.db.transfers| == |s'.db.transfers| && s'.db.transfers == s.db.transfers[t := s'.db.transfers[t]]
    requires s'.ledger == s.ledger && s'.db.requests == s.db.requests
    ensures BooksOf(s').payments == BooksOf(s).payments[t := PaymentOf(s'.db.transfers[t], s.ledger)]
    ensures BooksOf(s').redemptions == BooksOf(s).redemptions
    ensures BooksOf(s').ledger == BooksOf(s).ledger
  {
  }

  lemma OneRedemption(s: State, s': State, r: nat)
    requires r < |s.db.requests| == |s'.db.requests| && s'.db.requests == s.db.requests[r := s'.db.requests[r]]
    requires s'.ledger == s.ledger && s'.db.transfers == s.db.transfers
    ensures BooksOf(s').redemptions == BooksOf(s).redemptions[r := RedemptionOf(s'.db.requests[r], s.ledger)]
    ensures BooksOf(s').payments == BooksOf(s).payments
    ensures BooksOf(s').ledger == BooksOf(s).ledger
  {
  }

  lemma CacheAfter(db: Tables, u: nat, amount: int)
    requires u in db.wallets
    ensures Cache(AddBalance(db, u, amount).wallets) == Cache(db.wallets)[u := db.wallets[u].balance + amount]
  {
  }

  // ---------------------------------------------------------------- each actor

  /** A successful inclusion is of the live hash of its row, and that row was still waiting for it. */
  lemma IncludeSimulates(s: State, h: nat, code: string)
    requires Inv(s) && WorldEnabled(s, Include(h, code))
    ensures Simulates(s, WorldEventOf(s, Include(h, code)), WorldStep(s, Include(h, code)))
  {
    var s' := WorldStep(s, Include(h, code));
    var x := s.ledger.txs[h];
    if code != SUCCESS {
      BooksUnmoved(s, s');
    } else {
      match x.purpose
      case Pay(t) => PaymentIncluded(s, h, t);
      case Burn(r) => BurnIncluded(s, h, r);
    }
  }

  lemma PaymentIncluded(s: State, h: nat, t: nat)
    requires Inv(s) && WorldEnabled(s, Include(h, SUCCESS)) && s.ledger.txs[h].purpose == Purpose.Pay(t)
    ensures Simulates(s, Some(Money.Pay(t)), WorldStep(s, Include(h, SUCCESS)))
  {
    var s' := WorldStep(s, Include(h, SUCCESS));
    assert PayTxOk(s.db.transfers, t, h);
    if s.db.transfers[t].hash != Some(h) { ArchivedIsDead(s, t, h); }
    assert TransferOk(t, s.db.transfers[t], s.db.wallets, s.ledger, s.now);
    forall k | 0 <= k < |s.db.transfers| && k != t
      ensures PaymentOf(s'.db.transfers[k], s'.ledger) == PaymentOf(s.db.transfers[k], s.ledger)
    {
      assert TransferOk(k, s.db.transfers[k], s.db.wallets, s.ledger, s.now);
    }
    forall r | 0 <= r < |s.db.requests|
      ensures RedemptionOf(s'.db.requests[r], s'.ledger) == RedemptionOf(s.db.requests[r], s.ledger)
    {
      assert RequestOk(r, s.db.requests[r], s.db.wallets, s.ledger);
    }
    assert BooksOf(s').payments == Money.Apply(BooksOf(s), Money.Pay(t)).payments;
    assert BooksOf(s').redemptions == BooksOf(s).redemptions;
  }

  lemma BurnLeavesPayments(s: State, h: nat, r: nat)
    requires Inv(s) && WorldEnabled(s, Include(h, SUCCESS)) && s.ledger.txs[h].purpose == Purpose.Burn(r)
    ensures BooksOf(WorldStep(s, Include(h, SUCCESS))).payments == BooksOf(s).payments
  {
    var s' := WorldStep(s, Include(h, SUCCESS));
    forall k | 0 <= k < |s.db.transfers|
      ensures PaymentOf(s'.db.transfers[k], s'.ledger) == PaymentOf(s.db.transfers[k], s.ledger)
    {
      assert TransferOk(k, s.db.transfers[k], s.db.wallets, s.ledger, s.now);
    }
  }

  lemma BurnMovesOneRedemption(s: State, h: nat, r: nat)
    requires Inv(s) && WorldEnabled(s, Include(h, SUCCESS)) && s.ledger.txs[h].purpose == Purpose.Burn(r)
    requires r < |s.db.requests| && s.db.requests[r].hash == Some(h)
    ensures var s' := WorldStep(s, Include(h, SUCCESS));
            BooksOf(s').redemptions == BooksOf(s).redemptions[r := RedemptionOf(s'.db.requests[r], s'.ledger)]
  {
    var s' := WorldStep(s, Include(h, SUCCESS));
    forall k | 0 <= k < |s.db.requests| && k != r
      ensures RedemptionOf(s'.db.requests[k], s'.ledger) == RedemptionOf(s.db.requests[k], s.ledger)
    {
      assert RequestOk(k, s.db.requests[k], s.db.wallets, s.ledger);
    }
  }

  lemma BurnIncluded(s: State, h: nat, r: nat)
    requires Inv(s) && WorldEnabled(s, Include(h, SUCCESS)) && s.ledger.txs[h].purpose == Purpose.Burn(r)
    ensures Simulates(s, Some(Money.Burn(r)), WorldStep(s, Include(h, SUCCESS)))
  {
    assert s.db.requests[r].hash == Some(h);
    assert RequestOk(r, s.db.requests[r], s.db.wallets, s.ledger);
    BurnLeavesPayments(s, h, r);
    BurnMovesOneRedemption(s, h, r);
  }

  lemma WorldSimulates(s: State, w: WorldEvent)
    requires Inv(s) && WorldEnabled(s, w)
    ensures Simulates(s, WorldEventOf(s, w), WorldStep(s, w))
  {
    if w.Include? { IncludeSimulates(s, w.hash, w.code); } else { BooksUnmoved(s, WorldStep(s, w)); }
  }

  lemma BookSimulates(p: Params, s: State, c: CashInEvent)
    requires CashInEnabled(p, s, c) && c.Book?
    ensures Simulates(s, CashInEventOf(p, s, c), CashInStep(p, s, c))
  {
    FxLaws.QuoteAccountsForTheSend(c.config, c.zarMicro, c.currency);
    assert BooksOf(CashInStep(p, s, c)).payments == Money.Apply(BooksOf(s), CashInEventOf(p, s, c).value).payments;
  }

  lemma DecisionSimulates(p: Params, s: State, c: CashInEvent)
    requires Inv(s) && CashInEnabled(p, s, c) && (c.Receive? || c.Decline? || c.PublishRaises?)
    ensures BooksOf(CashInStep(p, s, c)) == BooksOf(s)
  {
    assert TransferOk(c.t, s.db.transfers[c.t], s.db.wallets, s.ledger, s.now);
    PayUnmoved(s, CashInStep(p, s, c), c.t);
  }

  lemma ExpirySimulates(s: State)
    ensures BooksOf(s.(db := ExpireStale(s.db, s.now))) == BooksOf(s)
  {
    BooksUnmoved(s, s.(db := ExpireStale(s.db, s.now)));
  }

  lemma CashInSimulates(p: Params, s: State, c: CashInEvent)
    requires Inv(s) && CashInEnabled(p, s, c)
    ensures Simulates(s, CashInEventOf(p, s, c), CashInStep(p, s, c))
  {
    if c.Book? { BookSimulates(p, s, c); }
    else if c.ExpireCashins? { ExpirySimulates(s); }
    else { DecisionSimulates(p, s, c); }
  }

  lemma CreditSimulates(s: State, s': State, t: nat, h: nat, from: SettlementStatus)
    requires Inv(s) && h < |s.ledger.txs| && s.ledger.txs[h].purpose == Purpose.Pay(t) && Success(s.ledger.txs[h])
    requires t < |s.db.transfers| && s.db.transfers[t].status == from && (from.Unsettled? || from.Processing?)
    requires s'.db == CompleteSettlement(s.db, t, h, s.now, from) && s'.ledger == s.ledger
    ensures Simulates(s, Some(Money.Credit(t)), s')
  {
    LandedIsLive(s, t, h);
    var x := s.db.transfers[t];
    assert TransferOk(t, x, s.db.wallets, s.ledger, s.now);
    OnePayment(s, s', t);
    CacheAfter(SetTransfer(s.db, t, s'.db.transfers[t]), x.recipient, x.quote.uctusd);
  }

  lemma PayResultSimulates(s: State, j: nat, result: Resolution)
    requires Inv(s) && SettleEnabled(s, j, PayResult(result))
    ensures Simulates(s, SettleEventOf(s, j, PayResult(result)), SettleStep(s, j, PayResult(result)))
  {
    var s' := SettleStep(s, j, PayResult(result));
    var job := s.settlers[j];
    assert PayJobOk(job, s.db.transfers, s.ledger);
    assert TransferOk(job.row, s.db.transfers[job.row], s.db.wallets, s.ledger, s.now);
    if result.Succeeded? && s.db.transfers[job.row].status.Processing? {
      CreditSimulates(s, s', job.row, job.phase.hash, Processing);
    } else {
      PayUnmoved(s, s', job.row);
    }
  }

  /** A row that stays unsettled, under the same hash, shows nothing. */
  lemma PayUnmoved(s: State, s': State, t: nat)
    requires t < |s.db.transfers| && s'.ledger == s.ledger && s'.db.requests == s.db.requests
             && s'.db.wallets == s.db.wallets
    requires |s'.db.transfers| == |s.db.transfers| && s'.db.transfers == s.db.transfers[t := s'.db.transfers[t]]
    requires PaymentOf(s'.db.transfers[t], s.ledger) == PaymentOf(s.db.transfers[t], s.ledger)
    ensures BooksOf(s') == BooksOf(s)
  {
    OnePayment(s, s', t);
  }

  lemma PayGivesUpSimulates(s: State, j: nat, e: SettleEvent)
    requires Inv(s) && SettleEnabled(s, j, e) && (e.PayRefuse? || e.PayTransient?)
    ensures BooksOf(SettleStep(s, j, e)) == BooksOf(s)
  {
    var job := s.settlers[j];
    assert PayJobOk(job, s.db.transfers, s.ledger);
    PayUnmoved(s, SettleStep(s, j, e), job.row);
  }

  lemma PayPersistSimulates(s: State, j: nat, e: SettleEvent)
    requires Inv(s) && SettleEnabled(s, j, e) && e.PayPersist?
    ensures BooksOf(SettleStep(s, j, e)) == BooksOf(s)
  {
    assert PayJobOk(s.settlers[j], s.db.transfers, s.ledger);
    PersistSimulates(s, SettleStep(s, j, e));
  }

  lemma PayClaimSimulates(s: State, j: nat, t: nat)
    requires SettleEnabled(s, j, PayClaim(t))
    ensures BooksOf(SettleStep(s, j, PayClaim(t))) == BooksOf(s)
  {
    PayUnmoved(s, SettleStep(s, j, PayClaim(t)), t);
  }

  lemma PaySendSimulates(s: State, j: nat, e: SettleEvent)
    requires SettleEnabled(s, j, e) && (e.PaySend? || e.PayCrash?)
    ensures BooksOf(SettleStep(s, j, e)) == BooksOf(s)
  {
    BooksUnmoved(s, SettleStep(s, j, e));
  }

  lemma SettleSimulates(s: State, j: nat, e: SettleEvent)
    requires Inv(s) && SettleEnabled(s, j, e)
    ensures Simulates(s, SettleEventOf(s, j, e), SettleStep(s, j, e))
  {
    match e
    case PayClaim(t) => PayClaimSimulates(s, j, t);
    case Provision(_) => ProvisionSimulates(s, j, e);
    case PayRefuse => PayGivesUpSimulates(s, j, e);
    case PayTransient => PayGivesUpSimulates(s, j, e);
    case PayPersist(_, _, _) => PayPersistSimulates(s, j, e);
    case PayResult(result) => PayResultSimulates(s, j, result);
    case _ => PaySendSimulates(s, j, e);
  }

  lemma ProvisionSimulates(s: State, j: nat, e: SettleEvent)
    requires Inv(s) && SettleEnabled(s, j, e) && e.Provision?
    ensures Simulates(s, SettleEventOf(s, j, e), SettleStep(s, j, e))
  {
    var u := s.db.transfers[s.settlers[j].row].recipient;
    ProvisionedBooks(s, u, e.trust);
  }

  /** Providing a wallet opens it with nothing in it; providing it again shows nothing. */
  lemma ProvisionedBooks(s: State, u: nat, trust: bool)
    requires s.db.wallets.Keys == s.ledger.balances.Keys
    ensures Simulates(s, if u in s.db.wallets then None else Some(Money.OpenWallet(u)), AfterProvision(s, u, trust))
  {
    var s' := AfterProvision(s, u, trust);
    assert BooksOf(s').payments == BooksOf(s).payments && BooksOf(s').redemptions == BooksOf(s).redemptions;
    assert u in s.db.wallets ==> Cache(s'.db.wallets) == Cache(s.db.wallets) && s'.ledger.balances == s.ledger.balances;
    assert u !in s.db.wallets ==> Cache(s'.db.wallets) == Cache(s.db.wallets)[u := 0];
  }

  /** Signing and persisting shows nothing yet: the new transaction is in no ledger. */
  lemma PersistSimulates(s: State, s': State)
    requires Inv(s) && |s'.ledger.txs| == |s.ledger.txs| + 1 && s'.ledger.txs[..|s.ledger.txs|] == s.ledger.txs
    requires s'.ledger.balances == s.ledger.balances && s'.ledger.txs[|s.ledger.txs|].fate.Open?
    requires s'.db.wallets == s.db.wallets
    requires |s'.db.transfers| == |s.db.transfers| && |s'.db.requests| == |s.db.requests|
    requires forall t :: 0 <= t < |s.db.transfers| ==>
      s'.db.transfers[t] == s.db.transfers[t]
      || (SignedNow(s.db.transfers[t].hash, s'.db.transfers[t].hash, |s.ledger.txs|)
         && s.db.transfers[t].status.Processing?
          && s'.db.transfers[t].status.Processing? && s'.db.transfers[t].recipient == s.db.transfers[t].recipient
          && s'.db.transfers[t].quote == s.db.transfers[t].quote)
    requires forall r :: 0 <= r < |s.db.requests| ==>
      s'.db.requests[r] == s.db.requests[r]
      || (SignedNow(s.db.requests[r].hash, s'.db.requests[r].hash, |s.ledger.txs|) && s.db.requests[r].status.Approved?
          && s'.db.requests[r].status.Approved? && s'.db.requests[r].user == s.db.requests[r].user
          && s'.db.requests[r].terms == s.db.requests[r].terms)
    ensures BooksOf(s') == BooksOf(s)
  {
    forall t | 0 <= t < |s.db.transfers|
      ensures PaymentOf(s'.db.transfers[t], s'.ledger) == PaymentOf(s.db.transfers[t], s.ledger)
    {
      assert TransferOk(t, s.db.transfers[t], s.db.wallets, s.ledger, s.now);
      StillLanded(s.db.transfers[t].hash, s.ledger, s'.ledger);
    }
    forall r | 0 <= r < |s.db.requests|
      ensures RedemptionOf(s'.db.requests[r], s'.ledger) == RedemptionOf(s.db.requests[r], s.ledger)
    {
      assert RequestOk(r, s.db.requests[r], s.db.wallets, s.ledger);
      StillLanded(s.db.requests[r].hash, s.ledger, s'.ledger);
    }
    assert BooksOf(s').payments == BooksOf(s).payments && BooksOf(s').redemptions == BooksOf(s).redemptions;
  }

  predicate SignedNow(before: Option<nat>, after: Option<nat>, h: nat) { before.None? && after == Some(h) }

  lemma StillLanded(hash: Option<nat>, l: Ledger, m: Ledger)
    requires hash.Some? ==> hash.value < |l.txs|
    requires |l.txs| <= |m.txs| && m.txs[..|l.txs|] == l.txs
    ensures Landed(hash, m) == Landed(hash, l)
  {
    if hash.Some? { assert m.txs[hash.value] == m.txs[..|l.txs|][hash.value]; }
  }

  lemma RequestSimulates(s: State, d: CashOutEvent)
    requires Inv(s) && CashOutEnabled(s, d) && d.Request?
    ensures Simulates(s, Some(Money.Request(d.user, d.amount)), CashOutStep(s, d))
  {
    var s' := CashOutStep(s, d);
    HeldAgrees(s, d.user);
    FxLaws.PricedCashoutIsPositive(d.config, d.amount, d.currency);
    assert BooksOf(s').payments == BooksOf(s).payments;
    assert BooksOf(s').redemptions == BooksOf(s).redemptions + [Money.Redemption(d.user, d.amount, Money.Requested)];
  }

  lemma ApproveSimulates(s: State, r: nat)
    requires Inv(s) && CashOutEnabled(s, CashOutEvent.Approve(r))
    ensures Simulates(s, Some(Money.Approve(r)), CashOutStep(s, CashOutEvent.Approve(r)))
  {
    var q := s.db.requests[r];
    assert RequestOk(r, q, s.db.wallets, s.ledger);
    ReserveSimulates(s, CashOutStep(s, CashOutEvent.Approve(r)), r);
  }

  lemma ReserveSimulates(s: State, s': State, r: nat)
    requires r < |s.db.requests| && s.db.requests[r].hash.None? && s.db.requests[r].user in s.ledger.balances
    requires ApproveOutcomeOf(s.db, r).Reserved? && s'.db == Rows.Approve(s.db, r, s.now) && s'.ledger == s.ledger
    ensures Simulates(s, Some(Money.Approve(r)), s')
  {
    var q := s.db.requests[r];
    OneRedemption(s, s', r);
    CacheAfter(SetRequest(s.db, r, s'.db.requests[r]), q.user, -q.terms.uctusd);
  }

  lemma RejectSimulates(s: State, r: nat)
    requires Inv(s) && CashOutEnabled(s, CashOutEvent.Reject(r))
    ensures Simulates(s, Some(Money.Withdraw(r)), CashOutStep(s, CashOutEvent.Reject(r)))
  {
    assert RequestOk(r, s.db.requests[r], s.db.wallets, s.ledger);
    OneRedemption(s, CashOutStep(s, CashOutEvent.Reject(r)), r);
  }

  lemma CashOutSimulates(s: State, d: CashOutEvent)
    requires Inv(s) && CashOutEnabled(s, d)
    ensures Simulates(s, CashOutEventOf(s, d), CashOutStep(s, d))
  {
    match d
    case Request(_, _, _, _, _) => RequestSimulates(s, d);
    case Approve(r) => ApproveSimulates(s, r);
    case Reject(r) => RejectSimulates(s, r);
    case PublishFails(r) => RestoreSimulates(s, CashOutStep(s, d), r, None);
    case _ => MessagesSimulate(s, d);
  }

  lemma MessagesSimulate(s: State, d: CashOutEvent)
    requires CashOutEnabled(s, d) && (d.PublishOk? || d.PublishDies? || d.Sweep?)
    ensures BooksOf(CashOutStep(s, d)) == BooksOf(s)
  {
  }

  lemma RestoreSimulates(s: State, s': State, r: nat, hash: Option<nat>)
    requires Inv(s) && r < |s.db.requests| && s.db.requests[r].status.Approved?
             && !Landed(s.db.requests[r].hash, s.ledger)
    requires s'.db == FailAndRestore(s.db, r, hash) && s'.ledger == s.ledger
    ensures Simulates(s, Some(Money.Restore(r)), s')
  {
    var q := s.db.requests[r];
    assert RequestOk(r, q, s.db.wallets, s.ledger);
    OneRedemption(s, s', r);
    CacheAfter(SetRequest(s.db, r, s'.db.requests[r]), q.user, q.terms.uctusd);
  }

  lemma FinaliseSimulates(s: State, s': State, r: nat, h: nat, landed: bool)
    requires Inv(s) && r < |s.db.requests| && s.db.requests[r].hash == Some(h)
    requires s'.ledger == s.ledger
    requires h < |s.ledger.txs| && if landed then Success(s.ledger.txs[h]) else Dead(s.ledger.txs[h], s.ledger.index)
    requires s'.db == if landed then CompleteBurn(s.db, r, h, s.now) else FailAndRestore(s.db, r, Some(h))
    ensures Simulates(s, FinalEvent(s, r, landed), s')
  {
    var q := s.db.requests[r];
    assert RequestOk(r, q, s.db.wallets, s.ledger);
    if q.status.Approved? {
      if landed { OneRedemption(s, s', r); } else { RestoreSimulates(s, s', r, Some(h)); }
    }
  }

  lemma BurnResultSimulates(s: State, j: nat, result: Resolution)
    requires Inv(s) && BurnEnabled(s, j, BurnResult(result))
    ensures Simulates(s, BurnEventOf(s, j, BurnResult(result)), BurnStep(s, j, BurnResult(result)))
  {
    var s' := BurnStep(s, j, BurnResult(result));
    var job := s.burners[j];
    assert BurnJobOk(job, s.db.requests, s.published, s.ledger);
    if result.Unknown? { OneRedemption(s, s', job.row); }
    else { FinaliseSimulates(s, s', job.row, job.phase.hash, result.Succeeded?); }
  }

  lemma BurnGivesUpSimulates(s: State, j: nat, e: BurnEvent)
    requires Inv(s) && BurnEnabled(s, j, e) && (e.BurnRefuse? || e.BurnTransient?)
    ensures Simulates(s, BurnEventOf(s, j, e), BurnStep(s, j, e))
  {
    var s' := BurnStep(s, j, e);
    var job := s.burners[j];
    assert BurnJobOk(job, s.db.requests, s.published, s.ledger);
    if e.BurnRefuse? || MAX_ATTEMPTS <= job.attempts { RestoreSimulates(s, s', job.row, None); }
    else { OneRedemption(s, s', job.row); }
  }

  lemma BurnPersistSimulates(s: State, j: nat, e: BurnEvent)
    requires Inv(s) && BurnEnabled(s, j, e) && e.BurnPersist?
    ensures BooksOf(BurnStep(s, j, e)) == BooksOf(s)
  {
    assert BurnJobOk(s.burners[j], s.db.requests, s.published, s.ledger);
    PersistSimulates(s, BurnStep(s, j, e));
  }

  lemma BurnOthersSimulate(s: State, j: nat, e: BurnEvent)
    requires BurnEnabled(s, j, e) && (e.BurnClaim? || e.BurnSend? || e.BurnCrash?)
    ensures BooksOf(BurnStep(s, j, e)) == BooksOf(s)
  {
    if e.BurnClaim? { OneRedemption(s, BurnStep(s, j, e), e.r); } else { BooksUnmoved(s, BurnStep(s, j, e)); }
  }

  lemma BurnSimulates(s: State, j: nat, e: BurnEvent)
    requires Inv(s) && BurnEnabled(s, j, e)
    ensures Simulates(s, BurnEventOf(s, j, e), BurnStep(s, j, e))
  {
    match e
    case BurnRefuse => BurnGivesUpSimulates(s, j, e);
    case BurnTransient => BurnGivesUpSimulates(s, j, e);
    case BurnPersist(_, _, _) => BurnPersistSimulates(s, j, e);
    case BurnResult(result) => BurnResultSimulates(s, j, result);
    case _ => BurnOthersSimulate(s, j, e);
  }

  lemma AdminSimulates(s: State, j: nat, m: AdminEvent)
    requires Inv(s) && AdminEnabled(s, j, m)
    ensures Simulates(s, AdminEventOf(s, j, m), AdminStep(s, j, m))
  {
    if m.ReconcileCommit? { ReconcileCommitSimulates(s, j); }
    else if m.RetryCommit? { RetryCommitSimulates(s, j); }
    else { PagesSimulate(s, j, m); }
  }

  lemma PagesSimulate(s: State, j: nat, m: AdminEvent)
    requires AdminEnabled(s, j, m) && !m.ReconcileCommit? && !m.RetryCommit?
    ensures BooksOf(AdminStep(s, j, m)) == BooksOf(s)
  {
    assert AdminStep(s, j, m).db == s.db && AdminStep(s, j, m).ledger == s.ledger;
  }

  lemma ReconcileCommitSimulates(s: State, j: nat)
    requires Inv(s) && AdminEnabled(s, j, ReconcileCommit)
    ensures Simulates(s, AdminEventOf(s, j, ReconcileCommit), AdminStep(s, j, ReconcileCommit))
  {
    var page := s.admins[j];
    assert AdminOk(page, s.db.requests, s.db.transfers, s.ledger, s.now);
    FinaliseSimulates(s, AdminStep(s, j, ReconcileCommit), page.request, page.hash, page.landed);
  }

  lemma RetryCommitSimulates(s: State, j: nat)
    requires Inv(s) && AdminEnabled(s, j, RetryCommit)
    ensures Simulates(s, AdminEventOf(s, j, RetryCommit), AdminStep(s, j, RetryCommit))
  {
    var s' := AdminStep(s, j, RetryCommit);
    var page := s.admins[j];
    assert AdminOk(page, s.db.requests, s.db.transfers, s.ledger, s.now);
    if page.PayDead? {
      ResendSimulates(s, s', page);
    } else if s.db.transfers[page.transfer].status == page.from {
      CreditSimulates(s, s', page.transfer, page.hash, page.from);
    }
  }

  /** A re-send archives a dead attempt, which the books never saw. */
  lemma ResendSimulates(s: State, s': State, page: Admin)
    requires Inv(s) && page.PayDead? && AdminOk(page, s.db.requests, s.db.transfers, s.ledger, s.now)
    requires s'.db == Resend(s.db, page.transfer, page.seen, s.now) && s'.ledger == s.ledger
    ensures BooksOf(s') == BooksOf(s)
  {
    var x := s.db.transfers[page.transfer];
    if x.status == page.seen.status && x.updatedAt == page.seen.updatedAt {
      OnePayment(s, s', page.transfer);
    }
  }

  /** Every step of the protocol is one event of the exactly-once machine, or a stutter. */
  lemma StepSimulates(p: Params, s: State, a: Action)
    requires Inv(s) && Enabled(p, s, a)
    ensures Simulates(s, EventOf(p, s, a), Step(p, s, a))
  {
    match a
    case World(w) => WorldSimulates(s, w);
    case CashInDesk(c) => CashInSimulates(p, s, c);
    case Settler(j, e) => SettleSimulates(s, j, e);
    case CashOutDesk(d) => CashOutSimulates(s, d);
    case Burner(j, e) => BurnSimulates(s, j, e);
    case Administrator(j, m) => AdminSimulates(s, j, m);
  }

  /** The events of a whole run. */
  function Trace(p: Params, s: State, run: seq<Action>): seq<Money.Event>
    decreases |run|
  {
    if run == [] || !Enabled(p, s, run[0]) then []
    else
      var e := EventOf(p, s, run[0]);
      (if e.Some? then [e.value] else []) + Trace(p, Step(p, s, run[0]), run[1..])
  }

  /** Every run of the protocol is a run of the exactly-once machine with the same books. */
  lemma {:induction false} RunSimulates(p: Params, s: State, run: seq<Action>)
    requires Inv(s) && Play(p, s, run).Some?
    ensures Money.Play(BooksOf(s), Trace(p, s, run)) == Some(BooksOf(Play(p, s, run).value))
    decreases |run|
  {
    if run != [] {
      var t := Step(p, s, run[0]);
      StepSimulates(p, s, run[0]);
      StepKeepsInv(p, s, run[0]);
      RunSimulates(p, t, run[1..]);
      var e := EventOf(p, s, run[0]);
      if e.Some? {
        assert Trace(p, s, run)[1..] == Trace(p, t, run[1..]);
      } else {
        assert Trace(p, s, run) == Trace(p, t, run[1..]);
      }
    }
  }
}
