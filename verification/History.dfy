/** How rows and the ledger may change over time: terms, final rows and history are never rewritten. */
module History {
  import opened Wrappers
  import opened Xrpl
  import opened Rows
  import opened Machine
  import opened Invariant
  import opened Frames
  import opened Preservation

  predicate Final(q: CashOut) { q.status.Completed? || q.status.Failed? }

  /**
   Owner and terms are fixed, a recorded hash and its range stay, nothing becomes pending again, a
   final row is frozen. A claim stamp changes only by a counted claim, or is released.
  */
  predicate RequestEvolves(q: CashOut, q': CashOut) {
    && q'.user == q.user && q'.terms == q.terms
    && q.attempts <= q'.attempts && (q'.status.Requested? ==> q.status.Requested?)
    && (q.hash.Some? ==> q'.hash == q.hash && q'.last == q.last && q'.submitted == q.submitted)
    && (Final(q) ==> q' == q)
    && (!q.status.Requested? ==> q'.approvedAt == q.approvedAt)
    && (q'.attempts == q.attempts ==> q'.startedAt == q.startedAt || q'.startedAt.None?)
  }

  /** Sender, recipient and quote are fixed, history only grows, a settled row is frozen. */
  predicate TransferEvolves(x: Transfer, x': Transfer) {
    && x'.recipient == x.recipient && x'.quote == x.quote
    && x'.send == x.send.(cashin := x'.send.cashin)
    && (!x.send.cashin.Pending? ==> x'.send == x.send)
    && x.history <= x'.history
    && (x.status.Settled? ==> x' == x)
  }

  ghost predicate RowsEvolve(db: Tables, db': Tables) {
    && |db.requests| <= |db'.requests| && |db.transfers| <= |db'.transfers|
    && (forall r :: 0 <= r < |db.requests| ==> RequestEvolves(db.requests[r], db'.requests[r]))
    && (forall t :: 0 <= t < |db.transfers| ==> TransferEvolves(db.transfers[t], db'.transfers[t]))
  }

  ghost predicate Evolves(s: State, s': State) {
    && s.now <= s'.now && s.ledger.index <= s'.ledger.index
    && Extends(s.ledger, s'.ledger)
    && RowsEvolve(s.db, s'.db)
  }

  lemma WorldEvolves(s: State, w: WorldEvent)
    requires Inv(s) && WorldEnabled(s, w)
    ensures Evolves(s, WorldStep(s, w))
  {
    match w
    case Tick(_) => ExtendsSame(s.ledger, WorldStep(s, w).ledger);
    case CloseLedger => ExtendsSame(s.ledger, WorldStep(s, w).ledger);
    case Include(h, code) => ValidateExtends(s.ledger, h, code);
  }

  lemma DecisionEvolves(p: Params, s: State, c: CashInEvent)
    requires Inv(s) && CashInEnabled(p, s, c) && (c.Receive? || c.Decline? || c.PublishRaises?)
    ensures RowsEvolve(s.db, CashInStep(p, s, c).db)
  {
    assert TransferOk(c.t, s.db.transfers[c.t], s.db.wallets, s.ledger, s.now);
    OneTransferEvolves(s.db, CashInStep(p, s, c).db, c.t);
  }

  lemma ExpiryEvolves(s: State)
    requires Inv(s)
    ensures RowsEvolve(s.db, ExpireStale(s.db, s.now))
  {
    var db' := ExpireStale(s.db, s.now);
    forall t | 0 <= t < |s.db.transfers| ensures TransferEvolves(s.db.transfers[t], db'.transfers[t]) {
      assert TransferOk(t, s.db.transfers[t], s.db.wallets, s.ledger, s.now);
    }
  }

  lemma BookEvolves(p: Params, s: State, c: CashInEvent)
    requires CashInEnabled(p, s, c) && c.Book?
    ensures RowsEvolve(s.db, CashInStep(p, s, c).db)
  {
  }

  lemma CashInEvolves(p: Params, s: State, c: CashInEvent)
    requires Inv(s) && CashInEnabled(p, s, c)
    ensures Evolves(s, CashInStep(p, s, c))
  {
    ExtendsSame(s.ledger, s.ledger);
    match c
    case Book(_, _, _, _, _, _, _, _, _) => BookEvolves(p, s, c);
    case ExpireCashins => ExpiryEvolves(s);
    case _ => DecisionEvolves(p, s, c);
  }

  lemma OneTransferEvolves(db: Tables, db': Tables, t: nat)
    requires t < |db.transfers| == |db'.transfers| && db'.transfers == db.transfers[t := db'.transfers[t]]
    requires db'.requests == db.requests && TransferEvolves(db.transfers[t], db'.transfers[t])
    ensures RowsEvolve(db, db')
  {
  }

  lemma OneRequestEvolves(db: Tables, db': Tables, r: nat)
    requires r < |db.requests| == |db'.requests| && db'.requests == db.requests[r := db'.requests[r]]
    requires db'.transfers == db.transfers && RequestEvolves(db.requests[r], db'.requests[r])
    ensures RowsEvolve(db, db')
  {
  }

  lemma PaySignedEvolves(s: State, j: nat, e: SettleEvent)
    requires Inv(s) && SettleEnabled(s, j, e) && (e.PayPersist? || e.PaySend?)
    ensures Evolves(s, SettleStep(s, j, e))
  {
    var s' := SettleStep(s, j, e);
    var job := s.settlers[j];
    assert PayJobOk(job, s.db.transfers, s.ledger);
    if e.PayPersist? {
      assert TransferOk(job.row, s.db.transfers[job.row], s.db.wallets, s.ledger, s.now);
      RegisterExtends(s.ledger, PayTx(job.row, s.db.transfers[job.row], e.submitted, e.last, e.malformed));
      OneTransferEvolves(s.db, s'.db, job.row);
    } else {
      SubmitExtends(s.ledger, job.phase.hash);
    }
  }

  lemma PayEndEvolves(s: State, j: nat, e: SettleEvent)
    requires Inv(s) && SettleEnabled(s, j, e) && (e.PayRefuse? || e.PayTransient? || e.PayResult?)
    ensures RowsEvolve(s.db, SettleStep(s, j, e).db)
  {
    var t := s.settlers[j].row;
    assert PayJobOk(s.settlers[j], s.db.transfers, s.ledger);
    assert TransferOk(t, s.db.transfers[t], s.db.wallets, s.ledger, s.now);
    OneTransferEvolves(s.db, SettleStep(s, j, e).db, t);
  }

  lemma SettleEvolves(s: State, j: nat, e: SettleEvent)
    requires Inv(s) && SettleEnabled(s, j, e)
    ensures Evolves(s, SettleStep(s, j, e))
  {
    if e.PayPersist? || e.PaySend? {
      PaySignedEvolves(s, j, e);
    } else {
      ExtendsSame(s.ledger, SettleStep(s, j, e).ledger);
      if e.PayClaim? { OneTransferEvolves(s.db, SettleStep(s, j, e).db, e.t); }
      else if !e.Provision? && !e.PayCrash? { PayEndEvolves(s, j, e); }
    }
  }

  lemma CashOutEvolves(s: State, d: CashOutEvent)
    requires Inv(s) && CashOutEnabled(s, d)
    ensures Evolves(s, CashOutStep(s, d))
  {
    ExtendsSame(s.ledger, s.ledger);
  }

  lemma BurnSignedEvolves(s: State, j: nat, e: BurnEvent)
    requires Inv(s) && BurnEnabled(s, j, e) && (e.BurnPersist? || e.BurnSend?)
    ensures Evolves(s, BurnStep(s, j, e))
  {
    var s' := BurnStep(s, j, e);
    var job := s.burners[j];
    assert BurnJobOk(job, s.db.requests, s.published, s.ledger);
    if e.BurnPersist? {
      assert RequestOk(job.row, s.db.requests[job.row], s.db.wallets, s.ledger);
      RegisterExtends(s.ledger, BurnTx(job.row, s.db.requests[job.row], e.submitted, e.last, e.malformed));
      OneRequestEvolves(s.db, s'.db, job.row);
    } else {
      SubmitExtends(s.ledger, job.phase.hash);
    }
  }

  lemma BurnEndEvolves(s: State, j: nat, e: BurnEvent)
    requires Inv(s) && BurnEnabled(s, j, e) && (e.BurnRefuse? || e.BurnTransient? || e.BurnResult?)
    ensures RowsEvolve(s.db, BurnStep(s, j, e).db)
  {
    assert BurnJobOk(s.burners[j], s.db.requests, s.published, s.ledger);
    OneRequestEvolves(s.db, BurnStep(s, j, e).db, s.burners[j].row);
  }

  lemma BurnEvolves(s: State, j: nat, e: BurnEvent)
    requires Inv(s) && BurnEnabled(s, j, e)
    ensures Evolves(s, BurnStep(s, j, e))
  {
    if e.BurnPersist? || e.BurnSend? {
      BurnSignedEvolves(s, j, e);
    } else {
      ExtendsSame(s.ledger, BurnStep(s, j, e).ledger);
      if e.BurnClaim? { OneRequestEvolves(s.db, BurnStep(s, j, e).db, e.r); }
      else if !e.BurnCrash? { BurnEndEvolves(s, j, e); }
    }
  }

  lemma ReconcileCommitEvolves(s: State, j: nat)
    requires Inv(s) && AdminEnabled(s, j, ReconcileCommit)
    ensures RowsEvolve(s.db, AdminStep(s, j, ReconcileCommit).db)
  {
    var page := s.admins[j];
    assert AdminOk(page, s.db.requests, s.db.transfers, s.ledger, s.now);
    FinaliseEvolves(s.db, page.request, page.hash, s.now);
  }

  lemma FinaliseEvolves(db: Tables, r: nat, h: nat, now: nat)
    requires r < |db.requests| && db.requests[r].hash == Some(h)
    ensures RowsEvolve(db, CompleteBurn(db, r, h, now)) && RowsEvolve(db, FailAndRestore(db, r, Some(h)))
  {
    OneRequestEvolves(db, CompleteBurn(db, r, h, now), r);
    OneRequestEvolves(db, FailAndRestore(db, r, Some(h)), r);
  }

  lemma RetryCommitEvolves(s: State, j: nat)
    requires Inv(s) && AdminEnabled(s, j, RetryCommit)
    ensures RowsEvolve(s.db, AdminStep(s, j, RetryCommit).db)
  {
    var page := s.admins[j];
    assert AdminOk(page, s.db.requests, s.db.transfers, s.ledger, s.now);
    if page.PayLanded? { CreditEvolves(s, page.transfer, page.hash, page.from); }
    else { ResendEvolves(s, page.transfer, page.seen); }
  }

  lemma CreditEvolves(s: State, t: nat, h: nat, from: SettlementStatus)
    requires Inv(s) && t < |s.db.transfers| && h < |s.ledger.txs| && !from.Settled?
    requires s.ledger.txs[h].purpose == Purpose.Pay(t) && Success(s.ledger.txs[h])
    ensures RowsEvolve(s.db, CompleteSettlement(s.db, t, h, s.now, from))
  {
    LandedIsLive(s, t, h);
  }

  lemma ResendEvolves(s: State, t: nat, seen: Transfer)
    requires SeenOk(t, seen, s.db.transfers, s.ledger, s.now)
    ensures RowsEvolve(s.db, Resend(s.db, t, seen, s.now))
  {
  }

  lemma PagesStayPut(s: State, j: nat, m: AdminEvent)
    requires AdminEnabled(s, j, m)
    ensures AdminStep(s, j, m).ledger == s.ledger && AdminStep(s, j, m).now == s.now
    ensures !m.ReconcileCommit? && !m.RetryCommit? ==> AdminStep(s, j, m).db == s.db
  {
  }

  lemma AdminEvolves(s: State, j: nat, m: AdminEvent)
    requires Inv(s) && AdminEnabled(s, j, m)
    ensures Evolves(s, AdminStep(s, j, m))
  {
    PagesStayPut(s, j, m);
    ExtendsSame(s.ledger, s.ledger);
    if m.ReconcileCommit? { ReconcileCommitEvolves(s, j); }
    else if m.RetryCommit? { RetryCommitEvolves(s, j); }
  }

  lemma StepEvolves(p: Params, s: State, a: Action)
    requires Inv(s) && Enabled(p, s, a)
    ensures Evolves(s, Step(p, s, a))
  {
    match a
    case World(w) => WorldEvolves(s, w);
    case CashInDesk(c) => CashInEvolves(p, s, c);
    case Settler(j, e) => SettleEvolves(s, j, e);
    case CashOutDesk(d) => CashOutEvolves(s, d);
    case Burner(j, e) => BurnEvolves(s, j, e);
    case Administrator(j, m) => AdminEvolves(s, j, m);
  }

  lemma EvolvesTwice(s: State, t: State, u: State)
    requires Evolves(s, t) && Evolves(t, u)
    ensures Evolves(s, u)
  {
    forall h | 0 <= h < |s.ledger.txs|
      ensures Continues(s.ledger.txs[h], s.ledger.index, u.ledger.txs[h], u.ledger.index)
    {
      assert Continues(s.ledger.txs[h], s.ledger.index, t.ledger.txs[h], t.ledger.index);
      assert Continues(t.ledger.txs[h], t.ledger.index, u.ledger.txs[h], u.ledger.index);
    }
    forall r | 0 <= r < |s.db.requests| ensures RequestEvolves(s.db.requests[r], u.db.requests[r]) {
      assert RequestEvolves(s.db.requests[r], t.db.requests[r]) && RequestEvolves(t.db.requests[r], u.db.requests[r]);
    }
    forall x | 0 <= x < |s.db.transfers| ensures TransferEvolves(s.db.transfers[x], u.db.transfers[x]) {
      assert TransferEvolves(s.db.transfers[x], t.db.transfers[x])
          && TransferEvolves(t.db.transfers[x], u.db.transfers[x]);
    }
  }

  /** Over any run, terms, final rows, recorded burns, validated results and retired attempts stay as they are. */
  lemma {:induction false} RunEvolves(p: Params, s: State, run: seq<Action>)
    requires Inv(s) && Play(p, s, run).Some?
    ensures Evolves(s, Play(p, s, run).value)
    decreases |run|
  {
    if run == [] {
      ExtendsSame(s.ledger, s.ledger);
    } else {
      var t := Step(p, s, run[0]);
      StepEvolves(p, s, run[0]);
      StepKeepsInv(p, s, run[0]);
      RunEvolves(p, t, run[1..]);
      EvolvesTwice(s, t, Play(p, t, run[1..]).value);
    }
  }
}
