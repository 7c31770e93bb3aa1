/** Exactly which cash-outs and remittances can still end: what Progress and Delivery achieve, and why no other can. */
module Endings {
  import opened Wrappers
  import opened Xrpl
  import opened Machine
  import opened Invariant
  import opened Preservation
  import opened History
  import opened Guarantees
  import opened Progress
  import opened Delivery

  /** Signed without a deadline, decided by no ledger, watched by nobody, and not on its way to one. */
  predicate Stranded(s: State, r: nat) {
    && r < |s.db.requests| && s.db.requests[r].status.Approved? && s.db.requests[r].hash.Some?
    && StrandedTx(s.ledger, s.db.requests[r].hash.value) && !Worked(s, r)
  }

  predicate StrandedTx(l: Ledger, h: nat) {
    h < |l.txs| && l.txs[h].fate.Open? && l.txs[h].last.None? && (!l.txs[h].sent || l.txs[h].malformed)
  }

  lemma WorldStrands(s: State, w: WorldEvent, h: nat)
    requires WorldEnabled(s, w) && StrandedTx(s.ledger, h)
    ensures StrandedTx(WorldStep(s, w).ledger, h)
  {
  }

  /** A stranded burn is in no worker's hands, of either kind. */
  lemma NobodyHolds(s: State, r: nat)
    requires Inv(s) && Stranded(s, r)
    ensures forall j :: j in s.burners && !s.burners[j].phase.Claimed? ==>
            Some(s.burners[j].phase.hash) != s.db.requests[r].hash
    ensures forall j :: j in s.settlers && !s.settlers[j].phase.Claimed? ==>
            Some(s.settlers[j].phase.hash) != s.db.requests[r].hash
  {
    var q := s.db.requests[r];
    assert RequestOk(r, q, s.db.wallets, s.ledger);
    forall j | j in s.burners && !s.burners[j].phase.Claimed? ensures Some(s.burners[j].phase.hash) != q.hash {
      assert BurnJobOk(s.burners[j], s.db.requests, s.published, s.ledger);
      var k := s.burners[j].row;
      assert RequestOk(k, s.db.requests[k], s.db.wallets, s.ledger);
    }
    forall j | j in s.settlers && !s.settlers[j].phase.Claimed? ensures Some(s.settlers[j].phase.hash) != q.hash {
      assert PayJobOk(s.settlers[j], s.db.transfers, s.ledger);
      var k := s.settlers[j].row;
      assert TransferOk(k, s.db.transfers[k], s.db.wallets, s.ledger, s.now);
    }
  }

  lemma SettleLeavesThem(s: State, j: nat, e: SettleEvent)
    requires SettleEnabled(s, j, e)
    ensures SettleStep(s, j, e).db.requests == s.db.requests && SettleStep(s, j, e).burners == s.burners
  {
  }

  lemma SettleStrands(s: State, j: nat, e: SettleEvent, r: nat)
    requires Inv(s) && SettleEnabled(s, j, e) && Stranded(s, r)
    ensures StrandedTx(SettleStep(s, j, e).ledger, s.db.requests[r].hash.value)
    ensures SettleStep(s, j, e).db.requests == s.db.requests && SettleStep(s, j, e).burners == s.burners
  {
    NobodyHolds(s, r);
    SettleLeavesThem(s, j, e);
  }

  lemma BurnLedgerStrands(s: State, j: nat, e: BurnEvent, r: nat)
    requires Inv(s) && BurnEnabled(s, j, e) && Stranded(s, r)
    ensures StrandedTx(BurnStep(s, j, e).ledger, s.db.requests[r].hash.value)
  {
    NobodyHolds(s, r);
  }

  lemma BurnRowsStrand(s: State, j: nat, e: BurnEvent, r: nat)
    requires BurnEnabled(s, j, e) && Stranded(s, r)
    ensures r < |BurnStep(s, j, e).db.requests| && BurnStep(s, j, e).db.requests[r] == s.db.requests[r]
    ensures !Worked(BurnStep(s, j, e), r)
  {
  }

  lemma CashOutStrands(s: State, d: CashOutEvent, r: nat)
    requires Inv(s) && CashOutEnabled(s, d) && Stranded(s, r)
    ensures Stranded(CashOutStep(s, d), r)
  {
  }

  lemma AdminStrands(s: State, j: nat, m: AdminEvent, r: nat)
    requires Inv(s) && AdminEnabled(s, j, m) && Stranded(s, r)
    ensures Stranded(AdminStep(s, j, m), r)
  {
    if m.ReconcileCommit? {
      ReconcileStrands(s, j, r);
    } else {
      PagesLeaveThem(s, j, m);
    }
  }

  lemma PagesLeaveThem(s: State, j: nat, m: AdminEvent)
    requires AdminEnabled(s, j, m) && !m.ReconcileCommit?
    ensures var t := AdminStep(s, j, m);
            t.db.requests == s.db.requests && t.burners == s.burners && t.ledger == s.ledger
  {
  }

  /** No page can hold a verdict about it. */
  lemma ReconcileStrands(s: State, j: nat, r: nat)
    requires Inv(s) && AdminEnabled(s, j, ReconcileCommit) && Stranded(s, r)
    ensures Stranded(AdminStep(s, j, ReconcileCommit), r)
  {
    var page := s.admins[j];
    assert AdminOk(page, s.db.requests, s.db.transfers, s.ledger, s.now);
    assert page.request != r;
  }

  lemma CashInStrands(p: Params, s: State, c: CashInEvent)
    requires CashInEnabled(p, s, c)
    ensures var t := CashInStep(p, s, c);
            t.db.requests == s.db.requests && t.burners == s.burners && t.ledger == s.ledger
  {
  }

  lemma StepStrands(p: Params, s: State, a: Action, r: nat)
    requires Inv(s) && Enabled(p, s, a) && Stranded(s, r)
    ensures Stranded(Step(p, s, a), r)
  {
    match a
    case World(w) => WorldStrands(s, w, s.db.requests[r].hash.value);
    case CashInDesk(c) => CashInStrands(p, s, c);
    case Settler(j, e) => SettleStrands(s, j, e, r);
    case CashOutDesk(d) => CashOutStrands(s, d, r);
    case Burner(j, e) =>
      BurnLedgerStrands(s, j, e, r);
      BurnRowsStrand(s, j, e, r);
    case Administrator(j, m) => AdminStrands(s, j, m, r);
  }

  lemma {:induction false} RunStrands(p: Params, s: State, run: seq<Action>, r: nat)
    requires Inv(s) && Play(p, s, run).Some? && Stranded(s, r)
    ensures Stranded(Play(p, s, run).value, r)
    decreases |run|
  {
    if run != [] {
      StepStrands(p, s, run[0], r);
      StepKeepsInv(p, s, run[0]);
      RunStrands(p, Step(p, s, run[0]), run[1..], r);
    }
  }

  /**
   In every reachable state, an approved cash-out can still end if and only if nothing is signed for
   it, or its burn has a result or a deadline, is with a live worker, or was sent and is well formed.
  */
  lemma CashOutCanEndExactly(p: Params, before: seq<Action>, s: State, r: nat)
    requires Reaches(p, before, s) && r < |s.db.requests| && s.db.requests[r].status.Approved?
    ensures (exists run :: Ends(p, s, run, r)) <==> CanEnd(s, r)
  {
    RunKeepsInv(p, INIT, before);
    assert RequestOk(r, s.db.requests[r], s.db.wallets, s.ledger);
    if CanEnd(s, r) {
      var run, t := ApprovedEnds(p, before, s, r);
      assert Ends(p, s, run, r);
    } else {
      forall run | Play(p, s, run).Some? ensures !Ends(p, s, run, r) { RunStrands(p, s, run, r); }
    }
  }

  // ---------------------------------------------------------------- remittances

  /** Signed without a deadline, in no ledger, and malformed or in nobody's hands before it was sent. */
  predicate Lost(s: State, t: nat) {
    && t < |s.db.transfers| && s.db.transfers[t].hash.Some? && !s.db.transfers[t].status.Settled?
    && LostTx(s.ledger, s.db.transfers[t].hash.value, Held(s, t))
  }

  predicate LostTx(l: Ledger, h: nat, held: bool) {
    && h < |l.txs| && l.txs[h].fate.Open? && l.txs[h].last.None?
    && (l.txs[h].malformed || (!l.txs[h].sent && !held))
  }

  /** Only a worker of row `t` holds its hash. */
  lemma OthersHoldOthers(s: State, t: nat)
    requires Inv(s) && Lost(s, t)
    ensures forall j :: j in s.burners && !s.burners[j].phase.Claimed? ==>
            Some(s.burners[j].phase.hash) != s.db.transfers[t].hash
    ensures forall j ::
              j in s.settlers && !s.settlers[j].phase.Claimed?
              && Some(s.settlers[j].phase.hash) == s.db.transfers[t].hash
              ==> s.settlers[j].row == t
    ensures forall j :: j in s.settlers && s.settlers[j].row == t ==> !s.settlers[j].phase.Claimed?
  {
    var x := s.db.transfers[t];
    assert TransferOk(t, x, s.db.wallets, s.ledger, s.now);
    forall j | j in s.burners && !s.burners[j].phase.Claimed? ensures Some(s.burners[j].phase.hash) != x.hash {
      assert BurnJobOk(s.burners[j], s.db.requests, s.published, s.ledger);
      var k := s.burners[j].row;
      assert RequestOk(k, s.db.requests[k], s.db.wallets, s.ledger);
    }
    forall j | j in s.settlers
      ensures !s.settlers[j].phase.Claimed? && Some(s.settlers[j].phase.hash) == x.hash ==> s.settlers[j].row == t
      ensures s.settlers[j].row == t ==> !s.settlers[j].phase.Claimed?
    {
      assert PayJobOk(s.settlers[j], s.db.transfers, s.ledger);
      var k := s.settlers[j].row;
      assert TransferOk(k, s.db.transfers[k], s.db.wallets, s.ledger, s.now);
    }
  }

  lemma WorldLoses(s: State, w: WorldEvent, t: nat)
    requires WorldEnabled(s, w) && Lost(s, t)
    ensures Lost(WorldStep(s, w), t)
  {
    assert Held(WorldStep(s, w), t) == Held(s, t);
  }

  lemma CashInLoses(p: Params, s: State, c: CashInEvent, t: nat)
    requires Inv(s) && CashInEnabled(p, s, c) && Lost(s, t)
    ensures Lost(CashInStep(p, s, c), t)
  {
    assert TransferOk(t, s.db.transfers[t], s.db.wallets, s.ledger, s.now);
    assert Held(CashInStep(p, s, c), t) == Held(s, t);
  }

  lemma SettleLedgerLoses(s: State, j: nat, e: SettleEvent, t: nat)
    requires Inv(s) && SettleEnabled(s, j, e) && Lost(s, t)
    ensures LostTx(SettleStep(s, j, e).ledger, s.db.transfers[t].hash.value, Held(s, t))
  {
    OthersHoldOthers(s, t);
    if e.PaySend? && s.settlers[j].row == t { assert Held(s, t); }
  }

  lemma SettleRowsLose(s: State, j: nat, e: SettleEvent, t: nat)
    requires Inv(s) && SettleEnabled(s, j, e) && Lost(s, t)
    ensures t < |SettleStep(s, j, e).db.transfers|
    ensures var y := SettleStep(s, j, e).db.transfers[t]; y.hash == s.db.transfers[t].hash && !y.status.Settled?
  {
    OthersHoldOthers(s, t);
    if !e.PayClaim? && s.settlers[j].row == t {
      assert PayJobOk(s.settlers[j], s.db.transfers, s.ledger);
      OwnRowLoses(s, j, e);
    } else {
      OtherRowsStay(s, j, e, t);
    }
  }

  lemma OwnRowLoses(s: State, j: nat, e: SettleEvent)
    requires SettleEnabled(s, j, e) && !e.PayClaim? && !s.settlers[j].phase.Claimed?
    requires var x := s.db.transfers[s.settlers[j].row];
             x.hash == Some(s.settlers[j].phase.hash) && !x.status.Settled? && s.settlers[j].phase.hash < |s.ledger.txs|
             && s.ledger.txs[s.settlers[j].phase.hash].fate.Open?
    ensures s.settlers[j].row < |SettleStep(s, j, e).db.transfers|
    ensures var x, y := s.db.transfers[s.settlers[j].row], SettleStep(s, j, e).db.transfers[s.settlers[j].row];
            y.hash == x.hash && !y.status.Settled?
  {
  }

  lemma OtherRowsStay(s: State, j: nat, e: SettleEvent, t: nat)
    requires SettleEnabled(s, j, e) && t < |s.db.transfers| && s.db.transfers[t].hash.Some?
    requires e.PayClaim? || s.settlers[j].row != t
    ensures t < |SettleStep(s, j, e).db.transfers| && SettleStep(s, j, e).db.transfers[t] == s.db.transfers[t]
  {
  }

  lemma SettleHoldsNothingNew(s: State, j: nat, e: SettleEvent, t: nat)
    requires Inv(s) && SettleEnabled(s, j, e) && Lost(s, t)
    ensures Held(SettleStep(s, j, e), t) ==> Held(s, t)
  {
    OthersHoldOthers(s, t);
    var v := SettleStep(s, j, e);
    if Held(v, t) {
      var k :| k in v.settlers && v.settlers[k].row == t && !v.settlers[k].phase.Claimed?;
      assert k in s.settlers && s.settlers[k].row == t && !s.settlers[k].phase.Claimed?;
    }
  }

  lemma CashOutLoses(s: State, d: CashOutEvent, t: nat)
    requires CashOutEnabled(s, d)
    ensures var v := CashOutStep(s, d);
            v.db.transfers == s.db.transfers && v.ledger == s.ledger && v.settlers == s.settlers
  {
  }

  lemma BurnLoses(s: State, j: nat, e: BurnEvent, t: nat)
    requires Inv(s) && BurnEnabled(s, j, e) && Lost(s, t)
    ensures var v := BurnStep(s, j, e);
            && v.db.transfers == s.db.transfers && v.settlers == s.settlers
            && LostTx(v.ledger, s.db.transfers[t].hash.value, Held(s, t))
  {
    OthersHoldOthers(s, t);
  }

  lemma OtherPagesLeaveTransfers(s: State, j: nat, m: AdminEvent)
    requires AdminEnabled(s, j, m) && !m.RetryCommit?
    ensures AdminStep(s, j, m).db.transfers == s.db.transfers
  {
  }

  lemma PagesLeaveSettlers(s: State, j: nat, m: AdminEvent)
    requires AdminEnabled(s, j, m)
    ensures AdminStep(s, j, m).ledger == s.ledger && AdminStep(s, j, m).settlers == s.settlers
  {
  }

  lemma AdminLoses(s: State, j: nat, m: AdminEvent, t: nat)
    requires Inv(s) && AdminEnabled(s, j, m) && Lost(s, t)
    ensures var v := AdminStep(s, j, m);
            && v.ledger == s.ledger && v.settlers == s.settlers
            && t < |v.db.transfers| && v.db.transfers[t] == s.db.transfers[t]
  {
    PagesLeaveSettlers(s, j, m);
    if m.RetryCommit? { RetryLoses(s, j, t); } else { OtherPagesLeaveTransfers(s, j, m); }
  }

  /** No page can hold proof about it. */
  lemma RetryLoses(s: State, j: nat, t: nat)
    requires Inv(s) && AdminEnabled(s, j, RetryCommit) && Lost(s, t)
    ensures var v := AdminStep(s, j, RetryCommit);
            && v.ledger == s.ledger && v.settlers == s.settlers
            && t < |v.db.transfers| && v.db.transfers[t] == s.db.transfers[t]
  {
    var page := s.admins[j];
    assert AdminOk(page, s.db.requests, s.db.transfers, s.ledger, s.now);
    if page.PayLanded? && page.transfer == t { LandedIsLive(s, t, page.hash); }
  }

  lemma StepLoses(p: Params, s: State, a: Action, t: nat)
    requires Inv(s) && Enabled(p, s, a) && Lost(s, t)
    ensures Lost(Step(p, s, a), t)
  {
    var v := Step(p, s, a);
    match a
    case World(w) => WorldLoses(s, w, t);
    case CashInDesk(c) => CashInLoses(p, s, c, t);
    case Settler(j, e) =>
      SettleLedgerLoses(s, j, e, t);
      SettleRowsLose(s, j, e, t);
      SettleHoldsNothingNew(s, j, e, t);
    case CashOutDesk(d) =>
      CashOutLoses(s, d, t);
      assert Held(v, t) == Held(s, t);
    case Burner(j, e) =>
      BurnLoses(s, j, e, t);
      assert Held(v, t) == Held(s, t);
    case Administrator(j, m) =>
      AdminLoses(s, j, m, t);
      assert Held(v, t) == Held(s, t);
  }

  lemma {:induction false} RunLoses(p: Params, s: State, run: seq<Action>, t: nat)
    requires Inv(s) && Play(p, s, run).Some? && Lost(s, t)
    ensures Lost(Play(p, s, run).value, t)
    decreases |run|
  {
    if run != [] {
      StepLoses(p, s, run[0], t);
      StepKeepsInv(p, s, run[0]);
      RunLoses(p, Step(p, s, run[0]), run[1..], t);
    }
  }

  /** A failed cash-in is never settled. */
  lemma DeclinedIsNotDelivered(p: Params, s: State, run: seq<Action>, t: nat)
    requires Inv(s) && t < |s.db.transfers| && s.db.transfers[t].send.cashin.Declined? && Play(p, s, run).Some?
    ensures !Delivers(p, s, run, t)
  {
    var v := Play(p, s, run).value;
    RunEvolves(p, s, run);
    RunKeepsInv(p, s, run);
    assert TransferEvolves(s.db.transfers[t], v.db.transfers[t]);
    assert TransferOk(t, v.db.transfers[t], v.db.wallets, v.ledger, v.now);
  }

  /**
   In every reachable state, a remittance can still be completed if and only if its cash-in has not
   failed and its payment is unsigned, has a result or a deadline, or is well formed and was sent or
   is with a live worker.
  */
  lemma RemittanceCanCompleteExactly(p: Params, before: seq<Action>, s: State, t: nat)
    requires Reaches(p, before, s) && t < |s.db.transfers|
    ensures (exists run :: Delivers(p, s, run, t)) <==> CanComplete(s, t)
  {
    RunKeepsInv(p, INIT, before);
    assert TransferOk(t, s.db.transfers[t], s.db.wallets, s.ledger, s.now);
    if CanComplete(s, t) {
      var run, v := RemittanceIsDelivered(p, s, t);
      assert Delivers(p, s, run, t);
    } else {
      forall run | Play(p, s, run).Some? ensures !Delivers(p, s, run, t) {
        if s.db.transfers[t].send.cashin.Declined? { DeclinedIsNotDelivered(p, s, run, t); }
        else { RunLoses(p, s, run, t); }
      }
    }
  }
}
