/** Every step of every actor keeps the invariant. */
module Preservation {
  import opened Wrappers
  import opened Outcomes
  import opened Xrpl
  import opened Rows
  import opened Machine
  import opened Invariant
  import opened Frames
  import FxLaws

  lemma FewerAdmins(s: State, j: nat)
    requires Inv(s)
    ensures Inv(s.(admins := s.admins - {j}))
  {
  }

  lemma PageChange(s: State, j: nat, page: Admin)
    requires Inv(s) && AdminOk(page, s.db.requests, s.db.transfers, s.ledger, s.now)
    ensures Inv(s.(admins := s.admins[j := page]))
  {
  }

  /** No live job works on a row that is not processing or settled. */
  lemma SettlersIdle(s: State, s': State, t: nat)
    requires Inv(s) && s'.ledger == s.ledger && s'.settlers == s.settlers
    requires t < |s.db.transfers| == |s'.db.transfers| && s'.db.transfers == s.db.transfers[t := s'.db.transfers[t]]
    requires !s.db.transfers[t].status.Processing? && !s.db.transfers[t].status.Settled?
    ensures forall j :: j in s.settlers ==> s.settlers[j].row != t
    ensures SettlersOk(s')
  {
    forall j | j in s.settlers ensures s.settlers[j].row != t {
      assert PayJobOk(s.settlers[j], s.db.transfers, s.ledger);
    }
    SettlersWithout(s, s', t);
  }

  lemma TickKeeps(s: State, dt: nat)
    requires Inv(s) && WorldEnabled(s, Tick(dt))
    ensures Inv(WorldStep(s, Tick(dt)))
  {
  }

  lemma CloseKeeps(s: State)
    requires Inv(s) && WorldEnabled(s, CloseLedger)
    ensures Inv(WorldStep(s, CloseLedger))
  {
    var s' := WorldStep(s, CloseLedger);
    ExtendsSame(s.ledger, s'.ledger);
    JobsIgnoreFates(s, s');
    LedgerChange(s, s');
  }

  lemma IncludeKeeps(s: State, h: nat, code: string)
    requires Inv(s) && WorldEnabled(s, Include(h, code))
    ensures Inv(WorldStep(s, Include(h, code)))
  {
    var s' := WorldStep(s, Include(h, code));
    ValidateExtends(s.ledger, h, code);
    JobsIgnoreFates(s, s');
    LedgerChange(s, s');
  }

  /** A new row is no business of the payments, jobs and pages that exist. */
  lemma AppendDisturbsNobody(s: State, s': State)
    requires PayTxsOk(s.db.transfers, s.ledger) && SettlersOk(s) && AdminsOk(s)
    requires s' == s.(db := s.db.(transfers := s'.db.transfers)) && s.db.transfers <= s'.db.transfers
    ensures PayTxsOk(s'.db.transfers, s'.ledger) && SettlersOk(s') && AdminsOk(s')
  {
    forall h | 0 <= h < |s.ledger.txs| && s.ledger.txs[h].purpose.Pay?
      ensures PayTxOk(s'.db.transfers, s.ledger.txs[h].purpose.transfer, h)
    {
      assert PayTxOk(s.db.transfers, s.ledger.txs[h].purpose.transfer, h);
    }
    forall j | j in s.admins ensures AdminOk(s.admins[j], s'.db.requests, s'.db.transfers, s.ledger, s.now) {
      assert AdminOk(s.admins[j], s.db.requests, s.db.transfers, s.ledger, s.now);
    }
    forall j | j in s.settlers ensures PayJobOk(s.settlers[j], s'.db.transfers, s.ledger) {
      assert PayJobOk(s.settlers[j], s.db.transfers, s.ledger);
    }
  }

  lemma AppendTransferKeeps(s: State, s': State)
    requires Inv(s) && s' == s.(db := s.db.(transfers := s'.db.transfers)) && |s'.db.transfers| == |s.db.transfers| + 1
    requires s'.db.transfers == s.db.transfers + [s'.db.transfers[|s.db.transfers|]]
    requires TransferOk(|s.db.transfers|, s'.db.transfers[|s.db.transfers|], s.db.wallets, s.ledger, s.now)
    ensures Inv(s')
  {
    assert TransfersOk(s'.db.transfers, s.db.wallets, s.ledger, s.now) by {
      forall t | 0 <= t < |s'.db.transfers| ensures TransferOk(t, s'.db.transfers[t], s.db.wallets, s.ledger, s.now) {
        if t < |s.db.transfers| { assert s'.db.transfers[t] == s.db.transfers[t]; }
      }
    }
    AppendDisturbsNobody(s, s');
    assert BurnersOk(s') && PublishingOk(s');
  }

  lemma BookKeeps(p: Params, s: State, c: CashInEvent)
    requires Inv(s) && CashInEnabled(p, s, c) && c.Book?
    ensures Inv(CashInStep(p, s, c))
  {
    var s' := CashInStep(p, s, c);
    FxLaws.QuoteAccountsForTheSend(c.config, c.zarMicro, c.currency);
    AppendTransferKeeps(s, s');
  }

  lemma ReceiveKeeps(p: Params, s: State, t: nat)
    requires Inv(s) && CashInEnabled(p, s, Receive(t))
    ensures Inv(CashInStep(p, s, Receive(t)))
  {
    var s' := CashInStep(p, s, Receive(t));
    assert TransferOk(t, s.db.transfers[t], s.db.wallets, s.ledger, s.now);
    SettlersIdle(s, s', t);
    StatusChange(s, s', t);
  }

  lemma DeclineKeeps(p: Params, s: State, t: nat)
    requires Inv(s) && CashInEnabled(p, s, Decline(t))
    ensures Inv(CashInStep(p, s, Decline(t)))
  {
    var s' := CashInStep(p, s, Decline(t));
    assert TransferOk(t, s.db.transfers[t], s.db.wallets, s.ledger, s.now);
    SettlersIdle(s, s', t);
    StatusChange(s, s', t);
  }

  lemma PublishRaisesKeeps(p: Params, s: State, t: nat)
    requires Inv(s) && CashInEnabled(p, s, PublishRaises(t))
    ensures Inv(CashInStep(p, s, PublishRaises(t)))
  {
    if s.db.transfers[t].status.Queued? {
      var s' := CashInStep(p, s, PublishRaises(t));
      assert TransferOk(t, s.db.transfers[t], s.db.wallets, s.ledger, s.now);
      SettlersIdle(s, s', t);
      StatusChange(s, s', t);
    }
  }

  lemma ExpiryKeepsPayments(s: State, s': State)
    requires PayTxsOk(s.db.transfers, s.ledger) && s' == s.(db := ExpireStale(s.db, s.now))
    ensures PayTxsOk(s'.db.transfers, s'.ledger)
  {
    forall h | 0 <= h < |s.ledger.txs| && s.ledger.txs[h].purpose.Pay?
      ensures PayTxOk(s'.db.transfers, s.ledger.txs[h].purpose.transfer, h)
    {
      assert PayTxOk(s.db.transfers, s.ledger.txs[h].purpose.transfer, h);
    }
  }

  lemma ExpiryKeepsSettlers(s: State, s': State)
    requires Inv(s) && s' == s.(db := ExpireStale(s.db, s.now))
    ensures SettlersOk(s')
  {
    forall j | j in s.settlers ensures PayJobOk(s.settlers[j], s'.db.transfers, s.ledger) {
      assert PayJobOk(s.settlers[j], s.db.transfers, s.ledger);
      assert TransferOk(s.settlers[j].row, s.db.transfers[s.settlers[j].row], s.db.wallets, s.ledger, s.now);
    }
  }

  lemma ExpiryKeepsPages(s: State, s': State)
    requires AdminsOk(s) && s' == s.(db := ExpireStale(s.db, s.now))
    requires forall t :: 0 <= t < |s.db.transfers| && Stale(s.db.transfers[t], s.now) ==> Fresh(s, t)
    ensures AdminsOk(s')
  {
    forall j | j in s.admins ensures AdminOk(s.admins[j], s.db.requests, s'.db.transfers, s.ledger, s.now) {
      assert AdminOk(s.admins[j], s.db.requests, s.db.transfers, s.ledger, s.now);
    }
  }

  lemma ExpireCashinsKeeps(p: Params, s: State)
    requires Inv(s) && CashInEnabled(p, s, ExpireCashins)
    ensures Inv(CashInStep(p, s, ExpireCashins))
  {
    var s' := CashInStep(p, s, ExpireCashins);
    forall t | 0 <= t < |s.db.transfers| ensures TransferOk(t, s'.db.transfers[t], s.db.wallets, s.ledger, s.now) {
      assert TransferOk(t, s.db.transfers[t], s.db.wallets, s.ledger, s.now);
      assert HistoryOk(t, s'.db.transfers[t], s.ledger);
    }
    ExpiryKeepsPayments(s, s');
    ExpiryKeepsSettlers(s, s');
    ExpiryKeepsPages(s, s');
  }

  lemma PayClaimKeeps(s: State, j: nat, t: nat)
    requires Inv(s) && SettleEnabled(s, j, PayClaim(t))
    ensures Inv(SettleStep(s, j, PayClaim(t)))
  {
    var s' := SettleStep(s, j, PayClaim(t));
    assert TransferOk(t, s.db.transfers[t], s.db.wallets, s.ledger, s.now);
    SettlersIdle(s, s'.(settlers := s.settlers), t);
    StatusChange(s, s', t);
  }

  lemma ProvisionKeeps(s: State, j: nat, trust: bool)
    requires Inv(s) && SettleEnabled(s, j, Provision(trust))
    ensures Inv(SettleStep(s, j, Provision(trust)))
  {
    var s' := SettleStep(s, j, Provision(trust));
    ExtendsSame(s.ledger, s'.ledger);
    JobsIgnoreFates(s, s');
    LedgerChange(s, s');
  }

  lemma PayRefuseKeeps(s: State, j: nat)
    requires Inv(s) && SettleEnabled(s, j, PayRefuse)
    ensures Inv(SettleStep(s, j, PayRefuse))
  {
    var t := s.settlers[j].row;
    var s' := SettleStep(s, j, PayRefuse);
    assert PayJobOk(s.settlers[j], s.db.transfers, s.ledger);
    assert TransferOk(t, s.db.transfers[t], s.db.wallets, s.ledger, s.now);
    SettlersWithout(s, s', t);
    StatusChange(s, s', t);
  }

  lemma PayTransientKeeps(s: State, j: nat)
    requires Inv(s) && SettleEnabled(s, j, PayTransient)
    ensures Inv(SettleStep(s, j, PayTransient))
  {
    var t := s.settlers[j].row;
    var s' := SettleStep(s, j, PayTransient);
    assert PayJobOk(s.settlers[j], s.db.transfers, s.ledger);
    assert TransferOk(t, s.db.transfers[t], s.db.wallets, s.ledger, s.now);
    SettlersWithout(s, s', t);
    StatusChange(s, s', t);
  }

  lemma PaySendJobs(s: State, j: nat)
    requires Inv(s) && SettleEnabled(s, j, PaySend)
    ensures BurnersOk(SettleStep(s, j, PaySend)) && SettlersOk(SettleStep(s, j, PaySend))
  {
    var h := s.settlers[j].phase.hash;
    forall k | k in s.burners ensures s.burners[k].phase != Persisted(h) {
      assert BurnJobOk(s.burners[k], s.db.requests, s.published, s.ledger);
    }
    SubmitKeepsJobs(s, h, s.burners, SettleStep(s, j, PaySend).settlers);
  }

  /** Sending a persisted transaction changes nothing but that it was sent. */
  lemma SubmitKeeps(s: State, s': State, h: nat)
    requires Inv(s) && h < |s.ledger.txs|
             && s' == s.(ledger := Submit(s.ledger, h), burners := s'.burners, settlers := s'.settlers)
    requires BurnersOk(s') && SettlersOk(s') && Timely(s')
    ensures Inv(s')
  {
    SubmitExtends(s.ledger, h);
    LedgerChange(s, s');
  }

  lemma PaySendKeeps(s: State, j: nat)
    requires Inv(s) && SettleEnabled(s, j, PaySend)
    ensures Inv(SettleStep(s, j, PaySend))
  {
    PaySendJobs(s, j);
    SubmitKeeps(s, SettleStep(s, j, PaySend), s.settlers[j].phase.hash);
  }

  lemma PayCrashKeeps(s: State, j: nat)
    requires Inv(s) && SettleEnabled(s, j, PayCrash)
    ensures Inv(SettleStep(s, j, PayCrash))
  {
  }

  // A newly signed transaction takes the next hash; nothing else in the register moves.

  lemma SettlersRegister(s: State, s': State, x: SignedTx, except: Option<nat>)
    requires SettlersOk(s) && s'.ledger == Register(s.ledger, x) && !x.sent
    requires except.None? ==> s'.settlers == s.settlers && s'.db.transfers == s.db.transfers
    requires except.Some? ==> (
      except.value in s.settlers && s.settlers[except.value].row < |s.db.transfers|
          && PayRegistered(s, s', except.value))
    ensures SettlersOk(s')
  {
    forall k | k in s'.settlers ensures PayJobOk(s'.settlers[k], s'.db.transfers, s'.ledger) {
      assert PayJobOk(s.settlers[k], s.db.transfers, s.ledger);
      if except != Some(k) {
        var phase := s.settlers[k].phase;
        if !phase.Claimed? { assert s'.ledger.txs[phase.hash] == s.ledger.txs[phase.hash]; }
      }
    }
  }

  predicate PayRegistered(s: State, s': State, j: nat)
    requires j in s.settlers && s.settlers[j].row < |s.db.transfers|
  {
    var t, h := s.settlers[j].row, |s.ledger.txs|;
    && |s'.db.transfers| == |s.db.transfers| && s'.db.transfers == s.db.transfers[t := s'.db.transfers[t]]
    && s'.db.transfers[t].hash == Some(h) && s'.db.transfers[t].status.Processing?
    && s.settlers[j].claimedAt <= s'.db.transfers[t].updatedAt
    && s'.settlers == s.settlers[j := s.settlers[j].(phase := Persisted(h))]
  }

  lemma BurnersRegister(s: State, s': State, x: SignedTx, except: Option<nat>)
    requires BurnersOk(s) && s'.ledger == Register(s.ledger, x) && !x.sent && s'.published == s.published
    requires except.None? ==> s'.burners == s.burners && s'.db.requests == s.db.requests
    requires except.Some? ==> (
      except.value in s.burners && s.burners[except.value].row < |s.db.requests| && BurnRegistered(s, s', except.value))
    ensures BurnersOk(s')
  {
    forall k | k in s'.burners ensures BurnJobOk(s'.burners[k], s'.db.requests, s'.published, s'.ledger) {
      assert BurnJobOk(s.burners[k], s.db.requests, s.published, s.ledger);
      if except != Some(k) {
        var phase := s.burners[k].phase;
        if !phase.Claimed? { assert s'.ledger.txs[phase.hash] == s.ledger.txs[phase.hash]; }
      }
    }
  }

  predicate BurnRegistered(s: State, s': State, j: nat)
    requires j in s.burners && s.burners[j].row < |s.db.requests|
  {
    var r, h := s.burners[j].row, |s.ledger.txs|;
    && |s'.db.requests| == |s.db.requests| && s'.db.requests == s.db.requests[r := s'.db.requests[r]]
    && s'.db.requests[r].hash == Some(h)
    && s'.burners == s.burners[j := s.burners[j].(phase := Persisted(h))]
  }

  lemma PaymentsRegister(s: State, transfers: seq<Transfer>, x: SignedTx)
    requires PayTxsOk(s.db.transfers, s.ledger) && |transfers| == |s.db.transfers|
    requires forall t, h: nat :: 0 <= t < |transfers| && PayTxOk(s.db.transfers, t, h) ==> PayTxOk(transfers, t, h)
    requires x.purpose.Pay? ==> PayTxOk(transfers, x.purpose.transfer, |s.ledger.txs|)
    ensures PayTxsOk(transfers, Register(s.ledger, x))
  {
    var l := Register(s.ledger, x);
    forall h | 0 <= h < |l.txs| && l.txs[h].purpose.Pay? ensures PayTxOk(transfers, l.txs[h].purpose.transfer, h) {
      if h < |s.ledger.txs| {
        assert l.txs[h] == s.ledger.txs[h];
        assert PayTxOk(s.db.transfers, l.txs[h].purpose.transfer, h);
      }
    }
  }

  lemma BurnsRegister(s: State, requests: seq<CashOut>, x: SignedTx)
    requires BurnTxsOk(s.db.requests, s.ledger) && |requests| == |s.db.requests|
    requires forall r :: 0 <= r < |requests| && s.db.requests[r].hash.Some? ==>
             requests[r].hash == s.db.requests[r].hash
    requires x.purpose.Burn? ==>
               x.purpose.request < |requests| && requests[x.purpose.request].hash == Some(|s.ledger.txs|)
    ensures BurnTxsOk(requests, Register(s.ledger, x))
  {
    var l := Register(s.ledger, x);
    forall h | 0 <= h < |l.txs| && l.txs[h].purpose.Burn?
      ensures l.txs[h].purpose.request < |requests| && requests[l.txs[h].purpose.request].hash == Some(h)
    {
      if h < |s.ledger.txs| { assert l.txs[h] == s.ledger.txs[h]; }
    }
  }

  lemma PaySignedRowOk(s: State, t: nat, y: Transfer, l: Ledger)
    requires t < |s.db.transfers| && s.db.transfers[t].hash.None?
    requires s.db.transfers[t].status.Processing? || s.db.transfers[t].status.Unsettled?
    requires TransferOk(t, s.db.transfers[t], s.db.wallets, s.ledger, s.now)
    requires TransferOk(t, s.db.transfers[t], s.db.wallets, l, s.now)
    requires s.db.transfers[t].recipient in s.db.wallets && |s.ledger.txs| < |l.txs|
    requires var h := |s.ledger.txs|;
             && y == s.db.transfers[t].(hash := Some(h), last := y.last, submitted := y.submitted, updatedAt := s.now)
             && Carries(l.txs[h], Purpose.Pay(t), y.recipient, y.quote.uctusd, y.last, y.submitted)
    ensures TransferOk(t, y, s.db.wallets, l, s.now)
  {
    var x := s.db.transfers[t];
    forall k | 0 <= k < |y.history| ensures AttemptOk(t, y.history[k], l) && y.history[k].hash < |s.ledger.txs| {
      assert AttemptOk(t, x.history[k], s.ledger);
      assert AttemptOk(t, x.history[k], l);
    }
  }

  lemma PaySignedRows(s: State, j: nat, submitted: nat, last: Option<nat>, malformed: bool)
    requires Inv(s) && SettleEnabled(s, j, PayPersist(submitted, last, malformed))
    ensures var s' := SettleStep(s, j, PayPersist(submitted, last, malformed));
            && LedgerOk(s'.ledger)
            && RequestsOk(s'.db.requests, s'.db.wallets, s'.ledger)
            && TransfersOk(s'.db.transfers, s'.db.wallets, s'.ledger, s'.now)
            && AdminsOk(s')
  {
    var s' := SettleStep(s, j, PayPersist(submitted, last, malformed));
    var t := s.settlers[j].row;
    assert PayJobOk(s.settlers[j], s.db.transfers, s.ledger);
    assert TransferOk(t, s.db.transfers[t], s.db.wallets, s.ledger, s.now);
    RegisterExtends(s.ledger, PayTx(t, s.db.transfers[t], submitted, last, malformed));
    RowsExtend(s, s.db.wallets, s'.ledger, s.now);
    PaySignedRowOk(s, t, s'.db.transfers[t], s'.ledger);
    forall k | 0 <= k < |s'.db.transfers| && k != t
      ensures TransferOk(k, s'.db.transfers[k], s'.db.wallets, s'.ledger, s'.now)
    {
      assert s'.db.transfers[k] == s.db.transfers[k];
    }
    forall k | k in s.admins ensures AdminOk(s.admins[k], s.db.requests, s'.db.transfers, s'.ledger, s.now) {
      assert AdminOk(s.admins[k], s.db.requests, s.db.transfers, s'.ledger, s.now);
      AdminRewrite(s.admins[k], s.(ledger := s'.ledger), s'.db.transfers, t);
    }
  }

  lemma PaySignedJobs(s: State, j: nat, submitted: nat, last: Option<nat>, malformed: bool)
    requires Inv(s) && SettleEnabled(s, j, PayPersist(submitted, last, malformed))
    ensures var s' := SettleStep(s, j, PayPersist(submitted, last, malformed));
            BurnersOk(s') && SettlersOk(s') && PublishingOk(s') && Timely(s')
  {
    var s' := SettleStep(s, j, PayPersist(submitted, last, malformed));
    var t := s.settlers[j].row;
    assert PayJobOk(s.settlers[j], s.db.transfers, s.ledger);
    var x := PayTx(t, s.db.transfers[t], submitted, last, malformed);
    BurnersRegister(s, s', x, None);
    SettlersRegister(s, s', x, Some(j));
  }

  lemma PayPersistKeeps(s: State, j: nat, submitted: nat, last: Option<nat>, malformed: bool)
    requires Inv(s) && SettleEnabled(s, j, PayPersist(submitted, last, malformed))
    ensures Inv(SettleStep(s, j, PayPersist(submitted, last, malformed)))
  {
    var s' := SettleStep(s, j, PayPersist(submitted, last, malformed));
    var t := s.settlers[j].row;
    assert PayJobOk(s.settlers[j], s.db.transfers, s.ledger);
    var x := PayTx(t, s.db.transfers[t], submitted, last, malformed);
    PaySignedRows(s, j, submitted, last, malformed);
    PaySignedJobs(s, j, submitted, last, malformed);
    BurnsRegister(s, s.db.requests, x);
    forall u, h: nat | 0 <= u < |s'.db.transfers| && PayTxOk(s.db.transfers, u, h)
      ensures PayTxOk(s'.db.transfers, u, h)
    {
      assert u != t ==> s'.db.transfers[u] == s.db.transfers[u];
      assert s'.db.transfers[t].history == s.db.transfers[t].history;
    }
    PaymentsRegister(s, s'.db.transfers, x);
  }

  lemma PayResultStatus(s: State, j: nat, result: Resolution)
    requires Inv(s) && SettleEnabled(s, j, PayResult(result)) && s.db.transfers[s.settlers[j].row].status.Processing?
    ensures var t := s.settlers[j].row;
            var x, y := s.db.transfers[t], SettleStep(s, j, PayResult(result)).db.transfers[t];
            y == x.(status := y.status, updatedAt := s.now) && StatusOk(y, s.ledger)
  {
    var t := s.settlers[j].row;
    assert PayJobOk(s.settlers[j], s.db.transfers, s.ledger);
    assert TransferOk(t, s.db.transfers[t], s.db.wallets, s.ledger, s.now);
  }

  lemma PayResultJobs(s: State, j: nat, result: Resolution)
    requires SettlersOk(s) && SettleEnabled(s, j, PayResult(result))
    ensures SettlersOk(SettleStep(s, j, PayResult(result)))
  {
    assert PayJobOk(s.settlers[j], s.db.transfers, s.ledger);
    SettlersWithout(s, SettleStep(s, j, PayResult(result)), s.settlers[j].row);
  }

  lemma PayResultKeeps(s: State, j: nat, result: Resolution)
    requires Inv(s) && SettleEnabled(s, j, PayResult(result))
    ensures Inv(SettleStep(s, j, PayResult(result)))
  {
    PayResultJobs(s, j, result);
    if s.db.transfers[s.settlers[j].row].status.Processing? {
      PayResultStatus(s, j, result);
      StatusChange(s, SettleStep(s, j, PayResult(result)), s.settlers[j].row);
    } else {
      LateResultKeeps(s, j, result);
    }
  }

  /** A result that comes after the row was settled changes nothing. */
  lemma LateResultKeeps(s: State, j: nat, result: Resolution)
    requires Inv(s) && SettleEnabled(s, j, PayResult(result)) && !s.db.transfers[s.settlers[j].row].status.Processing?
    ensures SettleStep(s, j, PayResult(result)) == s.(settlers := s.settlers - {j})
    ensures Inv(SettleStep(s, j, PayResult(result)))
  {
    PayResultJobs(s, j, result);
  }

  lemma AppendRequestJobs(s: State, s': State)
    requires BurnersOk(s) && SettlersOk(s) && PublishingOk(s) && AdminsOk(s)
    requires s' == s.(db := s.db.(requests := s'.db.requests)) && s.db.requests <= s'.db.requests
    ensures BurnersOk(s') && SettlersOk(s') && PublishingOk(s') && AdminsOk(s')
  {
    forall j | j in s.admins ensures AdminOk(s.admins[j], s'.db.requests, s.db.transfers, s.ledger, s.now) {
      assert AdminOk(s.admins[j], s.db.requests, s.db.transfers, s.ledger, s.now);
    }
    forall j | j in s.burners ensures BurnJobOk(s.burners[j], s'.db.requests, s.published, s.ledger) {
      assert BurnJobOk(s.burners[j], s.db.requests, s.published, s.ledger);
    }
  }

  lemma AppendRequestKeeps(s: State, s': State)
    requires Inv(s) && s' == s.(db := s.db.(requests := s'.db.requests)) && |s'.db.requests| == |s.db.requests| + 1
    requires s'.db.requests == s.db.requests + [s'.db.requests[|s.db.requests|]]
    requires RequestOk(|s.db.requests|, s'.db.requests[|s.db.requests|], s.db.wallets, s.ledger)
    ensures Inv(s')
  {
    assert forall r :: 0 <= r < |s.db.requests| ==> s'.db.requests[r] == s.db.requests[r];
    AppendRequestJobs(s, s');
  }

  lemma RequestKeeps(s: State, d: CashOutEvent)
    requires Inv(s) && CashOutEnabled(s, d) && d.Request?
    ensures Inv(CashOutStep(s, d))
  {
    var s' := CashOutStep(s, d);
    FxLaws.PricedCashoutIsPositive(d.config, d.amount, d.currency);
    AppendRequestKeeps(s, s');
  }

  /** A request that is not approved has no publisher, no message and no worker. */
  lemma RequestedIsIdle(s: State, r: nat)
    requires Inv(s) && r < |s.db.requests| && s.db.requests[r].status.Requested?
    ensures r !in s.publishing && r !in s.published
    ensures forall j :: j in s.burners ==> s.burners[j].row != r
  {
    forall j | j in s.burners ensures s.burners[j].row != r {
      assert BurnJobOk(s.burners[j], s.db.requests, s.published, s.ledger);
    }
  }

  lemma ApproveJobs(s: State, r: nat)
    requires Inv(s) && CashOutEnabled(s, CashOutEvent.Approve(r))
    ensures var s' := CashOutStep(s, CashOutEvent.Approve(r)); BurnersOk(s') && PublishingOk(s') && Timely(s')
  {
    RequestedIsIdle(s, r);
    BurnersWithout(s, CashOutStep(s, CashOutEvent.Approve(r)), r);
  }

  lemma ApproveKeeps(s: State, r: nat)
    requires Inv(s) && CashOutEnabled(s, CashOutEvent.Approve(r))
    ensures Inv(CashOutStep(s, CashOutEvent.Approve(r)))
  {
    var s' := CashOutStep(s, CashOutEvent.Approve(r));
    assert RequestOk(r, s.db.requests[r], s.db.wallets, s.ledger);
    ApproveJobs(s, r);
    RequestChange(s, s', r);
  }

  lemma RejectKeeps(s: State, r: nat)
    requires Inv(s) && CashOutEnabled(s, CashOutEvent.Reject(r))
    ensures Inv(CashOutStep(s, CashOutEvent.Reject(r)))
  {
    assert RequestOk(r, s.db.requests[r], s.db.wallets, s.ledger);
    RequestedIsIdle(s, r);
    RequestCommitKeeps(s, CashOutStep(s, CashOutEvent.Reject(r)), r);
  }

  lemma PublishOkKeeps(s: State, r: nat)
    requires Inv(s) && CashOutEnabled(s, CashOutEvent.PublishOk(r))
    ensures Inv(CashOutStep(s, CashOutEvent.PublishOk(r)))
  {
  }

  lemma PublishFailsKeeps(s: State, r: nat)
    requires Inv(s) && CashOutEnabled(s, CashOutEvent.PublishFails(r))
    ensures Inv(CashOutStep(s, CashOutEvent.PublishFails(r)))
  {
    RestoreUnsignedKeeps(s, CashOutStep(s, PublishFails(r)), r);
  }

  lemma PublishDiesKeeps(s: State, r: nat)
    requires Inv(s) && CashOutEnabled(s, CashOutEvent.PublishDies(r))
    ensures Inv(CashOutStep(s, CashOutEvent.PublishDies(r)))
  {
  }

  lemma SweepKeeps(s: State, r: nat)
    requires Inv(s) && CashOutEnabled(s, CashOutEvent.Sweep(r))
    ensures Inv(CashOutStep(s, CashOutEvent.Sweep(r)))
  {
  }

  /** A claimable row has no live worker: its claim is absent, or older than any live job. */
  lemma ClaimableIsIdle(s: State, r: nat)
    requires Inv(s) && r < |s.db.requests| && BurnClaimable(s.db.requests[r], s.now)
    ensures forall j :: j in s.burners ==> s.burners[j].row != r
  {
    forall j | j in s.burners ensures s.burners[j].row != r {
      assert BurnJobOk(s.burners[j], s.db.requests, s.published, s.ledger);
    }
  }

  lemma BurnClaimJobs(s: State, j: nat, r: nat)
    requires Inv(s) && BurnEnabled(s, j, BurnClaim(r))
    ensures var s' := BurnStep(s, j, BurnClaim(r)); BurnersOk(s') && PublishingOk(s') && Timely(s')
  {
    var s' := BurnStep(s, j, BurnClaim(r));
    ClaimableIsIdle(s, r);
    forall k | k in s'.burners ensures BurnJobOk(s'.burners[k], s'.db.requests, s'.published, s'.ledger) {
      if k != j { assert BurnJobOk(s.burners[k], s.db.requests, s.published, s.ledger); }
    }
  }

  lemma BurnClaimKeeps(s: State, j: nat, r: nat)
    requires Inv(s) && BurnEnabled(s, j, BurnClaim(r))
    ensures Inv(BurnStep(s, j, BurnClaim(r)))
  {
    var s' := BurnStep(s, j, BurnClaim(r));
    assert RequestOk(r, s.db.requests[r], s.db.wallets, s.ledger);
    BurnClaimJobs(s, j, r);
    assert RequestOk(r, s'.db.requests[r], s.db.wallets, s.ledger);
    RequestChange(s, s', r);
  }

  lemma BurnRefuseKeeps(s: State, j: nat)
    requires Inv(s) && BurnEnabled(s, j, BurnRefuse)
    ensures Inv(BurnStep(s, j, BurnRefuse))
  {
    assert BurnJobOk(s.burners[j], s.db.requests, s.published, s.ledger);
    RestoreUnsignedKeeps(s, BurnStep(s, j, BurnRefuse), s.burners[j].row);
  }

  lemma BurnTransientKeeps(s: State, j: nat)
    requires Inv(s) && BurnEnabled(s, j, BurnTransient)
    ensures Inv(BurnStep(s, j, BurnTransient))
  {
    var r := s.burners[j].row;
    var s' := BurnStep(s, j, BurnTransient);
    assert BurnJobOk(s.burners[j], s.db.requests, s.published, s.ledger);
    if MAX_ATTEMPTS <= s.burners[j].attempts {
      RestoreUnsignedKeeps(s, s', r);
    } else {
      assert RequestOk(r, s.db.requests[r], s.db.wallets, s.ledger);
      RequestCommitKeeps(s, s', r);
    }
  }

  lemma BurnSendJobs(s: State, j: nat)
    requires Inv(s) && BurnEnabled(s, j, BurnSend)
    ensures BurnersOk(BurnStep(s, j, BurnSend)) && SettlersOk(BurnStep(s, j, BurnSend))
  {
    var h := s.burners[j].phase.hash;
    forall k | k in s.settlers ensures s.settlers[k].phase != Persisted(h) {
      assert PayJobOk(s.settlers[k], s.db.transfers, s.ledger);
    }
    SubmitKeepsJobs(s, h, BurnStep(s, j, BurnSend).burners, s.settlers);
  }

  lemma BurnSendKeeps(s: State, j: nat)
    requires Inv(s) && BurnEnabled(s, j, BurnSend)
    ensures Inv(BurnStep(s, j, BurnSend))
  {
    BurnSendJobs(s, j);
    SubmitKeeps(s, BurnStep(s, j, BurnSend), s.burners[j].phase.hash);
  }

  lemma BurnCrashKeeps(s: State, j: nat)
    requires Inv(s) && BurnEnabled(s, j, BurnCrash)
    ensures Inv(BurnStep(s, j, BurnCrash))
  {
  }

  lemma BurnSignedRows(s: State, j: nat, submitted: nat, last: Option<nat>, malformed: bool)
    requires Inv(s) && BurnEnabled(s, j, BurnPersist(submitted, last, malformed))
    ensures var s' := BurnStep(s, j, BurnPersist(submitted, last, malformed));
            && LedgerOk(s'.ledger)
            && RequestsOk(s'.db.requests, s'.db.wallets, s'.ledger)
            && TransfersOk(s'.db.transfers, s'.db.wallets, s'.ledger, s'.now)
            && AdminsOk(s')
  {
    var s' := BurnStep(s, j, BurnPersist(submitted, last, malformed));
    var r := s.burners[j].row;
    assert BurnJobOk(s.burners[j], s.db.requests, s.published, s.ledger);
    assert RequestOk(r, s.db.requests[r], s.db.wallets, s.ledger);
    RegisterExtends(s.ledger, BurnTx(r, s.db.requests[r], submitted, last, malformed));
    RowsExtend(s, s.db.wallets, s'.ledger, s.now);
    AdminsIgnoreUnsigned(s, s'.db.requests, r, s'.ledger);
    BurnSignedRequests(s.db.requests, s'.db.requests, r, s.db.wallets, s'.ledger);
  }

  lemma BurnSignedRequests(requests: seq<CashOut>, after: seq<CashOut>, r: nat, wallets: map<nat, Wallet>, l: Ledger)
    requires RequestsOk(requests, wallets, l)
    requires r < |requests| == |after| && after == requests[r := after[r]] && RequestOk(r, after[r], wallets, l)
    ensures RequestsOk(after, wallets, l)
  {
    forall k | 0 <= k < |after| ensures RequestOk(k, after[k], wallets, l) {
      if k != r { assert after[k] == requests[k]; }
    }
  }

  /** No admin page is about a request that nothing was signed for. */
  lemma AdminsIgnoreUnsigned(s: State, requests: seq<CashOut>, r: nat, l: Ledger)
    requires AdminsOk(s) && r < |s.db.requests| == |requests| && requests == s.db.requests[r := requests[r]]
    requires s.db.requests[r].hash.None?
    requires forall k :: k in s.admins ==> AdminOk(s.admins[k], s.db.requests, s.db.transfers, l, s.now)
    ensures forall k :: k in s.admins ==> AdminOk(s.admins[k], requests, s.db.transfers, l, s.now)
  {
    forall k | k in s.admins ensures AdminOk(s.admins[k], requests, s.db.transfers, l, s.now) {
      assert AdminOk(s.admins[k], s.db.requests, s.db.transfers, s.ledger, s.now);
      assert AdminOk(s.admins[k], s.db.requests, s.db.transfers, l, s.now);
    }
  }

  lemma BurnSignedJobs(s: State, j: nat, submitted: nat, last: Option<nat>, malformed: bool)
    requires Inv(s) && BurnEnabled(s, j, BurnPersist(submitted, last, malformed))
    ensures var s' := BurnStep(s, j, BurnPersist(submitted, last, malformed));
            BurnersOk(s') && SettlersOk(s') && PublishingOk(s') && Timely(s')
  {
    var s' := BurnStep(s, j, BurnPersist(submitted, last, malformed));
    var r := s.burners[j].row;
    assert BurnJobOk(s.burners[j], s.db.requests, s.published, s.ledger);
    var x := BurnTx(r, s.db.requests[r], submitted, last, malformed);
    BurnersRegister(s, s', x, Some(j));
    SettlersRegister(s, s', x, None);
  }

  lemma BurnPersistKeeps(s: State, j: nat, submitted: nat, last: Option<nat>, malformed: bool)
    requires Inv(s) && BurnEnabled(s, j, BurnPersist(submitted, last, malformed))
    ensures Inv(BurnStep(s, j, BurnPersist(submitted, last, malformed)))
  {
    var r := s.burners[j].row;
    assert BurnJobOk(s.burners[j], s.db.requests, s.published, s.ledger);
    var x := BurnTx(r, s.db.requests[r], submitted, last, malformed);
    BurnSignedRows(s, j, submitted, last, malformed);
    BurnSignedJobs(s, j, submitted, last, malformed);
    BurnsRegister(s, BurnStep(s, j, BurnPersist(submitted, last, malformed)).db.requests, x);
    PaymentsRegister(s, s.db.transfers, x);
  }

  lemma BurnResultKeeps(s: State, j: nat, result: Resolution)
    requires Inv(s) && BurnEnabled(s, j, BurnResult(result))
    ensures Inv(BurnStep(s, j, BurnResult(result)))
  {
    assert BurnJobOk(s.burners[j], s.db.requests, s.published, s.ledger);
    FinaliseKeeps(s, BurnStep(s, j, BurnResult(result)), s.burners[j].row, s.burners[j].phase.hash);
  }

  lemma ReconcileReadKeeps(s: State, j: nat, r: nat)
    requires Inv(s) && AdminEnabled(s, j, ReconcileRead(r))
    ensures Inv(AdminStep(s, j, ReconcileRead(r)))
  {
  }

  lemma RetryReadKeeps(s: State, j: nat, t: nat)
    requires Inv(s) && AdminEnabled(s, j, RetryRead(t))
    ensures Inv(AdminStep(s, j, RetryRead(t)))
  {
  }

  lemma ReconcileLookKeeps(s: State, j: nat, view: View, answer: Option<string>)
    requires Inv(s) && AdminEnabled(s, j, ReconcileLook(view, answer))
    ensures Inv(AdminStep(s, j, ReconcileLook(view, answer)))
  {
    var page := s.admins[j];
    assert AdminOk(page, s.db.requests, s.db.transfers, s.ledger, s.now);
    VerdictSound(s.ledger.txs[page.seenRequest.hash.value], s.ledger.index, view, answer);
    var s' := AdminStep(s, j, ReconcileLook(view, answer));
    if j in s'.admins { PageChange(s, j, s'.admins[j]); } else { FewerAdmins(s, j); }
  }

  lemma RetryLookKeeps(s: State, j: nat, view: View, answer: Option<string>)
    requires Inv(s) && AdminEnabled(s, j, RetryLook(view, answer))
    ensures Inv(AdminStep(s, j, RetryLook(view, answer)))
  {
    var page := s.admins[j];
    assert AdminOk(page, s.db.requests, s.db.transfers, s.ledger, s.now);
    if page.seen.hash.Some? {
      var x := s.ledger.txs[page.seen.hash.value];
      if answer.None? && ProvablyDead(x.last, Some(x.submittedAt), view) { DeathProofSound(x, s.ledger.index, view); }
    }
    var s' := AdminStep(s, j, RetryLook(view, answer));
    if j in s'.admins { PageChange(s, j, s'.admins[j]); } else { FewerAdmins(s, j); }
  }

  lemma ReconcileCommitKeeps(s: State, j: nat)
    requires Inv(s) && AdminEnabled(s, j, ReconcileCommit)
    ensures Inv(AdminStep(s, j, ReconcileCommit))
  {
    var page := s.admins[j];
    assert AdminOk(page, s.db.requests, s.db.transfers, s.ledger, s.now);
    var s' := AdminStep(s, j, ReconcileCommit);
    FinaliseKeeps(s, s.(db := s'.db), page.request, page.hash);
    FewerAdmins(s.(db := s'.db), j);
  }

  lemma ArchivedIsDead(s: State, t: nat, h: nat)
    requires Inv(s) && t < |s.db.transfers| && Archived(s.db.transfers[t], h)
    ensures h < |s.ledger.txs| && Dead(s.ledger.txs[h], s.ledger.index)
  {
    var x := s.db.transfers[t];
    assert TransferOk(t, x, s.db.wallets, s.ledger, s.now);
    var k :| 0 <= k < |x.history| && x.history[k].hash == h;
    assert AttemptOk(t, x.history[k], s.ledger);
  }

  /** A payment that succeeded is the live attempt of its row. */
  lemma LandedIsLive(s: State, t: nat, h: nat)
    requires Inv(s) && h < |s.ledger.txs| && s.ledger.txs[h].purpose == Purpose.Pay(t) && Success(s.ledger.txs[h])
    ensures t < |s.db.transfers| && s.db.transfers[t].hash == Some(h)
  {
    assert PayTxOk(s.db.transfers, t, h);
    if s.db.transfers[t].hash != Some(h) { ArchivedIsDead(s, t, h); }
  }

  lemma CreditKeeps(s: State, s': State, t: nat, h: nat, from: SettlementStatus)
    requires Inv(s) && Fresh(s, t) && h < |s.ledger.txs| && (from.Unsettled? || from.Processing?)
    requires s.ledger.txs[h].purpose == Purpose.Pay(t) && Success(s.ledger.txs[h])
    requires s' == s.(db := CompleteSettlement(s.db, t, h, s.now, from))
    ensures Inv(s')
  {
    LandedIsLive(s, t, h);
    var x := s.db.transfers[t];
    assert TransferOk(t, x, s.db.wallets, s.ledger, s.now);
    if x.status == from {
      forall j | j in s.settlers && s.settlers[j].row == t ensures PayJobOk(s.settlers[j], s'.db.transfers, s.ledger) {
        assert PayJobOk(s.settlers[j], s.db.transfers, s.ledger);
      }
      SettlersWithout(s, s', t);
      StatusChange(s, s', t);
    }
  }

  /** The archive keeps every attempt, in order, each dead. */
  lemma ResentRowOk(s: State, t: nat)
    requires Inv(s) && Fresh(s, t) && Retryable(s.db.transfers[t], s.now)
    requires var x := s.db.transfers[t]; x.hash.Some? ==> Dead(s.ledger.txs[x.hash.value], s.ledger.index)
    ensures var x := s.db.transfers[t]; var y := Resend(s.db, t, x, s.now).transfers[t];
            TransferOk(t, y, s.db.wallets, s.ledger, s.now) && Rewritten(x, y, s.now)
  {
    var x := s.db.transfers[t];
    var y := Resend(s.db, t, x, s.now).transfers[t];
    assert TransferOk(t, x, s.db.wallets, s.ledger, s.now);
    forall k | 0 <= k < |y.history| ensures AttemptOk(t, y.history[k], s.ledger) {
      if k < |x.history| { assert AttemptOk(t, x.history[k], s.ledger); }
    }
    forall h: nat | x.hash == Some(h) || Archived(x, h) ensures Archived(y, h) {
      if x.hash == Some(h) {
        assert y.history[|x.history|].hash == h;
      } else {
        var k :| 0 <= k < |x.history| && x.history[k].hash == h;
        assert y.history[k].hash == h;
      }
    }
  }

  lemma ResendKeeps(s: State, s': State, t: nat, seen: Transfer)
    requires Inv(s) && Fresh(s, t) && AdminOk(PayDead(t, seen), s.db.requests, s.db.transfers, s.ledger, s.now)
    requires s' == s.(db := Resend(s.db, t, seen, s.now))
    ensures Inv(s')
  {
    var x := s.db.transfers[t];
    if x.status == seen.status && x.updatedAt == seen.updatedAt {
      ResentRowOk(s, t);
      forall j | j in s.settlers ensures s.settlers[j].row != t {
        assert PayJobOk(s.settlers[j], s.db.transfers, s.ledger);
      }
      SettlersWithout(s, s', t);
      TransferChange(s, s', t);
    }
  }

  lemma RetryCommitKeeps(s: State, j: nat)
    requires Inv(s) && AdminEnabled(s, j, RetryCommit)
    ensures Inv(AdminStep(s, j, RetryCommit))
  {
    var page := s.admins[j];
    assert AdminOk(page, s.db.requests, s.db.transfers, s.ledger, s.now);
    var s' := AdminStep(s, j, RetryCommit);
    if page.PayLanded? {
      CreditKeeps(s, s.(db := s'.db), page.transfer, page.hash, page.from);
    } else {
      ResendKeeps(s, s.(db := s'.db), page.transfer, page.seen);
    }
    FewerAdmins(s.(db := s'.db), j);
  }

  lemma LeaveKeeps(s: State, j: nat)
    requires Inv(s) && AdminEnabled(s, j, Leave)
    ensures Inv(AdminStep(s, j, Leave))
  {
  }

  lemma WorldKeeps(s: State, w: WorldEvent)
    requires Inv(s) && WorldEnabled(s, w)
    ensures Inv(WorldStep(s, w))
  {
    match w
    case Tick(dt) => TickKeeps(s, dt);
    case CloseLedger => CloseKeeps(s);
    case Include(h, code) => IncludeKeeps(s, h, code);
  }

  lemma CashInKeeps(p: Params, s: State, c: CashInEvent)
    requires Inv(s) && CashInEnabled(p, s, c)
    ensures Inv(CashInStep(p, s, c))
  {
    match c
    case Book(_, _, _, _, _, _, _, _, _) => BookKeeps(p, s, c);
    case Receive(t) => ReceiveKeeps(p, s, t);
    case Decline(t) => DeclineKeeps(p, s, t);
    case ExpireCashins => ExpireCashinsKeeps(p, s);
    case PublishRaises(t) => PublishRaisesKeeps(p, s, t);
  }

  lemma SettleKeeps(s: State, j: nat, e: SettleEvent)
    requires Inv(s) && SettleEnabled(s, j, e)
    ensures Inv(SettleStep(s, j, e))
  {
    match e
    case PayClaim(t) => PayClaimKeeps(s, j, t);
    case Provision(trust) => ProvisionKeeps(s, j, trust);
    case PayRefuse => PayRefuseKeeps(s, j);
    case PayTransient => PayTransientKeeps(s, j);
    case PayPersist(submitted, last, malformed) => PayPersistKeeps(s, j, submitted, last, malformed);
    case PaySend => PaySendKeeps(s, j);
    case PayResult(result) => PayResultKeeps(s, j, result);
    case PayCrash => PayCrashKeeps(s, j);
  }

  lemma CashOutKeeps(s: State, d: CashOutEvent)
    requires Inv(s) && CashOutEnabled(s, d)
    ensures Inv(CashOutStep(s, d))
  {
    match d
    case Request(_, _, _, _, _) => RequestKeeps(s, d);
    case Approve(r) => ApproveKeeps(s, r);
    case Reject(r) => RejectKeeps(s, r);
    case PublishOk(r) => PublishOkKeeps(s, r);
    case PublishFails(r) => PublishFailsKeeps(s, r);
    case PublishDies(r) => PublishDiesKeeps(s, r);
    case Sweep(r) => SweepKeeps(s, r);
  }

  lemma BurnKeeps(s: State, j: nat, e: BurnEvent)
    requires Inv(s) && BurnEnabled(s, j, e)
    ensures Inv(BurnStep(s, j, e))
  {
    match e
    case BurnClaim(r) => BurnClaimKeeps(s, j, r);
    case BurnRefuse => BurnRefuseKeeps(s, j);
    case BurnTransient => BurnTransientKeeps(s, j);
    case BurnPersist(submitted, last, malformed) => BurnPersistKeeps(s, j, submitted, last, malformed);
    case BurnSend => BurnSendKeeps(s, j);
    case BurnResult(result) => BurnResultKeeps(s, j, result);
    case BurnCrash => BurnCrashKeeps(s, j);
  }

  lemma AdminKeeps(s: State, j: nat, m: AdminEvent)
    requires Inv(s) && AdminEnabled(s, j, m)
    ensures Inv(AdminStep(s, j, m))
  {
    match m
    case ReconcileRead(r) => ReconcileReadKeeps(s, j, r);
    case ReconcileLook(view, answer) => ReconcileLookKeeps(s, j, view, answer);
    case ReconcileCommit => ReconcileCommitKeeps(s, j);
    case RetryRead(t) => RetryReadKeeps(s, j, t);
    case RetryLook(view, answer) => RetryLookKeeps(s, j, view, answer);
    case RetryCommit => RetryCommitKeeps(s, j);
    case Leave => LeaveKeeps(s, j);
  }

  lemma StepKeepsInv(p: Params, s: State, a: Action)
    requires Inv(s) && Enabled(p, s, a)
    ensures Inv(Step(p, s, a))
  {
    match a
    case World(w) => WorldKeeps(s, w);
    case CashInDesk(c) => CashInKeeps(p, s, c);
    case Settler(j, e) => SettleKeeps(s, j, e);
    case CashOutDesk(d) => CashOutKeeps(s, d);
    case Burner(j, e) => BurnKeeps(s, j, e);
    case Administrator(j, m) => AdminKeeps(s, j, m);
  }

  /** The invariant holds at the end of every run, however the actors interleave. */
  lemma {:induction false} RunKeepsInv(p: Params, s: State, run: seq<Action>)
    requires Inv(s) && Play(p, s, run).Some?
    ensures Inv(Play(p, s, run).value)
    decreases |run|
  {
    if run != [] {
      StepKeepsInv(p, s, run[0]);
      RunKeepsInv(p, Step(p, s, run[0]), run[1..]);
    }
  }
}
