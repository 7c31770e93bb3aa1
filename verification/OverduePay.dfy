/** E2 for settlements: a worker that outlives its claim signs, persists (unconditionally) and sends a payment. */
module OverduePay {
  import opened Wrappers
  import opened Outcomes
  import opened Xrpl
  import opened Rows
  import opened Machine
  import opened Invariant
  import opened Frames
  import opened Preservation
  import opened Guarantees
  import opened Progress
  import opened Delivery
  import opened Witness
  import History
  import Overdue

  function LatePayPersist(s: State, t: nat, submitted: nat, last: Option<nat>, malformed: bool): State
    requires t < |s.db.transfers|
  {
    s.(db := RememberPay(s.db, t, |s.ledger.txs|, last, submitted, s.now),
       ledger := Register(s.ledger, PayTx(t, s.db.transfers[t], submitted, last, malformed)))
  }

  function LatePay(s: State, t: nat, submitted: nat, last: Option<nat>, malformed: bool): State
    requires t < |s.db.transfers|
  {
    var u := LatePayPersist(s, t, submitted, last, malformed);
    u.(ledger := Submit(u.ledger, |s.ledger.txs|))
  }

  /**
   Every payment signed for `t` is on its row, only the live one has landed or still can, and a row with a
   live payment can be completed, failed or retried.
  */
  ghost predicate SoundlyPaid(s: State, t: nat) {
    && t < |s.db.transfers|
    && var x := s.db.transfers[t];
       && (x.hash.Some? ==> x.status.Processing? || x.status.Unsettled? || x.status.Settled?)
       && forall h :: 0 <= h < |s.ledger.txs| && s.ledger.txs[h].purpose == Purpose.Pay(t) ==> RightlyPaid(s, t, h)
  }

  predicate RightlyPaid(s: State, t: nat, h: nat)
    requires t < |s.db.transfers| && h < |s.ledger.txs|
  {
    && PayTxOk(s.db.transfers, t, h)
    && (s.db.transfers[t].hash != Some(h) ==> !Success(s.ledger.txs[h]) && !Includable(s.ledger.txs[h], s.ledger.index))
  }

  /** Whatever the worker signs, and however the run goes on, the transaction stays soundly paid. */
  ghost predicate LatePayIsSafe(p: Params, s: State, t: nat)
    requires t < |s.db.transfers|
  {
    forall submitted: nat, last: Option<nat>, malformed: bool, run: seq<Action> ::
      submitted <= s.ledger.index && Play(p, LatePay(s, t, submitted, last, malformed), run).Some?
      ==> SoundlyPaid(Play(p, LatePay(s, t, submitted, last, malformed), run).value, t)
  }

  predicate OnRow(s: State, t: nat) { exists j :: j in s.settlers && s.settlers[j].row == t }

  /** An unsigned row that is processing or failed, and in nobody's hands. */
  predicate Abandoned(s: State, t: nat) {
    && t < |s.db.transfers| && s.db.transfers[t].hash.None? && !OnRow(s, t)
    && (s.db.transfers[t].status.Processing? || s.db.transfers[t].status.Unsettled?)
  }

  // ---------------------------------------------------------------- when it is safe

  lemma LatePersistKeepsRows(s: State, t: nat, submitted: nat, last: Option<nat>, malformed: bool)
    requires Inv(s) && Abandoned(s, t) && Fresh(s, t) && s.db.transfers[t].recipient in s.db.wallets
    ensures var u := LatePayPersist(s, t, submitted, last, malformed);
            && LedgerOk(u.ledger) && RequestsOk(u.db.requests, u.db.wallets, u.ledger)
            && TransfersOk(u.db.transfers, u.db.wallets, u.ledger, u.now) && AdminsOk(u)
  {
    var u := LatePayPersist(s, t, submitted, last, malformed);
    assert TransferOk(t, s.db.transfers[t], s.db.wallets, s.ledger, s.now);
    RegisterExtends(s.ledger, PayTx(t, s.db.transfers[t], submitted, last, malformed));
    RowsExtend(s, s.db.wallets, u.ledger, s.now);
    PaySignedRowOk(s, t, u.db.transfers[t], u.ledger);
    forall k | 0 <= k < |u.db.transfers| && k != t
      ensures TransferOk(k, u.db.transfers[k], u.db.wallets, u.ledger, u.now)
    {
      assert u.db.transfers[k] == s.db.transfers[k];
    }
    forall j | j in s.admins ensures AdminOk(s.admins[j], s.db.requests, u.db.transfers, u.ledger, s.now) {
      assert AdminOk(s.admins[j], s.db.requests, s.db.transfers, u.ledger, s.now);
      AdminRewrite(s.admins[j], s.(ledger := u.ledger), u.db.transfers, t);
    }
  }

  lemma LatePersistKeepsTxs(s: State, t: nat, submitted: nat, last: Option<nat>, malformed: bool)
    requires Inv(s) && Abandoned(s, t)
    ensures var u := LatePayPersist(s, t, submitted, last, malformed);
            BurnTxsOk(u.db.requests, u.ledger) && PayTxsOk(u.db.transfers, u.ledger)
  {
    var u := LatePayPersist(s, t, submitted, last, malformed);
    var x := PayTx(t, s.db.transfers[t], submitted, last, malformed);
    BurnsRegister(s, s.db.requests, x);
    forall k, h: nat | 0 <= k < |u.db.transfers| && PayTxOk(s.db.transfers, k, h)
      ensures PayTxOk(u.db.transfers, k, h)
    {
      assert k != t ==> u.db.transfers[k] == s.db.transfers[k];
      assert u.db.transfers[t].history == s.db.transfers[t].history;
    }
    PaymentsRegister(s, u.db.transfers, x);
  }

  lemma LatePersistKeepsJobs(s: State, t: nat, submitted: nat, last: Option<nat>, malformed: bool)
    requires Inv(s) && t < |s.db.transfers| && !OnRow(s, t)
    ensures var u := LatePayPersist(s, t, submitted, last, malformed); BurnersOk(u) && SettlersOk(u)
    ensures forall j :: j in s.burners ==> s.burners[j].phase != Persisted(|s.ledger.txs|)
    ensures forall j :: j in s.settlers ==> s.settlers[j].phase != Persisted(|s.ledger.txs|)
  {
    var u := LatePayPersist(s, t, submitted, last, malformed);
    forall j | j in s.burners
      ensures BurnJobOk(s.burners[j], u.db.requests, u.published, u.ledger)
      ensures s.burners[j].phase != Persisted(|s.ledger.txs|)
    {
      assert BurnJobOk(s.burners[j], s.db.requests, s.published, s.ledger);
    }
    forall j | j in s.settlers
      ensures PayJobOk(s.settlers[j], u.db.transfers, u.ledger)
      ensures s.settlers[j].phase != Persisted(|s.ledger.txs|)
    {
      assert PayJobOk(s.settlers[j], s.db.transfers, s.ledger);
    }
  }

  lemma LatePersistKeepsInv(s: State, t: nat, submitted: nat, last: Option<nat>, malformed: bool)
    requires Inv(s) && Abandoned(s, t) && Fresh(s, t) && s.db.transfers[t].recipient in s.db.wallets
    ensures Inv(LatePayPersist(s, t, submitted, last, malformed))
  {
    LatePersistKeepsRows(s, t, submitted, last, malformed);
    LatePersistKeepsTxs(s, t, submitted, last, malformed);
    LatePersistKeepsJobs(s, t, submitted, last, malformed);
    assert PublishingOk(LatePayPersist(s, t, submitted, last, malformed));
  }

  lemma LatePayKeepsInv(s: State, t: nat, submitted: nat, last: Option<nat>, malformed: bool)
    requires Inv(s) && Abandoned(s, t) && Fresh(s, t) && s.db.transfers[t].recipient in s.db.wallets
    ensures Inv(LatePay(s, t, submitted, last, malformed))
  {
    LatePersistKeepsInv(s, t, submitted, last, malformed);
    LatePersistKeepsJobs(s, t, submitted, last, malformed);
    Overdue.SubmitLateKeeps(LatePayPersist(s, t, submitted, last, malformed), |s.ledger.txs|);
  }

  lemma InvPaysSoundly(s: State, t: nat)
    requires Inv(s) && t < |s.db.transfers|
    ensures SoundlyPaid(s, t)
  {
    assert TransferOk(t, s.db.transfers[t], s.db.wallets, s.ledger, s.now);
    forall h | 0 <= h < |s.ledger.txs| && s.ledger.txs[h].purpose == Purpose.Pay(t) ensures RightlyPaid(s, t, h) {
      assert PayTxOk(s.db.transfers, t, h);
      if s.db.transfers[t].hash != Some(h) { ArchivedIsDead(s, t, h); }
    }
  }

  // ---------------------------------------------------------------- when it is not

  /** The live payment of the row is overwritten. */
  lemma LiveHashIsLost(p: Params, s: State, t: nat)
    requires Inv(s) && t < |s.db.transfers| && s.db.transfers[t].hash.Some?
    ensures !LatePayIsSafe(p, s, t)
  {
    var u, h := LatePay(s, t, s.ledger.index, None, false), s.db.transfers[t].hash.value;
    assert TransferOk(t, s.db.transfers[t], s.db.wallets, s.ledger, s.now);
    assert u.ledger.txs[h] == s.ledger.txs[h] && u.db.transfers[t].history == s.db.transfers[t].history;
    assert Play(p, u, []) == Some(u);
    assert !RightlyPaid(u, t, h);
  }

  /** A queued row gets a hash under which nobody can claim or retry it. */
  lemma QueuedIsJammed(p: Params, s: State, t: nat)
    requires t < |s.db.transfers| && (s.db.transfers[t].status.Queued? || s.db.transfers[t].status.NotQueued?)
    ensures !LatePayIsSafe(p, s, t)
  {
    var u := LatePay(s, t, s.ledger.index, None, false);
    assert Play(p, u, []) == Some(u);
    assert !SoundlyPaid(u, t);
  }

  /** The owner of the row provides the wallet and signs as well. */
  lemma OwnerSigns(p: Params, s: State, t: nat, j: nat) returns (run: seq<Action>, v: State)
    requires SettlerAt(s, j) && s.settlers[j].row == t && s.settlers[j].phase.Claimed? && Slack(s, 1)
    ensures Play(p, LatePay(s, t, s.ledger.index, None, false), run) == Some(v)
    ensures var h := |s.ledger.txs|;
            && t < |v.db.transfers| && v.db.transfers[t].history == s.db.transfers[t].history
            && |v.ledger.txs| == h + 2 && v.db.transfers[t].hash == Some(h + 1)
            && v.ledger.txs[h].purpose == Purpose.Pay(t)
  {
    var u := LatePay(s, t, s.ledger.index, None, false);
    run, v := Then(p, u, [], u, World(Tick(1)));
    run, v := Then(p, u, run, v, Settler(j, Provision(true)));
    run, v := Then(p, u, run, v, Settler(j, PayPersist(s.ledger.index, None, false)));
  }

  /** The late payment is lost sight of. */
  lemma BothPay(p: Params, s: State, t: nat, j: nat)
    requires SettlerAt(s, j) && s.settlers[j].row == t && s.settlers[j].phase.Claimed? && s.db.transfers[t].hash.None?
    requires Slack(s, 1) && HistoryOk(t, s.db.transfers[t], s.ledger)
    ensures !LatePayIsSafe(p, s, t)
  {
    var run, v := OwnerSigns(p, s, t, j);
    forall k | 0 <= k < |s.db.transfers[t].history| ensures s.db.transfers[t].history[k].hash != |s.ledger.txs| {
      assert AttemptOk(t, s.db.transfers[t].history[k], s.ledger);
    }
    assert !RightlyPaid(v, t, |s.ledger.txs|);
  }

  // ---------------------------------------------------------------- the exact condition

  /**
   In every reachable state, an overdue settlement worker that signs for a row keeps it soundly paid, over
   every continuation, if and only if the row is unsigned, processing or failed, and nobody alive works on
   it. (E7: its write has its own stamp, and nobody alive is in the last microsecond of its time.)
  */
  lemma LatePayExactly(p: Params, before: seq<Action>, s: State, t: nat)
    requires Reaches(p, before, s) && Fresh(s, t) && Slack(s, 1) && s.db.transfers[t].recipient in s.db.wallets
    ensures LatePayIsSafe(p, s, t) <==> Abandoned(s, t)
  {
    RunKeepsInv(p, INIT, before);
    var x := s.db.transfers[t];
    assert TransferOk(t, x, s.db.wallets, s.ledger, s.now);
    if x.hash.Some? {
      LiveHashIsLost(p, s, t);
    } else if x.status.Queued? || x.status.NotQueued? {
      QueuedIsJammed(p, s, t);
    } else if OnRow(s, t) {
      var j :| j in s.settlers && s.settlers[j].row == t;
      assert PayJobOk(s.settlers[j], s.db.transfers, s.ledger);
      BothPay(p, s, t, j);
    } else {
      AbandonedIsSafe(p, s, t);
    }
  }

  lemma AbandonedIsSafe(p: Params, s: State, t: nat)
    requires Inv(s) && Abandoned(s, t) && Fresh(s, t) && s.db.transfers[t].recipient in s.db.wallets
    ensures LatePayIsSafe(p, s, t)
  {
    forall submitted: nat, last: Option<nat>, malformed: bool, run: seq<Action>
      | submitted <= s.ledger.index && Play(p, LatePay(s, t, submitted, last, malformed), run).Some?
      ensures SoundlyPaid(Play(p, LatePay(s, t, submitted, last, malformed), run).value, t)
    {
      var u := LatePay(s, t, submitted, last, malformed);
      LatePayKeepsInv(s, t, submitted, last, malformed);
      RunKeepsInv(p, u, run);
      History.RunEvolves(p, u, run);
      InvPaysSoundly(Play(p, u, run).value, t);
    }
  }

  // ---------------------------------------------------------------- a run

  /** The late payment is on its way, and the owner's too. */
  lemma BothSendPay(p: Params, s: State, t: nat, j: nat) returns (run: seq<Action>, v: State)
    requires Ready(s, j, t) && Slack(s, 1)
    ensures Play(p, LatePay(s, t, s.ledger.index, None, false), run) == Some(v)
    ensures var h, x := |s.ledger.txs|, s.db.transfers[t];
            && v.ledger.balances == s.ledger.balances && v.ledger.index == s.ledger.index
            && v.ledger.txs == s.ledger.txs + [PayTx(t, x, s.ledger.index, None, false).(sent := true),
                                               PayTx(t, x, s.ledger.index, None, false).(sent := true)]
  {
    var u := LatePay(s, t, s.ledger.index, None, false);
    run, v := Then(p, u, [], u, World(Tick(1)));
    run, v := Then(p, u, run, v, Settler(j, PayPersist(s.ledger.index, None, false)));
    run, v := Then(p, u, run, v, Settler(j, PaySend));
  }

  /** Both succeed. */
  lemma PaysTwice(p: Params, s: State, t: nat, j: nat) returns (run: seq<Action>, v: State)
    requires Ready(s, j, t) && Slack(s, 1)
    ensures Play(p, LatePay(s, t, s.ledger.index, None, false), run) == Some(v)
    ensures var h := |s.ledger.txs|;
            && |v.ledger.txs| == h + 2 && v.ledger.txs[h].purpose == v.ledger.txs[h + 1].purpose == Purpose.Pay(t)
            && Success(v.ledger.txs[h]) && Success(v.ledger.txs[h + 1])
  {
    var u, h := LatePay(s, t, s.ledger.index, None, false), |s.ledger.txs|;
    run, v := BothSendPay(p, s, t, j);
    run, v := Then(p, u, run, v, World(CloseLedger));
    run, v := Then(p, u, run, v, World(Include(h, SUCCESS)));
    run, v := Then(p, u, run, v, World(Include(h + 1, SUCCESS)));
  }

  /** A worker has claimed the row and falls silent; ten minutes later an admin re-sends it. */
  lemma SilentAndResent() returns (before: seq<Action>, s: State)
    ensures Reaches(P, before, s) && Quiet(s) && |s.db.transfers| == 1 && s.db.transfers[0].status.Queued?
  {
    var u, rest;
    before := Queues();
    rest, u := Takes(P, OneQueued(), 0, 0, 100);
    PlayAppend(P, INIT, before, rest);
    before := before + rest;
    RunKeepsInv(P, INIT, before);
    rest, u := AllDie(P, u);
    PlayAppend(P, INIT, before, rest);
    before := before + rest;
    rest, u := BecomesRetryable(P, u, 0);
    PlayAppend(P, INIT, before, rest);
    before := before + rest;
    rest, s := Resends(P, u, 0, 0);
    PlayAppend(P, INIT, before, rest);
    before := before + rest;
  }

  /**
   Such a run from an empty platform: another worker claims the re-sent row, the first one signs all the
   same, and one remittance is paid twice.
  */
  lemma WithoutE2() returns (before: seq<Action>, s: State, run: seq<Action>, v: State, h: nat)
    ensures Reaches(P, before, s) && |s.db.transfers| == 1 && s.db.transfers[0].status.Processing? && Fresh(s, 0)
    ensures Play(P, LatePay(s, 0, s.ledger.index, None, false), run) == Some(v)
    ensures h + 1 < |v.ledger.txs| && v.ledger.txs[h].purpose == v.ledger.txs[h + 1].purpose == Purpose.Pay(0)
    ensures Success(v.ledger.txs[h]) && Success(v.ledger.txs[h + 1])
  {
    var u, rest;
    before, u := SilentAndResent();
    RunKeepsInv(P, INIT, before);
    assert TransferOk(0, u.db.transfers[0], u.db.wallets, u.ledger, u.now);
    rest, s := Takes(P, u, 1, 0, 100);
    PlayAppend(P, INIT, before, rest);
    before := before + rest;
    before, s := Then(P, INIT, before, s, World(Tick(1)));
    h := |s.ledger.txs|;
    run, v := PaysTwice(P, s, 0, 1);
  }
}
