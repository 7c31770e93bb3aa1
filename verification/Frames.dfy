/** Which parts of the invariant survive which kinds of change. */
module Frames {
  import opened Wrappers
  import opened Outcomes
  import opened Xrpl
  import opened Rows
  import opened Machine
  import opened Invariant

  // ---------------------------------------------------------------- the ledger moves on

  /** What never changes about a signed transaction, and what is final. */
  predicate Continues(x: SignedTx, index: nat, y: SignedTx, later: nat) {
    && y == x.(sent := y.sent, fate := y.fate)
    && (x.fate.Included? ==> y.fate == x.fate)
    && (Dead(x, index) ==> Dead(y, later))
  }

  ghost predicate Extends(l: Ledger, m: Ledger) {
    && |l.txs| <= |m.txs|
    && forall h :: 0 <= h < |l.txs| ==> Continues(l.txs[h], l.index, m.txs[h], m.index)
  }

  lemma RequestExtends(r: nat, q: CashOut, w: map<nat, Wallet>, v: map<nat, Wallet>, l: Ledger, m: Ledger)
    requires RequestOk(r, q, w, l) && Extends(l, m) && w.Keys <= v.Keys
    ensures RequestOk(r, q, v, m)
  {
    if q.hash.Some? { assert Continues(l.txs[q.hash.value], l.index, m.txs[q.hash.value], m.index); }
  }

  lemma HistoryExtends(t: nat, x: Transfer, l: Ledger, m: Ledger)
    requires HistoryOk(t, x, l) && Extends(l, m)
    ensures HistoryOk(t, x, m)
  {
    forall k | 0 <= k < |x.history| ensures AttemptOk(t, x.history[k], m) {
      assert AttemptOk(t, x.history[k], l);
      var h := x.history[k].hash;
      assert Continues(l.txs[h], l.index, m.txs[h], m.index);
    }
  }

  lemma TransferExtends(t: nat, x: Transfer, w: map<nat, Wallet>, v: map<nat, Wallet>, l: Ledger, m: Ledger,
      now: nat, later: nat)
    requires TransferOk(t, x, w, l, now) && Extends(l, m) && w.Keys <= v.Keys && now <= later
    ensures TransferOk(t, x, v, m, later)
  {
    HistoryExtends(t, x, l, m);
    if x.hash.Some? { assert Continues(l.txs[x.hash.value], l.index, m.txs[x.hash.value], m.index); }
  }

  lemma AdminExtends(a: Admin, requests: seq<CashOut>, transfers: seq<Transfer>, l: Ledger, m: Ledger, now: nat,
      later: nat)
    requires AdminOk(a, requests, transfers, l, now) && Extends(l, m) && now <= later
    ensures AdminOk(a, requests, transfers, m, later)
  {
    match a
    case BurnSeen(r, q) => assert Continues(l.txs[q.hash.value], l.index, m.txs[q.hash.value], m.index);
    case BurnJudged(r, h, landed) => assert Continues(l.txs[h], l.index, m.txs[h], m.index);
    case PaySeen(t, seen) =>
      if seen.hash.Some? { assert Continues(l.txs[seen.hash.value], l.index, m.txs[seen.hash.value], m.index); }
    case PayLanded(t, h, from) => assert Continues(l.txs[h], l.index, m.txs[h], m.index);
    case PayDead(t, seen) =>
      if seen.hash.Some? { assert Continues(l.txs[seen.hash.value], l.index, m.txs[seen.hash.value], m.index); }
  }

  /** Rows and admin pages stay right while the ledger, the wallets and the clock move on. */
  lemma RowsExtend(s: State, wallets: map<nat, Wallet>, m: Ledger, later: nat)
    requires Inv(s) && Extends(s.ledger, m) && s.db.wallets.Keys <= wallets.Keys && s.now <= later
    ensures RequestsOk(s.db.requests, wallets, m)
    ensures TransfersOk(s.db.transfers, wallets, m, later)
    ensures forall j :: j in s.admins ==> AdminOk(s.admins[j], s.db.requests, s.db.transfers, m, later)
  {
    forall r | 0 <= r < |s.db.requests| ensures RequestOk(r, s.db.requests[r], wallets, m) {
      RequestExtends(r, s.db.requests[r], s.db.wallets, wallets, s.ledger, m);
    }
    forall t | 0 <= t < |s.db.transfers| ensures TransferOk(t, s.db.transfers[t], wallets, m, later) {
      TransferExtends(t, s.db.transfers[t], s.db.wallets, wallets, s.ledger, m, s.now, later);
    }
    forall j | j in s.admins ensures AdminOk(s.admins[j], s.db.requests, s.db.transfers, m, later) {
      AdminExtends(s.admins[j], s.db.requests, s.db.transfers, s.ledger, m, s.now, later);
    }
  }

  lemma ExtendsSame(l: Ledger, m: Ledger)
    requires m.txs == l.txs && l.index <= m.index
    ensures Extends(l, m)
  {
  }

  // ---------------------------------------------------------------- one request row changes

  /** Everything but request `r`, wallet balances, workers and publishers is as before. */
  ghost predicate OnlyRequest(s: State, s': State, r: nat) {
    && s'.now == s.now && s'.ledger == s.ledger && s'.admins == s.admins && s'.settlers == s.settlers
    && s'.db.transfers == s.db.transfers && s'.db.wallets.Keys == s.db.wallets.Keys
    && r < |s.db.requests| == |s'.db.requests| && s'.db.requests == s.db.requests[r := s'.db.requests[r]]
  }

  lemma RequestChange(s: State, s': State, r: nat)
    requires Inv(s) && OnlyRequest(s, s', r)
    requires s'.db.requests[r].hash == s.db.requests[r].hash
    requires RequestOk(r, s'.db.requests[r], s'.db.wallets, s.ledger)
    requires Timely(s') && BurnersOk(s') && PublishingOk(s')
    ensures Inv(s')
  {
    ExtendsSame(s.ledger, s.ledger);
    RowsExtend(s, s'.db.wallets, s.ledger, s.now);
    forall k | 0 <= k < |s'.db.requests| ensures RequestOk(k, s'.db.requests[k], s'.db.wallets, s.ledger) {
      if k != r { assert s'.db.requests[k] == s.db.requests[k]; }
    }
    forall j | j in s'.admins ensures AdminOk(s'.admins[j], s'.db.requests, s'.db.transfers, s'.ledger, s'.now) {
      assert AdminOk(s.admins[j], s.db.requests, s.db.transfers, s.ledger, s.now);
    }
    assert SettlersOk(s');
  }

  // ---------------------------------------------------------------- one transfer row changes

  ghost predicate OnlyTransfer(s: State, s': State, t: nat) {
    && s'.now == s.now && s'.ledger == s.ledger && s'.admins == s.admins && s'.burners == s.burners
    && s'.publishing == s.publishing && s'.published == s.published
    && s'.db.requests == s.db.requests && s'.db.wallets.Keys == s.db.wallets.Keys
    && t < |s.db.transfers| == |s'.db.transfers| && s'.db.transfers == s.db.transfers[t := s'.db.transfers[t]]
  }

  /** A rewritten row carries a new stamp and forgets no attempt. */
  ghost predicate Rewritten(x: Transfer, y: Transfer, now: nat) {
    && x.updatedAt < y.updatedAt == now
    && forall h: nat :: x.hash == Some(h) || Archived(x, h) ==> y.hash == Some(h) || Archived(y, h)
  }

  lemma AdminRewrite(a: Admin, s: State, transfers: seq<Transfer>, t: nat)
    requires AdminOk(a, s.db.requests, s.db.transfers, s.ledger, s.now)
    requires t < |s.db.transfers| == |transfers| && transfers == s.db.transfers[t := transfers[t]]
    requires s.db.transfers[t].updatedAt < transfers[t].updatedAt
    ensures AdminOk(a, s.db.requests, transfers, s.ledger, s.now)
  {
  }

  lemma TransferChange(s: State, s': State, t: nat)
    requires Inv(s) && OnlyTransfer(s, s', t)
    requires Rewritten(s.db.transfers[t], s'.db.transfers[t], s.now)
    requires TransferOk(t, s'.db.transfers[t], s'.db.wallets, s.ledger, s.now)
    requires Timely(s') && SettlersOk(s')
    ensures Inv(s')
  {
    ExtendsSame(s.ledger, s.ledger);
    RowsExtend(s, s'.db.wallets, s.ledger, s.now);
    forall k | 0 <= k < |s'.db.transfers| ensures TransferOk(k, s'.db.transfers[k], s'.db.wallets, s.ledger, s.now) {
      if k != t { assert s'.db.transfers[k] == s.db.transfers[k]; }
    }
    forall h | 0 <= h < |s.ledger.txs| && s.ledger.txs[h].purpose.Pay?
      ensures PayTxOk(s'.db.transfers, s.ledger.txs[h].purpose.transfer, h)
    {
      assert PayTxOk(s.db.transfers, s.ledger.txs[h].purpose.transfer, h);
    }
    forall j | j in s'.admins ensures AdminOk(s'.admins[j], s'.db.requests, s'.db.transfers, s'.ledger, s'.now) {
      AdminRewrite(s.admins[j], s, s'.db.transfers, t);
    }
    assert BurnersOk(s') && PublishingOk(s');
  }

  /** The common case: hash and history stay, and the new status fits the row. */
  lemma StatusChange(s: State, s': State, t: nat)
    requires Inv(s) && OnlyTransfer(s, s', t) && Fresh(s, t)
    requires var x, y := s.db.transfers[t], s'.db.transfers[t];
             y == x.(status := y.status, send := y.send, attempts := y.attempts, updatedAt := s.now)
                 && StatusOk(y, s.ledger)
    requires Timely(s') && SettlersOk(s')
    ensures Inv(s')
  {
    var x, y := s.db.transfers[t], s'.db.transfers[t];
    assert TransferOk(t, x, s.db.wallets, s.ledger, s.now);
    assert HistoryOk(t, y, s.ledger) by {
      forall k | 0 <= k < |y.history| ensures AttemptOk(t, y.history[k], s.ledger) {
        assert AttemptOk(t, x.history[k], s.ledger);
      }
    }
    TransferChange(s, s', t);
  }

  // ---------------------------------------------------------------- only the ledger, wallets, clock or pages change

  ghost predicate SameRows(s: State, s': State) {
    && s'.db.requests == s.db.requests && s'.db.transfers == s.db.transfers
    && s'.publishing == s.publishing && s'.published == s.published
  }

  lemma LedgerChange(s: State, s': State)
    requires Inv(s) && SameRows(s, s') && s'.admins == s.admins
    requires Extends(s.ledger, s'.ledger) && |s'.ledger.txs| == |s.ledger.txs| && LedgerOk(s'.ledger) && s.now <= s'.now
    requires s.db.wallets.Keys <= s'.db.wallets.Keys == s'.ledger.balances.Keys
    requires Timely(s') && BurnersOk(s') && SettlersOk(s')
    ensures Inv(s')
  {
    RowsExtend(s, s'.db.wallets, s'.ledger, s'.now);
    forall h | 0 <= h < |s.ledger.txs| ensures s'.ledger.txs[h].purpose == s.ledger.txs[h].purpose {
      assert Continues(s.ledger.txs[h], s.ledger.index, s'.ledger.txs[h], s'.ledger.index);
    }
    assert PublishingOk(s');
  }

  // ---------------------------------------------------------------- jobs

  /** Jobs only look at whether their own transaction has been sent. */
  lemma JobsIgnoreFates(s: State, s': State)
    requires BurnersOk(s) && SettlersOk(s) && SameRows(s, s')
    requires s'.burners == s.burners && s'.settlers == s.settlers
    requires |s'.ledger.txs| == |s.ledger.txs|
    requires forall h :: 0 <= h < |s.ledger.txs| ==> s'.ledger.txs[h].sent == s.ledger.txs[h].sent
    ensures BurnersOk(s') && SettlersOk(s')
  {
    forall j | j in s.burners ensures BurnJobOk(s.burners[j], s'.db.requests, s'.published, s'.ledger) {
      assert BurnJobOk(s.burners[j], s.db.requests, s.published, s.ledger);
    }
    forall j | j in s.settlers ensures PayJobOk(s.settlers[j], s'.db.transfers, s'.ledger) {
      assert PayJobOk(s.settlers[j], s.db.transfers, s.ledger);
    }
  }

  lemma ValidateExtends(l: Ledger, h: nat, code: string)
    requires LedgerOk(l) && h < |l.txs| && Includable(l.txs[h], l.index)
    requires code == SUCCESS ==> l.txs[h].account in l.balances
    ensures Extends(l, Validate(l, h, code)) && LedgerOk(Validate(l, h, code))
    ensures Validate(l, h, code).balances.Keys == l.balances.Keys
  {
    forall k | 0 <= k < |l.txs| ensures TxOk(Validate(l, h, code).txs[k], l.index) {
      assert TxOk(l.txs[k], l.index);
    }
  }

  lemma SubmitExtends(l: Ledger, h: nat)
    requires LedgerOk(l) && h < |l.txs|
    ensures Extends(l, Submit(l, h)) && LedgerOk(Submit(l, h))
  {
    forall k | 0 <= k < |l.txs| ensures TxOk(Submit(l, h).txs[k], l.index) {
      assert TxOk(l.txs[k], l.index);
    }
  }

  lemma RegisterExtends(l: Ledger, x: SignedTx)
    requires LedgerOk(l) && TxOk(x, l.index)
    ensures Extends(l, Register(l, x)) && LedgerOk(Register(l, x))
  {
    forall k | 0 <= k < |l.txs| ensures Continues(l.txs[k], l.index, Register(l, x).txs[k], l.index) {
      assert Register(l, x).txs[k] == l.txs[k];
    }
  }

  /** Submitting a persisted transaction disturbs no other job. */
  lemma SubmitKeepsJobs(s: State, h: nat, burners: map<nat, Job>, settlers: map<nat, Job>)
    requires BurnersOk(s) && SettlersOk(s) && h < |s.ledger.txs|
    requires burners.Keys <= s.burners.Keys && settlers.Keys <= s.settlers.Keys
    requires forall j :: j in burners ==> burners[j] == s.burners[j].(phase := burners[j].phase)
    requires forall j :: j in settlers ==> settlers[j] == s.settlers[j].(phase := settlers[j].phase)
    requires forall j :: j in burners ==>
      if s.burners[j].phase == Persisted(h) then burners[j].phase == Sent(h) else burners[j].phase == s.burners[j].phase
    requires forall j :: j in settlers ==>
      if s.settlers[j].phase == Persisted(h) then settlers[j].phase == Sent(h)
          else settlers[j].phase == s.settlers[j].phase
    ensures var s' := s.(ledger := Submit(s.ledger, h), burners := burners, settlers := settlers);
            BurnersOk(s') && SettlersOk(s')
  {
    var s' := s.(ledger := Submit(s.ledger, h), burners := burners, settlers := settlers);
    forall j | j in burners ensures BurnJobOk(burners[j], s'.db.requests, s'.published, s'.ledger) {
      assert BurnJobOk(s.burners[j], s.db.requests, s.published, s.ledger);
    }
    forall j | j in settlers ensures PayJobOk(settlers[j], s'.db.transfers, s'.ledger) {
      assert PayJobOk(s.settlers[j], s.db.transfers, s.ledger);
    }
  }

  /** Removing jobs, or keeping those of other rows while request `r` changes. */
  lemma BurnersWithout(s: State, s': State, r: nat)
    requires BurnersOk(s) && s'.ledger == s.ledger && s.published <= s'.published
    requires r < |s.db.requests| == |s'.db.requests| && s'.db.requests == s.db.requests[r := s'.db.requests[r]]
    requires s'.burners.Keys <= s.burners.Keys
    requires forall j :: j in s'.burners ==> s'.burners[j] == s.burners[j]
    requires forall j :: j in s'.burners && s.burners[j].row == r ==>
             BurnJobOk(s.burners[j], s'.db.requests, s'.published, s.ledger)
    ensures BurnersOk(s')
  {
    forall j | j in s'.burners ensures BurnJobOk(s'.burners[j], s'.db.requests, s'.published, s'.ledger) {
      assert BurnJobOk(s.burners[j], s.db.requests, s.published, s.ledger);
    }
  }

  lemma SettlersWithout(s: State, s': State, t: nat)
    requires SettlersOk(s) && s'.ledger == s.ledger
    requires t < |s.db.transfers| == |s'.db.transfers| && s'.db.transfers == s.db.transfers[t := s'.db.transfers[t]]
    requires s'.settlers.Keys <= s.settlers.Keys
    requires forall j :: j in s'.settlers ==> s'.settlers[j] == s.settlers[j]
    requires forall j :: j in s'.settlers && s.settlers[j].row == t ==>
             PayJobOk(s.settlers[j], s'.db.transfers, s.ledger)
    ensures SettlersOk(s')
  {
    forall j | j in s'.settlers ensures PayJobOk(s'.settlers[j], s'.db.transfers, s'.ledger) {
      assert PayJobOk(s.settlers[j], s.db.transfers, s.ledger);
    }
  }

  // ---------------------------------------------------------------- a commit on one request

  /** A commit that keeps the hash, after which jobs of other rows and publishers of other rows go on. */
  ghost predicate RequestCommit(s: State, s': State, r: nat) {
    && OnlyRequest(s, s', r)
    && s'.published == s.published && s'.publishing <= s.publishing && r !in s'.publishing
    && s'.burners.Keys <= s.burners.Keys
    && (forall j :: j in s'.burners ==> s'.burners[j] == s.burners[j])
  }

  lemma RequestCommitKeeps(s: State, s': State, r: nat)
    requires Inv(s) && RequestCommit(s, s', r)
    requires var q, q' := s.db.requests[r], s'.db.requests[r];
             q'.hash == q.hash && RequestOk(r, q', s.db.wallets, s.ledger) && !q'.status.Requested?
    requires forall j :: j in s'.burners && s.burners[j].row == r ==>
             BurnJobOk(s.burners[j], s'.db.requests, s.published, s.ledger)
    ensures Inv(s')
  {
    ExtendsSame(s.ledger, s.ledger);
    RequestExtends(r, s'.db.requests[r], s.db.wallets, s'.db.wallets, s.ledger, s.ledger);
    BurnersWithout(s, s', r);
    assert PublishingOk(s');
    RequestChange(s, s', r);
  }

  /** The three conditional transitions of an approved row, and the release of its claim, fit the row. */
  lemma ResolvedRowOk(s: State, r: nat, h: nat)
    requires Inv(s) && r < |s.db.requests| && s.db.requests[r].status.Approved? && s.db.requests[r].hash == Some(h)
    ensures RequestOk(r, HoldUnknown(s.db, r).requests[r], s.db.wallets, s.ledger)
    ensures Success(s.ledger.txs[h]) ==>
            RequestOk(r, CompleteBurn(s.db, r, h, s.now).requests[r], s.db.wallets, s.ledger)
    ensures Dead(s.ledger.txs[h], s.ledger.index) ==>
              RequestOk(r, FailAndRestore(s.db, r, Some(h)).requests[r], s.db.wallets, s.ledger)
  {
    assert RequestOk(r, s.db.requests[r], s.db.wallets, s.ledger);
  }

  /** Finalising a signed request by its own hash, whoever does it. */
  lemma FinaliseKeeps(s: State, s': State, r: nat, h: nat)
    requires Inv(s) && RequestCommit(s, s', r) && s.db.requests[r].hash == Some(h)
    requires h < |s.ledger.txs|
    requires || (s'.db == CompleteBurn(s.db, r, h, s.now) && Success(s.ledger.txs[h]))
             || (s'.db == FailAndRestore(s.db, r, Some(h)) && Dead(s.ledger.txs[h], s.ledger.index))
             || s'.db == HoldUnknown(s.db, r)
    ensures Inv(s')
  {
    assert RequestOk(r, s.db.requests[r], s.db.wallets, s.ledger);
    if s.db.requests[r].status.Approved? { ResolvedRowOk(s, r, h); }
    forall j | j in s'.burners && s.burners[j].row == r
      ensures BurnJobOk(s.burners[j], s'.db.requests, s.published, s.ledger)
    {
      assert BurnJobOk(s.burners[j], s.db.requests, s.published, s.ledger);
    }
    RequestCommitKeeps(s, s', r);
  }

  /** Restoring an approved request that nothing was signed for and nobody else is working on. */
  lemma RestoreUnsignedKeeps(s: State, s': State, r: nat)
    requires Inv(s) && RequestCommit(s, s', r) && s.db.requests[r].status.Approved? && s.db.requests[r].hash.None?
    requires s'.db == FailAndRestore(s.db, r, None)
    requires forall j :: j in s'.burners ==> s.burners[j].row != r
    ensures Inv(s')
  {
    assert RequestOk(r, s.db.requests[r], s.db.wallets, s.ledger);
    RequestCommitKeeps(s, s', r);
  }
}
