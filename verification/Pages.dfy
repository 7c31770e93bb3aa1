/** What an admin who has seen a payment land on the ledger can count on, however long the commit takes. */
module Pages {
  import opened Wrappers
  import opened Outcomes
  import opened Xrpl
  import opened Rows
  import opened Machine
  import opened Invariant
  import opened Frames
  import opened Preservation
  import opened History
  import opened Guarantees

  /** How one step may move a row: a settled one not at all, a retryable one only to settled or queued. */
  predicate Moves(x: Transfer, y: Transfer, now: nat, next: nat) {
    && (x.status.Settled? ==> y == x)
    && (Retryable(x, now) ==> y == x || y.status.Settled? || y.hash.None?)
    && (y.hash == x.hash || y.hash.None? || y.hash == Some(next))
  }

  ghost predicate RowsMove(s: State, v: State) {
    && |s.db.transfers| <= |v.db.transfers|
    && forall t :: 0 <= t < |s.db.transfers| ==> Moves(s.db.transfers[t], v.db.transfers[t], s.now, |s.ledger.txs|)
  }

  lemma SameTransfersMove(s: State, v: State)
    requires v.db.transfers == s.db.transfers
    ensures RowsMove(s, v)
  {
  }

  lemma OneTransferMoves(s: State, v: State, t: nat)
    requires t < |s.db.transfers| == |v.db.transfers| && v.db.transfers == s.db.transfers[t := v.db.transfers[t]]
    requires Moves(s.db.transfers[t], v.db.transfers[t], s.now, |s.ledger.txs|)
    ensures RowsMove(s, v)
  {
  }

  lemma CashInMoves(p: Params, s: State, c: CashInEvent)
    requires Inv(s) && CashInEnabled(p, s, c)
    ensures RowsMove(s, CashInStep(p, s, c))
  {
    var v := CashInStep(p, s, c);
    forall t | 0 <= t < |s.db.transfers| ensures Moves(s.db.transfers[t], v.db.transfers[t], s.now, |s.ledger.txs|) {
      assert TransferOk(t, s.db.transfers[t], s.db.wallets, s.ledger, s.now);
    }
  }

  /** A retryable row is in no worker's hands. */
  lemma RetryableIsIdle(s: State, j: nat)
    requires Inv(s) && j in s.settlers
    ensures SettlerAt(s, j) && !Retryable(s.db.transfers[s.settlers[j].row], s.now)
  {
    assert PayJobOk(s.settlers[j], s.db.transfers, s.ledger);
  }

  lemma SettleMoves(s: State, j: nat, e: SettleEvent)
    requires Inv(s) && SettleEnabled(s, j, e)
    ensures RowsMove(s, SettleStep(s, j, e))
  {
    if e.PayClaim? {
      OneTransferMoves(s, SettleStep(s, j, e), e.t);
    } else {
      RetryableIsIdle(s, j);
      assert PayJobOk(s.settlers[j], s.db.transfers, s.ledger);
      WorkerMoves(s, j, e);
    }
  }

  lemma WorkerMoves(s: State, j: nat, e: SettleEvent)
    requires SettleEnabled(s, j, e) && !e.PayClaim? && !Retryable(s.db.transfers[s.settlers[j].row], s.now)
    requires var x := s.db.transfers[s.settlers[j].row];
             if s.settlers[j].phase.Claimed? then !x.status.Settled? else x.hash == Some(s.settlers[j].phase.hash)
    ensures RowsMove(s, SettleStep(s, j, e))
  {
    OneTransferMoves(s, SettleStep(s, j, e), s.settlers[j].row);
  }

  lemma OthersMove(s: State, v: State, a: Action, p: Params)
    requires Enabled(p, s, a) && v == Step(p, s, a) && (a.World? || a.CashOutDesk? || a.Burner?)
    ensures v.db.transfers == s.db.transfers
  {
    match a
    case World(w) =>
    case CashOutDesk(d) => CashOutLeaves(s, d);
    case Burner(j, e) => BurnLeaves(s, j, e);
  }

  lemma CashOutLeaves(s: State, d: CashOutEvent)
    requires CashOutEnabled(s, d)
    ensures CashOutStep(s, d).db.transfers == s.db.transfers && CashOutStep(s, d).admins == s.admins
  {
  }

  lemma BurnLeaves(s: State, j: nat, e: BurnEvent)
    requires BurnEnabled(s, j, e)
    ensures BurnStep(s, j, e).db.transfers == s.db.transfers && BurnStep(s, j, e).admins == s.admins
  {
  }

  lemma RetryCommitMoves(s: State, j: nat)
    requires Inv(s) && AdminEnabled(s, j, RetryCommit)
    ensures RowsMove(s, AdminStep(s, j, RetryCommit))
  {
    var page := s.admins[j];
    assert AdminOk(page, s.db.requests, s.db.transfers, s.ledger, s.now);
    if page.PayLanded? { LandedIsLive(s, page.transfer, page.hash); }
    OneTransferMoves(s, AdminStep(s, j, RetryCommit), page.transfer);
  }

  lemma AdminMoves(s: State, j: nat, m: AdminEvent)
    requires Inv(s) && AdminEnabled(s, j, m)
    ensures RowsMove(s, AdminStep(s, j, m))
  {
    if m.RetryCommit? {
      RetryCommitMoves(s, j);
    } else {
      PagesMoveNothing(s, j, m);
      SameTransfersMove(s, AdminStep(s, j, m));
    }
  }

  lemma PagesMoveNothing(s: State, j: nat, m: AdminEvent)
    requires AdminEnabled(s, j, m) && !m.RetryCommit?
    ensures AdminStep(s, j, m).db.transfers == s.db.transfers
  {
  }

  lemma StepMoves(p: Params, s: State, a: Action)
    requires Inv(s) && Enabled(p, s, a)
    ensures RowsMove(s, Step(p, s, a))
  {
    match a
    case CashInDesk(c) => CashInMoves(p, s, c);
    case Settler(j, e) => SettleMoves(s, j, e);
    case Administrator(j, m) => AdminMoves(s, j, m);
    case _ =>
      OthersMove(s, Step(p, s, a), a, p);
      SameTransfersMove(s, Step(p, s, a));
  }

  // ---------------------------------------------------------------- pages

  /** What was read is still so, or the row was settled or signed anew; a landed payment's row only gets settled. */
  predicate Fits(page: Admin, transfers: seq<Transfer>, now: nat) {
    match page
    case PaySeen(t, seen) =>
      && t < |transfers|
      && (seen.hash.Some? ==> transfers[t] == seen || transfers[t].status.Settled? || transfers[t].hash != seen.hash)
    case PayLanded(t, h, from) =>
      && t < |transfers|
      && (transfers[t].status.Settled? || (transfers[t].status == from && Retryable(transfers[t], now)))
    case _ => true
  }

  ghost predicate PagesFit(s: State) { forall j :: j in s.admins ==> Fits(s.admins[j], s.db.transfers, s.now) }

  lemma SeenPageFits(s: State, v: State, page: Admin)
    requires page.PaySeen? && AdminOk(page, s.db.requests, s.db.transfers, s.ledger, s.now)
    requires Fits(page, s.db.transfers, s.now) && RowsMove(s, v)
    ensures Fits(page, v.db.transfers, v.now)
  {
    assert Moves(s.db.transfers[page.transfer], v.db.transfers[page.transfer], s.now, |s.ledger.txs|);
  }

  lemma LandedPageFits(s: State, v: State, page: Admin)
    requires page.PayLanded? && AdminOk(page, s.db.requests, s.db.transfers, s.ledger, s.now)
    requires Fits(page, s.db.transfers, s.now) && RowsMove(s, v) && s.now <= v.now
    requires Inv(v) && Extends(s.ledger, v.ledger)
    ensures Fits(page, v.db.transfers, v.now)
  {
    assert Moves(s.db.transfers[page.transfer], v.db.transfers[page.transfer], s.now, |s.ledger.txs|);
    assert Continues(s.ledger.txs[page.hash], s.ledger.index, v.ledger.txs[page.hash], v.ledger.index);
    LandedIsLive(v, page.transfer, page.hash);
  }

  lemma OldPageFits(s: State, v: State, j: nat)
    requires Inv(s) && j in s.admins && Fits(s.admins[j], s.db.transfers, s.now)
    requires RowsMove(s, v) && s.now <= v.now && Inv(v) && Extends(s.ledger, v.ledger)
    ensures Fits(s.admins[j], v.db.transfers, v.now)
  {
    assert AdminOk(s.admins[j], s.db.requests, s.db.transfers, s.ledger, s.now);
    if s.admins[j].PaySeen? { SeenPageFits(s, v, s.admins[j]); }
    else if s.admins[j].PayLanded? { LandedPageFits(s, v, s.admins[j]); }
  }

  lemma LookedPageFits(s: State, j: nat, view: View, answer: Option<string>)
    requires Inv(s) && AdminEnabled(s, j, RetryLook(view, answer)) && Fits(s.admins[j], s.db.transfers, s.now)
    requires j in AdminStep(s, j, RetryLook(view, answer)).admins
    ensures Fits(AdminStep(s, j, RetryLook(view, answer)).admins[j], s.db.transfers, s.now)
  {
    var page := s.admins[j];
    assert AdminOk(page, s.db.requests, s.db.transfers, s.ledger, s.now);
    if page.seen.hash.Some? && answer == Some(SUCCESS) { LandedIsLive(s, page.transfer, page.seen.hash.value); }
  }

  lemma OpenedPageFits(s: State, j: nat, m: AdminEvent)
    requires AdminEnabled(s, j, m) && j in AdminStep(s, j, m).admins && !m.RetryCommit? && !m.RetryLook?
    ensures Fits(AdminStep(s, j, m).admins[j], s.db.transfers, s.now)
  {
  }

  lemma NewPageFits(s: State, j: nat, m: AdminEvent)
    requires Inv(s) && AdminEnabled(s, j, m) && (j in s.admins ==> Fits(s.admins[j], s.db.transfers, s.now))
    requires j in AdminStep(s, j, m).admins && !m.RetryCommit?
    ensures Fits(AdminStep(s, j, m).admins[j], s.db.transfers, s.now)
  {
    if m.RetryLook? { LookedPageFits(s, j, m.view, m.answer); } else { OpenedPageFits(s, j, m); }
  }

  /** Only an admin's own step touches the admin's page. */
  lemma PagesAfter(p: Params, s: State, a: Action, k: nat)
    requires Enabled(p, s, a) && k in Step(p, s, a).admins && (a.Administrator? ==> a.j != k)
    ensures k in s.admins && Step(p, s, a).admins[k] == s.admins[k]
  {
    match a
    case CashOutDesk(d) => CashOutLeaves(s, d);
    case Burner(j, e) => BurnLeaves(s, j, e);
    case Administrator(j, m) => OwnPageOnly(s, j, m, k);
    case Settler(j, e) => SettleLeaves(s, j, e);
    case _ =>
  }

  lemma SettleLeaves(s: State, j: nat, e: SettleEvent)
    requires SettleEnabled(s, j, e)
    ensures SettleStep(s, j, e).admins == s.admins
  {
  }

  lemma OwnPageOnly(s: State, j: nat, m: AdminEvent, k: nat)
    requires AdminEnabled(s, j, m) && k in AdminStep(s, j, m).admins && k != j
    ensures k in s.admins && AdminStep(s, j, m).admins[k] == s.admins[k]
  {
  }

  lemma CommitClosesPage(s: State, j: nat)
    requires AdminEnabled(s, j, RetryCommit)
    ensures j !in AdminStep(s, j, RetryCommit).admins
  {
  }

  lemma StepKeepsPages(p: Params, s: State, a: Action)
    requires Inv(s) && PagesFit(s) && Enabled(p, s, a)
    ensures PagesFit(Step(p, s, a))
  {
    var v := Step(p, s, a);
    StepMoves(p, s, a);
    StepKeepsInv(p, s, a);
    StepEvolves(p, s, a);
    forall k | k in v.admins ensures Fits(v.admins[k], v.db.transfers, v.now) {
      if a.Administrator? && a.j == k {
        if a.m.RetryCommit? { CommitClosesPage(s, k); }
        NewPageFits(s, k, a.m);
        PagesMoveNothing(s, k, a.m);
        PagesStayPut(s, k, a.m);
      } else {
        PagesAfter(p, s, a, k);
        OldPageFits(s, v, k);
      }
    }
  }

  lemma {:induction false} RunKeepsPages(p: Params, s: State, run: seq<Action>)
    requires Inv(s) && PagesFit(s) && Play(p, s, run).Some?
    ensures PagesFit(Play(p, s, run).value)
    decreases |run|
  {
    if run != [] {
      StepKeepsPages(p, s, run[0]);
      StepKeepsInv(p, s, run[0]);
      RunKeepsPages(p, Step(p, s, run[0]), run[1..]);
    }
  }

  /**
   Every retry that has seen its payment landed ends with the row settled, whoever else is alive and
   whatever they did since; and it credits the recipient in full unless that was done already.
  */
  lemma RetryCommitSettles(p: Params, before: seq<Action>, s: State, j: nat)
    requires Reaches(p, before, s) && AdminEnabled(s, j, RetryCommit) && s.admins[j].PayLanded?
    ensures var t, v := s.admins[j].transfer, AdminStep(s, j, RetryCommit);
            && t < |s.db.transfers| && t < |v.db.transfers| && v.db.transfers[t].status.Settled?
            && var x := s.db.transfers[t];
               && x.recipient in s.db.wallets && x.recipient in v.db.wallets
               && v.db.wallets[x.recipient].balance
               == s.db.wallets[x.recipient].balance + (if x.status.Settled? then 0 else x.quote.uctusd)
  {
    RunKeepsInv(p, INIT, before);
    RunKeepsPages(p, INIT, before);
    var page := s.admins[j];
    assert AdminOk(page, s.db.requests, s.db.transfers, s.ledger, s.now);
    assert Fits(page, s.db.transfers, s.now);
    LandedIsLive(s, page.transfer, page.hash);
    assert TransferOk(page.transfer, s.db.transfers[page.transfer], s.db.wallets, s.ledger, s.now);
  }
}
