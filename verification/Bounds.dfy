/** How often workers may try, and how much a sender may send, over every run. */
module Bounds {
  import opened Limits
  import opened Outcomes
  import opened Rows
  import opened Machine
  import opened Invariant
  import opened Preservation
  import opened History
  import opened Guarantees

  // ---------------------------------------------------------------- burn claims

  /**
   Claims of request `r`: three, plus one per worker that died; one fewer while it waits unsigned
   and unowned. Signed, unowned and with no worker lost, it is held for the ledger.
  */
  predicate ClaimsBounded(s: State, r: nat) {
    r < |s.db.requests| ==>
    var q := s.db.requests[r];
    && q.attempts <= MAX_ATTEMPTS + s.deaths[r]
    && (q.status.Approved? && q.hash.None? && !Worked(s, r) ==> q.attempts < MAX_ATTEMPTS + s.deaths[r])
    && (q.status.Approved? && q.hash.Some? && !Worked(s, r) && s.deaths[r] == 0 ==> q.held)
  }

  ghost predicate AllClaimsBounded(s: State) {
    forall r :: 0 <= r < |s.db.requests| ==> ClaimsBounded(s, r)
  }

  /** A step that adds no claim and takes no worker away from a row keeps its bound. */
  lemma ClaimsUntouched(s: State, s': State, r: nat)
    requires r < |s.db.requests| && r < |s'.db.requests| && ClaimsBounded(s, r)
    requires s'.db.requests[r].attempts == s.db.requests[r].attempts && s.deaths[r] <= s'.deaths[r]
    requires var q, q' := s.db.requests[r], s'.db.requests[r];
             q'.status.Approved? ==>
               q.status.Approved? && q'.hash == q.hash && q'.held == q.held && (Worked(s, r) ==> Worked(s', r))
    ensures ClaimsBounded(s', r)
  {
  }

  lemma StillWorked(s: State, s': State, j: nat, r: nat)
    requires s.burners.Keys - {j} <= s'.burners.Keys
    requires forall k :: k in s.burners && k != j ==> s'.burners[k] == s.burners[k]
    requires j in s.burners ==> s.burners[j].row != r
    ensures Worked(s, r) ==> Worked(s', r)
  {
    if Worked(s, r) {
      var k :| k in s.burners && s.burners[k].row == r;
      assert k in s'.burners && s'.burners[k].row == r;
    }
  }

  lemma ClaimKeepsClaims(s: State, j: nat, r: nat, row: nat)
    requires Inv(s) && AllClaimsBounded(s) && BurnEnabled(s, j, BurnClaim(row)) && r < |s.db.requests|
    ensures ClaimsBounded(BurnStep(s, j, BurnClaim(row)), r)
  {
    var s' := BurnStep(s, j, BurnClaim(row));
    assert ClaimsBounded(s, r);
    if row == r {
      ClaimableIsIdle(s, r);
      assert j in s'.burners && s'.burners[j].row == r;
    } else {
      StillWorked(s, s', j, r);
      ClaimsUntouched(s, s', r);
    }
  }

  lemma BurnKeepsClaims(s: State, j: nat, e: BurnEvent, r: nat)
    requires Inv(s) && AllClaimsBounded(s) && BurnEnabled(s, j, e) && r < |s.db.requests|
    ensures ClaimsBounded(BurnStep(s, j, e), r)
  {
    if e.BurnClaim? {
      ClaimKeepsClaims(s, j, r, e.r);
    } else {
      if s.burners[j].row == r { OwnerKeepsClaims(s, j, e); } else { StrangerKeepsClaims(s, j, e, r); }
    }
  }

  lemma OwnerKeepsClaims(s: State, j: nat, e: BurnEvent)
    requires Inv(s) && AllClaimsBounded(s) && BurnEnabled(s, j, e) && !e.BurnClaim?
    ensures ClaimsBounded(BurnStep(s, j, e), s.burners[j].row)
  {
    assert ClaimsBounded(s, s.burners[j].row);
    assert BurnJobOk(s.burners[j], s.db.requests, s.published, s.ledger);
    assert RequestOk(s.burners[j].row, s.db.requests[s.burners[j].row], s.db.wallets, s.ledger);
    match e
    case BurnPersist(_, _, _) => WorkerStays(s, j, e);
    case BurnSend => WorkerStays(s, j, e);
    case BurnCrash => WorkerDies(s, j);
    case BurnResult(result) => WorkerReports(s, j, result);
    case _ => WorkerGivesUp(s, j, e);
  }

  lemma WorkerStays(s: State, j: nat, e: BurnEvent)
    requires BurnEnabled(s, j, e) && (e.BurnPersist? || e.BurnSend?) && ClaimsBounded(s, s.burners[j].row)
    ensures ClaimsBounded(BurnStep(s, j, e), s.burners[j].row)
  {
    var s' := BurnStep(s, j, e);
    assert j in s'.burners && s'.burners[j].row == s.burners[j].row;
  }

  lemma WorkerDies(s: State, j: nat)
    requires BurnEnabled(s, j, BurnCrash) && ClaimsBounded(s, s.burners[j].row)
    ensures ClaimsBounded(BurnStep(s, j, BurnCrash), s.burners[j].row)
  {
  }

  lemma WorkerReports(s: State, j: nat, result: Resolution)
    requires BurnEnabled(s, j, BurnResult(result)) && ClaimsBounded(s, s.burners[j].row)
    requires s.db.requests[s.burners[j].row].hash.Some? && s.db.requests[s.burners[j].row].user in s.db.wallets
    ensures ClaimsBounded(BurnStep(s, j, BurnResult(result)), s.burners[j].row)
  {
  }

  lemma WorkerGivesUp(s: State, j: nat, e: BurnEvent)
    requires BurnEnabled(s, j, e) && (e.BurnRefuse? || e.BurnTransient?) && ClaimsBounded(s, s.burners[j].row)
    requires var q := s.db.requests[s.burners[j].row];
             q.user in s.db.wallets && q.hash.None? && q.status.Approved? && q.attempts == s.burners[j].attempts
    ensures ClaimsBounded(BurnStep(s, j, e), s.burners[j].row)
  {
  }

  lemma StrangerKeepsClaims(s: State, j: nat, e: BurnEvent, r: nat)
    requires AllClaimsBounded(s) && BurnEnabled(s, j, e) && !e.BurnClaim? && s.burners[j].row != r < |s.db.requests|
    ensures ClaimsBounded(BurnStep(s, j, e), r)
  {
    assert ClaimsBounded(s, r);
    StillWorked(s, BurnStep(s, j, e), j, r);
    ClaimsUntouched(s, BurnStep(s, j, e), r);
  }

  lemma CashOutKeepsClaims(s: State, d: CashOutEvent)
    requires Inv(s) && AllClaimsBounded(s) && CashOutEnabled(s, d)
    ensures AllClaimsBounded(CashOutStep(s, d))
  {
    var s' := CashOutStep(s, d);
    forall r | 0 <= r < |s'.db.requests| ensures ClaimsBounded(s', r) {
      if r < |s.db.requests| {
        assert ClaimsBounded(s, r) && RequestOk(r, s.db.requests[r], s.db.wallets, s.ledger);
        if Worked(s, r) {
          var k :| k in s.burners && s.burners[k].row == r;
          assert k in s'.burners && s'.burners[k].row == r;
        }
      }
    }
  }

  lemma SettleLeavesClaims(s: State, j: nat, e: SettleEvent)
    requires SettleEnabled(s, j, e)
    ensures var s' := SettleStep(s, j, e);
            s'.db.requests == s.db.requests && s'.burners == s.burners && s'.deaths == s.deaths
  {
  }

  lemma WorldLeavesClaims(s: State, w: WorldEvent)
    requires WorldEnabled(s, w)
    ensures var s' := WorldStep(s, w);
            s'.db.requests == s.db.requests && s'.burners == s.burners && s'.deaths == s.deaths
  {
  }

  lemma CashInLeavesClaims(p: Params, s: State, c: CashInEvent)
    requires CashInEnabled(p, s, c)
    ensures var s' := CashInStep(p, s, c);
            s'.db.requests == s.db.requests && s'.burners == s.burners && s'.deaths == s.deaths
  {
  }

  lemma ReconcileKeepsClaims(s: State, j: nat)
    requires Inv(s) && AllClaimsBounded(s) && AdminEnabled(s, j, ReconcileCommit)
    ensures AllClaimsBounded(AdminStep(s, j, ReconcileCommit))
  {
    var s' := AdminStep(s, j, ReconcileCommit);
    var page := s.admins[j];
    assert AdminOk(page, s.db.requests, s.db.transfers, s.ledger, s.now);
    forall r | 0 <= r < |s'.db.requests| ensures ClaimsBounded(s', r) {
      assert ClaimsBounded(s, r);
      assert s'.db.requests[r].attempts == s.db.requests[r].attempts;
      assert r != page.request ==> s'.db.requests[r] == s.db.requests[r];
      assert Worked(s', r) == Worked(s, r);
    }
  }

  lemma PagesLeaveRequests(s: State, j: nat, m: AdminEvent)
    requires AdminEnabled(s, j, m) && !m.ReconcileCommit?
    ensures AdminStep(s, j, m).db.requests == s.db.requests
    ensures AdminStep(s, j, m).burners == s.burners && AdminStep(s, j, m).deaths == s.deaths
  {
  }

  lemma AdminKeepsClaims(s: State, j: nat, m: AdminEvent)
    requires Inv(s) && AllClaimsBounded(s) && AdminEnabled(s, j, m)
    ensures AllClaimsBounded(AdminStep(s, j, m))
  {
    if m.ReconcileCommit? {
      ReconcileKeepsClaims(s, j);
    } else {
      PagesLeaveRequests(s, j, m);
      SameClaims(s, AdminStep(s, j, m));
    }
  }

  lemma SameClaims(s: State, s': State)
    requires AllClaimsBounded(s) && s'.db.requests == s.db.requests && s'.burners == s.burners && s'.deaths == s.deaths
    ensures AllClaimsBounded(s')
  {
    forall r | 0 <= r < |s'.db.requests| ensures ClaimsBounded(s', r) {
      assert ClaimsBounded(s, r);
      assert Worked(s', r) == Worked(s, r);
    }
  }

  lemma StepKeepsClaims(p: Params, s: State, a: Action)
    requires Inv(s) && AllClaimsBounded(s) && Enabled(p, s, a)
    ensures AllClaimsBounded(Step(p, s, a))
  {
    var s' := Step(p, s, a);
    match a
    case Burner(j, e) =>
      forall r | 0 <= r < |s'.db.requests| ensures ClaimsBounded(s', r) { BurnKeepsClaims(s, j, e, r); }
    case CashOutDesk(d) => CashOutKeepsClaims(s, d);
    case Administrator(j, m) => AdminKeepsClaims(s, j, m);
    case Settler(j, e) =>
      SettleLeavesClaims(s, j, e);
      SameClaims(s, s');
    case World(w) =>
      WorldLeavesClaims(s, w);
      SameClaims(s, s');
    case CashInDesk(c) =>
      CashInLeavesClaims(p, s, c);
      SameClaims(s, s');
  }

  lemma {:induction false} RunKeepsClaims(p: Params, s: State, run: seq<Action>)
    requires Inv(s) && AllClaimsBounded(s) && Play(p, s, run).Some?
    ensures AllClaimsBounded(Play(p, s, run).value)
    decreases |run|
  {
    if run != [] {
      StepKeepsClaims(p, s, run[0]);
      StepKeepsInv(p, s, run[0]);
      RunKeepsClaims(p, Step(p, s, run[0]), run[1..]);
    }
  }

  /**
   Attempts are bounded on both sides: a burn is claimed at most three times plus once per dead
   worker, and a queued settlement can still be claimed within its three attempts.
  */
  lemma AttemptsAreBounded(p: Params, run: seq<Action>, s: State)
    requires Reaches(p, run, s)
    ensures forall r :: 0 <= r < |s.db.requests| ==> s.db.requests[r].attempts <= MAX_ATTEMPTS + s.deaths[r]
    ensures forall t :: 0 <= t < |s.db.transfers| ==>
              && (s.db.transfers[t].status.Queued? ==> s.db.transfers[t].attempts < MAX_ATTEMPTS)
              && (s.db.transfers[t].status.Processing? ==> 1 <= s.db.transfers[t].attempts <= MAX_ATTEMPTS)
  {
    ReachableIsSound(p, run, s);
    RunKeepsClaims(p, INIT, run);
    forall r | 0 <= r < |s.db.requests| ensures s.db.requests[r].attempts <= MAX_ATTEMPTS + s.deaths[r] {
      assert ClaimsBounded(s, r);
    }
    forall t | 0 <= t < |s.db.transfers| ensures StatusOk(s.db.transfers[t], s.ledger) {
      assert TransferOk(t, s.db.transfers[t], s.db.wallets, s.ledger, s.now);
    }
  }

  /** A submitted burn that nobody is watching any more is shown as awaiting the ledger, unless its worker died. */
  lemma UnwatchedBurnsAreHeld(p: Params, run: seq<Action>, s: State, r: nat)
    requires Reaches(p, run, s) && r < |s.db.requests| && s.db.requests[r].status.Approved?
             && s.db.requests[r].hash.Some?
    requires (forall j :: j in s.burners ==> s.burners[j].row != r) && s.deaths[r] == 0
    ensures s.db.requests[r].held
  {
    RunKeepsClaims(p, INIT, run);
    assert ClaimsBounded(s, r);
  }

  /** The delay a live worker would ask for is always an entry of the table, never a clamped index. */
  lemma DelaysAreInTheTable(p: Params, run: seq<Action>, s: State, j: nat)
    requires Reaches(p, run, s)
    ensures j in s.burners && s.burners[j].phase.Claimed? && s.burners[j].attempts < MAX_ATTEMPTS ==>
              1 <= s.burners[j].attempts && RetryDelay(s.burners[j].attempts) == RETRY_DELAYS[s.burners[j].attempts - 1]
    ensures j in s.settlers && s.settlers[j].phase.Claimed? ==>
              1 <= s.settlers[j].attempts <= |RETRY_DELAYS|
              && RetryDelay(s.settlers[j].attempts) == RETRY_DELAYS[s.settlers[j].attempts - 1]
  {
    RunKeepsInv(p, INIT, run);
    if j in s.burners { assert BurnJobOk(s.burners[j], s.db.requests, s.published, s.ledger); }
    if j in s.settlers {
      assert PayJobOk(s.settlers[j], s.db.transfers, s.ledger);
      assert TransferOk(s.settlers[j].row, s.db.transfers[s.settlers[j].row], s.db.wallets, s.ledger, s.now);
    }
  }

  // ---------------------------------------------------------------- sender limits

  function DailyLimit(p: Params): int { if p.tier.None? then 0 else p.tier.value.daily }
  function MonthlyLimit(p: Params): int { if p.tier.None? then 0 else p.tier.value.monthly }

  ghost predicate LimitsHold(p: Params, s: State) {
    && NonNegative(Sends(s.db))
    && WithinLimit(Sends(s.db), p.calendar.day, DailyLimit(p))
    && WithinLimit(Sends(s.db), p.calendar.month, MonthlyLimit(p))
  }

  lemma StepKeepsLimits(p: Params, s: State, a: Action)
    requires IsCalendar(p.calendar) && Inv(s) && LimitsHold(p, s) && Enabled(p, s, a)
    ensures LimitsHold(p, Step(p, s, a))
  {
    if a.CashInDesk? && a.c.Book? {
      BookKeepsLimits(p, s, a.c);
    } else {
      var s' := Step(p, s, a);
      StepEvolves(p, s, a);
      SameTransfers(p, s, a);
      assert OnlyDecided(Sends(s.db), Sends(s'.db)) by {
        forall t | 0 <= t < |s.db.transfers|
          ensures s'.db.transfers[t].send == s.db.transfers[t].send.(cashin := s'.db.transfers[t].send.cashin)
          ensures s.db.transfers[t].send.cashin.Declined? ==> s'.db.transfers[t].send.cashin.Declined?
        {
          assert TransferEvolves(s.db.transfers[t], s'.db.transfers[t]);
        }
      }
      DecisionsKeepLimit(Sends(s.db), Sends(s'.db), p.calendar.day, DailyLimit(p));
      DecisionsKeepLimit(Sends(s.db), Sends(s'.db), p.calendar.month, MonthlyLimit(p));
    }
  }

  /** Only the cash-in desk adds a transaction. */
  lemma SameTransfers(p: Params, s: State, a: Action)
    requires Enabled(p, s, a) && !(a.CashInDesk? && a.c.Book?)
    ensures |Step(p, s, a).db.transfers| == |s.db.transfers|
  {
    match a
    case CashInDesk(c) => DeskKeepsCount(p, s, c);
    case Settler(j, e) => SettleKeepsCount(s, j, e);
    case Administrator(j, m) => AdminKeepsCount(s, j, m);
    case CashOutDesk(d) => CashOutKeepsCount(s, d);
    case Burner(j, e) => BurnKeepsCount(s, j, e);
    case World(_) =>
  }

  lemma DeskKeepsCount(p: Params, s: State, c: CashInEvent)
    requires CashInEnabled(p, s, c) && !c.Book?
    ensures |CashInStep(p, s, c).db.transfers| == |s.db.transfers|
  {
  }

  lemma SettleKeepsCount(s: State, j: nat, e: SettleEvent)
    requires SettleEnabled(s, j, e)
    ensures |SettleStep(s, j, e).db.transfers| == |s.db.transfers|
  {
  }

  lemma AdminKeepsCount(s: State, j: nat, m: AdminEvent)
    requires AdminEnabled(s, j, m)
    ensures |AdminStep(s, j, m).db.transfers| == |s.db.transfers|
  {
  }

  lemma CashOutKeepsCount(s: State, d: CashOutEvent)
    requires CashOutEnabled(s, d)
    ensures |CashOutStep(s, d).db.transfers| == |s.db.transfers|
  {
  }

  lemma BurnKeepsCount(s: State, j: nat, e: BurnEvent)
    requires BurnEnabled(s, j, e)
    ensures |BurnStep(s, j, e).db.transfers| == |s.db.transfers|
  {
  }

  lemma BookKeepsLimits(p: Params, s: State, c: CashInEvent)
    requires IsCalendar(p.calendar) && LimitsHold(p, s) && CashInEnabled(p, s, c) && c.Book?
    ensures LimitsHold(p, CashInStep(p, s, c))
  {
    var s' := CashInStep(p, s, c);
    var x := s'.db.transfers[|s.db.transfers|].send;
    assert Sends(s'.db) == Sends(s.db) + [x];
    InsertKeepsLimit(Sends(s.db), p.calendar.day, DailyLimit(p), x, c.dayAt);
    InsertKeepsLimit(Sends(s.db), p.calendar.month, MonthlyLimit(p), x, c.monthAt);
  }

  lemma {:induction false} RunKeepsLimits(p: Params, s: State, run: seq<Action>)
    requires IsCalendar(p.calendar) && Inv(s) && LimitsHold(p, s) && Play(p, s, run).Some?
    ensures LimitsHold(p, Play(p, s, run).value)
    decreases |run|
  {
    if run != [] {
      StepKeepsLimits(p, s, run[0]);
      StepKeepsInv(p, s, run[0]);
      RunKeepsLimits(p, Step(p, s, run[0]), run[1..]);
    }
  }

  /** On every run, what a sender has booked in any local day or month stays within the tier's limit. */
  lemma LimitsAreNeverExceeded(p: Params, run: seq<Action>, s: State, user: nat, start: nat)
    requires IsCalendar(p.calendar) && Reaches(p, run, s)
    ensures WindowTotal(Sends(s.db), user, p.calendar.day, start) <= Max(DailyLimit(p), 0)
    ensures WindowTotal(Sends(s.db), user, p.calendar.month, start) <= Max(MonthlyLimit(p), 0)
  {
    forall u, x ensures SumWithin(Sends(INIT.db), u, p.calendar.day, x, DailyLimit(p)) {}
    forall u, x ensures SumWithin(Sends(INIT.db), u, p.calendar.month, x, MonthlyLimit(p)) {}
    RunKeepsLimits(p, INIT, run);
    assert SumWithin(Sends(s.db), user, p.calendar.day, start, DailyLimit(p));
    assert SumWithin(Sends(s.db), user, p.calendar.month, start, MonthlyLimit(p));
  }
}
