/** When an approved cash-out that nobody signed for becomes selectable again: a bound on every run. */
module Timing {
  import opened Wrappers
  import opened Rows
  import opened Machine
  import opened Invariant
  import opened Preservation
  import opened History
  import opened Guarantees

  predicate Stamped(q: CashOut, now: nat) {
    && (q.approvedAt.Some? ==> q.approvedAt.value <= now)
    && (q.startedAt.Some? ==> q.startedAt.value <= now)
    && (q.hash.Some? ==> q.startedAt.Some?)
  }

  ghost predicate StampsOk(s: State) { forall r :: 0 <= r < |s.db.requests| ==> Stamped(s.db.requests[r], s.now) }

  /** The only stamps a step writes are its own time. */
  predicate Restamped(q: CashOut, q': CashOut, now: nat) {
    && (q'.approvedAt == q.approvedAt || q'.approvedAt == Some(now))
    && (q'.startedAt == q.startedAt || q'.startedAt == Some(now) || q'.startedAt.None?)
    && (q'.hash == q.hash || q'.startedAt.Some?)
    && (q'.startedAt == q.startedAt || q'.startedAt.Some? || q'.hash.None?)
  }

  ghost predicate OnlyNowStamped(s: State, s': State) {
    && s.now <= s'.now && |s.db.requests| <= |s'.db.requests|
    && (forall r :: 0 <= r < |s.db.requests| ==> Restamped(s.db.requests[r], s'.db.requests[r], s'.now))
    && (forall r :: |s.db.requests| <= r < |s'.db.requests| ==> Stamped(s'.db.requests[r], s'.now))
  }

  lemma SameRequests(s: State, s': State)
    requires s.now <= s'.now && s'.db.requests == s.db.requests
    ensures OnlyNowStamped(s, s')
  {
  }

  lemma WorldStamps(s: State, w: WorldEvent)
    requires WorldEnabled(s, w)
    ensures OnlyNowStamped(s, WorldStep(s, w))
  {
    SameRequests(s, WorldStep(s, w));
  }

  lemma CashInStamps(p: Params, s: State, c: CashInEvent)
    requires CashInEnabled(p, s, c)
    ensures OnlyNowStamped(s, CashInStep(p, s, c))
  {
    SameRequests(s, CashInStep(p, s, c));
  }

  lemma SettleStamps(s: State, j: nat, e: SettleEvent)
    requires SettleEnabled(s, j, e)
    ensures OnlyNowStamped(s, SettleStep(s, j, e))
  {
    SameRequests(s, SettleStep(s, j, e));
  }

  lemma CashOutStamps(s: State, d: CashOutEvent)
    requires CashOutEnabled(s, d)
    ensures OnlyNowStamped(s, CashOutStep(s, d))
  {
  }

  lemma OneRequestStamps(s: State, s': State, r: nat)
    requires s'.now == s.now && r < |s.db.requests| == |s'.db.requests|
    requires s'.db.requests == s.db.requests[r := s'.db.requests[r]]
    requires Restamped(s.db.requests[r], s'.db.requests[r], s.now)
    ensures OnlyNowStamped(s, s')
  {
  }

  lemma BurnStamps(s: State, j: nat, e: BurnEvent)
    requires Inv(s) && BurnEnabled(s, j, e)
    ensures OnlyNowStamped(s, BurnStep(s, j, e))
  {
    if e.BurnClaim? {
      OneRequestStamps(s, BurnStep(s, j, e), e.r);
    } else {
      assert BurnJobOk(s.burners[j], s.db.requests, s.published, s.ledger);
      OwnerStamps(s, j, e);
    }
  }

  lemma OwnerStamps(s: State, j: nat, e: BurnEvent)
    requires BurnEnabled(s, j, e) && !e.BurnClaim?
    requires var q := s.db.requests[s.burners[j].row];
             if s.burners[j].phase.Claimed? then q.hash.None? && q.startedAt.Some?
             else q.hash == Some(s.burners[j].phase.hash)
    ensures OnlyNowStamped(s, BurnStep(s, j, e))
  {
    OneRequestStamps(s, BurnStep(s, j, e), s.burners[j].row);
  }

  lemma AdminStamps(s: State, j: nat, m: AdminEvent)
    requires Inv(s) && AdminEnabled(s, j, m)
    ensures OnlyNowStamped(s, AdminStep(s, j, m))
  {
    if m.ReconcileCommit? {
      var page := s.admins[j];
      assert AdminOk(page, s.db.requests, s.db.transfers, s.ledger, s.now);
      OneRequestStamps(s, AdminStep(s, j, m), page.request);
    } else {
      PagesStamp(s, j, m);
    }
  }

  lemma PagesStamp(s: State, j: nat, m: AdminEvent)
    requires AdminEnabled(s, j, m) && !m.ReconcileCommit?
    ensures OnlyNowStamped(s, AdminStep(s, j, m))
  {
    SameRequests(s, AdminStep(s, j, m));
  }

  lemma StepKeepsStamps(p: Params, s: State, a: Action)
    requires Inv(s) && StampsOk(s) && Enabled(p, s, a)
    ensures StampsOk(Step(p, s, a))
  {
    match a
    case World(w) => WorldStamps(s, w);
    case CashInDesk(c) => CashInStamps(p, s, c);
    case Settler(j, e) => SettleStamps(s, j, e);
    case CashOutDesk(d) => CashOutStamps(s, d);
    case Burner(j, e) => BurnStamps(s, j, e);
    case Administrator(j, m) => AdminStamps(s, j, m);
  }

  lemma {:induction false} RunKeepsStamps(p: Params, s: State, run: seq<Action>)
    requires Inv(s) && StampsOk(s) && Play(p, s, run).Some?
    ensures StampsOk(Play(p, s, run).value)
    decreases |run|
  {
    if run != [] {
      StepKeepsStamps(p, s, run[0]);
      StepKeepsInv(p, s, run[0]);
      RunKeepsStamps(p, Step(p, s, run[0]), run[1..]);
    }
  }

  /** An approved cash-out that nothing was signed for. */
  predicate Unsigned(s: State, r: nat) {
    r < |s.db.requests| && s.db.requests[r].status.Approved? && s.db.requests[r].hash.None?
  }

  /** The sweep selects such a row exactly after this instant. */
  function SelectableAfter(q: CashOut): nat
    requires q.approvedAt.Some?
  {
    if q.startedAt.None? then q.approvedAt.value + PUBLISH_GRACE else q.startedAt.value + STUCK_AFTER
  }

  /** Who looks after an unsigned approved cash-out: its publisher, a live worker, a message, or the sweep. */
  predicate Publishing(s: State, r: nat) {
    && r < |s.db.requests| && r in s.publishing && s.db.requests[r].startedAt.None? && s.db.requests[r].approvedAt.Some?
    && s.now <= s.db.requests[r].approvedAt.value + PUBLISH_GRACE
  }

  predicate OwnedBy(s: State, j: nat, r: nat) {
    && r < |s.db.requests| && j in s.burners
    && s.burners[j] == Job(r, s.burners[j].claimedAt, s.db.requests[r].attempts, Claimed)
    && s.db.requests[r].startedAt == Some(s.burners[j].claimedAt)
    && s.now < s.burners[j].claimedAt + STUCK_AFTER
  }

  /**
   In every reachable state, whoever else is alive, an unsigned approved cash-out is selected by the
   sweep and claimable ten minutes from now at the latest, unless somebody touches it before; and
   until it is selectable, either its approval is younger than the grace, or its claim is younger
   than a job may live.
  */
  lemma UnsignedIsNeverForgotten(p: Params, run: seq<Action>, s: State, r: nat)
    requires Reaches(p, run, s) && Unsigned(s, r)
    ensures var q := s.db.requests[r];
            && q.approvedAt.Some? && SelectableAfter(q) <= s.now + STUCK_AFTER
            && (forall t: nat :: Sweepable(q, t) <==> SelectableAfter(q) < t)
            && (forall t: nat :: Sweepable(q, t) ==> BurnClaimable(q, t))
    ensures Publishing(s, r) <==> r in s.publishing
    ensures forall j :: j in s.burners && s.burners[j].row == r ==> OwnedBy(s, j, r)
    ensures r in s.publishing || (exists j :: OwnedBy(s, j, r)) ==> !Sweepable(s.db.requests[r], s.now)
  {
    RunKeepsInv(p, INIT, run);
    RunKeepsStamps(p, INIT, run);
    var q := s.db.requests[r];
    assert RequestOk(r, q, s.db.wallets, s.ledger) && Stamped(q, s.now);
    forall j | j in s.burners && s.burners[j].row == r ensures OwnedBy(s, j, r) {
      assert BurnJobOk(s.burners[j], s.db.requests, s.published, s.ledger);
    }
    if r in s.publishing { assert PublishingInGrace(s, r); }
  }

  /**
   On every continuation of every run: once the clock has moved more than ten minutes, such a row is
   final, or signed, or was claimed by a worker in between, or is selected by the sweep.
  */
  lemma SelectableWithinTenMinutes(p: Params, run: seq<Action>, s: State, more: seq<Action>, s': State, r: nat)
    requires Reaches(p, run, s) && Unsigned(s, r)
    requires Play(p, s, more) == Some(s') && s.now + STUCK_AFTER < s'.now
    ensures r < |s'.db.requests|
    ensures var q, q' := s.db.requests[r], s'.db.requests[r];
            Final(q') || q'.hash.Some? || q.attempts < q'.attempts
                || (Sweepable(q', s'.now) && BurnClaimable(q', s'.now))
  {
    RunKeepsInv(p, INIT, run);
    RunKeepsStamps(p, INIT, run);
    RunEvolves(p, s, more);
    assert RequestOk(r, s.db.requests[r], s.db.wallets, s.ledger) && Stamped(s.db.requests[r], s.now);
    assert RequestEvolves(s.db.requests[r], s'.db.requests[r]);
  }
}
