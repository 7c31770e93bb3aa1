/** The attempt columns count what they say: the claims made in the run. */
module Counting {
  import opened Rows
  import opened Machine
  import opened Invariant
  import opened Preservation
  import opened Guarantees
  import opened Bounds

  predicate ClaimsBurn(a: Action, r: nat) { a.Burner? && a.b == BurnClaim(r) }
  predicate ClaimsPay(a: Action, t: nat) { a.Settler? && a.p == PayClaim(t) }

  /** How often a worker claimed request `r` in a run. */
  function BurnClaims(run: seq<Action>, r: nat): nat {
    if run == [] then 0 else (if ClaimsBurn(run[0], r) then 1 else 0) + BurnClaims(run[1..], r)
  }

  /** A step that re-sends transaction `t`: an admin's commit of a dead attempt, on an unchanged row. */
  predicate Resends(s: State, a: Action, t: nat) {
    && a.Administrator? && a.m.RetryCommit? && a.j in s.admins && s.admins[a.j].PayDead? && s.admins[a.j].transfer == t
    && t < |s.db.transfers|
    && s.db.transfers[t].status == s.admins[a.j].seen.status
    && s.db.transfers[t].updatedAt == s.admins[a.j].seen.updatedAt
  }

  /** How often a worker claimed transaction `t` since its last re-send, starting from `n` claims. */
  function PayClaims(p: Params, s: State, run: seq<Action>, t: nat, n: nat): nat
    decreases |run|
  {
    if run == [] || !Enabled(p, s, run[0]) then n
    else
      PayClaims(p, Step(p, s, run[0]), run[1..], t,
                if Resends(s, run[0], t) then 0 else if ClaimsPay(run[0], t) then n + 1 else n)
  }

  function BurnAttempts(s: State, r: nat): nat { if r < |s.db.requests| then s.db.requests[r].attempts else 0 }
  function PayAttempts(s: State, t: nat): nat { if t < |s.db.transfers| then s.db.transfers[t].attempts else 0 }

  lemma CashOutCounts(s: State, d: CashOutEvent, r: nat)
    requires CashOutEnabled(s, d)
    ensures BurnAttempts(CashOutStep(s, d), r) == BurnAttempts(s, r)
    ensures CashOutStep(s, d).db.transfers == s.db.transfers
  {
  }

  lemma BurnCounts(s: State, j: nat, e: BurnEvent, r: nat)
    requires BurnEnabled(s, j, e)
    ensures BurnAttempts(BurnStep(s, j, e), r) == BurnAttempts(s, r) + if e == BurnClaim(r) then 1 else 0
    ensures BurnStep(s, j, e).db.transfers == s.db.transfers
  {
  }

  lemma CashInCounts(p: Params, s: State, c: CashInEvent, t: nat)
    requires CashInEnabled(p, s, c)
    ensures PayAttempts(CashInStep(p, s, c), t) == PayAttempts(s, t) && CashInStep(p, s, c).db.requests == s.db.requests
  {
  }

  lemma SettleCounts(s: State, j: nat, e: SettleEvent, t: nat)
    requires SettleEnabled(s, j, e)
    ensures PayAttempts(SettleStep(s, j, e), t) == PayAttempts(s, t) + if e == PayClaim(t) then 1 else 0
    ensures SettleStep(s, j, e).db.requests == s.db.requests
  {
  }

  lemma ReconcileCounts(s: State, j: nat, r: nat)
    requires AdminEnabled(s, j, ReconcileCommit)
    ensures BurnAttempts(AdminStep(s, j, ReconcileCommit), r) == BurnAttempts(s, r)
    ensures AdminStep(s, j, ReconcileCommit).db.transfers == s.db.transfers
  {
  }

  lemma RetryCounts(s: State, j: nat, t: nat)
    requires AdminEnabled(s, j, RetryCommit)
    ensures PayAttempts(AdminStep(s, j, RetryCommit), t)
         == if Resends(s, Administrator(j, RetryCommit), t) then 0 else PayAttempts(s, t)
    ensures AdminStep(s, j, RetryCommit).db.requests == s.db.requests
  {
  }

  lemma PagesCount(s: State, j: nat, m: AdminEvent)
    requires AdminEnabled(s, j, m) && !m.ReconcileCommit? && !m.RetryCommit?
    ensures AdminStep(s, j, m).db == s.db
  {
  }

  lemma StepCounts(p: Params, s: State, a: Action, r: nat, t: nat)
    requires Enabled(p, s, a)
    ensures BurnAttempts(Step(p, s, a), r) == BurnAttempts(s, r) + if ClaimsBurn(a, r) then 1 else 0
    ensures PayAttempts(Step(p, s, a), t)
         == if Resends(s, a, t) then 0 else PayAttempts(s, t) + if ClaimsPay(a, t) then 1 else 0
  {
    match a
    case World(w) => assert Step(p, s, a).db == s.db;
    case CashInDesk(c) => CashInCounts(p, s, c, t);
    case Settler(j, e) => SettleCounts(s, j, e, t);
    case CashOutDesk(d) => CashOutCounts(s, d, r);
    case Burner(j, e) => BurnCounts(s, j, e, r);
    case Administrator(j, m) =>
      if m.ReconcileCommit? { ReconcileCounts(s, j, r); }
      else if m.RetryCommit? { RetryCounts(s, j, t); }
      else { PagesCount(s, j, m); }
  }

  lemma {:induction false} RunCounts(p: Params, s: State, run: seq<Action>, r: nat, t: nat)
    requires Play(p, s, run).Some?
    ensures BurnAttempts(Play(p, s, run).value, r) == BurnAttempts(s, r) + BurnClaims(run, r)
    ensures PayAttempts(Play(p, s, run).value, t) == PayClaims(p, s, run, t, PayAttempts(s, t))
    decreases |run|
  {
    if run != [] {
      StepCounts(p, s, run[0], r, t);
      RunCounts(p, Step(p, s, run[0]), run[1..], r, t);
    }
  }

  /**
   In every run, a cash-out is claimed at most three times plus once per worker that died on it, and a
   settlement at most three times between two re-sends; the columns are these very numbers.
  */
  lemma ClaimsAreCounted(p: Params, run: seq<Action>, s: State, r: nat, t: nat)
    requires Reaches(p, run, s)
    ensures BurnClaims(run, r) == BurnAttempts(s, r) && BurnClaims(run, r) <= MAX_ATTEMPTS + s.deaths[r]
    ensures PayClaims(p, INIT, run, t, 0) == PayAttempts(s, t) && PayClaims(p, INIT, run, t, 0) <= MAX_ATTEMPTS
  {
    RunCounts(p, INIT, run, r, t);
    AttemptsAreBounded(p, run, s);
    RunKeepsInv(p, INIT, run);
    if t < |s.db.transfers| { assert TransferOk(t, s.db.transfers[t], s.db.wallets, s.ledger, s.now); }
  }
}
