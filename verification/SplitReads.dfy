/** E5: runs in which the lookup, the latest index and the coverage are read at different times. */
module SplitReads {
  import opened Wrappers
  import opened Outcomes
  import opened Xrpl
  import opened Rows
  import opened Machine
  import opened Invariant
  import opened Preservation
  import opened Guarantees
  import opened Progress
  import opened Delivery
  import opened Witness

  /** Sent, in no ledger yet, and still in time for one. */
  predicate Pending(l: Ledger, h: nat) {
    h < |l.txs| && var x := l.txs[h];
    x.fate.Open? && x.sent && !x.malformed && x.last.Some? && x.submittedAt < x.last.value && l.index <= x.last.value
  }

  predicate Fundable(l: Ledger, h: nat)
    requires h < |l.txs|
  {
    var x := l.txs[h];
    x.account in l.balances && (x.purpose.Burn? ==> x.amount <= l.balances[x.account])
  }

  /** After the lookup the transaction is validated, and then its deadline passes. */
  lemma LandsAndExpires(p: Params, s: State, h: nat) returns (run: seq<Action>, v: State)
    requires Pending(s.ledger, h) && Fundable(s.ledger, h)
    ensures Play(p, s, run) == Some(v) && v == s.(ledger := v.ledger)
    ensures |v.ledger.txs| == |s.ledger.txs| && Success(v.ledger.txs[h])
            && v.ledger.txs[h].purpose == s.ledger.txs[h].purpose
    ensures v.ledger.txs[h].last == s.ledger.txs[h].last && v.ledger.txs[h].last.value < v.ledger.index
    ensures v.ledger.balances.Keys == s.ledger.balances.Keys
  {
    var u, rest;
    run, u := LedgerAdvances(p, s, s.ledger.txs[h].submittedAt);
    run, u := Then(p, s, run, u, World(Include(h, SUCCESS)));
    rest, v := LedgerAdvances(p, u, u.ledger.txs[h].last.value);
    PlayAppend(p, s, run, rest);
    run := run + rest;
  }

  // ---------------------------------------------------------------- retry

  /** Page `j` is an admin's retry of row `t` as it is, whose lookup has just come back "not found". */
  predicate RetryNotFound(s: State, j: nat, t: nat) {
    && j in s.admins && t < |s.db.transfers| && s.admins[j] == PaySeen(t, s.db.transfers[t])
    && s.db.transfers[t].hash.Some? && Pending(s.ledger, s.db.transfers[t].hash.value) && Fresh(s, t)
  }

  /** The deadline and the coverage, read after it passed, complete the false proof. */
  lemma LateReadsMislead(s: State, j: nat, t: nat)
    requires j in s.admins && s.admins[j].PaySeen? && s.admins[j].transfer == t
    requires var seen := s.admins[j].seen;
             seen.hash.Some? && seen.last.Some? && seen.submitted.Some? && seen.last.value < s.ledger.index
    ensures AfterRetryLook(s, j, s.admins[j], FullView(s.ledger), None)
         == s.(admins := s.admins[j := PayDead(t, s.admins[j].seen)])
  {
    FullViewCovers(s.ledger, s.admins[j].seen.submitted.value, s.admins[j].seen.last.value);
  }

  /** A queued row is paid, whatever its history says. */
  lemma QueuedIsPaid(p: Params, s: State, j: nat, t: nat) returns (run: seq<Action>, v: State)
    requires Slack(s, 3) && j !in s.settlers && t < |s.db.transfers| && PayClaimable(s.db.transfers[t])
    requires s.db.transfers[t].updatedAt <= s.now && s.db.wallets.Keys == s.ledger.balances.Keys
    ensures Play(p, s, run) == Some(v) && |v.ledger.txs| == |s.ledger.txs| + 1
            && v.ledger.txs[..|s.ledger.txs|] == s.ledger.txs
    ensures v.ledger.txs[|s.ledger.txs|].purpose == Purpose.Pay(t) && Success(v.ledger.txs[|s.ledger.txs|])
  {
    var u, rest;
    run, u := Takes(p, s, j, t, 3);
    rest, v := SignedLands(p, u, j, t, 2);
    PlayAppend(p, s, run, rest);
    run := run + rest;
  }

  /** Committing the false proof queues the row again. */
  lemma MisledResends(s: State, j: nat, t: nat)
    requires j in s.admins && t < |s.db.transfers| && s.admins[j] == PaySeen(t, s.db.transfers[t]) && Fresh(s, t)
    requires var x := s.db.transfers[t];
             && x.hash.Some? && x.last.Some? && x.submitted.Some? && x.last.value < s.ledger.index
             && x.send.cashin.Received?
    ensures var judged := AfterRetryLook(s, j, s.admins[j], FullView(s.ledger), None);
            && AdminEnabled(judged, j, RetryCommit)
            && var v := AdminStep(judged, j, RetryCommit);
               && v == s.(db := v.db, admins := v.admins) && v.db.requests == s.db.requests
               && v.db.wallets == s.db.wallets
               && t < |v.db.transfers| && PayClaimable(v.db.transfers[t]) && v.db.transfers[t].updatedAt == v.now
  {
    LateReadsMislead(s, j, t);
  }

  lemma SlackStays(s: State, v: State, k: nat)
    requires Slack(s, k) && v.burners == s.burners && v.settlers == s.settlers && v.publishing == s.publishing
    requires v.now == s.now && v.db.requests == s.db.requests
    ensures Slack(v, k)
  {
  }

  /** What the retry finds when its later reads come back. */
  lemma TooLate(p: Params, before: seq<Action>, s: State, j: nat, t: nat) returns (meanwhile: seq<Action>, late: State)
    requires Reaches(p, before, s) && RetryNotFound(s, j, t)
    ensures Play(p, s, meanwhile) == Some(late) && late == s.(ledger := late.ledger)
    ensures var h := s.db.transfers[t].hash.value;
            h < |late.ledger.txs| && late.ledger.txs[h].purpose == Purpose.Pay(t) && Success(late.ledger.txs[h])
    ensures var x := s.db.transfers[t];
            && x.hash.Some? && x.last.Some? && x.submitted.Some? && x.last.value < late.ledger.index
            && x.send.cashin.Received?
    ensures late.db.wallets.Keys == late.ledger.balances.Keys
  {
    RunKeepsInv(p, INIT, before);
    assert TransferOk(t, s.db.transfers[t], s.db.wallets, s.ledger, s.now);
    meanwhile, late := LandsAndExpires(p, s, s.db.transfers[t].hash.value);
  }

  /**
   In every reachable state where a retry's lookup came back "not found" and the payment can still be
   validated, reading deadline and coverage later can pay the recipient twice.
  */
  lemma SplitRetryPaysTwice(p: Params, before: seq<Action>, s: State, j: nat, t: nat)
      returns (meanwhile: seq<Action>, late: State, rest: seq<Action>, v: State, h: nat, again: nat)
    requires Reaches(p, before, s) && RetryNotFound(s, j, t) && Slack(s, 3)
    ensures Play(p, s, meanwhile) == Some(late) && j in late.admins && late.admins[j] == s.admins[j]
    ensures Play(p, AfterRetryLook(late, j, late.admins[j], FullView(late.ledger), None), rest) == Some(v)
    ensures h < again < |v.ledger.txs| && v.ledger.txs[h].purpose == v.ledger.txs[again].purpose == Purpose.Pay(t)
    ensures Success(v.ledger.txs[h]) && Success(v.ledger.txs[again])
  {
    h := s.db.transfers[t].hash.value;
    meanwhile, late := TooLate(p, before, s, j, t);
    MisledResends(late, j, t);
    var u, more;
    var judged := AfterRetryLook(late, j, late.admins[j], FullView(late.ledger), None);
    rest, u := Then(p, judged, [], judged, Administrator(j, RetryCommit));
    again := |u.ledger.txs|;
    SlackStays(s, u, 3);
    var i := FreshName(u.settlers.Keys);
    more, v := QueuedIsPaid(p, u, i, t);
    PlayAppend(p, judged, rest, more);
    rest := rest + more;
    assert v.ledger.txs[h] == v.ledger.txs[..again][h];
  }

  /** A worker that sent its payment never hears the answer. */
  lemma AnswerIsLost(p: Params, s: State, t: nat, h: nat) returns (run: seq<Action>, v: State)
    requires Sending(s, 0, t, h) && Slack(s, 100) && s.settlers.Keys == {0}
    ensures Play(p, s, run) == Some(v) && v.settlers == map[] && v.admins == s.admins && v.ledger == s.ledger
            && Slack(v, 99)
    ensures |v.db.transfers| == |s.db.transfers| && t < |v.db.transfers|
    ensures v.db.transfers[t].status.Unsettled? && v.db.transfers[t].updatedAt == v.now
    ensures var x, y := s.db.transfers[t], v.db.transfers[t]; y.hash == x.hash && y.last == x.last && y.send == x.send
  {
    run, v := Then(p, s, [], s, World(Tick(1)));
    run, v := Then(p, s, run, v, Settler(0, PayResult(Unknown)));
  }

  /** Then an admin opens the row. */
  lemma AdminLooks(p: Params, s: State, t: nat) returns (run: seq<Action>, v: State)
    requires s.settlers == map[] && s.admins == map[] && Slack(s, 99)
    requires t < |s.db.transfers| && s.db.transfers[t].status.Unsettled? && s.db.transfers[t].updatedAt == s.now
    requires s.db.transfers[t].send.cashin.Received?
    requires s.db.transfers[t].hash.Some? && Pending(s.ledger, s.db.transfers[t].hash.value)
    ensures Play(p, s, run) == Some(v) && RetryNotFound(v, 0, t) && Slack(v, 3)
  {
    run, v := Then(p, s, [], s, World(Tick(1)));
    run, v := Then(p, s, run, v, Administrator(0, RetryRead(t)));
  }

  /** A payment on its way, from an empty platform. */
  lemma PaymentSent() returns (before: seq<Action>, s: State, h: nat)
    ensures Reaches(P, before, s) && Sending(s, 0, 0, h) && Slack(s, 100) && s.settlers.Keys == {0} && s.admins == map[]
  {
    var rest, u;
    before := Queues();
    rest, u := Takes(P, OneQueued(), 0, 0, 102);
    PlayAppend(P, INIT, before, rest);
    before, h := before + rest, |u.ledger.txs|;
    rest, s := Delivery.Signs(P, u, 0, 0, 101);
    PlayAppend(P, INIT, before, rest);
    before := before + rest;
    OnlyJob(s.settlers);
  }

  /** Such a state is reached from an empty platform: the answer to a payment was lost, and an admin retries. */
  lemma LostAnswer() returns (before: seq<Action>, s: State)
    ensures Reaches(P, before, s) && RetryNotFound(s, 0, 0) && Slack(s, 3)
  {
    var rest, u, h;
    before, u, h := PaymentSent();
    RunKeepsInv(P, INIT, before);
    assert TransferOk(0, u.db.transfers[0], u.db.wallets, u.ledger, u.now);
    rest, s := AnswerIsLost(P, u, 0, h);
    PlayAppend(P, INIT, before, rest);
    before, u := before + rest, s;
    rest, s := AdminLooks(P, u, 0);
    PlayAppend(P, INIT, before, rest);
    before := before + rest;
  }

  lemma OnlyJob(jobs: map<nat, Job>)
    requires 0 in jobs && jobs - {0} == map[]
    ensures jobs.Keys == {0}
  {
    assert jobs.Keys - {0} == (jobs - {0}).Keys == {};
    assert jobs.Keys == (jobs.Keys - {0}) + {0};
  }

  /** Without E5, from an empty platform: one remittance is paid twice. */
  lemma WithoutE5() returns (before: seq<Action>, s: State, meanwhile: seq<Action>, late: State, rest: seq<Action>,
      v: State, h: nat, again: nat)
    ensures Reaches(P, before, s) && RetryNotFound(s, 0, 0)
    ensures Play(P, s, meanwhile) == Some(late) && 0 in late.admins && late.admins[0] == s.admins[0]
            && late.admins[0].PaySeen?
    ensures Play(P, AfterRetryLook(late, 0, late.admins[0], FullView(late.ledger), None), rest) == Some(v)
    ensures h < again < |v.ledger.txs| && v.ledger.txs[h].purpose == v.ledger.txs[again].purpose == Purpose.Pay(0)
    ensures Success(v.ledger.txs[h]) && Success(v.ledger.txs[again])
  {
    before, s := LostAnswer();
    meanwhile, late, rest, v, h, again := SplitRetryPaysTwice(P, before, s, 0, 0);
  }

  // ---------------------------------------------------------------- reconcile

  /** The same for a reconcile of request `r`. */
  predicate ReconcileNotFound(s: State, j: nat, r: nat) {
    && j in s.admins && r < |s.db.requests| && s.admins[j] == BurnSeen(r, s.db.requests[r])
    && s.db.requests[r].status.Approved? && s.db.requests[r].hash.Some?
    && Pending(s.ledger, s.db.requests[r].hash.value)
  }

  /** In every such state, reading deadline and coverage later can restore a reserve whose burn succeeded. */
  lemma SplitReconcileRestoresBurnt(p: Params, before: seq<Action>, s: State, j: nat, r: nat)
      returns (meanwhile: seq<Action>, late: State, v: State, h: nat)
    requires Reaches(p, before, s) && ReconcileNotFound(s, j, r)
    ensures Play(p, s, meanwhile) == Some(late) && j in late.admins && late.admins[j] == s.admins[j]
    ensures var judged := AfterReconcileLook(late, j, late.admins[j], FullView(late.ledger), None);
            AdminEnabled(judged, j, ReconcileCommit) && v == AdminStep(judged, j, ReconcileCommit)
    ensures r < |v.db.requests| && v.db.requests[r].status.Failed?
    ensures h < |v.ledger.txs| && v.ledger.txs[h].purpose == Purpose.Burn(r) && Success(v.ledger.txs[h])
  {
    RunKeepsInv(p, INIT, before);
    var q := s.db.requests[r];
    assert RequestOk(r, q, s.db.wallets, s.ledger);
    h := q.hash.value;
    BurnIsFunded(p, before, s, r);
    meanwhile, late := LandsAndExpires(p, s, h);
    FullViewCovers(late.ledger, q.submitted.value, q.last.value);
    v := AdminStep(AfterReconcileLook(late, j, late.admins[j], FullView(late.ledger), None), j, ReconcileCommit);
  }
}
