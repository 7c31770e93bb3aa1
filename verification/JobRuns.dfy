/** Every path of a worker's job, and of an admin's reconcile or retry, is a run of the protocol. */
module JobRuns {
  import opened Wrappers
  import opened Outcomes
  import opened Xrpl
  import opened Rows
  import opened Machine
  import opened Guarantees
  import opened Jobs
  import opened JobLaws

  predicate OnlyWorld(run: seq<Action>) { forall k :: 0 <= k < |run| ==> run[k].World? }

  /** Time and the ledger move, rows and jobs stay. */
  lemma {:induction false} WorldLeavesRows(p: Params, s: State, run: seq<Action>)
    requires OnlyWorld(run) && Play(p, s, run).Some?
    ensures var t := Play(p, s, run).value;
            t == s.(now := t.now, ledger := t.ledger) && |t.ledger.txs| == |s.ledger.txs|
    decreases |run|
  {
    if run != [] {
      var t := Step(p, s, run[0]);
      assert t == s.(now := t.now, ledger := t.ledger) && |t.ledger.txs| == |s.ledger.txs|;
      WorldLeavesRows(p, t, run[1..]);
    }
  }

  lemma PlayOne(p: Params, s: State, a: Action)
    requires Enabled(p, s, a)
    ensures Play(p, s, [a]) == Some(Step(p, s, a))
  {
  }

  /** A worker that sent transaction `h` and got a true answer may conclude what the code concludes. */
  lemma TrueAnswerIsReported(l: Ledger, h: nat, answer: Answer)
    requires h < |l.txs| && IsTrue(answer, l.txs[h])
    ensures Reported(Sent(h), l, ResolutionOf(answer))
  {
    TrueAnswersDecide(answer, l.txs[h]);
    ResolutionExactly(answer);
  }

  /** A message that may be delivered, for a row that may be claimed, by a job with a new name. */
  predicate BurnDelivered(s: State, j: nat, r: nat) {
    j !in s.burners && r in s.published && r < |s.db.requests| && BurnClaimable(s.db.requests[r], s.now)
    && s.db.requests[r].user in s.db.wallets
  }

  /** A burn job that signs nothing: claim, then refuse or give up for now. */
  lemma UnsignedBurnIsARun(p: Params, s: State, j: nat, r: nat, a: Submission, end: nat) returns (run: seq<Action>)
    requires BurnDelivered(s, j, r) && !a.Signed?
    ensures Play(p, s, run).Some? && Play(p, s, run).value.db == BurnJob(s.db, r, s.now, end, a)
  {
    var claim := Burner(j, BurnClaim(r));
    var stop := Burner(j, if a.BadAmount? then BurnRefuse else BurnTransient);
    var s1 := Step(p, s, claim);
    PlayOne(p, s, claim);
    PlayOne(p, s1, stop);
    PlayAppend(p, s, [claim], [stop]);
    run := [claim] + [stop];
  }

  function SignBurn(j: nat, r: nat, a: Submission, malformed: bool): seq<Action>
    requires a.Signed?
  {
    [Burner(j, BurnClaim(r))] + [Burner(j, BurnPersist(a.submitted, a.last, malformed))] + [Burner(j, BurnSend)]
  }

  lemma SignBurnPlays(p: Params, s: State, j: nat, r: nat, a: Submission, malformed: bool)
    requires BurnDelivered(s, j, r) && a.Signed? && a.hash == |s.ledger.txs| && a.submitted <= s.ledger.index
    ensures Play(p, s, SignBurn(j, r, a, malformed)).Some?
    ensures var t := Play(p, s, SignBurn(j, r, a, malformed)).value;
            && t.now == s.now && |t.ledger.txs| == |s.ledger.txs| + 1
            && t.db == RememberBurn(ClaimBurn(s.db, r, s.now), r, a.hash, a.last, a.submitted)
            && j in t.burners && t.burners[j].row == r && t.burners[j].phase == Sent(a.hash)
  {
    var a1, a2, a3 := Burner(j, BurnClaim(r)), Burner(j, BurnPersist(a.submitted, a.last, malformed)),
        Burner(j, BurnSend);
    var s1 := Step(p, s, a1);
    var s2 := Step(p, s1, a2);
    PlayOne(p, s, a1);
    PlayOne(p, s1, a2);
    PlayAppend(p, s, [a1], [a2]);
    PlayOne(p, s2, a3);
    PlayAppend(p, s, [a1] + [a2], [a3]);
  }

  /**
   A burn job that signs: claim, persist, submit, whatever the world does meanwhile, then the
   commit its answer calls for. If the answer is true, the run ends with exactly the rows the job's code
   leaves.
  */
  lemma SignedBurnIsARun(p: Params, s: State, j: nat, r: nat, a: Submission, malformed: bool, meanwhile: seq<Action>)
    returns (run: seq<Action>, end: State)
    requires BurnDelivered(s, j, r) && a.Signed? && a.hash == |s.ledger.txs| && a.submitted <= s.ledger.index
    requires OnlyWorld(meanwhile) && Play(p, s, SignBurn(j, r, a, malformed) + meanwhile).Some?
    requires var t := Play(p, s, SignBurn(j, r, a, malformed) + meanwhile).value;
             a.hash < |t.ledger.txs| && IsTrue(a.answer, t.ledger.txs[a.hash])
    ensures Play(p, s, run) == Some(end) && end.db == BurnJob(s.db, r, s.now, end.now, a)
  {
    SignBurnPlays(p, s, j, r, a, malformed);
    var sign := SignBurn(j, r, a, malformed);
    var s3 := Play(p, s, sign).value;
    PlayAppend(p, s, sign, meanwhile);
    WorldLeavesRows(p, s3, meanwhile);
    var s4 := Play(p, s3, meanwhile).value;
    var last := Burner(j, BurnResult(ResolutionOf(a.answer)));
    TrueAnswerIsReported(s4.ledger, a.hash, a.answer);
    end := Step(p, s4, last);
    PlayOne(p, s4, last);
    PlayAppend(p, s, sign + meanwhile, [last]);
    run := sign + meanwhile + [last];
  }

  // ---------------------------------------------------------------- settlement

  predicate PayDelivered(s: State, j: nat, t: nat) {
    j !in s.settlers && Fresh(s, t) && PayClaimable(s.db.transfers[t])
  }

  function StartPayment(j: nat, t: nat, trust: bool): seq<Action> {
    [Settler(j, PayClaim(t))] + [Settler(j, Machine.Provision(trust))]
  }

  lemma StartPaymentPlays(p: Params, s: State, j: nat, t: nat, trust: bool)
    requires PayDelivered(s, j, t)
    ensures Play(p, s, StartPayment(j, t, trust)).Some?
    ensures var u := Play(p, s, StartPayment(j, t, trust)).value;
            && u.now == s.now && u.ledger.txs == s.ledger.txs
            && u.db == Provisioned(ClaimPay(s.db, t, s.now), s.db.transfers[t].recipient, trust)
            && j in u.settlers && u.settlers[j] == Job(t, s.now, s.db.transfers[t].attempts + 1, Claimed)
  {
    var a1, a2 := Settler(j, PayClaim(t)), Settler(j, Machine.Provision(trust));
    var s1 := Step(p, s, a1);
    PlayOne(p, s, a1);
    PlayOne(p, s1, a2);
    PlayAppend(p, s, [a1], [a2]);
  }

  function SignPayment(j: nat, a: Submission, malformed: bool): seq<Action>
    requires a.Signed?
  {
    [Settler(j, PayPersist(a.submitted, a.last, malformed))] + [Settler(j, PaySend)]
  }

  lemma SignPaymentPlays(p: Params, s: State, j: nat, a: Submission, malformed: bool)
    requires a.Signed? && a.hash == |s.ledger.txs| && SettleEnabled(s, j, PayPersist(a.submitted, a.last, malformed))
    ensures Play(p, s, SignPayment(j, a, malformed)).Some?
    ensures var u := Play(p, s, SignPayment(j, a, malformed)).value;
            && u.now == s.now && |u.ledger.txs| == |s.ledger.txs| + 1
            && u.db == RememberPay(s.db, s.settlers[j].row, a.hash, a.last, a.submitted, s.now)
            && j in u.settlers && u.settlers[j].row == s.settlers[j].row && u.settlers[j].phase == Sent(a.hash)
  {
    var a1, a2 := Settler(j, PayPersist(a.submitted, a.last, malformed)), Settler(j, PaySend);
    var s1 := Step(p, s, a1);
    PlayOne(p, s, a1);
    PlayOne(p, s1, a2);
    PlayAppend(p, s, [a1], [a2]);
  }

  /** A settlement job that signs and gets a true answer, with any pauses, ends with the rows its code leaves. */
  lemma SignedPaymentIsARun(p: Params, s: State, j: nat, t: nat, trust: bool, pause: seq<Action>,
                            a: Submission, malformed: bool, meanwhile: seq<Action>)
    returns (run: seq<Action>, signed: nat, end: State)
    requires PayDelivered(s, j, t) && a.Signed? && a.hash == |s.ledger.txs| && OnlyWorld(pause) && OnlyWorld(meanwhile)
    requires trust || (s.db.transfers[t].recipient in s.db.wallets
             && s.db.wallets[s.db.transfers[t].recipient].trustSet)
    requires var start := StartPayment(j, t, trust) + pause;
             && Play(p, s, start).Some?
             && s.now < Play(p, s, start).value.now && a.submitted <= Play(p, s, start).value.ledger.index
             && var sent := start + SignPayment(j, a, malformed) + meanwhile;
                && Play(p, s, sent).Some?
                && Play(p, s, start).value.now < Play(p, s, sent).value.now
                && a.hash < |Play(p, s, sent).value.ledger.txs|
                && IsTrue(a.answer, Play(p, s, sent).value.ledger.txs[a.hash])
    ensures Play(p, s, run) == Some(end)
    ensures end.db == PayJob(s.db, t, s.now, signed, end.now, Jobs.Provision(trust), a)
  {
    var begin, sign := StartPayment(j, t, trust), SignPayment(j, a, malformed);
    StartPaymentPlays(p, s, j, t, trust);
    var s2 := Play(p, s, begin).value;
    PlayAppend(p, s, begin, pause);
    WorldLeavesRows(p, s2, pause);
    var s3 := Play(p, s2, pause).value;
    signed := s3.now;
    SignPaymentPlays(p, s3, j, a, malformed);
    PlayAppend(p, s, begin + pause, sign);
    var s5 := Play(p, s3, sign).value;
    PlayAppend(p, s, begin + pause + sign, meanwhile);
    WorldLeavesRows(p, s5, meanwhile);
    var s6 := Play(p, s5, meanwhile).value;
    var last := Settler(j, PayResult(ResolutionOf(a.answer)));
    TrueAnswerIsReported(s6.ledger, a.hash, a.answer);
    end := Step(p, s6, last);
    PlayOne(p, s6, last);
    PlayAppend(p, s, begin + pause + sign + meanwhile, [last]);
    run := begin + pause + sign + meanwhile + [last];
  }

  /** What a provisioning that happened did, as actions. */
  function BeginPayment(j: nat, t: nat, wallet: Provisioning): seq<Action> {
    if wallet.Provision? then StartPayment(j, t, wallet.trust) else [Settler(j, PayClaim(t))]
  }

  predicate Trusted(s: State, t: nat, wallet: Provisioning)
    requires t < |s.db.transfers|
  {
    var u := s.db.transfers[t].recipient;
    wallet.Provision? && (wallet.trust || (u in s.db.wallets && s.db.wallets[u].trustSet))
  }

  lemma BeginPaymentPlays(p: Params, s: State, j: nat, t: nat, wallet: Provisioning)
    requires PayDelivered(s, j, t)
    ensures Play(p, s, BeginPayment(j, t, wallet)).Some?
    ensures var u := Play(p, s, BeginPayment(j, t, wallet)).value; var claimed := ClaimPay(s.db, t, s.now);
            && u.now == s.now
            && u.db == (if wallet.Provision? then Provisioned(claimed, s.db.transfers[t].recipient, wallet.trust)
               else claimed)
            && j in u.settlers && u.settlers[j] == Job(t, s.now, s.db.transfers[t].attempts + 1, Claimed)
  {
    if wallet.Provision? { StartPaymentPlays(p, s, j, t, wallet.trust); }
    else { PlayOne(p, s, Settler(j, PayClaim(t))); }
  }

  /** A settlement job that signs nothing: no trusted wallet, a bad amount, or a failure before the hash was kept. */
  lemma UnsignedPaymentIsARun(p: Params, s: State, j: nat, t: nat, wallet: Provisioning, pause: seq<Action>,
      a: Submission, signed: nat)
    returns (run: seq<Action>, end: State)
    requires PayDelivered(s, j, t) && OnlyWorld(pause) && !(a.Signed? && Trusted(s, t, wallet))
    requires Play(p, s, BeginPayment(j, t, wallet) + pause).Some?
             && s.now < Play(p, s, BeginPayment(j, t, wallet) + pause).value.now
    ensures Play(p, s, run) == Some(end) && end.db == PayJob(s.db, t, s.now, signed, end.now, wallet, a)
  {
    var begin := BeginPayment(j, t, wallet);
    BeginPaymentPlays(p, s, j, t, wallet);
    var s2 := Play(p, s, begin).value;
    PlayAppend(p, s, begin, pause);
    WorldLeavesRows(p, s2, pause);
    var s3 := Play(p, s2, pause).value;
    var last := Settler(j, if Trusted(s, t, wallet) && a.BadAmount? then PayRefuse else PayTransient);
    end := Step(p, s3, last);
    PlayOne(p, s3, last);
    PlayAppend(p, s, begin + pause, [last]);
    run := begin + pause + [last];
  }

  // ---------------------------------------------------------------- admins

  lemma TwoActions(p: Params, s: State, a: Action, t: State, b: Action)
    requires Enabled(p, s, a) && Step(p, s, a) == t && Enabled(p, t, b)
    ensures Play(p, s, [a] + [b]) == Some(Step(p, t, b))
  {
    PlayOne(p, s, a);
    PlayOne(p, t, b);
    PlayAppend(p, s, [a], [b]);
  }

  lemma OneMore(p: Params, s: State, run: seq<Action>, u: State, a: Action)
    requires Play(p, s, run) == Some(u) && Enabled(p, u, a)
    ensures Play(p, s, run + [a]) == Some(Step(p, u, a))
  {
    PlayOne(p, u, a);
    PlayAppend(p, s, run, [a]);
  }

  /** Read the request, then look at the ledger: no row changes, and the page holds the verdict. */
  lemma ReconcileLooks(p: Params, s: State, j: nat, r: nat, view: View, answer: Option<string>)
      returns (run: seq<Action>, u: State)
    requires AdminEnabled(s, j, ReconcileRead(r)) && s.db.requests[r].hash.value < |s.ledger.txs|
    requires Honest(s.ledger.txs[s.db.requests[r].hash.value], s.ledger.index, view, answer)
    ensures Play(p, s, run) == Some(u) && u.db == s.db && u.now == s.now
    ensures var q := s.db.requests[r]; var verdict := ReconcileVerdict(q.last, q.submitted, view, answer);
            !verdict.Unresolved? ==> j in u.admins && u.admins[j] == BurnJudged(r, q.hash.value, verdict.Moved?)
  {
    var read, look := Administrator(j, ReconcileRead(r)), Administrator(j, ReconcileLook(view, answer));
    var s1 := Step(p, s, read);
    TwoActions(p, s, read, s1, look);
    run, u := [read] + [look], Step(p, s1, look);
  }

  /**
   Whatever reconcile is told about a row as it is: a page is left exactly if the answer or the lapsed range
   decides, its commit does to the tables exactly what the job does, and without one the job does nothing.
  */
  lemma ReconcilePageIsTheJob(s: State, j: nat, view: View, answer: Option<string>)
    requires AdminEnabled(s, j, ReconcileLook(view, answer)) && s.admins[j].request < |s.db.requests|
    requires s.admins[j].seenRequest == s.db.requests[s.admins[j].request] && s.admins[j].seenRequest.status.Approved?
    ensures var r, q, u := s.admins[j].request, s.admins[j].seenRequest, AdminStep(s, j, ReconcileLook(view, answer));
            && (j in u.admins <==> answer.Some? || Lapsed(q.last, q.submitted, view))
            && (if j in u.admins then
                  && AdminEnabled(u, j, ReconcileCommit)
                  && AdminStep(u, j, ReconcileCommit).db == ReconcileJob(s.db, r, view, answer, s.now)
                else ReconcileJob(s.db, r, view, answer, s.now) == s.db)
  {
  }

  /** The same for a retry: landed, dead or refused, exactly as the evidence says. */
  lemma RetryPageIsTheJob(s: State, j: nat, view: View, answer: Option<string>)
    requires AdminEnabled(s, j, RetryLook(view, answer)) && Fresh(s, s.admins[j].transfer)
    requires s.admins[j].seen == s.db.transfers[s.admins[j].transfer] && MayRetry(s.admins[j].seen, s.now)
    ensures var t, x, u := s.admins[j].transfer, s.admins[j].seen, AdminStep(s, j, RetryLook(view, answer));
            && (j in u.admins && u.admins[j].PayLanded? <==> x.hash.Some? && answer == Some(SUCCESS))
            && (j in u.admins && u.admins[j].PayDead? <==> MayResend(x, view, answer))
            && (if j in u.admins then
                  && AdminEnabled(u, j, RetryCommit)
                  && AdminStep(u, j, RetryCommit).db == RetryJob(s.db, t, view, answer, s.now)
                else RetryJob(s.db, t, view, answer, s.now) == s.db)
  {
  }

  /** One uninterrupted reconcile, whatever the ledger honestly answers, is a run that ends with its tables. */
  lemma ReconcileIsARun(p: Params, s: State, j: nat, r: nat, view: View, answer: Option<string>)
      returns (run: seq<Action>, end: State)
    requires AdminEnabled(s, j, ReconcileRead(r)) && s.db.requests[r].hash.value < |s.ledger.txs|
    requires Honest(s.ledger.txs[s.db.requests[r].hash.value], s.ledger.index, view, answer)
    ensures Play(p, s, run) == Some(end) && end.db == ReconcileJob(s.db, r, view, answer, s.now)
  {
    var q := s.db.requests[r];
    run, end := ReconcileLooks(p, s, j, r, view, answer);
    if !ReconcileVerdict(q.last, q.submitted, view, answer).Unresolved? {
      OneMore(p, s, run, end, Administrator(j, ReconcileCommit));
      run, end := run + [Administrator(j, ReconcileCommit)], Step(p, end, Administrator(j, ReconcileCommit));
    }
  }

  lemma RetryLooks(p: Params, s: State, j: nat, t: nat, view: View, answer: Option<string>)
      returns (run: seq<Action>, u: State)
    requires AdminEnabled(s, j, RetryRead(t))
    requires s.db.transfers[t].hash.Some? ==>
      s.db.transfers[t].hash.value < |s.ledger.txs|
          && Honest(s.ledger.txs[s.db.transfers[t].hash.value], s.ledger.index, view, answer)
    ensures Play(p, s, run) == Some(u) && u.db == s.db && u.now == s.now
    ensures var x := s.db.transfers[t];
            match RetryOutcomeOf(x, view, answer, s.now)
            case Reconciled => j in u.admins && u.admins[j] == PayLanded(t, x.hash.value, x.status)
            case Resent => j in u.admins && u.admins[j] == PayDead(t, x)
            case _ => true
  {
    var read, look := Administrator(j, RetryRead(t)), Administrator(j, RetryLook(view, answer));
    var s1 := Step(p, s, read);
    TwoActions(p, s, read, s1, look);
    run, u := [read] + [look], Step(p, s1, look);
  }

  /** The same for an admin's retry, up to its commit. */
  lemma RetryIsARun(p: Params, s: State, j: nat, t: nat, view: View, answer: Option<string>)
      returns (run: seq<Action>, end: State)
    requires AdminEnabled(s, j, RetryRead(t)) && Fresh(s, t)
    requires s.db.transfers[t].hash.Some? ==>
      s.db.transfers[t].hash.value < |s.ledger.txs|
          && Honest(s.ledger.txs[s.db.transfers[t].hash.value], s.ledger.index, view, answer)
    ensures Play(p, s, run) == Some(end) && end.db == RetryJob(s.db, t, view, answer, s.now)
  {
    var outcome := RetryOutcomeOf(s.db.transfers[t], view, answer, s.now);
    run, end := RetryLooks(p, s, j, t, view, answer);
    if outcome.Reconciled? || outcome.Resent? {
      OneMore(p, s, run, end, Administrator(j, RetryCommit));
      run, end := run + [Administrator(j, RetryCommit)], Step(p, end, Administrator(j, RetryCommit));
    }
  }
}
