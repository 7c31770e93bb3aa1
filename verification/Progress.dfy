/** No approved cash-out is stranded, whatever died and however often. */
module Progress {
  import opened Wrappers
  import opened CompleteLedgers
  import opened Outcomes
  import opened Xrpl
  import opened Rows
  import opened Machine
  import opened Invariant
  import opened Preservation
  import opened History
  import opened Guarantees
  import opened Timing

  // ---------------------------------------------------------------- a measure

  function UnsignedRank(attempts: nat): nat { 2 + if attempts < MAX_ATTEMPTS then MAX_ATTEMPTS - attempts else 0 }

  /** How far a cash-out is from its end. */
  function Rank(q: CashOut): nat {
    if Final(q) then 0
    else if q.hash.Some? then 1
    else if q.status.Approved? then UnsignedRank(q.attempts)
    else UnsignedRank(0) + 1
  }

  /** Over any run a cash-out only gets nearer to its end. */
  lemma RankNeverRises(p: Params, s: State, run: seq<Action>, s': State, r: nat)
    requires Inv(s) && Play(p, s, run) == Some(s') && r < |s.db.requests|
    ensures r < |s'.db.requests| && Rank(s'.db.requests[r]) <= Rank(s.db.requests[r])
  {
    RunEvolves(p, s, run);
    assert RequestEvolves(s.db.requests[r], s'.db.requests[r]);
  }

  /**
   A worker that claims an unsigned row and does anything but die brings it strictly nearer its
   end than it was before the claim: it signs, it fails the row, or it used up an attempt.
  */
  lemma WorkerPassLowersRank(s: State, j: nat, e: BurnEvent)
    requires Inv(s) && BurnEnabled(s, j, e) && (e.BurnRefuse? || e.BurnTransient? || e.BurnPersist?)
    ensures 0 < s.burners[j].attempts
    ensures Rank(BurnStep(s, j, e).db.requests[s.burners[j].row]) < UnsignedRank(s.burners[j].attempts - 1)
  {
    assert BurnJobOk(s.burners[j], s.db.requests, s.published, s.ledger);
  }

  // ---------------------------------------------------------------- everything dies

  ghost predicate Quiet(s: State) {
    s.publishing == {} && s.burners == map[] && s.settlers == map[] && s.admins == map[]
  }

  function Alive(s: State): nat { |s.publishing| + |s.burners| + |s.settlers| + |s.admins| }

  lemma RemoveOne<T>(m: map<nat, T>, j: nat)
    requires j in m
    ensures |m - {j}| < |m|
  {
    assert (m - {j}).Keys == m.Keys - {j};
    assert |(m - {j}).Keys| == |m - {j}| && |m.Keys| == |m|;
  }

  lemma PlayCons(p: Params, s: State, a: Action, run: seq<Action>)
    requires Enabled(p, s, a)
    ensures Play(p, s, [a] + run) == Play(p, Step(p, s, a), run)
  {
    assert ([a] + run)[1..] == run;
  }

  lemma {:induction false} FreshName(names: set<nat>) returns (j: nat)
    ensures forall k :: k in names ==> k < j
  {
    if names == {} {
      j := 0;
    } else {
      var k :| k in names;
      j := FreshName(names - {k});
      if j <= k { j := k + 1; }
      forall i | i in names ensures i < j { assert i == k || i in names - {k}; }
    }
  }

  /** One more step of a run. */
  lemma Then(p: Params, s: State, run: seq<Action>, u: State, a: Action) returns (more: seq<Action>, v: State)
    requires Play(p, s, run) == Some(u) && Enabled(p, u, a)
    ensures v == Step(p, u, a) && Play(p, s, more) == Some(v)
  {
    more, v := run + [a], Step(p, u, a);
    PlayCons(p, u, a, []);
    PlayAppend(p, s, run, [a]);
  }

  lemma TwoSteps(p: Params, s: State, a: Action, t: State, b: Action, u: State)
    requires Enabled(p, s, a) && Step(p, s, a) == t && Enabled(p, t, b) && Step(p, t, b) == u
    ensures Play(p, s, [a] + [b]) == Some(u)
  {
    PlayCons(p, t, b, []);
    PlayCons(p, s, a, [b]);
  }

  /** A death: something alive stops, and no row and no ledger entry changes. */
  ghost predicate Death(p: Params, s: State, a: Action) {
    Enabled(p, s, a) &&
    var s' := Step(p, s, a);
    s'.db == s.db && s'.ledger == s.ledger && s'.now == s.now && s'.published == s.published && Alive(s') < Alive(s)
  }

  lemma PublisherDies(p: Params, s: State, r: nat)
    requires r in s.publishing
    ensures Death(p, s, CashOutDesk(PublishDies(r)))
  {
  }

  lemma BurnerDies(p: Params, s: State, j: nat)
    requires BurnerAt(s, j)
    ensures Death(p, s, Burner(j, BurnCrash))
  {
    RemoveOne(s.burners, j);
  }

  lemma SettlerDies(p: Params, s: State, j: nat)
    requires SettlerAt(s, j)
    ensures Death(p, s, Settler(j, PayCrash))
  {
    RemoveOne(s.settlers, j);
  }

  lemma PageCloses(p: Params, s: State, j: nat)
    requires j in s.admins
    ensures Death(p, s, Administrator(j, Leave))
  {
    RemoveOne(s.admins, j);
  }

  lemma JobsHaveRows(s: State)
    requires Inv(s)
    ensures forall j :: j in s.burners ==> BurnerAt(s, j)
    ensures forall j :: j in s.settlers ==> SettlerAt(s, j)
  {
    forall j | j in s.burners ensures BurnerAt(s, j) {
      assert BurnJobOk(s.burners[j], s.db.requests, s.published, s.ledger);
    }
    forall j | j in s.settlers ensures SettlerAt(s, j) {
      assert PayJobOk(s.settlers[j], s.db.transfers, s.ledger);
    }
  }

  lemma OneDeath(p: Params, s: State) returns (a: Action)
    requires Inv(s) && !Quiet(s)
    ensures Death(p, s, a)
  {
    JobsHaveRows(s);
    if s.publishing != {} {
      var r :| r in s.publishing;
      a := CashOutDesk(PublishDies(r));
      PublisherDies(p, s, r);
    } else if s.burners != map[] {
      assert s.burners.Keys != {};
      var j :| j in s.burners;
      a := Burner(j, BurnCrash);
      BurnerDies(p, s, j);
    } else if s.settlers != map[] {
      assert s.settlers.Keys != {};
      var j :| j in s.settlers;
      a := Settler(j, PayCrash);
      SettlerDies(p, s, j);
    } else {
      assert s.admins.Keys != {};
      var j :| j in s.admins;
      a := Administrator(j, Leave);
      PageCloses(p, s, j);
    }
  }

  /** Every process may die at once; the tables and the ledger are what is left. */
  lemma {:induction false} AllDie(p: Params, s: State) returns (run: seq<Action>, s': State)
    requires Inv(s)
    ensures Play(p, s, run) == Some(s') && Inv(s') && Quiet(s')
    ensures s'.db == s.db && s'.ledger == s.ledger && s'.now == s.now && s'.published == s.published
    decreases Alive(s)
  {
    if Quiet(s) {
      run, s' := [], s;
    } else {
      var a := OneDeath(p, s);
      StepKeepsInv(p, s, a);
      var rest;
      rest, s' := AllDie(p, Step(p, s, a));
      PlayCons(p, s, a, rest);
      run := [a] + rest;
    }
  }

  // ---------------------------------------------------------------- the ledger's answer

  lemma {:induction false} LedgerAdvances(p: Params, s: State, target: nat) returns (run: seq<Action>, s': State)
    ensures Play(p, s, run) == Some(s') && target < s'.ledger.index
    ensures s' == s.(ledger := s.ledger.(index := if target < s.ledger.index then s.ledger.index else target + 1))
    decreases target - s.ledger.index
  {
    if target < s.ledger.index {
      run, s' := [], s;
    } else {
      var a := World(CloseLedger);
      var rest;
      rest, s' := LedgerAdvances(p, Step(p, s, a), target);
      PlayCons(p, s, a, rest);
      run := [a] + rest;
    }
  }

  /** The view of a server with full history: it lists every ledger up to its newest. */
  function FullView(l: Ledger): View { View(l.index, PrintRanges([(0, l.index)])) }

  lemma FullViewCovers(l: Ledger, start: nat, end: nat)
    requires end <= l.index
    ensures HasCompleteRange(FullView(l).complete, start, end)
  {
    ParseUndoesPrint([(0, l.index)]);
    assert Covers(Ranges(FullView(l).complete)[0], start, end);
  }

  /** Evidence that decides leaves a judged page behind. */
  lemma LookJudges(s: State, j: nat, view: View, answer: Option<string>)
    requires AdminEnabled(s, j, ReconcileLook(view, answer))
    requires answer.Some? || ProvablyDead(s.admins[j].seenRequest.last, s.admins[j].seenRequest.submitted, view)
    ensures var u := AdminStep(s, j, ReconcileLook(view, answer));
            j in u.admins && u.admins[j].BurnJudged? && u.admins[j].request == s.admins[j].request
            && u == s.(admins := s.admins[j := u.admins[j]])
  {
  }

  /** Committing a judged page ends the request, or finds it ended. */
  lemma JudgedEnds(s: State, j: nat)
    requires Inv(s) && j in s.admins && s.admins[j].BurnJudged?
    ensures AdminEnabled(s, j, ReconcileCommit) && AdminStep(s, j, ReconcileCommit).now == s.now
    ensures var r := s.admins[j].request; var u := AdminStep(s, j, ReconcileCommit);
            r < |u.db.requests| && Final(u.db.requests[r])
  {
    var page := s.admins[j];
    assert AdminOk(page, s.db.requests, s.db.transfers, s.ledger, s.now);
    assert RequestOk(page.request, s.db.requests[page.request], s.db.wallets, s.ledger);
  }

  /**
   Every reconcile ends a signed cash-out once the evidence is in: whatever honest server answers,
   whoever else is alive and whatever they do between the look and the commit.
  */
  lemma EvidenceEnds(p: Params, s: State, j: nat, view: View, answer: Option<string>, meanwhile: seq<Action>, u: State)
    requires Inv(s) && AdminEnabled(s, j, ReconcileLook(view, answer))
    requires answer.Some? || ProvablyDead(s.admins[j].seenRequest.last, s.admins[j].seenRequest.submitted, view)
    requires Play(p, AdminStep(s, j, ReconcileLook(view, answer)), meanwhile) == Some(u)
    requires j in u.admins && j in AdminStep(s, j, ReconcileLook(view, answer)).admins
    requires u.admins[j] == AdminStep(s, j, ReconcileLook(view, answer)).admins[j]
    ensures AdminEnabled(u, j, ReconcileCommit)
    ensures var r := s.admins[j].request;
            r < |AdminStep(u, j, ReconcileCommit).db.requests| && Final(AdminStep(u, j, ReconcileCommit).db.requests[r])
  {
    LookJudges(s, j, view, answer);
    StepKeepsInv(p, s, Administrator(j, ReconcileLook(view, answer)));
    RunKeepsInv(p, AdminStep(s, j, ReconcileLook(view, answer)), meanwhile);
    JudgedEnds(u, j);
  }

  /** The three steps of one reconcile on the evidence at hand, with everybody else alive. */
  lemma ReconcileEnds(p: Params, s: State, j: nat, r: nat, view: View, answer: Option<string>)
      returns (run: seq<Action>, s': State)
    requires Inv(s) && AdminEnabled(s, j, ReconcileRead(r)) && s.db.requests[r].hash.value < |s.ledger.txs|
    requires Honest(s.ledger.txs[s.db.requests[r].hash.value], s.ledger.index, view, answer)
    requires answer.Some? || ProvablyDead(s.db.requests[r].last, s.db.requests[r].submitted, view)
    ensures Play(p, s, run) == Some(s') && r < |s'.db.requests| && Final(s'.db.requests[r]) && s'.now == s.now
  {
    var read, look := Administrator(j, ReconcileRead(r)), Administrator(j, ReconcileLook(view, answer));
    var s1 := Step(p, s, read);
    StepKeepsInv(p, s, read);
    LookJudges(s1, j, view, answer);
    var s2 := Step(p, s1, look);
    StepKeepsInv(p, s1, look);
    JudgedEnds(s2, j);
    TwoSteps(p, s, read, s1, look, s2);
    run, s' := Then(p, s, [read] + [look], s2, Administrator(j, ReconcileCommit));
  }

  /** Once the ledger has passed the deadline, one reconcile against full history ends a signed cash-out. */
  lemma ReconcileResolves(p: Params, s: State, j: nat, r: nat) returns (run: seq<Action>, s': State)
    requires Inv(s) && AdminEnabled(s, j, ReconcileRead(r))
    requires s.db.requests[r].last.Some? && s.db.requests[r].last.value < s.ledger.index
    ensures Play(p, s, run) == Some(s') && r < |s'.db.requests| && Final(s'.db.requests[r]) && s'.now == s.now
  {
    var q := s.db.requests[r];
    assert RequestOk(r, q, s.db.wallets, s.ledger);
    var x := s.ledger.txs[q.hash.value];
    FullViewCovers(s.ledger, x.submittedAt, q.last.value);
    run, s' := ReconcileEnds(p, s, j, r, FullView(s.ledger), if x.fate.Included? then Some(x.fate.code) else None);
  }

  // ---------------------------------------------------------------- exactly which cash-outs can still end

  /**
   An unsigned cash-out can always end. A signed one needs a result in a ledger, a deadline, a live
   worker, or a well-formed transaction that was sent.
  */
  predicate CanEnd(s: State, r: nat) {
    r < |s.db.requests| &&
    var q := s.db.requests[r];
    q.hash.Some? ==>
      q.hash.value < |s.ledger.txs|
      && var x := s.ledger.txs[q.hash.value];
         x.fate.Included? || x.last.Some? || Worked(s, r) || (x.sent && !x.malformed)
  }

  ghost predicate Ends(p: Params, s: State, run: seq<Action>, r: nat) {
    Play(p, s, run).Some? && r < |Play(p, s, run).value.db.requests| && Final(Play(p, s, run).value.db.requests[r])
  }

  /** A signed cash-out whose result is in a ledger, or whose deadline can pass. */
  lemma LookedUpEnds(p: Params, s: State, r: nat) returns (run: seq<Action>, s': State)
    requires Inv(s) && r < |s.db.requests| && s.db.requests[r].status.Approved? && s.db.requests[r].hash.Some?
    requires var h := s.db.requests[r].hash.value;
             h < |s.ledger.txs| && (s.ledger.txs[h].fate.Included? || s.ledger.txs[h].last.Some?)
    ensures Play(p, s, run) == Some(s') && r < |s'.db.requests| && Final(s'.db.requests[r]) && s'.now == s.now
  {
    var q := s.db.requests[r];
    assert RequestOk(r, q, s.db.wallets, s.ledger);
    var x := s.ledger.txs[q.hash.value];
    var j := FreshName(s.admins.Keys);
    if x.fate.Included? {
      run, s' := ReconcileEnds(p, s, j, r, FullView(s.ledger), Some(x.fate.code));
    } else {
      var wait, u := LedgerAdvances(p, s, q.last.value);
      RunKeepsInv(p, s, wait);
      var rest;
      rest, s' := ReconcileResolves(p, u, j, r);
      PlayAppend(p, s, wait, rest);
      run := wait + rest;
    }
  }

  /** A burn that was sent can be decided by the ledger, and then ended. */
  lemma SentEnds(p: Params, s: State, r: nat) returns (run: seq<Action>, s': State)
    requires Inv(s) && r < |s.db.requests| && s.db.requests[r].status.Approved? && s.db.requests[r].hash.Some?
    requires var h := s.db.requests[r].hash.value;
             h < |s.ledger.txs| && s.ledger.txs[h].sent && !s.ledger.txs[h].malformed && s.ledger.txs[h].last.None?
    ensures Play(p, s, run) == Some(s') && r < |s'.db.requests| && Final(s'.db.requests[r]) && s'.now == s.now
  {
    var h := s.db.requests[r].hash.value;
    if s.ledger.txs[h].fate.Included? {
      run, s' := LookedUpEnds(p, s, r);
    } else {
      var wait, u := LedgerAdvances(p, s, s.ledger.txs[h].submittedAt);
      var decide, v := Then(p, s, wait, u, World(Include(h, "tecKILLED")));
      RunKeepsInv(p, s, decide);
      var rest;
      rest, s' := LookedUpEnds(p, v, r);
      PlayAppend(p, s, decide, rest);
      run := decide + rest;
    }
  }

  /** A live worker has sent its burn, or can at once. */
  lemma WorkerSends(p: Params, s: State, j: nat) returns (run: seq<Action>, v: State)
    requires Inv(s) && BurnerAt(s, j) && !s.burners[j].phase.Claimed?
    ensures Play(p, s, run) == Some(v) && Inv(v) && v.db == s.db && v.now == s.now
    ensures j in v.burners && v.burners[j].row == s.burners[j].row
    ensures v.burners[j].phase == Sent(s.burners[j].phase.hash)
    ensures var h := s.burners[j].phase.hash;
            h < |s.ledger.txs| && h < |v.ledger.txs| && v.ledger.txs[h] == s.ledger.txs[h].(sent := true)
  {
    assert BurnJobOk(s.burners[j], s.db.requests, s.published, s.ledger);
    run, v := [], s;
    if s.burners[j].phase.Persisted? {
      run, v := Then(p, s, [], s, Burner(j, BurnSend));
      RunKeepsInv(p, s, run);
    }
  }

  /** So can a burn whose worker lives: it is sent, or reported malformed. */
  lemma WorkedEnds(p: Params, s: State, r: nat) returns (run: seq<Action>, s': State)
    requires Inv(s) && r < |s.db.requests| && s.db.requests[r].status.Approved? && s.db.requests[r].hash.Some?
    requires Worked(s, r)
    requires var h := s.db.requests[r].hash.value;
             h < |s.ledger.txs| && s.ledger.txs[h].fate.Open? && s.ledger.txs[h].last.None?
    ensures Play(p, s, run) == Some(s') && r < |s'.db.requests| && Final(s'.db.requests[r]) && s'.now == s.now
  {
    var j :| j in s.burners && s.burners[j].row == r;
    var h := s.db.requests[r].hash.value;
    var u;
    assert BurnJobOk(s.burners[j], s.db.requests, s.published, s.ledger);
    run, u := WorkerSends(p, s, j);
    if u.ledger.txs[h].malformed {
      ReportEnds(u, j);
      run, s' := Then(p, s, run, u, Burner(j, BurnResult(Resolution.Failed)));
    } else {
      var rest;
      rest, s' := SentEnds(p, u, r);
      PlayAppend(p, s, run, rest);
      run := run + rest;
    }
  }

  lemma ReportEnds(s: State, j: nat)
    requires Inv(s) && j in s.burners && s.burners[j].phase.Sent?
    requires var h := s.burners[j].phase.hash;
             h < |s.ledger.txs| && s.ledger.txs[h].fate.Open? && s.ledger.txs[h].malformed
    ensures BurnEnabled(s, j, BurnResult(Resolution.Failed))
    ensures var r := s.burners[j].row; var t := BurnStep(s, j, BurnResult(Resolution.Failed));
            r < |t.db.requests| && t.now == s.now && (s.db.requests[r].status.Approved? ==> Final(t.db.requests[r]))
  {
    assert BurnJobOk(s.burners[j], s.db.requests, s.published, s.ledger);
    assert RequestOk(s.burners[j].row, s.db.requests[s.burners[j].row], s.db.wallets, s.ledger);
  }

  lemma SignedEnds(p: Params, s: State, r: nat) returns (run: seq<Action>, s': State)
    requires Inv(s) && CanEnd(s, r) && s.db.requests[r].status.Approved? && s.db.requests[r].hash.Some?
    ensures Play(p, s, run) == Some(s') && r < |s'.db.requests| && Final(s'.db.requests[r]) && s'.now == s.now
  {
    var x := s.ledger.txs[s.db.requests[r].hash.value];
    if x.fate.Included? || x.last.Some? { run, s' := LookedUpEnds(p, s, r); }
    else if x.sent && !x.malformed { run, s' := SentEnds(p, s, r); }
    else { run, s' := WorkedEnds(p, s, r); }
  }

  // ---------------------------------------------------------------- unsigned cash-outs

  /** A selected row, whoever else is alive: one sweep and one delivery put a worker on it at once. */
  lemma SweepAndClaim(p: Params, s: State, j: nat, r: nat) returns (run: seq<Action>, s': State)
    requires Inv(s) && r < |s.db.requests| && Sweepable(s.db.requests[r], s.now) && j !in s.burners
    ensures Play(p, s, run) == Some(s')
    ensures s' == s.(published := s.published + {r}, db := ClaimBurn(s.db, r, s.now),
                     burners := s.burners[j := Job(r, s.now, s.db.requests[r].attempts + 1, Claimed)])
  {
    var a, b := CashOutDesk(Sweep(r)), Burner(j, BurnClaim(r));
    var s1 := Step(p, s, a);
    s' := Step(p, s1, b);
    TwoSteps(p, s, a, s1, b, s');
    run := [a] + [b];
  }

  /**
   From every reachable state, even if every process dies at once, an unsigned approved row is under
   a live worker again within ten minutes and a microsecond, by the sweep and one delivery.
  */
  lemma SweepRevives(p: Params, before: seq<Action>, s: State, r: nat) returns (run: seq<Action>, s': State)
    requires Reaches(p, before, s) && Unsigned(s, r)
    ensures Play(p, s, run) == Some(s') && Inv(s') && s'.now <= s.now + STUCK_AFTER + 1
    ensures r < |s'.db.requests| && exists j :: OwnedBy(s', j, r) && Unsigned(s', r)
  {
    RunKeepsInv(p, INIT, before);
    var deaths, s1 := AllDie(p, s);
    var dt := UnsignedWait(p, before, s, r);
    var wait, s2 := Then(p, s, deaths, s1, World(Tick(dt)));
    RunKeepsInv(p, s, wait);
    var rest;
    rest, s' := SweepAndClaim(p, s2, 0, r);
    PlayAppend(p, s, wait, rest);
    run := wait + rest;
    RunKeepsInv(p, s, run);
    assert OwnedBy(s', 0, r);
  }

  /** How long until the sweep selects the row: nothing if it does already. */
  lemma UnsignedWait(p: Params, before: seq<Action>, s: State, r: nat) returns (dt: nat)
    requires Reaches(p, before, s) && Unsigned(s, r)
    ensures dt <= STUCK_AFTER + 1 && Sweepable(s.db.requests[r], s.now + dt)
  {
    UnsignedIsNeverForgotten(p, before, s, r);
    var from := SelectableAfter(s.db.requests[r]);
    dt := if from < s.now then 0 else from + 1 - s.now;
  }

  lemma Signs(p: Params, s: State, j: nat) returns (a: Action, s': State)
    requires Inv(s) && BurnerAt(s, j) && s.burners[j].phase.Claimed?
    ensures Enabled(p, s, a) && s' == Step(p, s, a) && Inv(s') && s'.now == s.now
    ensures var r := s.burners[j].row;
            CanEnd(s', r) && s'.db.requests[r].status.Approved? && s'.db.requests[r].hash.Some?
  {
    assert BurnJobOk(s.burners[j], s.db.requests, s.published, s.ledger);
    a := Burner(j, BurnPersist(s.ledger.index, Some(s.ledger.index + 20), false));
    s' := Step(p, s, a);
    StepKeepsInv(p, s, a);
  }

  lemma UnsignedEnds(p: Params, before: seq<Action>, s: State, r: nat) returns (run: seq<Action>, s': State)
    requires Reaches(p, before, s) && Unsigned(s, r)
    ensures Play(p, s, run) == Some(s') && r < |s'.db.requests| && Final(s'.db.requests[r])
    ensures s'.now <= s.now + STUCK_AFTER + 1
  {
    var u;
    run, u := SweepRevives(p, before, s, r);
    var j :| OwnedBy(u, j, r);
    var sign, v := Signs(p, u, j);
    run, v := Then(p, s, run, u, sign);
    var rest;
    rest, s' := SignedEnds(p, v, r);
    PlayAppend(p, s, run, rest);
    run := run + rest;
  }

  // ---------------------------------------------------------------- nobody is stranded

  /** An approved cash-out can end, and within ten minutes, whenever it can end at all. */
  lemma ApprovedEnds(p: Params, before: seq<Action>, s: State, r: nat) returns (run: seq<Action>, s': State)
    requires Reaches(p, before, s) && CanEnd(s, r) && s.db.requests[r].status.Approved?
    ensures Play(p, s, run) == Some(s') && r < |s'.db.requests| && Final(s'.db.requests[r])
    ensures s'.now <= s.now + STUCK_AFTER + 1
  {
    RunKeepsInv(p, INIT, before);
    if s.db.requests[r].hash.Some? { run, s' := SignedEnds(p, s, r); }
    else { run, s' := UnsignedEnds(p, before, s, r); }
  }

  /**
   From every reachable state, even if every process dies first, an approved cash-out can still be
   brought to its end within ten minutes by the sweep, the queue and one reconcile, with no other
   repair. Only a burn without a deadline that nobody sent, or that is malformed, needs its worker.
  */
  lemma NoCashOutIsStranded(p: Params, before: seq<Action>, s: State, r: nat)
      returns (deaths: seq<Action>, s1: State, more: seq<Action>, s': State)
    requires Reaches(p, before, s) && r < |s.db.requests| && s.db.requests[r].status.Approved?
    requires CanEnd(s.(burners := map[]), r)
    ensures Play(p, s, deaths) == Some(s1) && Quiet(s1) && s1.db == s.db && s1.ledger == s.ledger
    ensures Play(p, s1, more) == Some(s') && r < |s'.db.requests| && Final(s'.db.requests[r])
    ensures s'.now <= s.now + STUCK_AFTER + 1
  {
    RunKeepsInv(p, INIT, before);
    deaths, s1 := AllDie(p, s);
    PlayAppend(p, INIT, before, deaths);
    more, s' := ApprovedEnds(p, before + deaths, s1, r);
  }
}
