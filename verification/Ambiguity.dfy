/**
 E3: what a burn enqueue may not do. A publisher whose message was delivered although the enqueue
 raised, or who is still publishing after the grace, has for module Machine left `publishing`; its
 restore, guarded by status approved alone, then comes late.
*/
module Ambiguity {
  import opened Wrappers
  import opened Outcomes
  import opened Xrpl
  import opened Rows
  import opened Machine
  import opened Invariant
  import opened Preservation
  import opened History
  import opened Guarantees
  import opened Timing
  import opened Progress
  import opened Witness

  /** The publisher's restore, at any time. */
  function LateRestore(s: State, r: nat): State
    requires r < |s.db.requests|
  {
    s.(db := FailAndRestore(s.db, r, None), publishing := s.publishing - {r})
  }

  ghost predicate NoneLanded(l: Ledger, r: nat) {
    forall h :: 0 <= h < |l.txs| && l.txs[h].purpose == Purpose.Burn(r) ==> !Success(l.txs[h])
  }

  /** However the run goes on, no burn of request `r` ever succeeds. */
  ghost predicate NeverBurns(p: Params, s: State, r: nat) {
    forall run :: Play(p, s, run).Some? ==> NoneLanded(Play(p, s, run).value.ledger, r)
  }

  /** The first ledger that could include `x`. */
  function FirstChance(x: SignedTx, index: nat): nat { if index <= x.submittedAt then x.submittedAt + 1 else index }

  predicate Hopeless(x: SignedTx, index: nat) {
    if x.fate.Open? then x.malformed || (x.last.Some? && x.last.value < FirstChance(x, index)) else Rejected(x)
  }

  /** A burn of `r` has landed or can still land: a live worker may sign one, or one is signed and on its way. */
  predicate CanStillLand(s: State, r: nat) {
    r < |s.db.requests| &&
    var q := s.db.requests[r];
    if q.hash.None? then Worked(s, r)
    else
      q.hash.value < |s.ledger.txs|
      && var x := s.ledger.txs[q.hash.value];
         !Hopeless(x, s.ledger.index) && (x.sent || Worked(s, r))
  }

  // ---------------------------------------------------------------- when it cannot, it never will

  /** In no ledger, and either hopeless or unsent with nobody left to send it. */
  ghost predicate Shut(s: State, h: nat) {
    && h < |s.ledger.txs|
    && (Hopeless(s.ledger.txs[h], s.ledger.index)
        || (s.ledger.txs[h].fate.Open? && !s.ledger.txs[h].sent && !Carried(s.burners, h) && !Carried(s.settlers, h)))
  }

  predicate Carried(jobs: map<nat, Job>, h: nat) { exists j :: j in jobs && jobs[j].phase == Persisted(h) }

  /** A final request that nobody can sign for, all of whose burns are shut. */
  ghost predicate Sealed(s: State, r: nat) {
    && r < |s.db.requests| && Final(s.db.requests[r])
    && (forall j :: j in s.burners && s.burners[j].row == r ==> !s.burners[j].phase.Claimed?)
    && (forall h :: 0 <= h < |s.ledger.txs| && s.ledger.txs[h].purpose == Purpose.Burn(r) ==> Shut(s, h))
  }

  lemma WorldSeals(s: State, w: WorldEvent, r: nat)
    requires WorldEnabled(s, w) && Sealed(s, r)
    ensures Sealed(WorldStep(s, w), r)
  {
    var v := WorldStep(s, w);
    forall h | 0 <= h < |v.ledger.txs| && v.ledger.txs[h].purpose == Purpose.Burn(r) ensures Shut(v, h) {
      assert Shut(s, h);
    }
  }

  /** A job that sends what it persisted opens nothing. */
  lemma SendingSeals(s: State, v: State, k: nat, r: nat)
    requires Sealed(s, r) && k < |s.ledger.txs| && v.ledger == Submit(s.ledger, k)
    requires Carried(s.burners, k) || Carried(s.settlers, k)
    requires forall h: nat :: Carried(v.burners, h) ==> Carried(s.burners, h)
    requires forall h: nat :: Carried(v.settlers, h) ==> Carried(s.settlers, h)
    ensures forall h :: 0 <= h < |v.ledger.txs| && v.ledger.txs[h].purpose == Purpose.Burn(r) ==> Shut(v, h)
  {
    forall h | 0 <= h < |v.ledger.txs| && v.ledger.txs[h].purpose == Purpose.Burn(r) ensures Shut(v, h) {
      assert Shut(s, h);
    }
  }

  /** A new transaction, of another row, opens nothing. */
  lemma SigningSeals(s: State, v: State, x: SignedTx, r: nat)
    requires Sealed(s, r) && v.ledger == Register(s.ledger, x) && x.purpose != Purpose.Burn(r)
    requires forall h: nat :: Carried(v.burners, h) ==> Carried(s.burners, h) || h == |s.ledger.txs|
    requires forall h: nat :: Carried(v.settlers, h) ==> Carried(s.settlers, h) || h == |s.ledger.txs|
    ensures forall h :: 0 <= h < |v.ledger.txs| && v.ledger.txs[h].purpose == Purpose.Burn(r) ==> Shut(v, h)
  {
    forall h | 0 <= h < |v.ledger.txs| && v.ledger.txs[h].purpose == Purpose.Burn(r) ensures Shut(v, h) {
      assert h < |s.ledger.txs| && v.ledger.txs[h] == s.ledger.txs[h];
      assert Shut(s, h);
    }
  }

  /** With the register as it was and nothing newly persisted, nothing opens. */
  lemma QuietSeals(s: State, v: State, r: nat)
    requires Sealed(s, r) && v.ledger.txs == s.ledger.txs && v.ledger.index == s.ledger.index
    requires forall h: nat :: Carried(v.burners, h) ==> Carried(s.burners, h)
    requires forall h: nat :: Carried(v.settlers, h) ==> Carried(s.settlers, h)
    ensures forall h :: 0 <= h < |v.ledger.txs| && v.ledger.txs[h].purpose == Purpose.Burn(r) ==> Shut(v, h)
  {
    forall h | 0 <= h < |v.ledger.txs| && v.ledger.txs[h].purpose == Purpose.Burn(r) ensures Shut(v, h) {
      assert Shut(s, h);
    }
  }

  lemma CarriedAfter(jobs: map<nat, Job>, after: map<nat, Job>, j: nat, added: Option<nat>)
    requires forall k :: k in after && k != j ==> k in jobs && after[k] == jobs[k]
    requires j in after && after[j].phase.Persisted? ==> Some(after[j].phase.hash) == added
    ensures forall h: nat :: Carried(after, h) ==> Carried(jobs, h) || Some(h) == added
  {
    forall h: nat | Carried(after, h) ensures Carried(jobs, h) || Some(h) == added {
      var k :| k in after && after[k].phase == Persisted(h);
      if k != j { assert k in jobs && jobs[k].phase == Persisted(h); }
    }
  }

  lemma SettleSeals(s: State, j: nat, e: SettleEvent, r: nat)
    requires SettleEnabled(s, j, e) && Sealed(s, r)
    ensures Sealed(SettleStep(s, j, e), r)
  {
    var v := SettleStep(s, j, e);
    SettleTouches(s, j, e);
    if e.PayPersist? {
      CarriedAfter(s.settlers, v.settlers, j, Some(|s.ledger.txs|));
      SigningSeals(s, v, v.ledger.txs[|s.ledger.txs|], r);
    } else {
      CarriedAfter(s.settlers, v.settlers, j, None);
      if e.PaySend? {
        assert Carried(s.settlers, s.settlers[j].phase.hash);
        SendingSeals(s, v, s.settlers[j].phase.hash, r);
      } else {
        QuietSeals(s, v, r);
      }
    }
  }

  lemma SettleTouches(s: State, j: nat, e: SettleEvent)
    requires SettleEnabled(s, j, e)
    ensures var v := SettleStep(s, j, e);
            && v.db.requests == s.db.requests && v.burners == s.burners
            && (forall k :: k in v.settlers && k != j ==> k in s.settlers && v.settlers[k] == s.settlers[k])
            && (e.PayPersist? ==>
                 && v.ledger == Register(s.ledger, v.ledger.txs[|s.ledger.txs|])
                 && v.ledger.txs[|s.ledger.txs|].purpose.Pay?
                 && v.settlers[j].phase == Persisted(|s.ledger.txs|))
            && (e.PaySend? ==> v.ledger == Submit(s.ledger, s.settlers[j].phase.hash) && v.settlers[j].phase.Sent?)
            && (!e.PayPersist? && !e.PaySend? ==> v.ledger.txs == s.ledger.txs && v.ledger.index == s.ledger.index)
            && (j in v.settlers && v.settlers[j].phase.Persisted? ==> e.PayPersist?)
  {
  }

  lemma BurnSeals(s: State, j: nat, e: BurnEvent, r: nat)
    requires BurnEnabled(s, j, e) && Sealed(s, r)
    ensures Sealed(BurnStep(s, j, e), r)
  {
    var v := BurnStep(s, j, e);
    BurnTouches(s, j, e);
    BurnKeepsFinal(s, j, e, r);
    if e.BurnPersist? {
      CarriedAfter(s.burners, v.burners, j, Some(|s.ledger.txs|));
      SigningSeals(s, v, v.ledger.txs[|s.ledger.txs|], r);
    } else {
      CarriedAfter(s.burners, v.burners, j, None);
      if e.BurnSend? {
        assert Carried(s.burners, s.burners[j].phase.hash);
        SendingSeals(s, v, s.burners[j].phase.hash, r);
      } else {
        QuietSeals(s, v, r);
      }
    }
  }

  lemma BurnTouches(s: State, j: nat, e: BurnEvent)
    requires BurnEnabled(s, j, e)
    ensures var v := BurnStep(s, j, e);
            && v.settlers == s.settlers
            && (forall k :: k in v.burners && k != j ==> k in s.burners && v.burners[k] == s.burners[k])
            && (e.BurnPersist? ==>
                 && s.burners[j].phase.Claimed?
                 && v.ledger == Register(s.ledger, v.ledger.txs[|s.ledger.txs|])
                 && v.ledger.txs[|s.ledger.txs|].purpose == Purpose.Burn(s.burners[j].row)
                 && v.burners[j].phase == Persisted(|s.ledger.txs|))
            && (e.BurnSend? ==> v.ledger == Submit(s.ledger, s.burners[j].phase.hash) && v.burners[j].phase.Sent?)
            && (!e.BurnPersist? && !e.BurnSend? ==> v.ledger == s.ledger)
            && (j in v.burners && v.burners[j].phase.Persisted? ==> e.BurnPersist?)
  {
  }

  /** A final row stays final, and nobody claims it. */
  lemma BurnKeepsFinal(s: State, j: nat, e: BurnEvent, r: nat)
    requires BurnEnabled(s, j, e) && r < |s.db.requests| && Final(s.db.requests[r])
    requires forall k :: k in s.burners && s.burners[k].row == r ==> !s.burners[k].phase.Claimed?
    ensures var v := BurnStep(s, j, e);
            && r < |v.db.requests| && Final(v.db.requests[r])
            && (forall k :: k in v.burners && v.burners[k].row == r ==> !v.burners[k].phase.Claimed?)
  {
  }

  lemma CashInSeals(p: Params, s: State, c: CashInEvent, r: nat)
    requires CashInEnabled(p, s, c) && Sealed(s, r)
    ensures Sealed(CashInStep(p, s, c), r)
  {
    QuietSeals(s, CashInStep(p, s, c), r);
  }

  lemma CashOutSeals(s: State, d: CashOutEvent, r: nat)
    requires CashOutEnabled(s, d) && Sealed(s, r)
    ensures Sealed(CashOutStep(s, d), r)
  {
    QuietSeals(s, CashOutStep(s, d), r);
  }

  lemma AdminSeals(s: State, j: nat, m: AdminEvent, r: nat)
    requires AdminEnabled(s, j, m) && Sealed(s, r)
    ensures Sealed(AdminStep(s, j, m), r)
  {
    AdminTouches(s, j, m, r);
    QuietSeals(s, AdminStep(s, j, m), r);
  }

  lemma AdminTouches(s: State, j: nat, m: AdminEvent, r: nat)
    requires AdminEnabled(s, j, m) && r < |s.db.requests| && Final(s.db.requests[r])
    ensures var v := AdminStep(s, j, m);
            && v.ledger == s.ledger && v.burners == s.burners && v.settlers == s.settlers
            && r < |v.db.requests| && Final(v.db.requests[r])
  {
  }

  lemma StepSeals(p: Params, s: State, a: Action, r: nat)
    requires Enabled(p, s, a) && Sealed(s, r)
    ensures Sealed(Step(p, s, a), r)
  {
    match a
    case World(w) => WorldSeals(s, w, r);
    case CashInDesk(c) => CashInSeals(p, s, c, r);
    case Settler(j, e) => SettleSeals(s, j, e, r);
    case CashOutDesk(d) => CashOutSeals(s, d, r);
    case Burner(j, e) => BurnSeals(s, j, e, r);
    case Administrator(j, m) => AdminSeals(s, j, m, r);
  }

  lemma {:induction false} RunSeals(p: Params, s: State, run: seq<Action>, r: nat)
    requires Play(p, s, run).Some? && Sealed(s, r)
    ensures Sealed(Play(p, s, run).value, r) && NoneLanded(Play(p, s, run).value.ledger, r)
    decreases |run|
  {
    if run == [] {
      forall h | 0 <= h < |s.ledger.txs| && s.ledger.txs[h].purpose == Purpose.Burn(r)
        ensures !Success(s.ledger.txs[h])
      {
        assert Shut(s, h);
      }
    } else {
      StepSeals(p, s, run[0], r);
      RunSeals(p, Step(p, s, run[0]), run[1..], r);
    }
  }

  lemma RestoreSeals(s: State, r: nat)
    requires Inv(s) && r < |s.db.requests| && s.db.requests[r].status.Approved? && !CanStillLand(s, r)
    ensures Sealed(LateRestore(s, r), r)
  {
    var u := LateRestore(s, r);
    assert RequestOk(r, s.db.requests[r], s.db.wallets, s.ledger);
    forall j | j in s.burners && s.burners[j].row == r ensures !s.burners[j].phase.Claimed? {
      assert BurnJobOk(s.burners[j], s.db.requests, s.published, s.ledger);
    }
    forall h | 0 <= h < |s.ledger.txs| && s.ledger.txs[h].purpose == Purpose.Burn(r) ensures Shut(u, h) {
      assert s.db.requests[r].hash == Some(h);
      if !Hopeless(s.ledger.txs[h], s.ledger.index) { UnsentIsNotCarried(s, r, h); }
    }
  }

  lemma UnsentIsNotCarried(s: State, r: nat, h: nat)
    requires Inv(s) && r < |s.db.requests| && s.db.requests[r].hash == Some(h) && !Worked(s, r)
    ensures !Carried(s.burners, h) && !Carried(s.settlers, h)
  {
    assert RequestOk(r, s.db.requests[r], s.db.wallets, s.ledger);
    forall j | j in s.burners ensures s.burners[j].phase != Persisted(h) {
      assert BurnJobOk(s.burners[j], s.db.requests, s.published, s.ledger);
      var k := s.burners[j].row;
      assert RequestOk(k, s.db.requests[k], s.db.wallets, s.ledger);
    }
    forall j | j in s.settlers ensures s.settlers[j].phase != Persisted(h) {
      assert PayJobOk(s.settlers[j], s.db.transfers, s.ledger);
      var k := s.settlers[j].row;
      assert TransferOk(k, s.db.transfers[k], s.db.wallets, s.ledger, s.now);
    }
  }

  // ---------------------------------------------------------------- when it can, it may

  /** A live worker that has claimed row `r` signs, sends and succeeds. */
  lemma ClaimedLands(p: Params, s: State, j: nat) returns (run: seq<Action>, v: State, h: nat)
    requires BurnerAt(s, j) && s.burners[j].phase.Claimed?
    requires var q := s.db.requests[s.burners[j].row];
             q.user in s.ledger.balances && q.terms.uctusd <= s.ledger.balances[q.user]
    ensures Play(p, s, run) == Some(v) && h < |v.ledger.txs|
    ensures v.ledger.txs[h].purpose == Purpose.Burn(s.burners[j].row) && Success(v.ledger.txs[h])
  {
    h := |s.ledger.txs|;
    var u;
    run, u := Then(p, s, [], s, Burner(j, BurnPersist(s.ledger.index, Some(s.ledger.index + 20), false)));
    run, u := Then(p, s, run, u, Burner(j, BurnSend));
    run, u := Then(p, s, run, u, World(CloseLedger));
    run, v := Then(p, s, run, u, World(Include(h, SUCCESS)));
  }

  /** A burn that was sent and is not hopeless succeeds at its first chance. */
  lemma SentLands(p: Params, s: State, h: nat) returns (run: seq<Action>, v: State)
    requires h < |s.ledger.txs|
    requires var x := s.ledger.txs[h];
             x.sent && !Hopeless(x, s.ledger.index) && x.purpose.Burn?
             && (x.fate.Open? ==> x.account in s.ledger.balances && x.amount <= s.ledger.balances[x.account])
    ensures Play(p, s, run) == Some(v) && h < |v.ledger.txs|
    ensures v.ledger.txs[h].purpose == s.ledger.txs[h].purpose && Success(v.ledger.txs[h])
    ensures v == s.(ledger := v.ledger) && v.ledger.txs == s.ledger.txs[h := v.ledger.txs[h]]
    ensures v.ledger.balances.Keys == s.ledger.balances.Keys
  {
    if Success(s.ledger.txs[h]) {
      run, v := [], s;
    } else {
      var u;
      run, u := LedgerAdvances(p, s, s.ledger.txs[h].submittedAt);
      run, v := Then(p, s, run, u, World(Include(h, SUCCESS)));
    }
  }

  /** The restore came too early: the run goes on, the row is failed, and its burn succeeds all the same. */
  lemma RestoredAndBurnt(p: Params, before: seq<Action>, s: State, r: nat) returns (run: seq<Action>, v: State, h: nat)
    requires Reaches(p, before, s) && r < |s.db.requests| && s.db.requests[r].status.Approved? && CanStillLand(s, r)
    ensures Play(p, LateRestore(s, r), run) == Some(v) && LateRestore(s, r).db.requests[r].status.Failed?
    ensures h < |v.ledger.txs| && v.ledger.txs[h].purpose == Purpose.Burn(r) && Success(v.ledger.txs[h])
  {
    RunKeepsInv(p, INIT, before);
    var u, q := LateRestore(s, r), s.db.requests[r];
    assert RequestOk(r, q, s.db.wallets, s.ledger);
    if !Refinement.Landed(q.hash, s.ledger) { BurnIsFunded(p, before, s, r); }
    if q.hash.Some? && (s.ledger.txs[q.hash.value].sent || Success(s.ledger.txs[q.hash.value])) {
      h := q.hash.value;
      if Success(s.ledger.txs[h]) { run, v := [], u; } else { run, v := SentLands(p, u, h); }
    } else {
      var j :| j in s.burners && s.burners[j].row == r;
      assert BurnJobOk(s.burners[j], s.db.requests, s.published, s.ledger);
      if q.hash.None? {
        run, v, h := ClaimedLands(p, u, j);
      } else {
        h := q.hash.value;
        run, v := HeldLands(p, u, j, h);
      }
    }
  }

  lemma HeldLands(p: Params, s: State, j: nat, h: nat) returns (run: seq<Action>, v: State)
    requires BurnerAt(s, j) && s.burners[j].phase == Persisted(h) && h < |s.ledger.txs|
    requires var x := s.ledger.txs[h];
             x.fate.Open? && !Hopeless(x, s.ledger.index) && x.purpose.Burn?
             && x.account in s.ledger.balances && x.amount <= s.ledger.balances[x.account]
    ensures Play(p, s, run) == Some(v) && h < |v.ledger.txs|
    ensures v.ledger.txs[h].purpose == s.ledger.txs[h].purpose && Success(v.ledger.txs[h])
    ensures v.db == s.db && v.admins == s.admins && v.ledger.txs == s.ledger.txs[h := v.ledger.txs[h]]
    ensures v.ledger.balances.Keys == s.ledger.balances.Keys
  {
    var u, rest;
    run, u := Then(p, s, [], s, Burner(j, BurnSend));
    rest, v := SentLands(p, u, h);
    PlayAppend(p, s, run, rest);
    run := run + rest;
  }

  // ---------------------------------------------------------------- the exact condition

  /**
   In every reachable state, restoring an approved cash-out keeps "no burn of it ever succeeds", over
   every continuation, if and only if no burn of it can still land. For a row that nothing is signed
   for, that is: nobody alive holds its claim.
  */
  lemma LateRestoreExactly(p: Params, before: seq<Action>, s: State, r: nat)
    requires Reaches(p, before, s) && r < |s.db.requests| && s.db.requests[r].status.Approved?
    ensures NeverBurns(p, LateRestore(s, r), r) <==> !CanStillLand(s, r)
    ensures s.db.requests[r].hash.None? ==> (NeverBurns(p, LateRestore(s, r), r) <==> !Worked(s, r))
  {
    RunKeepsInv(p, INIT, before);
    if CanStillLand(s, r) {
      var run, v, h := RestoredAndBurnt(p, before, s, r);
      assert !NoneLanded(v.ledger, r);
    } else {
      RestoreSeals(s, r);
      forall run | Play(p, LateRestore(s, r), run).Some?
        ensures NoneLanded(Play(p, LateRestore(s, r), run).value.ledger, r)
      {
        RunSeals(p, LateRestore(s, r), run, r);
      }
    }
  }

  /** A reachable state in which a publisher is about to restore request `r`. */
  ghost predicate AboutToRestore(p: Params, before: seq<Action>, s: State, r: nat) {
    Reaches(p, before, s) && r < |s.db.requests| && s.db.requests[r].status.Approved?
  }

  /**
   What a publisher with a clock can see of a burn: whether one is signed, how old the claim is, and
   whether the recorded ledger range is empty, so that no ledger could ever have included it.
  */
  datatype Sight = Sight(signed: bool, age: Option<nat>, emptyRange: bool)

  function SightOf(q: CashOut, now: nat): Sight {
    Sight(
      q.hash.Some?,
      if q.startedAt.None? then None else Some(if now < q.startedAt.value then 0 else now - q.startedAt.value),
      q.hash.Some? && q.last.Some? && q.submitted.Some? && q.last.value <= q.submitted.value)
  }

  /** Nothing is signed and the claim is absent or as old as a job can get; or the range is empty. */
  predicate Clear(x: Sight) {
    x.emptyRange || (!x.signed && (x.age.None? || STUCK_AFTER <= x.age.value))
  }

  /** Only a signed row has a range, and every signed row carries the claim it was signed under. */
  predicate Possible(x: Sight) { (x.emptyRange ==> x.signed) && (x.signed ==> x.age.Some?) }

  /** Restoring is right in every reachable state whose row passes the guard. */
  ghost predicate GuardIsSafe(guard: Sight -> bool) {
    forall p, before, s, r: nat ::
      AboutToRestore(p, before, s, r) && guard(SightOf(s.db.requests[r], s.now)) ==> NeverBurns(p, LateRestore(s, r), r)
  }

  /**
   Among all guards on what can be seen of signature, claim age and range, those that make a restore
   right in every reachable state are exactly the ones that pass clear rows only. The code's guard,
   approved alone, passes every row.
  */
  lemma GuardIsSafeExactly(guard: Sight -> bool)
    ensures GuardIsSafe(guard) <==> forall x :: Possible(x) && guard(x) ==> Clear(x)
  {
    if x :| Possible(x) && guard(x) && !Clear(x) {
      UnclearIsUnsafe(guard, x);
    } else {
      forall p, before, s, r: nat
        | AboutToRestore(p, before, s, r) && guard(SightOf(s.db.requests[r], s.now))
        ensures NeverBurns(p, LateRestore(s, r), r)
      {
        SightsArePossible(p, before, s, r);
        ClearMayBeRestored(p, before, s, r);
      }
    }
  }

  lemma SightsArePossible(p: Params, before: seq<Action>, s: State, r: nat)
    requires Reaches(p, before, s) && r < |s.db.requests|
    ensures Possible(SightOf(s.db.requests[r], s.now))
  {
    RunKeepsInv(p, INIT, before);
    RunKeepsStamps(p, INIT, before);
    assert Stamped(s.db.requests[r], s.now);
  }

  /** An empty range: the burn was in no ledger, and is in none to come. */
  lemma EmptyRangeIsHopeless(s: State, r: nat)
    requires Inv(s) && r < |s.db.requests| && SightOf(s.db.requests[r], s.now).emptyRange
    ensures !CanStillLand(s, r)
  {
    assert RequestOk(r, s.db.requests[r], s.db.wallets, s.ledger);
    assert TxOk(s.ledger.txs[s.db.requests[r].hash.value], s.ledger.index);
  }

  /** No job gets as old as such a claim. */
  lemma OldClaimIsIdle(s: State, r: nat)
    requires Inv(s) && r < |s.db.requests| && s.db.requests[r].hash.None?
    requires s.db.requests[r].startedAt.Some? ==> s.db.requests[r].startedAt.value + STUCK_AFTER <= s.now
    ensures !CanStillLand(s, r)
  {
    forall j | j in s.burners ensures s.burners[j].row != r {
      assert BurnJobOk(s.burners[j], s.db.requests, s.published, s.ledger);
    }
  }

  lemma ClearMayBeRestored(p: Params, before: seq<Action>, s: State, r: nat)
    requires AboutToRestore(p, before, s, r) && Clear(SightOf(s.db.requests[r], s.now))
    ensures NeverBurns(p, LateRestore(s, r), r)
  {
    RunKeepsInv(p, INIT, before);
    if SightOf(s.db.requests[r], s.now).emptyRange { EmptyRangeIsHopeless(s, r); } else { OldClaimIsIdle(s, r); }
    LateRestoreExactly(p, before, s, r);
  }

  /**
   What a clear row is in the terms of the claim: one that a worker may claim, or whose claim is ten
   minutes old to the microsecond, or whose range is empty.
  */
  lemma ClearExactly(p: Params, before: seq<Action>, s: State, r: nat)
    requires AboutToRestore(p, before, s, r)
    ensures var q := s.db.requests[r];
            Clear(SightOf(q, s.now))
            <==> BurnClaimable(q, s.now)
                 || (q.hash.None? && q.startedAt.Some? && q.startedAt.value + STUCK_AFTER == s.now)
                 || (q.hash.Some? && q.last.Some? && q.submitted.Some? && q.last.value <= q.submitted.value)
  {
    RunKeepsInv(p, INIT, before);
    RunKeepsStamps(p, INIT, before);
    assert Stamped(s.db.requests[r], s.now);
  }

  /** The worker's own test for a row it may claim is such a guard: a claimable row may be restored. */
  lemma ClaimableMayBeRestored(p: Params, before: seq<Action>, s: State, r: nat)
    requires Reaches(p, before, s) && r < |s.db.requests| && BurnClaimable(s.db.requests[r], s.now)
    ensures NeverBurns(p, LateRestore(s, r), r)
  {
    ClearMayBeRestored(p, before, s, r);
  }

  /** Whatever a row that is not clear looks like, a reachable row looks the same and is restored too early. */
  lemma UnclearIsUnsafe(guard: Sight -> bool, x: Sight)
    requires Possible(x) && guard(x) && !Clear(x)
    ensures !GuardIsSafe(guard)
  {
    var before, s;
    if x.signed { before, s := SignedAged(x.age.value); } else { before, s := ClaimedAged(x.age.value); }
    assert AboutToRestore(P, before, s, 0);
    LateRestoreExactly(P, before, s, 0);
  }

  /** A live worker's claim of any age below ten minutes. */
  lemma ClaimedAged(age: nat) returns (before: seq<Action>, s: State)
    requires age < STUCK_AFTER
    ensures AboutToRestore(P, before, s, 0) && CanStillLand(s, 0)
    ensures SightOf(s.db.requests[0], s.now) == Sight(false, Some(age), false)
  {
    before, s := BurnClaimed();
    before, s := Then(P, INIT, before, s, World(Tick(age)));
    assert Worked(s, 0) by { assert 0 in s.burners && s.burners[0].row == 0; }
  }

  /** A burn that was sent, by a worker that died, at any later time. */
  lemma SignedAged(age: nat) returns (before: seq<Action>, s: State)
    ensures AboutToRestore(P, before, s, 0) && CanStillLand(s, 0)
    ensures SightOf(s.db.requests[0], s.now) == Sight(true, Some(age), false)
  {
    before, s := BurnClaimed();
    before, s := Then(P, INIT, before, s, Burner(0, BurnPersist(s.ledger.index, None, false)));
    before, s := Then(P, INIT, before, s, Burner(0, BurnSend));
    before, s := Then(P, INIT, before, s, Burner(0, BurnCrash));
    assert s.burners == map[];
    before, s := Then(P, INIT, before, s, World(Tick(age)));
  }

  /**
   Such a run from an empty platform: the enqueue delivered and raised, a worker claimed the row, the
   publisher restored the reserve, and the burn succeeded.
  */
  lemma WithoutE3() returns (before: seq<Action>, s: State, run: seq<Action>, v: State, h: nat)
    ensures Reaches(P, before, s) && |s.db.requests| == 1 && s.db.requests[0].status.Approved? && 0 in s.published
    ensures Play(P, LateRestore(s, 0), run) == Some(v) && LateRestore(s, 0).db.requests[0].status.Failed?
    ensures h < |v.ledger.txs| && v.ledger.txs[h].purpose == Purpose.Burn(0) && Success(v.ledger.txs[h])
  {
    before, s := BurnClaimed();
    assert Worked(s, 0) by { assert 0 in s.burners && s.burners[0].row == 0; }
    run, v, h := RestoredAndBurnt(P, before, s, 0);
  }
}
