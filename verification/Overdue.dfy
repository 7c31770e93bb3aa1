/**
 E2: what a job may not do after its claim went stale. A worker that outlives its claim has for module
 Machine died; if it signs, persists (unconditionally) and sends all the same, that comes late.
*/
module Overdue {
  import opened Wrappers
  import opened Outcomes
  import opened Xrpl
  import opened Rows
  import opened Machine
  import opened Invariant
  import opened Frames
  import opened Preservation
  import opened History
  import opened Guarantees
  import opened Progress
  import opened Ambiguity
  import opened Witness

  function LateTx(s: State, r: nat, submitted: nat, last: Option<nat>, malformed: bool): SignedTx
    requires r < |s.db.requests|
  {
    BurnTx(r, s.db.requests[r], submitted, last, malformed)
  }

  function LatePersist(s: State, r: nat, submitted: nat, last: Option<nat>, malformed: bool): State
    requires r < |s.db.requests|
  {
    s.(db := RememberBurn(s.db, r, |s.ledger.txs|, last, submitted),
       ledger := Register(s.ledger, LateTx(s, r, submitted, last, malformed)))
  }

  /** The overdue worker signs, persists and sends; what it makes of the answer is left to reconcile. */
  function LateSign(s: State, r: nat, submitted: nat, last: Option<nat>, malformed: bool): State
    requires r < |s.db.requests|
  {
    var u := LatePersist(s, r, submitted, last, malformed);
    u.(ledger := Submit(u.ledger, |s.ledger.txs|))
  }

  /** The recorded burn is the only one ever signed for `r`; once failed, it has not landed and cannot. */
  ghost predicate SignedOnce(s: State, r: nat) {
    r < |s.db.requests| &&
    forall h :: 0 <= h < |s.ledger.txs| && s.ledger.txs[h].purpose == Purpose.Burn(r) ==> RightlySigned(s, r, h)
  }

  predicate RightlySigned(s: State, r: nat, h: nat)
    requires r < |s.db.requests| && h < |s.ledger.txs|
  {
    && s.db.requests[r].hash == Some(h)
    && (s.db.requests[r].status.Failed? ==> !Success(s.ledger.txs[h]) && !Includable(s.ledger.txs[h], s.ledger.index))
  }

  /** Whatever the worker signs, and however the run goes on, the cash-out stays signed once. */
  ghost predicate LateSignIsSafe(p: Params, s: State, r: nat)
    requires r < |s.db.requests|
  {
    forall submitted: nat, last: Option<nat>, malformed: bool, run: seq<Action> ::
      submitted <= s.ledger.index && Play(p, LateSign(s, r, submitted, last, malformed), run).Some? ==>
      SignedOnce(Play(p, LateSign(s, r, submitted, last, malformed), run).value, r)
  }

  // ---------------------------------------------------------------- when it is safe

  lemma LatePersistKeepsRows(s: State, r: nat, submitted: nat, last: Option<nat>, malformed: bool)
    requires Inv(s) && r < |s.db.requests| && s.db.requests[r].status.Approved? && s.db.requests[r].hash.None?
    ensures var u := LatePersist(s, r, submitted, last, malformed);
            && LedgerOk(u.ledger) && RequestsOk(u.db.requests, u.db.wallets, u.ledger)
            && TransfersOk(u.db.transfers, u.db.wallets, u.ledger, u.now) && AdminsOk(u)
            && BurnTxsOk(u.db.requests, u.ledger) && PayTxsOk(u.db.transfers, u.ledger)
  {
    var u, x := LatePersist(s, r, submitted, last, malformed), LateTx(s, r, submitted, last, malformed);
    assert RequestOk(r, s.db.requests[r], s.db.wallets, s.ledger);
    RegisterExtends(s.ledger, x);
    RowsExtend(s, s.db.wallets, u.ledger, s.now);
    AdminsIgnoreUnsigned(s, u.db.requests, r, u.ledger);
    BurnSignedRequests(s.db.requests, u.db.requests, r, s.db.wallets, u.ledger);
    BurnsRegister(s, u.db.requests, x);
    PaymentsRegister(s, s.db.transfers, x);
  }

  lemma LatePersistKeepsJobs(s: State, r: nat, submitted: nat, last: Option<nat>, malformed: bool)
    requires Inv(s) && r < |s.db.requests| && !Worked(s, r)
    ensures var u := LatePersist(s, r, submitted, last, malformed); BurnersOk(u) && SettlersOk(u)
    ensures forall j :: j in s.burners ==> s.burners[j].phase != Persisted(|s.ledger.txs|)
    ensures forall j :: j in s.settlers ==> s.settlers[j].phase != Persisted(|s.ledger.txs|)
  {
    var u := LatePersist(s, r, submitted, last, malformed);
    forall j | j in s.burners
      ensures BurnJobOk(s.burners[j], u.db.requests, u.published, u.ledger)
              && s.burners[j].phase != Persisted(|s.ledger.txs|)
    {
      assert BurnJobOk(s.burners[j], s.db.requests, s.published, s.ledger);
    }
    forall j | j in s.settlers
      ensures PayJobOk(s.settlers[j], u.db.transfers, u.ledger) && s.settlers[j].phase != Persisted(|s.ledger.txs|)
    {
      assert PayJobOk(s.settlers[j], s.db.transfers, s.ledger);
    }
  }

  lemma LatePersistKeepsInv(s: State, r: nat, submitted: nat, last: Option<nat>, malformed: bool)
    requires Inv(s) && r in s.published && s.db.requests[r].status.Approved? && s.db.requests[r].hash.None?
             && !Worked(s, r)
    ensures Inv(LatePersist(s, r, submitted, last, malformed))
  {
    LatePersistKeepsRows(s, r, submitted, last, malformed);
    LatePersistKeepsJobs(s, r, submitted, last, malformed);
    assert PublishingOk(LatePersist(s, r, submitted, last, malformed));
  }

  /** Sending what no job holds. */
  lemma SubmitLateKeeps(s: State, h: nat)
    requires Inv(s) && h < |s.ledger.txs|
    requires forall j :: j in s.burners ==> s.burners[j].phase != Persisted(h)
    requires forall j :: j in s.settlers ==> s.settlers[j].phase != Persisted(h)
    ensures Inv(s.(ledger := Submit(s.ledger, h)))
  {
    SubmitKeepsJobs(s, h, s.burners, s.settlers);
    SubmitKeeps(s, s.(ledger := Submit(s.ledger, h)), h);
  }

  lemma LateSignKeepsInv(s: State, r: nat, submitted: nat, last: Option<nat>, malformed: bool)
    requires Inv(s) && r in s.published && s.db.requests[r].status.Approved? && s.db.requests[r].hash.None?
             && !Worked(s, r)
    ensures Inv(LateSign(s, r, submitted, last, malformed))
  {
    LatePersistKeepsInv(s, r, submitted, last, malformed);
    LatePersistKeepsJobs(s, r, submitted, last, malformed);
    SubmitLateKeeps(LatePersist(s, r, submitted, last, malformed), |s.ledger.txs|);
  }

  lemma InvSignsOnce(s: State, r: nat)
    requires Inv(s) && r < |s.db.requests|
    ensures SignedOnce(s, r)
  {
    assert RequestOk(r, s.db.requests[r], s.db.wallets, s.ledger);
  }

  // ---------------------------------------------------------------- when it is not

  lemma SecondSignature(p: Params, s: State, r: nat)
    requires Inv(s) && r < |s.db.requests| && s.db.requests[r].hash.Some?
    ensures !LateSignIsSafe(p, s, r)
  {
    var u, h := LateSign(s, r, s.ledger.index, None, false), s.db.requests[r].hash.value;
    assert RequestOk(r, s.db.requests[r], s.db.wallets, s.ledger);
    assert u.ledger.txs[h] == s.ledger.txs[h];
    assert Play(p, u, []) == Some(u);
    assert !RightlySigned(u, r, h);
  }

  lemma SignedAfterFailure(p: Params, s: State, r: nat)
    requires r < |s.db.requests| && s.db.requests[r].status.Failed?
    ensures !LateSignIsSafe(p, s, r)
  {
    var u := LateSign(s, r, s.ledger.index, None, false);
    var run, v := Then(p, u, [], u, World(CloseLedger));
    assert v.ledger.txs[|s.ledger.txs|].purpose == Purpose.Burn(r);
    assert !RightlySigned(v, r, |s.ledger.txs|);
  }

  lemma BothSign(p: Params, s: State, r: nat, j: nat)
    requires r < |s.db.requests| && j in s.burners && s.burners[j].row == r && s.burners[j].phase.Claimed?
    ensures !LateSignIsSafe(p, s, r)
  {
    var u := LateSign(s, r, s.ledger.index, None, false);
    var run, v := Then(p, u, [], u, Burner(j, BurnPersist(u.ledger.index, None, false)));
    assert v.ledger.txs[|s.ledger.txs|] == u.ledger.txs[|s.ledger.txs|];
    assert !RightlySigned(v, r, |s.ledger.txs|);
  }

  // ---------------------------------------------------------------- the exact condition

  /**
   In every reachable state, an overdue worker that signs for a cash-out whose message it once
   received keeps it signed once, over every continuation, if and only if the cash-out is still
   approved and unsigned and nobody alive holds its claim.
  */
  lemma LateSignExactly(p: Params, before: seq<Action>, s: State, r: nat)
    requires Reaches(p, before, s) && r in s.published && r < |s.db.requests|
    ensures LateSignIsSafe(p, s, r)
       <==> s.db.requests[r].status.Approved? && s.db.requests[r].hash.None? && !Worked(s, r)
  {
    RunKeepsInv(p, INIT, before);
    var q := s.db.requests[r];
    assert RequestOk(r, q, s.db.wallets, s.ledger);
    if q.hash.Some? {
      SecondSignature(p, s, r);
    } else if q.status.Failed? {
      SignedAfterFailure(p, s, r);
    } else if Worked(s, r) {
      var j :| j in s.burners && s.burners[j].row == r;
      assert BurnJobOk(s.burners[j], s.db.requests, s.published, s.ledger);
      BothSign(p, s, r, j);
    } else {
      forall submitted: nat, last: Option<nat>, malformed: bool, run: seq<Action>
        | submitted <= s.ledger.index && Play(p, LateSign(s, r, submitted, last, malformed), run).Some?
        ensures SignedOnce(Play(p, LateSign(s, r, submitted, last, malformed), run).value, r)
      {
        LateSignKeepsInv(s, r, submitted, last, malformed);
        RunKeepsInv(p, LateSign(s, r, submitted, last, malformed), run);
        RunEvolves(p, LateSign(s, r, submitted, last, malformed), run);
        InvSignsOnce(Play(p, LateSign(s, r, submitted, last, malformed), run).value, r);
      }
    }
  }

  // ---------------------------------------------------------------- what it costs

  /** At most one burn of `r` succeeded, and none if the cash-out is failed. */
  ghost predicate PaidFor(s: State, r: nat) {
    && r < |s.db.requests| && (s.db.requests[r].status.Failed? ==> NoneLanded(s.ledger, r))
    && forall h, k ::
         0 <= h < k < |s.ledger.txs| && s.ledger.txs[h].purpose == s.ledger.txs[k].purpose == Purpose.Burn(r)
         ==> !(Success(s.ledger.txs[h]) && Success(s.ledger.txs[k]))
  }

  /** Whatever the worker signs, and however the run goes on, no money is lost over it. */
  ghost predicate LateSignIsFree(p: Params, s: State, r: nat)
    requires r < |s.db.requests|
  {
    forall submitted: nat, last: Option<nat>, malformed: bool, run: seq<Action> ::
      submitted <= s.ledger.index && Play(p, LateSign(s, r, submitted, last, malformed), run).Some?
      ==> PaidFor(Play(p, LateSign(s, r, submitted, last, malformed), run).value, r)
  }

  lemma InvPaysFor(s: State, r: nat)
    requires Inv(s) && r < |s.db.requests|
    ensures PaidFor(s, r)
  {
    InvSignsOnce(s, r);
    forall h | 0 <= h < |s.ledger.txs| && s.ledger.txs[h].purpose == Purpose.Burn(r)
      ensures s.db.requests[r].hash == Some(h)
    {
      assert RightlySigned(s, r, h);
    }
  }

  /** Sent, well formed and without a deadline: any later ledger may decide it. */
  predicate Undecided(l: Ledger, k: nat) {
    k < |l.txs| && l.txs[k].fate.Open? && l.txs[k].sent && !l.txs[k].malformed && l.txs[k].last.None?
  }

  lemma IsRejected(p: Params, s: State, k: nat) returns (run: seq<Action>, v: State)
    requires Undecided(s.ledger, k)
    ensures Play(p, s, run) == Some(v) && v == s.(ledger := v.ledger)
    ensures |v.ledger.txs| == |s.ledger.txs| && v.ledger.txs == s.ledger.txs[k := v.ledger.txs[k]]
    ensures v.ledger.txs[k].fate.Included? && v.ledger.txs[k].fate.code == "tecKILLED"
  {
    var u;
    run, u := LedgerAdvances(p, s, s.ledger.txs[k].submittedAt);
    run, v := Then(p, s, run, u, World(Include(k, "tecKILLED")));
  }

  /** The row's own worker, whose burn `k` is rejected, fails the row and restores the reserve. */
  lemma OwnerGivesUp(p: Params, s: State, r: nat, j: nat, k: nat) returns (run: seq<Action>, v: State)
    requires j in s.burners && s.burners[j].row == r < |s.db.requests| && s.burners[j].phase == Sent(k)
    requires Undecided(s.ledger, k) && s.db.requests[r].status.Approved? && s.db.requests[r].user in s.db.wallets
    ensures Play(p, s, run) == Some(v) && r < |v.db.requests| && v.db.requests[r].status.Failed?
    ensures |v.ledger.txs| == |s.ledger.txs| && v.ledger.txs == s.ledger.txs[k := v.ledger.txs[k]]
  {
    var u;
    run, u := IsRejected(p, s, k);
    run, v := Then(p, s, run, u, Burner(j, BurnResult(Resolution.Failed)));
  }

  /** So does a reconcile of a row that records `k`. */
  lemma ReconcileGivesUp(p: Params, s: State, r: nat, k: nat) returns (run: seq<Action>, v: State)
    requires r < |s.db.requests| && s.db.requests[r].hash == Some(k) && Undecided(s.ledger, k)
    requires s.db.requests[r].status.Approved? && s.db.requests[r].user in s.db.wallets
    ensures Play(p, s, run) == Some(v) && r < |v.db.requests| && v.db.requests[r].status.Failed?
    ensures |v.ledger.txs| == |s.ledger.txs| && v.ledger.txs == s.ledger.txs[k := v.ledger.txs[k]]
  {
    var u;
    run, u := IsRejected(p, s, k);
    var i := FreshName(u.admins.Keys);
    run, u := Then(p, s, run, u, Administrator(i, ReconcileRead(r)));
    run, u := Then(p, s, run, u, Administrator(i, ReconcileLook(View(0, ""), Some("tecKILLED"))));
    run, v := Then(p, s, run, u, Administrator(i, ReconcileCommit));
  }

  /** A failed or completed cash-out: the late burn succeeds. */
  lemma FinalIsBurntAgain(p: Params, s: State, r: nat)
    requires Inv(s) && r < |s.db.requests| && Final(s.db.requests[r])
    requires var q := s.db.requests[r]; q.user in s.ledger.balances && q.terms.uctusd <= s.ledger.balances[q.user]
    ensures !LateSignIsFree(p, s, r)
  {
    var u, h, q := LateSign(s, r, s.ledger.index, None, false), |s.ledger.txs|, s.db.requests[r];
    assert RequestOk(r, q, s.db.wallets, s.ledger);
    var run, v := SentLands(p, u, h);
    if q.status.Completed? { assert v.ledger.txs[q.hash.value] == s.ledger.txs[q.hash.value]; }
    assert !PaidFor(v, r);
  }

  /** The owner of the claim signs and sends beside the late worker. */
  lemma BothSend(p: Params, s: State, r: nat, j: nat) returns (run: seq<Action>, v: State)
    requires r < |s.db.requests| && j in s.burners && s.burners[j].row == r && s.burners[j].phase.Claimed?
    ensures Play(p, LateSign(s, r, s.ledger.index, None, false), run) == Some(v)
    ensures var h := |s.ledger.txs|;
            && |v.ledger.txs| == h + 2 && Undecided(v.ledger, h) && Undecided(v.ledger, h + 1)
            && v.ledger.txs[h] == v.ledger.txs[h + 1] == LateTx(s, r, s.ledger.index, None, false).(sent := true)
            && j in v.burners && v.burners[j].row == r && v.burners[j].phase == Sent(h + 1)
    ensures r < |v.db.requests| && v.db.requests[r].status == s.db.requests[r].status
    ensures v.db.requests[r].user == s.db.requests[r].user
    ensures v.db.wallets == s.db.wallets && v.ledger.balances == s.ledger.balances && v.ledger.index == s.ledger.index
  {
    var u := LateSign(s, r, s.ledger.index, None, false);
    run, v := Then(p, u, [], u, Burner(j, BurnPersist(u.ledger.index, None, false)));
    run, v := Then(p, u, run, v, Burner(j, BurnSend));
  }

  /** A row that another worker holds: the late burn succeeds, the owner's is rejected, and the owner restores. */
  lemma OwnerRestores(p: Params, s: State, r: nat, j: nat)
    requires r < |s.db.requests| && j in s.burners && s.burners[j].row == r && s.burners[j].phase.Claimed?
    requires var q := s.db.requests[r];
             && q.status.Approved? && q.user in s.db.wallets
             && q.user in s.ledger.balances && q.terms.uctusd <= s.ledger.balances[q.user]
    ensures !LateSignIsFree(p, s, r)
  {
    var u, h := LateSign(s, r, s.ledger.index, None, false), |s.ledger.txs|;
    var run, v := BothSend(p, s, r, j);
    var more, w := SentLands(p, v, h);
    var rest, z := OwnerGivesUp(p, w, r, j, h + 1);
    PlayAppend(p, u, run, more);
    PlayAppend(p, u, run + more, rest);
    assert z.ledger.txs[h] == w.ledger.txs[h];
    assert !NoneLanded(z.ledger, r);
    assert Play(p, u, run + more + rest) == Some(z) && !PaidFor(z, r);
  }

  /** A row whose recorded burn has landed or can: it succeeds, the late one is rejected, a reconcile restores. */
  lemma RecordedIsForgotten(p: Params, before: seq<Action>, s: State, r: nat)
    requires Reaches(p, before, s) && r < |s.db.requests| && s.db.requests[r].status.Approved?
    requires s.db.requests[r].hash.Some? && CanStillLand(s, r)
    ensures !LateSignIsFree(p, s, r)
  {
    RunKeepsInv(p, INIT, before);
    var u, h, k := LateSign(s, r, s.ledger.index, None, false), s.db.requests[r].hash.value, |s.ledger.txs|;
    var run, v := RecordedLands(p, before, s, u, r, h);
    var rest, w := ReconcileGivesUp(p, v, r, k);
    PlayAppend(p, u, run, rest);
    assert Success(w.ledger.txs[h]) && !PaidFor(w, r);
  }

  lemma RecordedLands(p: Params, before: seq<Action>, s: State, u: State, r: nat, h: nat)
      returns (run: seq<Action>, v: State)
    requires Reaches(p, before, s) && Inv(s) && r < |s.db.requests| && s.db.requests[r].status.Approved?
    requires s.db.requests[r].hash == Some(h) && CanStillLand(s, r) && u == LateSign(s, r, s.ledger.index, None, false)
    ensures Play(p, u, run) == Some(v) && v.db == u.db && v.admins == u.admins
    ensures h < |v.ledger.txs| && Success(v.ledger.txs[h]) && v.ledger.txs == u.ledger.txs[h := v.ledger.txs[h]]
    ensures v.ledger.txs[h].purpose == Purpose.Burn(r)
  {
    assert RequestOk(r, s.db.requests[r], s.db.wallets, s.ledger);
    assert u.ledger.txs[h] == s.ledger.txs[h];
    if !Success(s.ledger.txs[h]) { BurnIsFunded(p, before, s, r); }
    if s.ledger.txs[h].sent || Success(s.ledger.txs[h]) {
      assert TxOk(s.ledger.txs[h], s.ledger.index);
      run, v := SentLands(p, u, h);
    } else {
      var j :| j in s.burners && s.burners[j].row == r;
      assert BurnJobOk(s.burners[j], s.db.requests, s.published, s.ledger);
      run, v := HeldLands(p, u, j, h);
    }
  }

  /**
   In money: in every reachable state, a late signature loses none (no cash-out is burnt twice, none is
   burnt and failed), over all continuations, exactly if the cash-out is approved and unsigned and nobody
   alive holds its claim. For a final cash-out the account must be able to bear one more burn; a signed
   approved one is covered as long as its recorded burn has landed or still can.
  */
  lemma LateSignIsFreeExactly(p: Params, before: seq<Action>, s: State, r: nat)
    requires Reaches(p, before, s) && r in s.published && r < |s.db.requests|
    requires var q := s.db.requests[r];
             && (Final(q) ==> q.user in s.ledger.balances && q.terms.uctusd <= s.ledger.balances[q.user])
             && (q.status.Approved? && q.hash.Some? ==> CanStillLand(s, r))
    ensures LateSignIsFree(p, s, r)
       <==> s.db.requests[r].status.Approved? && s.db.requests[r].hash.None? && !Worked(s, r)
  {
    RunKeepsInv(p, INIT, before);
    var q := s.db.requests[r];
    assert RequestOk(r, q, s.db.wallets, s.ledger);
    if Final(q) {
      FinalIsBurntAgain(p, s, r);
    } else if q.hash.Some? {
      RecordedIsForgotten(p, before, s, r);
    } else if Worked(s, r) {
      var j :| j in s.burners && s.burners[j].row == r;
      assert BurnJobOk(s.burners[j], s.db.requests, s.published, s.ledger);
      BurnIsFunded(p, before, s, r);
      OwnerRestores(p, s, r, j);
    } else {
      UnclaimedIsFree(p, s, r);
    }
  }

  lemma UnclaimedIsFree(p: Params, s: State, r: nat)
    requires Inv(s) && r in s.published && s.db.requests[r].status.Approved? && s.db.requests[r].hash.None?
             && !Worked(s, r)
    ensures LateSignIsFree(p, s, r)
  {
    forall submitted: nat, last: Option<nat>, malformed: bool, run: seq<Action>
      | submitted <= s.ledger.index && Play(p, LateSign(s, r, submitted, last, malformed), run).Some?
      ensures PaidFor(Play(p, LateSign(s, r, submitted, last, malformed), run).value, r)
    {
      LateSignKeepsInv(s, r, submitted, last, malformed);
      RunKeepsInv(p, LateSign(s, r, submitted, last, malformed), run);
      RunEvolves(p, LateSign(s, r, submitted, last, malformed), run);
      InvPaysFor(Play(p, LateSign(s, r, submitted, last, malformed), run).value, r);
    }
  }

  /**
   What such a worker can read: if the row is approved and unsigned and still carries its own claim,
   or none, then nobody alive holds the claim.
  */
  lemma OwnStampIsEnough(p: Params, before: seq<Action>, s: State, r: nat, claimedAt: nat)
    requires Reaches(p, before, s) && r in s.published && r < |s.db.requests|
    requires s.db.requests[r].status.Approved? && s.db.requests[r].hash.None?
    requires claimedAt + STUCK_AFTER <= s.now && s.db.requests[r].startedAt in {None, Some(claimedAt)}
    ensures LateSignIsSafe(p, s, r)
  {
    RunKeepsInv(p, INIT, before);
    forall j | j in s.burners ensures s.burners[j].row != r {
      assert BurnJobOk(s.burners[j], s.db.requests, s.published, s.ledger);
    }
    LateSignExactly(p, before, s, r);
  }

  // ---------------------------------------------------------------- a late release

  /** The overdue worker fails before signing and hands back a claim that may no longer be its own. */
  function LateRelease(s: State, r: nat): State
    requires r < |s.db.requests|
  {
    s.(db := ReleaseClaim(s.db, r))
  }

  ghost predicate StaysSignedOnce(p: Params, s: State, r: nat) {
    forall run :: Play(p, s, run).Some? ==> SignedOnce(Play(p, s, run).value, r)
  }

  lemma LateReleaseKeepsInv(s: State, r: nat)
    requires Inv(s) && r in s.published && r < |s.db.requests| && !(s.db.requests[r].hash.None? && Worked(s, r))
    ensures Inv(LateRelease(s, r))
  {
    var v := LateRelease(s, r);
    assert RequestOk(r, s.db.requests[r], s.db.wallets, s.ledger);
    assert RequestOk(r, v.db.requests[r], s.db.wallets, s.ledger);
    forall j | j in s.burners && s.burners[j].row == r
      ensures BurnJobOk(s.burners[j], v.db.requests, v.published, s.ledger)
    {
      assert BurnJobOk(s.burners[j], s.db.requests, s.published, s.ledger);
    }
    BurnersWithout(s, v, r);
    assert PublishingOk(v);
    RequestChange(s, v, r);
  }

  /** The row is claimed again beside its owner, and both sign. */
  lemma ReleasedTwiceSigned(p: Params, s: State, r: nat, j: nat) returns (run: seq<Action>, v: State)
    requires r < |s.db.requests| && r in s.published && s.db.requests[r].status.Approved? && s.db.requests[r].hash.None?
    requires j in s.burners && s.burners[j].row == r && s.burners[j].phase.Claimed?
    ensures Play(p, LateRelease(s, r), run) == Some(v) && !SignedOnce(v, r)
  {
    var u, h := LateRelease(s, r), |s.ledger.txs|;
    var i := FreshName(s.burners.Keys);
    run, v := Then(p, u, [], u, Burner(i, BurnClaim(r)));
    run, v := Then(p, u, run, v, Burner(i, BurnPersist(s.ledger.index, None, false)));
    run, v := Then(p, u, run, v, Burner(j, BurnPersist(s.ledger.index, None, false)));
    assert v.ledger.txs[h].purpose == Purpose.Burn(r) && !RightlySigned(v, r, h);
  }

  /**
   A late release, which the code does unconditionally, keeps the cash-out signed once, over every
   continuation, if and only if no live worker still has to sign for it.
  */
  lemma LateReleaseExactly(p: Params, before: seq<Action>, s: State, r: nat)
    requires Reaches(p, before, s) && r in s.published && r < |s.db.requests|
    ensures StaysSignedOnce(p, LateRelease(s, r), r) <==> !(s.db.requests[r].hash.None? && Worked(s, r))
  {
    RunKeepsInv(p, INIT, before);
    if s.db.requests[r].hash.None? && Worked(s, r) {
      var j :| j in s.burners && s.burners[j].row == r;
      assert BurnJobOk(s.burners[j], s.db.requests, s.published, s.ledger);
      var run, v := ReleasedTwiceSigned(p, s, r, j);
    } else {
      LateReleaseKeepsInv(s, r);
      forall run | Play(p, LateRelease(s, r), run).Some? ensures SignedOnce(Play(p, LateRelease(s, r), run).value, r) {
        RunKeepsInv(p, LateRelease(s, r), run);
        RunEvolves(p, LateRelease(s, r), run);
        InvSignsOnce(Play(p, LateRelease(s, r), run).value, r);
      }
    }
  }

  // ---------------------------------------------------------------- a run

  /** With two burns' worth on the ledger, the late burn and the owner's burn both succeed. */
  lemma BurnsTwice(p: Params, s: State, r: nat, j: nat) returns (run: seq<Action>, v: State)
    requires r < |s.db.requests| && j in s.burners && s.burners[j].row == r && s.burners[j].phase.Claimed?
    requires var q := s.db.requests[r];
             0 <= q.terms.uctusd && q.user in s.ledger.balances && 2 * q.terms.uctusd <= s.ledger.balances[q.user]
    ensures Play(p, LateSign(s, r, s.ledger.index, None, false), run) == Some(v)
    ensures var h := |s.ledger.txs|;
            && |v.ledger.txs| == h + 2 && v.ledger.txs[h].purpose == v.ledger.txs[h + 1].purpose == Purpose.Burn(r)
            && Success(v.ledger.txs[h]) && Success(v.ledger.txs[h + 1])
  {
    var h, u := |s.ledger.txs|, LateSign(s, r, s.ledger.index, None, false);
    run, v := BothSend(p, s, r, j);
    run, v := Then(p, u, run, v, World(CloseLedger));
    run, v := Then(p, u, run, v, World(Include(h, SUCCESS)));
    run, v := Then(p, u, run, v, World(Include(h + 1, SUCCESS)));
  }

  /**
   Such a run from an empty platform: a worker falls silent, after ten minutes another one claims the
   row, the first one signs all the same, and one cash-out is burnt twice.
  */
  lemma WithoutE2() returns (before: seq<Action>, s: State, run: seq<Action>, v: State, h: nat)
    ensures Reaches(P, before, s) && |s.db.requests| == 1 && s.db.requests[0].status.Approved? && 0 in s.published
    ensures Play(P, LateSign(s, 0, s.ledger.index, None, false), run) == Some(v)
    ensures h + 1 < |v.ledger.txs| && v.ledger.txs[h].purpose == v.ledger.txs[h + 1].purpose == Purpose.Burn(0)
    ensures Success(v.ledger.txs[h]) && Success(v.ledger.txs[h + 1])
  {
    var approved;
    before, s, approved := ClaimedAgain();
    h := |s.ledger.txs|;
    run, v := BurnsTwice(P, s, 0, 1);
  }
}
