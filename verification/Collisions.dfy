/** E7: what the guard of a re-send, status and time stamp of the row, can miss. */
module Collisions {
  import opened Wrappers
  import opened Xrpl
  import opened Rows
  import opened Machine
  import opened Invariant
  import opened Preservation
  import opened History
  import opened Guarantees
  import opened Progress
  import opened Delivery
  import opened SplitReads
  import opened Witness
  import Frames

  /** Every payment ever signed for `t` can still be found on the row. */
  ghost predicate Traced(t: nat, x: Transfer, l: Ledger) {
    forall h :: 0 <= h < |l.txs| && l.txs[h].purpose == Purpose.Pay(t) ==> h in Trail(x)
  }

  /** Row `t` as it would be if its last write had carried the stamp that an admin read before. */
  function Collided(db: Tables, t: nat, stamp: nat): Tables
    requires t < |db.transfers|
  {
    SetTransfer(db, t, db.transfers[t].(updatedAt := stamp))
  }

  /** The row after the guarded re-send of what was read as `seen`, under colliding stamps. */
  function Overwritten(s: State, t: nat, seen: Transfer): Tables
    requires t < |s.db.transfers|
  {
    Resend(Collided(s.db, t, seen.updatedAt), t, seen, s.now)
  }

  lemma ArchiveIsTrail(x: Transfer, h: nat)
    ensures h in Trail(x.(hash := None, history := ArchivedAttempts(x))) <==> h in Trail(x)
  {
    var y := x.(hash := None, history := ArchivedAttempts(x));
    if k :| 0 <= k < |Trail(x)| && Trail(x)[k] == h { assert Trail(y)[k] == h; }
    if k :| 0 <= k < |Trail(y)| && Trail(y)[k] == h { assert Trail(x)[k] == h; }
  }

  /** No worker signed for `t` between `read` and `s`. */
  ghost predicate NothingSigned(read: State, s: State, t: nat) {
    forall h :: |read.ledger.txs| <= h < |s.ledger.txs| ==> s.ledger.txs[h].purpose != Purpose.Pay(t)
  }

  /** The trail that was read knows exactly the payments signed before the read. */
  lemma TrailThen(p: Params, before: seq<Action>, read: State, between: seq<Action>, s: State, t: nat)
    requires Reaches(p, before, read) && Play(p, read, between) == Some(s) && t < |read.db.transfers|
    ensures |read.ledger.txs| <= |s.ledger.txs|
    ensures forall h: nat :: h in Trail(read.db.transfers[t])
              <==> h < |read.ledger.txs| && s.ledger.txs[h].purpose == Purpose.Pay(t)
  {
    RunKeepsInv(p, INIT, before);
    TrailIsComplete(p, before, read, t);
    RunEvolves(p, read, between);
    forall h: nat | h < |read.ledger.txs| ensures s.ledger.txs[h].purpose == read.ledger.txs[h].purpose {
      assert Frames.Continues(read.ledger.txs[h], read.ledger.index, s.ledger.txs[h], s.ledger.index);
    }
  }

  /**
   In every reachable state with an admin about to re-send a row as it was read earlier in the run: if
   the row's last write carried the stamp that was read, every signed payment stays traceable if and
   only if the status moved or no worker signed for the row since the read.
  */
  lemma ResendForgetsExactly(p: Params, before: seq<Action>, read: State, between: seq<Action>, s: State, j: nat)
    requires Reaches(p, before, read) && Play(p, read, between) == Some(s) && j in s.admins && s.admins[j].PayDead?
    requires s.admins[j].transfer < |read.db.transfers|
    requires s.admins[j].seen == read.db.transfers[s.admins[j].transfer]
    ensures s.admins[j].transfer < |s.db.transfers|
    ensures var t, seen := s.admins[j].transfer, s.admins[j].seen;
            Traced(t, Overwritten(s, t, seen).transfers[t], s.ledger)
            <==> s.db.transfers[t].status != seen.status || NothingSigned(read, s, t)
  {
    var t, seen := s.admins[j].transfer, s.admins[j].seen;
    PlayAppend(p, INIT, before, between);
    RunKeepsInv(p, INIT, before + between);
    assert AdminOk(s.admins[j], s.db.requests, s.db.transfers, s.ledger, s.now);
    TrailThen(p, before, read, between, s, t);
    var x, y := s.db.transfers[t], Overwritten(s, t, seen).transfers[t];
    if x.status == seen.status {
      assert Trail(y) == Trail(seen.(hash := None, history := ArchivedAttempts(seen)));
      forall h: nat ensures h in Trail(y) <==> h in Trail(seen) { ArchiveIsTrail(seen, h); }
    } else {
      TrailIsComplete(p, before + between, s, t);
      assert Trail(y) == Trail(x);
    }
  }

  // ---------------------------------------------------------------- a run

  /** A confirmed remittance whose message could not be enqueued; an admin reads the row. */
  lemma FailedUnsigned() returns (before: seq<Action>, s: State)
    ensures Reaches(P, before, s) && s.now == 2 && s.settlers == map[] && s.burners == map[] && s.admins == map[]
    ensures s.publishing == {} && |s.db.transfers| == 1 && Retryable(s.db.transfers[0], s.now)
    ensures s.db.transfers[0].hash.None? && s.db.transfers[0].updatedAt == 2 && s.db.transfers[0].status.Unsettled?
  {
    before := Queues();
    before, s := Then(P, INIT, before, OneQueued(), World(Tick(1)));
    before, s := Then(P, INIT, before, s, CashInDesk(PublishRaises(0)));
  }

  /** An admin opens an unsigned row, and needs no ledger to re-send it. */
  lemma Opens(p: Params, s: State, j: nat, t: nat) returns (run: seq<Action>, v: State)
    requires AdminEnabled(s, j, RetryRead(t)) && s.db.transfers[t].hash.None?
    ensures Play(p, s, run) == Some(v) && v == s.(admins := s.admins[j := PayDead(t, s.db.transfers[t])])
  {
    var a, b := Administrator(j, RetryRead(t)), Administrator(j, RetryLook(FullView(s.ledger), None));
    var u := AdminStep(s, j, a.m);
    v := AdminStep(u, j, b.m);
    TwoSteps(p, s, a, u, b, v);
    run := [a] + [b];
  }

  /** Page 0 is about to re-send it, and a microsecond has passed. */
  lemma OneAdmin() returns (before: seq<Action>, read: State, between: seq<Action>, s: State)
    ensures Reaches(P, before, read) && |read.db.transfers| == 1 && read.db.transfers[0].status.Unsettled?
    ensures Play(P, read, between) == Some(s)
    ensures s == read.(now := 3, admins := map[0 := PayDead(0, read.db.transfers[0])])
    ensures AdminEnabled(s, 1, RetryRead(0)) && Fresh(s, 0) && s.db.transfers[0].hash.None?
    ensures s.settlers == map[] && s.burners == map[] && s.publishing == {}
  {
    var u;
    before, read := FailedUnsigned();
    between, u := Opens(P, read, 0, 0);
    between, s := Then(P, read, between, u, World(Tick(1)));
  }

  /** Page 1 re-sends the row first. */
  lemma TwoAdmins() returns (before: seq<Action>, read: State, between: seq<Action>, s: State)
    ensures Reaches(P, before, read) && Play(P, read, between) == Some(s) && |read.db.transfers| == 1
    ensures read.db.transfers[0].status.Unsettled? && |s.db.transfers| == 1 && s.db.transfers[0].status.Queued?
    ensures s.settlers == map[] && s.burners == map[] && s.publishing == {}
    ensures s.admins == map[0 := PayDead(0, read.db.transfers[0])] && s.ledger == read.ledger
  {
    var u, rest;
    before, read, between, u := OneAdmin();
    PlayAppend(P, INIT, before, between);
    RunKeepsInv(P, INIT, before + between);
    rest, s := Resends(P, u, 1, 0);
    PlayAppend(P, read, between, rest);
    between := between + rest;
  }

  lemma SignsAndSends(p: Params, s: State) returns (run: seq<Action>, v: State, h: nat)
    requires Inv(s) && s.settlers == map[] && s.burners == map[] && s.publishing == {}
    requires |s.db.transfers| == 1 && s.db.transfers[0].status.Queued?
    ensures Play(p, s, run) == Some(v) && Sending(v, 0, 0, h) && Slack(v, 100) && v.settlers.Keys == {0}
    ensures |v.db.transfers| == 1 && v.admins == s.admins && |s.ledger.txs| <= h
  {
    assert TransferOk(0, s.db.transfers[0], s.db.wallets, s.ledger, s.now);
    var u, rest;
    run, u := Takes(p, s, 0, 0, 102);
    h := |u.ledger.txs|;
    rest, v := Delivery.Signs(p, u, 0, 0, 101);
    PlayAppend(p, s, run, rest);
    run := run + rest;
    OnlyJob(v.settlers);
  }

  /** A worker signs and sends, and its answer is lost: the row is failed again, with a payment on its way. */
  lemma SignsInVain(p: Params, s: State) returns (run: seq<Action>, v: State, h: nat)
    requires Inv(s) && s.settlers == map[] && s.burners == map[] && s.publishing == {}
    requires |s.db.transfers| == 1 && s.db.transfers[0].status.Queued?
    ensures Play(p, s, run) == Some(v) && v.settlers == map[] && v.admins == s.admins && Slack(v, 99)
    ensures |v.db.transfers| == 1 && v.db.transfers[0].status.Unsettled? && v.db.transfers[0].hash == Some(h)
    ensures |s.ledger.txs| <= h < |v.ledger.txs| && Pending(v.ledger, h)
  {
    var u, rest;
    run, u, h := SignsAndSends(p, s);
    rest, v := AnswerIsLost(p, u, 0, h);
    PlayAppend(p, s, run, rest);
    run := run + rest;
  }

  lemma SignedUnderAPage() returns (before: seq<Action>, read: State, between: seq<Action>, s: State, h: nat)
    ensures Reaches(P, before, read) && Play(P, read, between) == Some(s) && |read.db.transfers| == 1
    ensures read.db.transfers[0].status.Unsettled? && |s.db.transfers| == 1 && s.db.transfers[0].status.Unsettled?
    ensures 0 in s.admins && s.admins[0] == PayDead(0, read.db.transfers[0]) && s.settlers == map[] && Slack(s, 99)
    ensures |read.ledger.txs| <= h < |s.ledger.txs| && Pending(s.ledger, h) && s.db.transfers[0].hash == Some(h)
  {
    var u, rest;
    before, read, between, u := TwoAdmins();
    PlayAppend(P, INIT, before, between);
    RunKeepsInv(P, INIT, before + between);
    rest, s, h := SignsInVain(P, u);
    PlayAppend(P, read, between, rest);
    between := between + rest;
  }

  /** The payment lands, and after the overwriting re-send a second one does. */
  lemma PaidAgain(p: Params, s: State, t: nat, h: nat) returns (run: seq<Action>, v: State, again: nat)
    requires Pending(s.ledger, h) && Fundable(s.ledger, h) && s.ledger.txs[h].purpose == Purpose.Pay(t)
    requires s.settlers == map[] && Slack(s, 99) && t < |s.db.transfers| && PayClaimable(s.db.transfers[t])
    requires s.db.transfers[t].updatedAt <= s.now && s.db.wallets.Keys == s.ledger.balances.Keys
    ensures Play(p, s, run) == Some(v) && h < again < |v.ledger.txs|
    ensures v.ledger.txs[h].purpose == v.ledger.txs[again].purpose == Purpose.Pay(t)
    ensures Success(v.ledger.txs[h]) && Success(v.ledger.txs[again])
  {
    var u, rest;
    run, u := LandsAndExpires(p, s, h);
    again := |u.ledger.txs|;
    rest, v := QueuedIsPaid(p, u, 0, t);
    PlayAppend(p, s, run, rest);
    run := run + rest;
    assert v.ledger.txs[h] == v.ledger.txs[..again][h];
  }

  /**
   Without E7, from an empty platform: two admins read one failed row; one re-sends it, a worker signs
   and loses the answer, and under colliding stamps the other admin's re-send erases the signed hash. The
   payment lands, and a second one is made.
  */
  lemma WithoutE7() returns (before: seq<Action>, read: State, between: seq<Action>, s: State, run: seq<Action>,
      v: State, h: nat, again: nat)
    ensures Reaches(P, before, read) && Play(P, read, between) == Some(s)
    ensures |read.db.transfers| == |s.db.transfers| == 1
    ensures 0 in s.admins && s.admins[0] == PayDead(0, read.db.transfers[0]) && s.db.transfers[0].hash == Some(h)
    ensures var lost := s.(db := Overwritten(s, 0, read.db.transfers[0]), admins := s.admins - {0});
            && !Traced(0, lost.db.transfers[0], s.ledger) && Play(P, lost, run) == Some(v)
    ensures h < again < |v.ledger.txs| && v.ledger.txs[h].purpose == v.ledger.txs[again].purpose == Purpose.Pay(0)
    ensures Success(v.ledger.txs[h]) && Success(v.ledger.txs[again])
  {
    before, read, between, s, h := SignedUnderAPage();
    ResendForgetsExactly(P, before, read, between, s, 0);
    PlayAppend(P, INIT, before, between);
    RunKeepsInv(P, INIT, before + between);
    assert TransferOk(0, s.db.transfers[0], s.db.wallets, s.ledger, s.now);
    assert !NothingSigned(read, s, 0);
    var lost := s.(db := Overwritten(s, 0, read.db.transfers[0]), admins := s.admins - {0});
    LostIsClaimable(s, read.db.transfers[0]);
    SlackStays(s, lost, 99);
    run, v, again := PaidAgain(P, lost, 0, h);
  }

  lemma LostIsClaimable(s: State, seen: Transfer)
    requires |s.db.transfers| == 1 && s.db.transfers[0].status == seen.status && s.db.transfers[0].send.cashin.Received?
    ensures var db := Overwritten(s, 0, seen);
            && |db.transfers| == 1 && PayClaimable(db.transfers[0]) && db.transfers[0].updatedAt == s.now
            && db.wallets == s.db.wallets && db.requests == s.db.requests
  {
  }
}
