/**
 E1: what a commit may not do. A wallet row that a session loaded before it takes the lock, and does not
 reload under it, makes the commit write "the balance I remember plus my amount".
*/
module StaleReads {
  import opened Wrappers
  import opened Sums
  import opened Outcomes
  import opened Rows
  import opened Machine
  import opened Invariant
  import opened Preservation
  import opened Guarantees
  import opened Progress
  import opened Delivery
  import opened Witness

  /** The wallet's balance is what was settled to it less what is reserved out of it. */
  predicate Conserved(db: Tables, u: nat) {
    u in db.wallets && db.wallets[u].balance == Sum(db.transfers, CreditedTo(u)) - Sum(db.requests, ReservedBy(u))
  }

  function BalanceOf(db: Tables, u: nat): int { if u in db.wallets then db.wallets[u].balance else 0 }

  /** The step `s` to `v` as a session commits it that remembers `seen` as the balance of `u`. */
  function StaleCommit(s: State, v: State, u: nat, seen: int): Tables {
    if u !in v.db.wallets then v.db
    else
      var moved := BalanceOf(v.db, u) - BalanceOf(s.db, u);
      v.db.(wallets := v.db.wallets[u := v.db.wallets[u].(balance := seen + moved)])
  }

  /**
   Whatever balance-moving commit it is (credit, restore or debit), and whatever happened between the
   read and the commit: the books are still right if and only if the balance did not change between.
  */
  lemma StaleCommitExactly(p: Params, before: seq<Action>, read: State, between: seq<Action>, s: State, a: Action,
      u: nat)
    requires Reaches(p, before, read) && Play(p, read, between) == Some(s) && Enabled(p, s, a)
    requires u in Step(p, s, a).db.wallets
    ensures Conserved(StaleCommit(s, Step(p, s, a), u, BalanceOf(read.db, u)), u)
       <==> BalanceOf(read.db, u) == BalanceOf(s.db, u)
  {
    var v := Step(p, s, a);
    PlayAppend(p, INIT, before, between);
    PlayAppend(p, INIT, before + between, [a]);
    Conservation(p, before + between + [a], v, u);
  }

  /** Two confirmed remittances to one recipient. */
  function TwoQueued(): State { INIT.(now := 1, db := Tables([], [Received(1), Received(1)], map[])) }

  /** Both booked, neither confirmed. */
  lemma BooksTwo() returns (run: seq<Action>, u: State)
    ensures Reaches(P, run, u) && u == INIT.(db := Tables([], [Booked(0), Booked(0)], map[]))
  {
    Books(INIT);
    run, u := Then(P, INIT, [], INIT, CashInDesk(BOOKING));
    Books(u);
    run, u := Then(P, INIT, run, u, CashInDesk(BOOKING));
  }

  lemma QueuesTwo() returns (run: seq<Action>)
    ensures Reaches(P, run, TwoQueued())
  {
    var u;
    run, u := BooksTwo();
    run, u := Then(P, INIT, run, u, World(Tick(1)));
    run, u := Then(P, INIT, run, u, CashInDesk(Receive(0)));
    run, u := Then(P, INIT, run, u, CashInDesk(Receive(1)));
    assert u.db.transfers == TwoQueued().db.transfers;
  }

  predicate TwoRows(s: State) {
    && |s.db.transfers| == 2 && s.db.requests == [] && Slack(s, 10)
    && s.db.transfers[0].recipient == s.db.transfers[1].recipient == 0
    && s.db.transfers[0].quote == s.db.transfers[1].quote == TWO_CENTS
  }

  lemma JobKept(jobs: map<nat, Job>, after: map<nat, Job>, j: nat, k: nat)
    requires after - {j} == jobs - {j} && k != j && k in jobs
    ensures k in after && after[k] == jobs[k]
  {
    assert k in after - {j} && (after - {j})[k] == (jobs - {j})[k];
  }

  /** Both workers hold their row and have loaded the recipient's wallet; nothing is credited. */
  lemma Loads() returns (run: seq<Action>, s: State)
    ensures Reaches(P, run, s) && TwoRows(s) && Ready(s, 0, 0) && Ready(s, 1, 1)
  {
    var rest, u;
    run := QueuesTwo();
    rest, u := Takes(P, TwoQueued(), 0, 0, 100);
    PlayAppend(P, INIT, run, rest);
    run := run + rest;
    assert 1 !in u.settlers - {0};
    rest, s := Takes(P, u, 1, 1, 99);
    PlayAppend(P, INIT, run, rest);
    run := run + rest;
    JobKept(u.settlers, s.settlers, 1, 0);
  }

  /** Both payments land, and the first worker credits the first one. */
  lemma FirstCredits(before: seq<Action>, s: State) returns (run: seq<Action>, v: State)
    requires Reaches(P, before, s) && TwoRows(s) && Ready(s, 0, 0) && Ready(s, 1, 1)
    ensures Play(P, s, run) == Some(v) && SettleEnabled(v, 1, PayResult(Succeeded))
    ensures |v.db.transfers| == 2 && v.db.requests == [] && v.db.transfers[0].status.Settled?
            && v.db.transfers[1].status.Processing?
    ensures forall t :: 0 <= t < 2 ==> v.db.transfers[t].recipient == 0 && v.db.transfers[t].quote == TWO_CENTS
    ensures 1 in v.settlers && v.settlers[1].row == 1
  {
    var rest, u, h := [], s, |s.ledger.txs|;
    run, u := SignedLands(P, s, 0, 0, 10);
    JobKept(s.settlers, u.settlers, 0, 1);
    rest, v := SignedLands(P, u, 1, 1, 9);
    PlayAppend(P, s, run, rest);
    run := run + rest;
    JobKept(u.settlers, v.settlers, 1, 0);
    u := v;
    assert u.ledger.txs[h] == u.ledger.txs[..h + 1][h];
    rest, v := Completes(P, u, 0, 0, h, 8);
    PlayAppend(P, s, run, rest);
    run := run + rest;
  }

  lemma Balances(run: seq<Action>, s: State)
    requires Reaches(P, run, s) && |s.db.transfers| == 2 && s.db.requests == []
    requires forall t :: 0 <= t < 2 ==> s.db.transfers[t].recipient == 0 && s.db.transfers[t].quote == TWO_CENTS
    requires 0 in s.db.wallets
    ensures BalanceOf(s.db, 0) == (if s.db.transfers[0].status.Settled? then 20_000 else 0)
                                + (if s.db.transfers[1].status.Settled? then 20_000 else 0)
  {
    Conservation(P, run, s, 0);
    var xs, f := s.db.transfers, CreditedTo(0);
    assert xs == [xs[0]] + [xs[1]];
    SumAppend([xs[0]], xs[1], f);
    SumAppend([], xs[0], f);
    assert [] + [xs[0]] == [xs[0]];
  }

  /** Two workers settle for one recipient: both load the wallet at 0, and the first one credits 20 000. */
  lemma OneCredited() returns (before: seq<Action>, read: State, between: seq<Action>, s: State)
    ensures Reaches(P, before, read) && Play(P, read, between) == Some(s)
    ensures SettlerAt(read, 1) && read.settlers[1].phase.Claimed?
    ensures SettleEnabled(s, 1, PayResult(Succeeded)) && s.settlers[1].row == 1 && |s.db.transfers| == 2
    ensures var x := s.db.transfers[1]; x.status.Processing? && x.recipient == 0 && x.quote == TWO_CENTS
    ensures 0 in s.db.wallets && BalanceOf(read.db, 0) == 0 && BalanceOf(s.db, 0) == 20_000
  {
    before, read := Loads();
    Balances(before, read);
    between, s := FirstCredits(before, read);
    PlayAppend(P, INIT, before, between);
    RunKeepsInv(P, INIT, before + between);
    SettledHasWallet(s, 0);
    Balances(before + between, s);
  }

  lemma SettledHasWallet(s: State, t: nat)
    requires Inv(s) && t < |s.db.transfers| && s.db.transfers[t].status.Settled?
    ensures s.db.transfers[t].recipient in s.db.wallets
  {
    assert TransferOk(t, s.db.transfers[t], s.db.wallets, s.ledger, s.now);
  }

  /**
   Such a run from an empty platform: the second worker, which loaded the wallet before the first
   credit, leaves 20 000 in it instead of 40 000.
  */
  lemma LostCredit() returns (before: seq<Action>, read: State, between: seq<Action>, s: State)
    ensures Reaches(P, before, read) && Play(P, read, between) == Some(s)
    ensures SettlerAt(read, 1) && read.settlers[1].phase.Claimed? && SettleEnabled(s, 1, PayResult(Succeeded))
    ensures BalanceOf(read.db, 0) == 0 && BalanceOf(s.db, 0) == 20_000
    ensures BalanceOf(SettleStep(s, 1, PayResult(Succeeded)).db, 0) == 40_000
    ensures var stale := StaleCommit(s, SettleStep(s, 1, PayResult(Succeeded)), 0, BalanceOf(read.db, 0));
            BalanceOf(stale, 0) == 20_000 && !Conserved(stale, 0)
  {
    before, read, between, s := OneCredited();
    CreditsTwo(s);
    StaleCommitExactly(P, before, read, between, s, Settler(1, PayResult(Succeeded)), 0);
  }

  lemma CreditsTwo(s: State)
    requires SettleEnabled(s, 1, PayResult(Succeeded)) && s.settlers[1].row == 1 && s.db.transfers[1].status.Processing?
    requires s.db.transfers[1].recipient == 0 && s.db.transfers[1].quote == TWO_CENTS && 0 in s.db.wallets
    ensures 0 in SettleStep(s, 1, PayResult(Succeeded)).db.wallets
    ensures BalanceOf(SettleStep(s, 1, PayResult(Succeeded)).db, 0) == BalanceOf(s.db, 0) + 20_000
  {
  }
}
