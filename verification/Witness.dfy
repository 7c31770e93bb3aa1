/** Runs from an empty platform to the states that the companion lemmas of the assumptions start from. */
module Witness {
  import opened Wrappers
  import opened Fx
  import opened Limits
  import opened Rows
  import opened Machine
  import opened Invariant
  import opened Preservation
  import opened Guarantees
  import opened Progress
  import opened Delivery

  /** A tier of ten cents, and one window for ever. */
  const P := Params(Some(Tier(10, 10)), Calendar((t: nat) => 0, (t: nat) => 0))

  /** No fees, one rand per dollar. */
  const FREE := FeeConfig(0, 0, 0, 0, 0, MICRO, 0)

  /** Two cents to recipient 0. */
  const TWO_CENTS := Quote(2, 0, 2, MICRO, MICRO, 20_000, 0, 20_000)

  const BOOKING := CashInEvent.Book(1, 0, 20_000, USD, FREE, (MICRO, 0, 20_000), 0, 0, false)

  lemma TwoCentsQuoted()
    ensures QuoteFor(FREE, 20_000, USD) == Some(TWO_CENTS)
  {
  }

  function Booked(now: nat): Transfer {
    Transfer(Send(1, 2, now, Pending), 0, TWO_CENTS, now, NotQueued, None, None, None, 0, [])
  }

  lemma Books(s: State)
    requires s.now == 0 && (s.db.transfers == [] || s.db.transfers == [Booked(0)])
    ensures CashInEnabled(P, s, BOOKING)
    ensures CashInStep(P, s, BOOKING) == s.(db := s.db.(transfers := s.db.transfers + [Booked(0)]))
  {
    TwoCentsQuoted();
    if s.db.transfers == [] {
      assert Sends(s.db) == [];
    } else {
      assert Sends(s.db) == [Booked(0).send];
      assert [Booked(0).send][..0] == [];
    }
  }

  function Received(now: nat): Transfer {
    Booked(0).(send := Booked(0).send.(cashin := CashIn.Received), status := Queued, updatedAt := now)
  }

  function OneQueued(): State { INIT.(now := 1, db := Tables([], [Received(1)], map[])) }

  /** One remittance of two cents, confirmed. */
  lemma Queues() returns (run: seq<Action>)
    ensures Reaches(P, run, OneQueued())
  {
    var u;
    Books(INIT);
    run, u := Then(P, INIT, [], INIT, CashInDesk(BOOKING));
    run, u := Then(P, INIT, run, u, World(Tick(1)));
    run, u := Then(P, INIT, run, u, CashInDesk(Receive(0)));
    assert u.db.transfers == OneQueued().db.transfers;
  }

  /** The one wallet, and all its money. */
  predicate Holds(s: State, amount: int) {
    0 in s.db.wallets && s.db.wallets[0].balance == amount && 0 in s.ledger.balances && amount <= s.ledger.balances[0]
  }

  /** It is delivered: recipient 0 holds 20 000 micro-UCTUSD. */
  lemma Funded() returns (run: seq<Action>, s: State)
    ensures Reaches(P, run, s) && Quiet(s) && s.db.requests == [] && Holds(s, 20_000)
  {
    var rest;
    run := Queues();
    RunKeepsInv(P, INIT, run);
    rest, s := QueuedIsDelivered(P, OneQueued(), 0, 0);
    PlayAppend(P, INIT, run, rest);
    run := run + rest;
    Credited(run, s);
  }

  lemma Credited(run: seq<Action>, s: State)
    requires Reaches(P, run, s) && s.db.requests == [] && |s.db.transfers| == 1
    requires var x := s.db.transfers[0]; x.status.Settled? && x.recipient == 0 && x.quote == TWO_CENTS
    ensures Holds(s, 20_000)
  {
    RunKeepsInv(P, INIT, run);
    assert TransferOk(0, s.db.transfers[0], s.db.wallets, s.ledger, s.now);
    Conservation(P, run, s, 0);
    CacheVersusLedger(P, run, s, 0);
    assert s.db.transfers[..0] == [];
  }

  const TERMS := Pricing(10_000, USD, MICRO, 0, 10_000)

  function Asked(): CashOut { CashOut(0, TERMS, Requested, None, None, None, None, None, 0, false, None) }

  lemma Requests(s: State)
    requires s.db.requests == [] && Holds(s, 20_000)
    ensures CashOutEnabled(s, Request(0, 10_000, USD, FREE, None))
    ensures CashOutStep(s, Request(0, 10_000, USD, FREE, None)) == s.(db := s.db.(requests := [Asked()]))
  {
    assert PriceCashout(FREE, 10_000, USD) == Some(TERMS);
    assert HeldForRequests(s.db, 0) == 0;
  }

  function ClaimedRow(approved: nat, now: nat, attempts: nat): CashOut {
    CashOut(0, TERMS, Approved, Some(approved), None, None, None, Some(now), attempts, false, None)
  }

  function Reserved(now: nat): CashOut { Asked().(status := CashOutStatus.Approved, approvedAt := Some(now)) }

  lemma Approves(s: State)
    requires s.db.requests == [Asked()] && Holds(s, 20_000)
    ensures CashOutEnabled(s, CashOutEvent.Approve(0))
    ensures var v := CashOutStep(s, CashOutEvent.Approve(0));
            && v == s.(db := v.db, publishing := s.publishing + {0})
            && v.db.requests == [Reserved(s.now)] && Holds(v, 10_000)
  {
  }

  lemma ClaimsIt(s: State, j: nat, approved: nat, attempts: nat)
    requires s.db.requests == [Reserved(approved).(attempts := attempts)] && 0 in s.published && j !in s.burners
    ensures BurnEnabled(s, j, BurnClaim(0))
    ensures var v := BurnStep(s, j, BurnClaim(0));
            && v.db.requests == [ClaimedRow(approved, s.now, attempts + 1)] && v.db.wallets == s.db.wallets
            && v == s.(db := v.db, burners := s.burners[j := Job(0, s.now, attempts + 1, Claimed)])
  {
  }

  /** An approved cash-out of half the balance, its message published; nobody is alive. */
  lemma BurnPublished() returns (run: seq<Action>, s: State)
    ensures Reaches(P, run, s) && s.db.requests == [Reserved(s.now)] && Holds(s, 10_000)
    ensures 20_000 <= s.ledger.balances[0] && 0 in s.published && Quiet(s)
  {
    run, s := Funded();
    Requests(s);
    run, s := Then(P, INIT, run, s, CashOutDesk(Request(0, 10_000, USD, FREE, None)));
    Approves(s);
    run, s := Then(P, INIT, run, s, CashOutDesk(CashOutEvent.Approve(0)));
    run, s := Then(P, INIT, run, s, CashOutDesk(PublishOk(0)));
  }

  /** A worker has claimed it; nobody else is alive. */
  lemma BurnClaimed() returns (run: seq<Action>, s: State)
    ensures Reaches(P, run, s) && s.db.requests == [ClaimedRow(s.now, s.now, 1)] && Holds(s, 10_000)
    ensures 20_000 <= s.ledger.balances[0] && 0 in s.published
    ensures s.burners == map[0 := Job(0, s.now, 1, Claimed)]
    ensures s.settlers == map[] && s.admins == map[] && s.publishing == {}
  {
    run, s := BurnPublished();
    ClaimsIt(s, 0, s.now, 0);
    run, s := Then(P, INIT, run, s, Burner(0, BurnClaim(0)));
  }

  /** Its worker has fallen silent, and after ten minutes another one has claimed the row. */
  lemma ClaimedAgain() returns (run: seq<Action>, s: State, approved: nat)
    ensures Reaches(P, run, s) && s.db.requests == [ClaimedRow(approved, s.now, 2)] && Holds(s, 10_000)
    ensures 0 in s.ledger.balances && 20_000 <= s.ledger.balances[0] && 0 in s.published
    ensures s.burners == map[1 := Job(0, s.now, 2, Claimed)] && s.settlers == map[] && s.admins == map[]
            && s.publishing == {}
  {
    run, s := BurnClaimed();
    approved := s.now;
    run, s := Then(P, INIT, run, s, Burner(0, BurnCrash));
    assert s.burners == map[];
    run, s := Then(P, INIT, run, s, World(Tick(STUCK_AFTER + 1)));
    run, s := Then(P, INIT, run, s, Burner(1, BurnClaim(0)));
  }
}
