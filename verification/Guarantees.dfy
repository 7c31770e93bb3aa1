/** The promises of the platform, over every run from an empty database. */
module Guarantees {
  import opened Wrappers
  import opened Sums
  import opened Xrpl
  import opened Rows
  import opened Machine
  import opened Invariant
  import opened Preservation
  import opened History
  import opened Refinement
  import Money

  /** `s` is the state after playing `run` on an empty platform. */
  ghost predicate Reaches(p: Params, run: seq<Action>, s: State) { Play(p, INIT, run) == Some(s) }

  lemma ReachableIsSound(p: Params, run: seq<Action>, s: State)
    requires Reaches(p, run, s)
    ensures Inv(s)
    ensures Money.Play(Money.EMPTY, Trace(p, INIT, run)) == Some(BooksOf(s))
    ensures Money.Sound(BooksOf(s))
  {
    RunKeepsInv(p, INIT, run);
    assert BooksOf(INIT) == Money.EMPTY;
    RunSimulates(p, INIT, run);
    Money.RunsAreSound(Money.EMPTY, Trace(p, INIT, run));
  }

  lemma {:induction false} PlayAppend(p: Params, s: State, run: seq<Action>, more: seq<Action>)
    requires Play(p, s, run).Some?
    ensures Play(p, s, run + more) == Play(p, Play(p, s, run).value, more)
    decreases |run|
  {
    if run == [] {
      assert run + more == more;
    } else {
      assert (run + more)[1..] == run[1..] + more;
      PlayAppend(p, Step(p, s, run[0]), run[1..], more);
    }
  }

  // ---------------------------------------------------------------- money

  function CreditedTo(u: nat): Transfer -> int {
    (x: Transfer) => if x.recipient == u && x.status.Settled? then x.quote.uctusd else 0
  }
  function ReservedBy(u: nat): CashOut -> int {
    (q: CashOut) => if q.user == u && (q.status.Approved? || q.status.Completed?) then q.terms.uctusd else 0
  }
  /** Validated payments whose row is not completed yet. */
  function UncreditedTo(u: nat, l: Ledger): Transfer -> int {
    (x: Transfer) => if x.recipient == u && !x.status.Settled? && Landed(x.hash, l) then x.quote.uctusd else 0
  }
  /** Approved requests whose burn has not validated as a success. */
  function UnburntBy(u: nat, l: Ledger): CashOut -> int {
    (q: CashOut) => if q.user == u && q.status.Approved? && !Landed(q.hash, l) then q.terms.uctusd else 0
  }

  /** Every wallet balance is what was settled to it less what is approved or completed out of it, never negative. */
  lemma Conservation(p: Params, run: seq<Action>, s: State, u: nat)
    requires Reaches(p, run, s) && u in s.db.wallets
    ensures s.db.wallets[u].balance == Sum(s.db.transfers, CreditedTo(u)) - Sum(s.db.requests, ReservedBy(u))
    ensures 0 <= HeldForRequests(s.db, u) <= s.db.wallets[u].balance
  {
    ReachableIsSound(p, run, s);
    assert Money.Balanced(BooksOf(s), u);
    BooksShowRows(s, u);
    HeldAgrees(s, u);
    SumCovers(BooksOf(s).redemptions, Money.HeldBy(u), 0);
  }

  lemma BooksShowRows(s: State, u: nat)
    ensures Sum(BooksOf(s).payments, Money.CreditedTo(u)) == Sum(s.db.transfers, CreditedTo(u))
    ensures Sum(BooksOf(s).redemptions, Money.DrawnBy(u)) == Sum(s.db.requests, ReservedBy(u))
  {
    SumAgree(BooksOf(s).payments, Money.CreditedTo(u), s.db.transfers, CreditedTo(u));
    SumAgree(BooksOf(s).redemptions, Money.DrawnBy(u), s.db.requests, ReservedBy(u));
  }

  /** The ledger balance exceeds the cache by exactly what is in flight. */
  lemma CacheVersusLedger(p: Params, run: seq<Action>, s: State, u: nat)
    requires Reaches(p, run, s) && u in s.db.wallets
    ensures u in s.ledger.balances
    ensures s.ledger.balances[u] - s.db.wallets[u].balance
         == Sum(s.db.transfers, UncreditedTo(u, s.ledger)) + Sum(s.db.requests, UnburntBy(u, s.ledger))
    ensures 0 <= s.db.wallets[u].balance <= s.ledger.balances[u]
  {
    ReachableIsSound(p, run, s);
    var b := BooksOf(s);
    Money.LedgerMinusCache(b, u);
    SumAgree(b.payments, Money.UncreditedTo(u), s.db.transfers, UncreditedTo(u, s.ledger));
    SumAgree(b.redemptions, Money.ReservedBy(u), s.db.requests, UnburntBy(u, s.ledger));
  }

  /** With nothing in flight the cache is exact. */
  lemma CacheIsExactAtRest(p: Params, run: seq<Action>, s: State, u: nat)
    requires Reaches(p, run, s) && u in s.db.wallets
    requires forall t :: 0 <= t < |s.db.transfers| && Landed(s.db.transfers[t].hash, s.ledger) ==>
             s.db.transfers[t].status.Settled?
    requires forall r :: 0 <= r < |s.db.requests| && s.db.requests[r].status.Approved? ==>
             Landed(s.db.requests[r].hash, s.ledger)
    ensures u in s.ledger.balances && s.ledger.balances[u] == s.db.wallets[u].balance
  {
    CacheVersusLedger(p, run, s, u);
    SumZero(s.db.transfers, UncreditedTo(u, s.ledger));
    SumZero(s.db.requests, UnburntBy(u, s.ledger));
  }

  /** approve never refuses a pending request for lack of balance. */
  lemma ApproveNeverShort(p: Params, run: seq<Action>, s: State, r: nat)
    requires Reaches(p, run, s) && r < |s.db.requests| && s.db.requests[r].status.Requested?
    ensures ApproveOutcomeOf(s.db, r) == ApproveOutcome.Reserved
  {
    ReachableIsSound(p, run, s);
    assert RequestOk(r, s.db.requests[r], s.db.wallets, s.ledger);
    Money.RequestsAreCovered(BooksOf(s), r);
  }

  /** Every burn of an approved request that the ledger has not decided is funded there. */
  lemma BurnIsFunded(p: Params, run: seq<Action>, s: State, r: nat)
    requires Reaches(p, run, s) && r < |s.db.requests|
    requires s.db.requests[r].status.Approved? && !Landed(s.db.requests[r].hash, s.ledger)
    ensures s.db.requests[r].user in s.ledger.balances
    ensures s.db.requests[r].terms.uctusd <= s.ledger.balances[s.db.requests[r].user]
  {
    ReachableIsSound(p, run, s);
    Money.ReservesAreFunded(BooksOf(s), r);
  }

  // ---------------------------------------------------------------- cash-outs

  /** A failed cash-out has no burn that succeeded, and none ever will, however the run goes on. */
  lemma FailedCashOutNeverBurns(p: Params, run: seq<Action>, s: State, more: seq<Action>, s': State, r: nat, h: nat)
    requires Reaches(p, run, s) && r < |s.db.requests| && s.db.requests[r].status.Failed?
    requires Play(p, s, more) == Some(s')
    requires h < |s'.ledger.txs| && s'.ledger.txs[h].purpose == Purpose.Burn(r)
    ensures r < |s'.db.requests| && s'.db.requests[r] == s.db.requests[r]
    ensures Dead(s'.ledger.txs[h], s'.ledger.index) && !Success(s'.ledger.txs[h])
  {
    ReachableIsSound(p, run, s);
    RunEvolves(p, s, more);
    RunKeepsInv(p, s, more);
    assert RequestEvolves(s.db.requests[r], s'.db.requests[r]);
    assert RequestOk(r, s'.db.requests[r], s'.db.wallets, s'.ledger);
  }

  /** A completed cash-out was paid out once, and its recorded hash is a validated success carrying its own terms. */
  lemma CompletedCashOutBurnt(p: Params, run: seq<Action>, s: State, r: nat)
    requires Reaches(p, run, s) && r < |s.db.requests| && s.db.requests[r].status.Completed?
    ensures var q := s.db.requests[r];
            && q.paidAt.Some? && q.hash.Some? && q.hash.value < |s.ledger.txs|
            && Success(s.ledger.txs[q.hash.value])
            && Carries(s.ledger.txs[q.hash.value], Purpose.Burn(r), q.user, q.terms.uctusd, q.last, q.submitted)
    ensures forall h :: 0 <= h < |s.ledger.txs| && s.ledger.txs[h].purpose == Purpose.Burn(r) ==>
            Some(h) == s.db.requests[r].hash
  {
    ReachableIsSound(p, run, s);
    assert RequestOk(r, s.db.requests[r], s.db.wallets, s.ledger);
  }

  /** In any run a cash-out is reserved at most once, and restored, paid out or rejected at most once in all. */
  lemma CashOutResolvesOnce(p: Params, run: seq<Action>, s: State, r: nat)
    requires Reaches(p, run, s)
    ensures Money.Count(Trace(p, INIT, run), {Money.Approve(r)}) <= 1
    ensures Money.Count(Trace(p, INIT, run), {Money.Restore(r), Money.PayOut(r), Money.Withdraw(r)}) <= 1
  {
    ReachableIsSound(p, run, s);
    Money.EndingsAreAlternatives(r);
    Money.AtMostOnce(Money.EMPTY, Trace(p, INIT, run), {Money.Approve(r)});
    Money.AtMostOnce(Money.EMPTY, Trace(p, INIT, run), {Money.Restore(r), Money.PayOut(r), Money.Withdraw(r)});
  }

  // ---------------------------------------------------------------- settlements

  /** In any run the treasury pays a transaction at most once and the recipient is credited at most once. */
  lemma PaidAndCreditedOnce(p: Params, run: seq<Action>, s: State, t: nat)
    requires Reaches(p, run, s)
    ensures Money.Count(Trace(p, INIT, run), {Money.Pay(t)}) <= 1
    ensures Money.Count(Trace(p, INIT, run), {Money.Credit(t)}) <= 1
  {
    ReachableIsSound(p, run, s);
    Money.AtMostOnce(Money.EMPTY, Trace(p, INIT, run), {Money.Pay(t)});
    Money.AtMostOnce(Money.EMPTY, Trace(p, INIT, run), {Money.Credit(t)});
  }

  /** At most one payment of a transaction ever succeeds, over any number of retries. */
  lemma AtMostOnePaymentSucceeds(p: Params, run: seq<Action>, s: State, t: nat, h: nat, k: nat)
    requires Reaches(p, run, s) && h < |s.ledger.txs| && k < |s.ledger.txs|
    requires s.ledger.txs[h].purpose == s.ledger.txs[k].purpose == Purpose.Pay(t)
    requires Success(s.ledger.txs[h]) && Success(s.ledger.txs[k])
    ensures h == k
  {
    ReachableIsSound(p, run, s);
    LandedIsLive(s, t, h);
    LandedIsLive(s, t, k);
  }

  /** A retired attempt is dead for ever. */
  lemma ArchivedNeverLands(p: Params, run: seq<Action>, s: State, more: seq<Action>, s': State, t: nat, k: nat)
    requires Reaches(p, run, s) && t < |s.db.transfers| && k < |s.db.transfers[t].history|
    requires Play(p, s, more) == Some(s')
    ensures t < |s'.db.transfers| && s.db.transfers[t].history <= s'.db.transfers[t].history
    ensures var h := s.db.transfers[t].history[k].hash;
            h < |s'.ledger.txs| && Dead(s'.ledger.txs[h], s'.ledger.index) && !Success(s'.ledger.txs[h])
  {
    ReachableIsSound(p, run, s);
    RunEvolves(p, s, more);
    RunKeepsInv(p, s, more);
    assert TransferEvolves(s.db.transfers[t], s'.db.transfers[t]);
    assert s'.db.transfers[t].history[k] == s.db.transfers[t].history[k];
    assert TransferOk(t, s'.db.transfers[t], s'.db.wallets, s'.ledger, s'.now);
    assert AttemptOk(t, s'.db.transfers[t].history[k], s'.ledger);
  }

  /** A payment that succeeded is never orphaned: its row still names it, and its recipient has a wallet. */
  lemma NoOrphanedPayment(p: Params, run: seq<Action>, s: State, t: nat, h: nat)
    requires Reaches(p, run, s) && h < |s.ledger.txs| && s.ledger.txs[h].purpose == Purpose.Pay(t)
             && Success(s.ledger.txs[h])
    ensures t < |s.db.transfers|
    ensures var x := s.db.transfers[t];
            && x.hash == Some(h) && x.recipient in s.db.wallets
            && (x.status.Processing? || x.status.Unsettled? || x.status.Settled?)
  {
    ReachableIsSound(p, run, s);
    LandedIsLive(s, t, h);
    assert TransferOk(t, s.db.transfers[t], s.db.wallets, s.ledger, s.now);
  }

  /** The hashes ever persisted for a transaction, oldest first, the live one last. */
  function Trail(x: Transfer): seq<nat> {
    seq(|x.history|, k requires 0 <= k < |x.history| => x.history[k].hash) + if x.hash.Some? then [x.hash.value] else []
  }

  predicate StrictlyIncreasing(a: seq<nat>) { forall i, k :: 0 <= i < k < |a| ==> a[i] < a[k] }

  lemma TrailHoldsEveryPayment(s: State, t: nat, h: nat)
    requires Inv(s) && t < |s.db.transfers| && h < |s.ledger.txs| && s.ledger.txs[h].purpose == Purpose.Pay(t)
    ensures h in Trail(s.db.transfers[t])
  {
    var x := s.db.transfers[t];
    assert PayTxOk(s.db.transfers, t, h);
    if x.hash == Some(h) {
      assert Trail(x)[|x.history|] == h;
    } else {
      var k :| 0 <= k < |x.history| && x.history[k].hash == h;
      assert Trail(x)[k] == h;
    }
  }

  lemma TrailHoldsOnlyPayments(t: nat, x: Transfer, w: map<nat, Wallet>, l: Ledger, now: nat, h: nat)
    requires TransferOk(t, x, w, l, now) && h in Trail(x)
    ensures h < |l.txs| && l.txs[h].purpose == Purpose.Pay(t)
  {
    var k :| 0 <= k < |Trail(x)| && Trail(x)[k] == h;
    if k < |x.history| { assert AttemptOk(t, x.history[k], l); }
  }

  /** What the trail and the archive say about the signed transaction of an entry. */
  ghost predicate TrailOk(t: nat, x: Transfer, l: Ledger) {
    && StrictlyIncreasing(Trail(x))
    && (forall h: nat :: h in Trail(x) <==> h < |l.txs| && l.txs[h].purpose == Purpose.Pay(t))
    && (forall e :: e in x.history ==>
         e.hash < |l.txs| && e.last == l.txs[e.hash].last && e.submitted == Some(l.txs[e.hash].submittedAt))
    && (x.hash.Some? ==>
         x.hash.value < |l.txs| && x.last == l.txs[x.hash.value].last
             && x.submitted == Some(l.txs[x.hash.value].submittedAt))
  }

  /** Every hash ever signed for a transaction is in its trail exactly once, with the range it was signed with. */
  lemma TrailIsComplete(p: Params, run: seq<Action>, s: State, t: nat)
    requires Reaches(p, run, s) && t < |s.db.transfers|
    ensures TrailOk(t, s.db.transfers[t], s.ledger)
  {
    ReachableIsSound(p, run, s);
    var x := s.db.transfers[t];
    assert TransferOk(t, x, s.db.wallets, s.ledger, s.now);
    forall h: nat ensures h in Trail(x) <==> h < |s.ledger.txs| && s.ledger.txs[h].purpose == Purpose.Pay(t) {
      if h in Trail(x) { TrailHoldsOnlyPayments(t, x, s.db.wallets, s.ledger, s.now, h); }
      if h < |s.ledger.txs| && s.ledger.txs[h].purpose == Purpose.Pay(t) { TrailHoldsEveryPayment(s, t, h); }
    }
    TrailIsOrdered(t, x, s.ledger);
  }

  lemma TrailIsOrdered(t: nat, x: Transfer, l: Ledger)
    requires HistoryOk(t, x, l)
    ensures StrictlyIncreasing(Trail(x))
    ensures forall e :: e in x.history ==> AttemptOk(t, e, l)
  {
    forall e | e in x.history ensures AttemptOk(t, e, l) {
      var k :| 0 <= k < |x.history| && x.history[k] == e;
      assert AttemptOk(t, x.history[k], l);
    }
  }
}
