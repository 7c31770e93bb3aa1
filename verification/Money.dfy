/**
 The exactly-once machine: what the platform promises about money, with no workers,
 messages, hashes or ledger deadlines in it. Module Refinement shows that the protocol
 behaves like this machine.

 A payment is Due until the treasury's payment is validated, Paid until the cache is
 credited, then Credited. A redemption is Requested, Reserved once the admin approves,
 Burnt once the burn is validated, PaidOut once completed, or Closed.
*/
module Money {
  import opened Wrappers
  import opened Sums

  datatype PayStage = Due | Paid | Credited
  datatype RedeemStage = Requested | Reserved | Burnt | PaidOut | Closed
  datatype Payment = Payment(user: nat, amount: int, stage: PayStage)
  datatype Redemption = Redemption(user: nat, amount: int, stage: RedeemStage)

  /** `cache` is balance_uctusd of each wallet, `ledger` the same account on the XRPL. */
  datatype Books = Books(cache: map<nat, int>, ledger: map<nat, int>, payments: seq<Payment>,
      redemptions: seq<Redemption>)

  datatype Event =
    | OpenWallet(user: nat)
    | Book(user: nat, amount: int)
    | Pay(i: nat)
    | Credit(i: nat)
    | Request(user: nat, amount: int)
    | Approve(i: nat)
    | Withdraw(i: nat)
    | Burn(i: nat)
    | PayOut(i: nat)
    | Restore(i: nat)

  const EMPTY := Books(map[], map[], [], [])

  function HeldBy(u: nat): Redemption -> int {
    (x: Redemption) => if x.user == u && x.stage.Requested? then x.amount else 0
  }

  function Held(b: Books, u: nat): int { Sum(b.redemptions, HeldBy(u)) }

  predicate PaymentAt(b: Books, i: nat, stage: PayStage) {
    i < |b.payments| && b.payments[i].stage == stage && b.payments[i].user in b.cache && b.payments[i].user in b.ledger
  }

  predicate RedemptionAt(b: Books, i: nat, stage: RedeemStage) {
    i < |b.redemptions| && b.redemptions[i].stage == stage && b.redemptions[i].user in b.cache
        && b.redemptions[i].user in b.ledger
  }

  /** When an event may happen. No balance is consulted except when a request is opened. */
  predicate Enabled(b: Books, e: Event) {
    match e
    case OpenWallet(u) => u !in b.cache && u !in b.ledger
    case Book(u, amount) => 0 < amount
    case Pay(i) => PaymentAt(b, i, Due)
    case Credit(i) => PaymentAt(b, i, Paid)
    case Request(u, amount) => 0 < amount && u in b.cache && amount <= b.cache[u] - Held(b, u)
    case Approve(i) => RedemptionAt(b, i, Requested)
    case Withdraw(i) => RedemptionAt(b, i, Requested)
    case Burn(i) => RedemptionAt(b, i, Reserved)
    case PayOut(i) => RedemptionAt(b, i, Burnt)
    case Restore(i) => RedemptionAt(b, i, Reserved)
  }

  function Move(b: Books, i: nat, stage: RedeemStage): Books
    requires i < |b.redemptions|
  {
    b.(redemptions := b.redemptions[i := b.redemptions[i].(stage := stage)])
  }

  function Apply(b: Books, e: Event): Books
    requires Enabled(b, e)
  {
    match e
    case OpenWallet(u) => b.(cache := b.cache[u := 0], ledger := b.ledger[u := 0])
    case Book(u, amount) => b.(payments := b.payments + [Payment(u, amount, Due)])
    case Pay(i) =>
      var x := b.payments[i];
      b.(payments := b.payments[i := x.(stage := Paid)], ledger := b.ledger[x.user := b.ledger[x.user] + x.amount])
    case Credit(i) =>
      var x := b.payments[i];
      b.(payments := b.payments[i := x.(stage := Credited)], cache := b.cache[x.user := b.cache[x.user] + x.amount])
    case Request(u, amount) => b.(redemptions := b.redemptions + [Redemption(u, amount, Requested)])
    case Approve(i) =>
      var x := b.redemptions[i];
      Move(b, i, Reserved).(cache := b.cache[x.user := b.cache[x.user] - x.amount])
    case Withdraw(i) => Move(b, i, Closed)
    case Burn(i) =>
      var x := b.redemptions[i];
      Move(b, i, Burnt).(ledger := b.ledger[x.user := b.ledger[x.user] - x.amount])
    case PayOut(i) => Move(b, i, PaidOut)
    case Restore(i) =>
      var x := b.redemptions[i];
      Move(b, i, Closed).(cache := b.cache[x.user := b.cache[x.user] + x.amount])
  }

  /** Plays a list of events; None if one of them is not possible when its turn comes. */
  function Play(b: Books, es: seq<Event>): Option<Books>
    decreases |es|
  {
    if es == [] then Some(b)
    else if Enabled(b, es[0]) then Play(Apply(b, es[0]), es[1..])
    else None
  }

  // ---------------------------------------------------------------- what always holds

  function CreditedTo(u: nat): Payment -> int {
    (x: Payment) => if x.user == u && x.stage.Credited? then x.amount else 0
  }
  function PaidTo(u: nat): Payment -> int {
    (x: Payment) => if x.user == u && !x.stage.Due? then x.amount else 0
  }
  function UncreditedTo(u: nat): Payment -> int {
    (x: Payment) => if x.user == u && x.stage.Paid? then x.amount else 0
  }
  function DrawnBy(u: nat): Redemption -> int {
    (x: Redemption) => if x.user == u && (x.stage.Reserved? || x.stage.Burnt? || x.stage.PaidOut?) then x.amount else 0
  }
  function BurntBy(u: nat): Redemption -> int {
    (x: Redemption) => if x.user == u && (x.stage.Burnt? || x.stage.PaidOut?) then x.amount else 0
  }
  function ReservedBy(u: nat): Redemption -> int {
    (x: Redemption) => if x.user == u && x.stage.Reserved? then x.amount else 0
  }

  ghost predicate RowsSound(b: Books) {
    && b.cache.Keys == b.ledger.Keys
    && (forall i :: 0 <= i < |b.payments| ==> 0 < b.payments[i].amount)
    && (forall i :: 0 <= i < |b.payments| && !b.payments[i].stage.Due? ==> b.payments[i].user in b.cache)
    && (forall i :: 0 <= i < |b.redemptions| ==> 0 < b.redemptions[i].amount && b.redemptions[i].user in b.cache)
  }

  /** The books balance for one wallet. */
  ghost predicate Balanced(b: Books, u: nat)
    requires u in b.cache && u in b.ledger
  {
    && b.cache[u] == Sum(b.payments, CreditedTo(u)) - Sum(b.redemptions, DrawnBy(u))
    && b.ledger[u] == Sum(b.payments, PaidTo(u)) - Sum(b.redemptions, BurntBy(u))
    && Held(b, u) <= b.cache[u]
  }

  ghost predicate Sound(b: Books) {
    RowsSound(b) && forall u :: u in b.cache ==> Balanced(b, u)
  }

  lemma PaymentMoved(b: Books, i: nat, stage: PayStage, u: nat)
    requires i < |b.payments|
    ensures var x := b.payments[i]; var ps := b.payments[i := x.(stage := stage)];
            && Sum(ps, CreditedTo(u)) - Sum(b.payments, CreditedTo(u))
               == CreditedTo(u)(x.(stage := stage)) - CreditedTo(u)(x)
            && Sum(ps, PaidTo(u)) - Sum(b.payments, PaidTo(u)) == PaidTo(u)(x.(stage := stage)) - PaidTo(u)(x)
  {
    var ps := b.payments[i := b.payments[i].(stage := stage)];
    SumChange(b.payments, CreditedTo(u), ps, CreditedTo(u), i);
    SumChange(b.payments, PaidTo(u), ps, PaidTo(u), i);
  }

  lemma RedemptionMoved(b: Books, i: nat, stage: RedeemStage, u: nat)
    requires i < |b.redemptions|
    ensures var x := b.redemptions[i]; var y := x.(stage := stage); var rs := Move(b, i, stage).redemptions;
            && Sum(rs, DrawnBy(u)) - Sum(b.redemptions, DrawnBy(u)) == DrawnBy(u)(y) - DrawnBy(u)(x)
            && Sum(rs, BurntBy(u)) - Sum(b.redemptions, BurntBy(u)) == BurntBy(u)(y) - BurntBy(u)(x)
            && Sum(rs, HeldBy(u)) - Sum(b.redemptions, HeldBy(u)) == HeldBy(u)(y) - HeldBy(u)(x)
  {
    var rs := Move(b, i, stage).redemptions;
    SumChange(b.redemptions, DrawnBy(u), rs, DrawnBy(u), i);
    SumChange(b.redemptions, BurntBy(u), rs, BurntBy(u), i);
    SumChange(b.redemptions, HeldBy(u), rs, HeldBy(u), i);
  }

  lemma EmptyAccount(b: Books, u: nat)
    requires RowsSound(b) && u !in b.cache
    ensures Sum(b.payments, CreditedTo(u)) == Sum(b.payments, PaidTo(u)) == 0
    ensures Sum(b.redemptions, DrawnBy(u)) == Sum(b.redemptions, BurntBy(u)) == Sum(b.redemptions, HeldBy(u)) == 0
  {
    SumZero(b.payments, CreditedTo(u));
    SumZero(b.payments, PaidTo(u));
    SumZero(b.redemptions, DrawnBy(u));
    SumZero(b.redemptions, BurntBy(u));
    SumZero(b.redemptions, HeldBy(u));
  }

  lemma OpenBalances(b: Books, v: nat, u: nat)
    requires Sound(b) && Enabled(b, OpenWallet(v)) && (u in b.cache || u == v)
    ensures Balanced(Apply(b, OpenWallet(v)), u)
  {
    if u == v { EmptyAccount(b, u); } else { assert Balanced(b, u); }
  }

  lemma BookBalances(b: Books, v: nat, amount: int, u: nat)
    requires Sound(b) && Enabled(b, Book(v, amount)) && u in b.cache
    ensures Balanced(Apply(b, Book(v, amount)), u)
  {
    assert Balanced(b, u);
    SumAppend(b.payments, Payment(v, amount, Due), CreditedTo(u));
    SumAppend(b.payments, Payment(v, amount, Due), PaidTo(u));
  }

  lemma PayBalances(b: Books, i: nat, u: nat)
    requires Sound(b) && Enabled(b, Pay(i)) && u in b.cache
    ensures Balanced(Apply(b, Pay(i)), u)
  {
    assert Balanced(b, u);
    PaymentMoved(b, i, Paid, u);
  }

  lemma CreditBalances(b: Books, i: nat, u: nat)
    requires Sound(b) && Enabled(b, Credit(i)) && u in b.cache
    ensures Balanced(Apply(b, Credit(i)), u)
  {
    assert Balanced(b, u);
    PaymentMoved(b, i, Credited, u);
  }

  lemma ApproveBalances(b: Books, i: nat, u: nat)
    requires Sound(b) && Enabled(b, Approve(i)) && u in b.cache
    ensures Balanced(Apply(b, Approve(i)), u)
  {
    assert Balanced(b, u);
    RedemptionMoved(b, i, Reserved, u);
  }

  /** What closing a redemption that was never burnt takes out of each sum. */
  lemma ClosedSums(b: Books, i: nat, u: nat)
    requires i < |b.redemptions| && (b.redemptions[i].stage.Requested? || b.redemptions[i].stage.Reserved?)
    ensures var x := b.redemptions[i]; var rs := Move(b, i, Closed).redemptions;
            var own := if x.user == u then x.amount else 0;
            && Sum(rs, DrawnBy(u)) == Sum(b.redemptions, DrawnBy(u)) - (if x.stage.Reserved? then own else 0)
            && Sum(rs, HeldBy(u)) == Sum(b.redemptions, HeldBy(u)) - (if x.stage.Requested? then own else 0)
            && Sum(rs, BurntBy(u)) == Sum(b.redemptions, BurntBy(u))
  {
    RedemptionMoved(b, i, Closed, u);
  }

  lemma WithdrawBalances(b: Books, i: nat, u: nat)
    requires Sound(b) && Enabled(b, Withdraw(i)) && u in b.cache
    ensures Balanced(Apply(b, Withdraw(i)), u)
  {
    assert Balanced(b, u);
    ClosedSums(b, i, u);
  }

  lemma BurnBalances(b: Books, i: nat, u: nat)
    requires Sound(b) && Enabled(b, Burn(i)) && u in b.cache
    ensures Balanced(Apply(b, Burn(i)), u)
  {
    assert Balanced(b, u);
    RedemptionMoved(b, i, Burnt, u);
  }

  lemma PayOutBalances(b: Books, i: nat, u: nat)
    requires Sound(b) && Enabled(b, PayOut(i)) && u in b.cache
    ensures Balanced(Apply(b, PayOut(i)), u)
  {
    assert Balanced(b, u);
    RedemptionMoved(b, i, PaidOut, u);
  }

  lemma RestoreBalances(b: Books, i: nat, u: nat)
    requires Sound(b) && Enabled(b, Restore(i)) && u in b.cache
    ensures Balanced(Apply(b, Restore(i)), u)
  {
    var x, c := b.redemptions[i], Apply(b, Restore(i));
    ClosedSums(b, i, u);
    assert Balanced(b, u);
    assert c.cache[u] == b.cache[u] + (if x.user == u then x.amount else 0) && c.ledger == b.ledger;
  }

  lemma RequestBalances(b: Books, v: nat, amount: int, u: nat)
    requires Sound(b) && Enabled(b, Request(v, amount)) && u in b.cache
    ensures Balanced(Apply(b, Request(v, amount)), u)
  {
    assert Balanced(b, u);
    var x := Redemption(v, amount, Requested);
    SumAppend(b.redemptions, x, DrawnBy(u));
    SumAppend(b.redemptions, x, BurntBy(u));
    SumAppend(b.redemptions, x, HeldBy(u));
  }

  lemma StepKeepsRows(b: Books, e: Event)
    requires RowsSound(b) && Enabled(b, e)
    ensures RowsSound(Apply(b, e))
  {
  }

  /** Every event keeps the books of every wallet balanced. */
  lemma StepKeepsSound(b: Books, e: Event)
    requires Sound(b) && Enabled(b, e)
    ensures Sound(Apply(b, e))
  {
    StepKeepsRows(b, e);
    forall u | u in Apply(b, e).cache ensures Balanced(Apply(b, e), u) {
      match e
      case OpenWallet(v) => OpenBalances(b, v, u);
      case Book(v, amount) => BookBalances(b, v, amount, u);
      case Pay(i) => PayBalances(b, i, u);
      case Credit(i) => CreditBalances(b, i, u);
      case Request(v, amount) => RequestBalances(b, v, amount, u);
      case Approve(i) => ApproveBalances(b, i, u);
      case Withdraw(i) => WithdrawBalances(b, i, u);
      case Burn(i) => BurnBalances(b, i, u);
      case PayOut(i) => PayOutBalances(b, i, u);
      case Restore(i) => RestoreBalances(b, i, u);
    }
  }

  lemma {:induction false} RunsAreSound(b: Books, es: seq<Event>)
    requires Sound(b) && Play(b, es).Some?
    ensures Sound(Play(b, es).value)
    decreases |es|
  {
    if es != [] {
      StepKeepsSound(b, es[0]);
      RunsAreSound(Apply(b, es[0]), es[1..]);
    }
  }

  /** The ledger exceeds the cache by exactly what is in flight, so the cache never overstates it. */
  lemma LedgerMinusCache(b: Books, u: nat)
    requires Sound(b) && u in b.cache
    ensures b.ledger[u] - b.cache[u] == Sum(b.payments, UncreditedTo(u)) + Sum(b.redemptions, ReservedBy(u))
    ensures 0 <= b.cache[u] <= b.ledger[u]
  {
    assert Balanced(b, u);
    SumSplit(b.payments, PaidTo(u), CreditedTo(u), UncreditedTo(u));
    SumSplit(b.redemptions, DrawnBy(u), BurntBy(u), ReservedBy(u));
    SumCovers(b.payments, UncreditedTo(u), 0);
    SumCovers(b.redemptions, ReservedBy(u), 0);
    SumCovers(b.redemptions, HeldBy(u), 0);
  }

  /** Every pending request can still be approved. */
  lemma RequestsAreCovered(b: Books, i: nat)
    requires Sound(b) && i < |b.redemptions| && b.redemptions[i].stage.Requested?
    ensures b.redemptions[i].amount <= b.cache[b.redemptions[i].user]
  {
    var u := b.redemptions[i].user;
    assert Balanced(b, u);
    SumCovers(b.redemptions, HeldBy(u), i);
  }

  /** Every reserved burn is funded on the ledger. */
  lemma ReservesAreFunded(b: Books, i: nat)
    requires Sound(b) && i < |b.redemptions| && b.redemptions[i].stage.Reserved?
    ensures b.redemptions[i].amount <= b.ledger[b.redemptions[i].user]
  {
    var u := b.redemptions[i].user;
    LedgerMinusCache(b, u);
    SumCovers(b.payments, UncreditedTo(u), 0);
    SumCovers(b.redemptions, ReservedBy(u), i);
  }

  // ---------------------------------------------------------------- exactly once

  /** Events that move an existing row: the row, and the ranks of the stages it moves from and to. */
  datatype Hop = Hop(redemption: bool, row: nat, source: nat, target: nat)

  function HopOf(e: Event): Option<Hop> {
    match e
    case Pay(i) => Some(Hop(false, i, 0, 1))
    case Credit(i) => Some(Hop(false, i, 1, 2))
    case Approve(i) => Some(Hop(true, i, 0, 1))
    case Withdraw(i) => Some(Hop(true, i, 0, 3))
    case Burn(i) => Some(Hop(true, i, 1, 2))
    case PayOut(i) => Some(Hop(true, i, 2, 3))
    case Restore(i) => Some(Hop(true, i, 1, 3))
    case _ => None
  }

  function PayRank(stage: PayStage): nat { match stage case Due => 0 case Paid => 1 case Credited => 2 }

  function RedeemRank(stage: RedeemStage): nat {
    match stage case Requested => 0 case Reserved => 1 case Burnt => 2 case PaidOut => 3 case Closed => 3
  }

  predicate Past(b: Books, e: Event) {
    HopOf(e).Some? &&
    var hop := HopOf(e).value;
    if hop.redemption then hop.row < |b.redemptions| && hop.source < RedeemRank(b.redemptions[hop.row].stage)
    else hop.row < |b.payments| && hop.source < PayRank(b.payments[hop.row].stage)
  }

  lemma PastStaysPast(b: Books, e: Event, f: Event)
    requires Past(b, e) && Enabled(b, f)
    ensures f != e && Past(Apply(b, f), e)
  {
  }

  /** Alternatives: each one moves the same row beyond the stage that every one of them starts from. */
  predicate Alternatives(es: set<Event>) {
    forall e, f :: e in es && f in es ==>
      && HopOf(e).Some? && HopOf(f).Some?
      && HopOf(e).value.redemption == HopOf(f).value.redemption && HopOf(e).value.row == HopOf(f).value.row
      && HopOf(e).value.source < HopOf(f).value.target
  }

  lemma EndingsAreAlternatives(i: nat)
    ensures Alternatives({Approve(i)}) && Alternatives({Restore(i), PayOut(i), Withdraw(i)})
  {
  }

  function Count(run: seq<Event>, es: set<Event>): nat {
    if run == [] then 0 else (if run[0] in es then 1 else 0) + Count(run[1..], es)
  }

  lemma HopMakesPast(b: Books, e: Event, f: Event)
    requires Enabled(b, f) && Alternatives({e, f})
    ensures Past(Apply(b, f), e)
  {
    assert e in {e, f} && f in {e, f};
  }

  lemma {:induction false} PastNeverHappens(b: Books, run: seq<Event>, es: set<Event>)
    requires Play(b, run).Some? && forall e :: e in es ==> Past(b, e)
    ensures Count(run, es) == 0
    decreases |run|
  {
    if run != [] {
      forall e | e in es ensures run[0] != e && Past(Apply(b, run[0]), e) { PastStaysPast(b, e, run[0]); }
      PastNeverHappens(Apply(b, run[0]), run[1..], es);
    }
  }

  /** In any run at most one of a set of alternatives happens, and at most once. */
  lemma {:induction false} AtMostOnce(b: Books, run: seq<Event>, es: set<Event>)
    requires Play(b, run).Some? && Alternatives(es)
    ensures Count(run, es) <= 1
    decreases |run|
  {
    if run != [] {
      var c := Apply(b, run[0]);
      if run[0] in es {
        forall e | e in es ensures Past(c, e) { HopMakesPast(b, e, run[0]); }
        PastNeverHappens(c, run[1..], es);
      } else {
        AtMostOnce(c, run[1..], es);
      }
    }
  }
}
