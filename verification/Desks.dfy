/** What the two desks accept and refuse, in both directions, and what they write. */
module Desks {
  import opened Wrappers
  import opened Sums
  import opened Fx
  import opened Limits
  import opened Rows
  import opened Machine
  import opened Invariant
  import opened Preservation
  import opened History
  import opened Guarantees
  import opened Bounds

  // ---------------------------------------------------------------- sender limits

  /** The rows that were there keep their date, and a new one is dated now. */
  lemma DatesKept(db: Tables, db': Tables, now: nat, later: nat)
    requires RowsEvolve(db, db') && Dated(Sends(db), now) && now <= later
    requires |db'.transfers| <= |db.transfers| + 1
    requires |db'.transfers| == |db.transfers| + 1 ==> db'.transfers[|db.transfers|].send.createdAt == later
    ensures Dated(Sends(db'), later)
  {
    forall t | 0 <= t < |db'.transfers| ensures Sends(db')[t].createdAt <= later {
      if t < |db.transfers| {
        assert TransferEvolves(db.transfers[t], db'.transfers[t]) && Sends(db)[t].createdAt <= now;
      }
    }
  }

  lemma StepKeepsDates(p: Params, s: State, a: Action)
    requires Inv(s) && Enabled(p, s, a) && Dated(Sends(s.db), s.now)
    ensures Dated(Sends(Step(p, s, a).db), Step(p, s, a).now)
  {
    StepEvolves(p, s, a);
    NewRowsAreBooked(p, s, a);
    DatesKept(s.db, Step(p, s, a).db, s.now, Step(p, s, a).now);
  }

  lemma NewRowsAreBooked(p: Params, s: State, a: Action)
    requires Enabled(p, s, a)
    ensures var v := Step(p, s, a);
            |v.db.transfers| == |s.db.transfers|
            || (|v.db.transfers| == |s.db.transfers| + 1 && v.db.transfers[|s.db.transfers|].send.createdAt == v.now)
  {
    if a.CashInDesk? && a.c.Book? { BookedNow(p, s, a.c); } else { SameTransfers(p, s, a); }
  }

  lemma BookedNow(p: Params, s: State, c: CashInEvent)
    requires CashInEnabled(p, s, c) && c.Book?
    ensures var v := CashInStep(p, s, c);
            |v.db.transfers| == |s.db.transfers| + 1 && v.db.transfers[|s.db.transfers|].send.createdAt == v.now
  {
  }

  lemma {:induction false} RunKeepsDates(p: Params, s: State, run: seq<Action>)
    requires Inv(s) && Play(p, s, run).Some? && Dated(Sends(s.db), s.now)
    ensures Dated(Sends(Play(p, s, run).value.db), Play(p, s, run).value.now)
    decreases |run|
  {
    if run != [] {
      StepKeepsDates(p, s, run[0]);
      StepKeepsInv(p, s, run[0]);
      RunKeepsDates(p, Step(p, s, run[0]), run[1..]);
    }
  }

  /**
   On every run, a send is allowed exactly if the tier has a limit at all and, with it, what the sender has
   booked in the current day and in the current month stays within the two limits.
  */
  lemma LimitCheckExactly(p: Params, run: seq<Action>, s: State, user: nat, amount: int)
    requires IsCalendar(p.calendar) && Reaches(p, run, s)
    ensures var day, month := p.calendar.day(s.now), p.calendar.month(s.now);
            CheckLimit(Sends(s.db), user, amount, p.tier, p.calendar, s.now, s.now).allowed
            <==> && p.tier.Some? && !(p.tier.value.daily == 0 && p.tier.value.monthly == 0)
                 && WindowTotal(Sends(s.db), user, p.calendar.day, day) + amount <= p.tier.value.daily
                 && WindowTotal(Sends(s.db), user, p.calendar.month, month) + amount <= p.tier.value.monthly
  {
    RunKeepsDates(p, INIT, run);
    SumIsTheWindow(Sends(s.db), user, p.calendar.day, s.now);
    SumIsTheWindow(Sends(s.db), user, p.calendar.month, s.now);
  }

  /** What is told to be left is what the limits leave of the current windows, and never negative. */
  lemma RemainingExactly(p: Params, run: seq<Action>, s: State, user: nat, amount: int)
    requires IsCalendar(p.calendar) && Reaches(p, run, s) && p.tier.Some?
    requires p.tier.value.daily != 0 || p.tier.value.monthly != 0
    ensures var told := CheckLimit(Sends(s.db), user, amount, p.tier, p.calendar, s.now, s.now);
            var day := WindowTotal(Sends(s.db), user, p.calendar.day, p.calendar.day(s.now));
            var month := WindowTotal(Sends(s.db), user, p.calendar.month, p.calendar.month(s.now));
            && 0 <= told.dailyRemaining && 0 <= told.monthlyRemaining
            && (if day <= p.tier.value.daily then day + told.dailyRemaining == p.tier.value.daily
                else told.dailyRemaining == 0)
            && (if month <= p.tier.value.monthly then month + told.monthlyRemaining == p.tier.value.monthly
                else told.monthlyRemaining == 0)
  {
    RunKeepsDates(p, INIT, run);
    SumIsTheWindow(Sends(s.db), user, p.calendar.day, s.now);
    SumIsTheWindow(Sends(s.db), user, p.calendar.month, s.now);
  }

  // ---------------------------------------------------------------- cash-in desk

  /**
   A remittance is booked exactly if the send is quoted at the very rate, fee and amount the sender accepted
   and the limits allow it; it is booked at that quote, for that recipient, now, and with nothing queued.
  */
  lemma RemittanceIsBookedExactly(db: Tables, c: FeeConfig, tier: Option<Tier>, calendar: Calendar, sender: nat,
      recipient: nat, zarMicro: int, currency: Currency, accepted: (int, int, int), dayAt: nat, monthAt: nat,
      declined: bool, now: nat)
    requires ValidConfig(c)
    ensures var after := CreateRemittance(db, c, tier, calendar, sender, recipient, zarMicro, currency, accepted,
                                          dayAt, monthAt, declined, now);
            var q := QuoteFor(c, zarMicro, currency);
            && (after.Some? <==>
                 && q.Some? && q.value.exchangeRate == accepted.0 && q.value.transactionFee == accepted.1
                 && q.value.uctusd == accepted.2
                 && CheckLimit(Sends(db), sender, q.value.zarAmount, tier, calendar, dayAt, monthAt).allowed)
            && (after.Some? ==>
                 && after.value.requests == db.requests && after.value.wallets == db.wallets
                 && |after.value.transfers| == |db.transfers| + 1
                 && after.value.transfers[..|db.transfers|] == db.transfers
                 && BookedAs(after.value.transfers[|db.transfers|], sender, recipient, q.value, declined, now))
  {
  }

  predicate BookedAs(x: Transfer, sender: nat, recipient: nat, q: Quote, declined: bool, now: nat) {
    && x.send.sender == sender && x.send.zar == q.zarAmount && x.send.createdAt == x.updatedAt == now
    && (x.send.cashin.Declined? <==> declined) && (x.send.cashin.Pending? <==> !declined)
    && x.recipient == recipient && x.quote == q && x.status.NotQueued? && x.attempts == 0
    && x.hash.None? && x.last.None? && x.submitted.None? && x.history == []
  }

  const DAY := 24 * 60 * 60 * SECOND

  /** The expiry fails exactly the pending cash-ins booked more than a day ago, and changes nothing else. */
  lemma ExpiryExactly(db: Tables, now: nat)
    ensures var after := ExpireStale(db, now);
            && after.requests == db.requests && after.wallets == db.wallets && |after.transfers| == |db.transfers|
            && forall t :: 0 <= t < |db.transfers| ==>
                 var x, y := db.transfers[t], after.transfers[t];
                 if x.send.cashin.Pending? && x.send.createdAt + DAY < now then
                   y == x.(send := x.send.(cashin := Declined), updatedAt := now)
                 else y == x
  {
  }

  // ---------------------------------------------------------------- cash-out desk

  /** The price the recipient was shown, if one is given, is the price of now. */
  predicate StillThePrice(p: Pricing, shown: Option<Pricing>) {
    shown.Some? ==>
      p.marketRate == shown.value.marketRate && p.feeUsd == shown.value.feeUsd && p.netPayout == shown.value.netPayout
  }

  /** What the user has asked for and nobody has decided on. */
  function Pending(u: nat): CashOut -> int {
    (q: CashOut) => if q.user == u && q.status == CashOutStatus.Requested then q.terms.uctusd else 0
  }

  /**
   A cash-out is accepted exactly if the wallet exists, its balance covers the amount and everything pending,
   the amount has a price, and that is still the price shown; it is recorded at that price and moves no money.
  */
  lemma RequestIsAcceptedExactly(db: Tables, c: FeeConfig, user: nat, amount: int, currency: Currency,
      shown: Option<Pricing>)
    ensures var after, price := CreateRequest(db, c, user, amount, currency, shown), PriceCashout(c, amount, currency);
            && (after.Some? <==>
                 && user in db.wallets && Sum(db.requests, Pending(user)) + amount <= db.wallets[user].balance
                 && price.Some? && StillThePrice(price.value, shown))
            && (after.Some? ==>
                 && after.value.transfers == db.transfers && after.value.wallets == db.wallets
                 && |after.value.requests| == |db.requests| + 1 && after.value.requests[..|db.requests|] == db.requests
                 && AskedAs(after.value.requests[|db.requests|], user, price.value))
  {
    SumAgree(db.requests, HeldBy(user), db.requests, Pending(user));
  }

  predicate AskedAs(q: CashOut, user: nat, price: Pricing) {
    && q.user == user && q.terms == price && q.status.Requested? && q.attempts == 0 && !q.held
    && q.hash.None? && q.last.None? && q.submitted.None? && q.startedAt.None? && q.approvedAt.None? && q.paidAt.None?
  }
}
