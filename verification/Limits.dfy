/** Sender limits over local calendar windows (app/services/limit_service.py). */
module Limits {
  import opened Wrappers
  import opened Sums

  const CASHIN_EXPIRY: nat := 86_400_000_000

  datatype CashIn = Pending | Received | Declined

  /** The part of a transaction row that limits read. Amounts in cents, times in microseconds. */
  datatype Send = Send(sender: nat, zar: int, createdAt: nat, cashin: CashIn)

  /** The limits of the tier every KYC-approved sender is on. */
  datatype Tier = Tier(daily: int, monthly: int)

  /** `day(t)` and `month(t)`: the instant at which the local day or month of `t` began. */
  datatype Calendar = Calendar(day: nat -> nat, month: nat -> nat)

  ghost predicate IsWindow(w: nat -> nat) {
    && (forall t :: w(t) <= t)
    && (forall a, b :: a <= b ==> w(a) <= w(b))
    && (forall t :: w(w(t)) == w(t))
  }

  ghost predicate IsCalendar(c: Calendar) { IsWindow(c.day) && IsWindow(c.month) }

  function CountedSince(user: nat, since: nat): Send -> int {
    (x: Send) => if x.sender == user && since <= x.createdAt && !x.cashin.Declined? then x.zar else 0
  }

  /** ZAR sent by a user since `since`; a failed cash-in does not count. */
  function SumZarSince(sends: seq<Send>, user: nat, since: nat): int { Sum(sends, CountedSince(user, since)) }

  datatype LimitCheck = LimitCheck(allowed: bool, dailyRemaining: int, monthlyRemaining: int)

  function Max(a: int, b: int): int { if a < b then b else a }

  /** The clock is read once for the day and again for the month, so a window edge may fall between. */
  function CheckLimit(sends: seq<Send>, user: nat, amount: int, tier: Option<Tier>, calendar: Calendar,
      dayAt: nat, monthAt: nat): LimitCheck {
    if tier.None? || (tier.value.daily == 0 && tier.value.monthly == 0) then LimitCheck(false, 0, 0)
    else
      var daily := SumZarSince(sends, user, calendar.day(dayAt));
      var monthly := SumZarSince(sends, user, calendar.month(monthAt));
      LimitCheck(daily + amount <= tier.value.daily && monthly + amount <= tier.value.monthly,
                 Max(tier.value.daily - daily, 0), Max(tier.value.monthly - monthly, 0))
  }

  /** What the sender is told is still available is exactly the most the same check would allow. */
  lemma RemainingIsWhatCanBeSent(sends: seq<Send>, user: nat, asked: int, amount: int, tier: Option<Tier>,
      calendar: Calendar, dayAt: nat, monthAt: nat)
    requires 0 < amount
    ensures var told := CheckLimit(sends, user, asked, tier, calendar, dayAt, monthAt);
            CheckLimit(sends, user, amount, tier, calendar, dayAt, monthAt).allowed
            <==> amount <= told.dailyRemaining && amount <= told.monthlyRemaining
  {
  }

  // ---------------------------------------------------------------- the promise

  function InWindow(user: nat, w: nat -> nat, start: nat): Send -> int {
    (x: Send) => if x.sender == user && w(x.createdAt) == start && !x.cashin.Declined? then x.zar else 0
  }

  /** What a sender has booked in the window that began at `start`. */
  function WindowTotal(sends: seq<Send>, user: nat, w: nat -> nat, start: nat): int {
    Sum(sends, InWindow(user, w, start))
  }

  /** No row is stamped after the clock. */
  ghost predicate Dated(sends: seq<Send>, now: nat) { forall k :: 0 <= k < |sends| ==> sends[k].createdAt <= now }

  /** What is summed since a window began is exactly what was booked in that window. */
  lemma SumIsTheWindow(sends: seq<Send>, user: nat, w: nat -> nat, now: nat)
    requires IsWindow(w) && Dated(sends, now)
    ensures SumZarSince(sends, user, w(now)) == WindowTotal(sends, user, w, w(now))
  {
    forall k | 0 <= k < |sends| ensures w(now) <= sends[k].createdAt <==> w(sends[k].createdAt) == w(now) {
      if w(now) <= sends[k].createdAt { assert w(w(now)) <= w(sends[k].createdAt) <= w(now); }
    }
    SumAgree(sends, CountedSince(user, w(now)), sends, InWindow(user, w, w(now)));
  }

  ghost predicate WithinLimit(sends: seq<Send>, w: nat -> nat, limit: int) {
    forall user, start :: SumWithin(sends, user, w, start, limit)
  }

  ghost predicate SumWithin(sends: seq<Send>, user: nat, w: nat -> nat, start: nat, limit: int) {
    WindowTotal(sends, user, w, start) <= Max(limit, 0)
  }

  ghost predicate NonNegative(sends: seq<Send>) { forall k :: 0 <= k < |sends| ==> 0 <= sends[k].zar }

  /**
   A send checked at `checkedAt` and inserted at `now` keeps every window within its limit,
   even when a window edge falls between the two.
  */
  lemma InsertKeepsLimit(sends: seq<Send>, w: nat -> nat, limit: int, x: Send, checkedAt: nat)
    requires IsWindow(w) && NonNegative(sends) && WithinLimit(sends, w, limit)
    requires checkedAt <= x.createdAt && 0 <= x.zar
    requires SumZarSince(sends, x.sender, w(checkedAt)) + x.zar <= limit
    ensures WithinLimit(sends + [x], w, limit)
  {
    forall user, start ensures SumWithin(sends + [x], user, w, start, limit) {
      assert SumWithin(sends, user, w, start, limit);
      SumAppend(sends, x, InWindow(user, w, start));
      if user == x.sender && start == w(x.createdAt) {
        SumBelow(sends, InWindow(user, w, start), sends, CountedSince(user, w(checkedAt)));
      }
    }
  }

  /** Cash-in decisions only ever release allowance. */
  lemma DecisionsKeepLimit(sends: seq<Send>, later: seq<Send>, w: nat -> nat, limit: int)
    requires NonNegative(sends) && WithinLimit(sends, w, limit) && OnlyDecided(sends, later)
    ensures WithinLimit(later, w, limit) && NonNegative(later)
  {
    forall user, start ensures SumWithin(later, user, w, start, limit) {
      assert SumWithin(sends, user, w, start, limit);
      SumBelow(later, InWindow(user, w, start), sends, InWindow(user, w, start));
    }
  }

  /** Same rows; a declined one stays declined. */
  ghost predicate OnlyDecided(sends: seq<Send>, later: seq<Send>) {
    && |later| == |sends|
    && forall k :: 0 <= k < |sends| ==>
         later[k] == sends[k].(cashin := later[k].cashin) && (sends[k].cashin.Declined? ==> later[k].cashin.Declined?)
  }
}
