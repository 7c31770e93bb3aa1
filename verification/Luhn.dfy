/** The card-number check (app/services/cashin_service.py:92-99). */
module Luhn {

  type Digit = d: int | 0 <= d <= 9

  function Doubled(d: Digit): Digit { if d > 4 then d * 2 - 9 else d * 2 }

  /** A digit at an odd place from the right weighs the digit sum of its double, any other itself. */
  lemma WeightsAre(d: Digit, fromRight: nat)
    ensures Weight(d, fromRight) == if fromRight % 2 == 1 then 2 * d / 10 + 2 * d % 10 else d
  {
  }

  /** The weight of a digit that has `fromRight` digits to its right. */
  function Weight(d: Digit, fromRight: nat): Digit { if fromRight % 2 == 1 then Doubled(d) else d }

  /** The Luhn total, by position from the right. */
  function Total(digits: seq<Digit>): nat {
    if digits == [] then 0 else Weight(digits[0], |digits| - 1) + Total(digits[1..])
  }

  predicate Valid(digits: seq<Digit>) { Total(digits) % 10 == 0 }

  method LuhnOk(digits: seq<Digit>) returns (ok: bool)
    ensures ok == Valid(digits)
  {
    var total := 0;
    var i := 0;
    while i < |digits|
      invariant 0 <= i <= |digits|
      invariant total == Total(digits[|digits| - i..])
    {
      var d: int := digits[|digits| - 1 - i];
      var rest := digits[|digits| - i - 1..];
      assert rest[1..] == digits[|digits| - i..];
      if i % 2 == 1 {
        d := if d > 4 then d * 2 - 9 else d * 2;
      }
      total := total + d;
      i := i + 1;
    }
    assert digits[|digits| - i..] == digits;
    return total % 10 == 0;
  }

  /** Replacing one digit changes the total by the difference of that digit's two weights. */
  lemma {:induction false} TotalAfterChange(digits: seq<Digit>, k: nat, d: Digit)
    requires k < |digits|
    ensures Total(digits[k := d])
         == Total(digits) - Weight(digits[k], |digits| - 1 - k) + Weight(d, |digits| - 1 - k)
  {
    if k == 0 {
      assert digits[k := d][1..] == digits[1..];
    } else {
      assert digits[k := d][1..] == digits[1..][k - 1 := d];
      TotalAfterChange(digits[1..], k - 1, d);
    }
  }

  lemma WeightsDiffer(a: Digit, b: Digit, fromRight: nat)
    requires a != b
    ensures Weight(a, fromRight) != Weight(b, fromRight)
  {
  }

  /** Every single-digit error in a valid number of any length is caught. */
  lemma SingleErrorDetected(digits: seq<Digit>, k: nat, d: Digit)
    requires k < |digits| && d != digits[k] && Valid(digits)
    ensures !Valid(digits[k := d])
  {
    TotalAfterChange(digits, k, d);
    var before: int := Weight(digits[k], |digits| - 1 - k);
    var after: int := Weight(d, |digits| - 1 - k);
    WeightsDiffer(digits[k], d, |digits| - 1 - k);
    MultipleOfTen(Total(digits), before - after);
  }

  /** Swapping neighbours is caught unless they are equal, or are 0 and 9. */
  lemma TranspositionDetected(digits: seq<Digit>, k: nat)
    requires k + 1 < |digits| && Valid(digits)
    ensures var a, b := digits[k], digits[k + 1];
            Valid(digits[k := b][k + 1 := a]) <==> a == b || {a, b} == {0, 9}
  {
    var a, b := digits[k], digits[k + 1];
    var right := |digits| - 2 - k;
    TotalAfterSwap(digits, k);
    SwapDifference(a, b, right);
    PairIs(a, b);
    MultipleOfTen(Total(digits), Weight(a, right + 1) + Weight(b, right) - Weight(b, right + 1) - Weight(a, right));
  }

  lemma TotalAfterSwap(digits: seq<Digit>, k: nat)
    requires k + 1 < |digits|
    ensures var a, b, right := digits[k], digits[k + 1], |digits| - 2 - k;
            var drop := Weight(a, right + 1) + Weight(b, right) - Weight(b, right + 1) - Weight(a, right);
            Total(digits[k := b][k + 1 := a]) == Total(digits) - drop
  {
    TotalAfterChange(digits, k, digits[k + 1]);
    TotalAfterChange(digits[k := digits[k + 1]], k + 1, digits[k]);
  }

  lemma MultipleOfTen(total: int, drop: int)
    requires total % 10 == 0
    ensures (total - drop) % 10 == 0 <==> drop % 10 == 0
  {
  }

  lemma PairIs(a: Digit, b: Digit)
    ensures (a == 0 && b == 9) || (a == 9 && b == 0) <==> {a, b} == {0, 9}
  {
    if {a, b} == {0, 9} {
      assert 0 in {a, b} && 9 in {a, b};
    }
  }

  lemma SwapDifference(a: Digit, b: Digit, right: nat)
    ensures (Weight(a, right + 1) + Weight(b, right) - Weight(b, right + 1) - Weight(a, right)) % 10 == 0
       <==> a == b || (a == 0 && b == 9) || (a == 9 && b == 0)
  {
    var p, q := Doubled(a) - a, Doubled(b) - b;
    assert (p - q) % 10 == 0 <==> a == b || (a == 0 && b == 9) || (a == 9 && b == 0);
  }

  function CheckDigit(prefix: seq<Digit>): Digit { (10 - Total(prefix + [0]) % 10) % 10 }

  /** Exactly one check digit completes any prefix. */
  lemma CheckDigitIsUnique(prefix: seq<Digit>, d: Digit)
    ensures Valid(prefix + [d]) <==> d == CheckDigit(prefix)
  {
    var zero := prefix + [0 as Digit];
    TotalAfterChange(zero, |prefix|, d);
    assert zero[|prefix| := d] == prefix + [d];
    Complement(Total(zero), d);
  }

  lemma Complement(total: nat, d: Digit)
    ensures (total + d) % 10 == 0 <==> d == (10 - total % 10) % 10
  {
  }

  /** The test card, eight times 42, is a valid number; so is any other such row. */
  lemma TestCardIsValid(n: nat)
    ensures |FourTwo(n)| == 2 * n && Valid(FourTwo(n))
  {
    FourTwos(n);
  }

  /** So is the card that is always declined, a 4 and a 2 with fourteen zeros, or any even number, between them. */
  lemma DeclinedCardIsValid(n: nat)
    requires n % 2 == 0
    ensures |Zeros(n)| == n && Valid([4 as Digit] + (Zeros(n) + [2]))
  {
    ZerosAndTwo(n);
    var tail := Zeros(n) + [2];
    assert ([4 as Digit] + tail)[1..] == tail;
    assert |tail| == n + 1 && (n + 1) % 2 == 1;
    assert Weight(4, n + 1) == 8;
    assert Total([4 as Digit] + tail) == 8 + Total(tail);
  }

  function FourTwo(n: nat): seq<Digit> { if n == 0 then [] else [4 as Digit, 2] + FourTwo(n - 1) }

  lemma {:induction false} FourTwos(n: nat)
    ensures |FourTwo(n)| == 2 * n && Total(FourTwo(n)) == 10 * n
  {
    if n > 0 {
      FourTwos(n - 1);
      assert FourTwo(n)[1..] == [2] + FourTwo(n - 1) && FourTwo(n)[1..][1..] == FourTwo(n - 1);
    }
  }

  function Zeros(n: nat): seq<Digit> { if n == 0 then [] else [0 as Digit] + Zeros(n - 1) }

  lemma {:induction false} ZerosAndTwo(n: nat)
    ensures |Zeros(n)| == n && Total(Zeros(n) + [2]) == 2
  {
    if n == 0 {
      assert Zeros(0) + [2] == [2];
    } else {
      ZerosAndTwo(n - 1);
      assert (Zeros(n) + [2])[1..] == Zeros(n - 1) + [2];
    }
  }
}
