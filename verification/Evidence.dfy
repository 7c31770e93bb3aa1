/** E5: how far a lookup and a later look at the ledger's range can be trusted together. */
module Evidence {
  import opened Wrappers
  import opened CompleteLedgers
  import opened Outcomes
  import opened Xrpl

  // ---------------------------------------------------------------- E5: one view for three reads

  /** `y` at index `later` is what `x` at index `index` may have become. */
  predicate Became(x: SignedTx, index: nat, y: SignedTx, later: nat) {
    && TxOk(x, index) && TxOk(y, later) && index <= later
    && y == x.(sent := y.sent, fate := y.fate)
    && (x.fate.Included? ==> y.fate == x.fate)
    && (x.fate.Open? && y.fate.Included? ==> index <= y.fate.at)
  }

  /** The lookup said "not found" under `early`; deadline and coverage were read later, under `late`. */
  predicate SplitReads(x: SignedTx, index: nat, early: View, y: SignedTx, later: nat, late: View) {
    Became(x, index, y, later) && Honest(x, index, early, None) && late.latest <= later
  }

  /** The three reads together still prove death, whatever the ledger did in between. */
  ghost predicate SplitProofSound(submitted: nat, last: nat, early: View, late: View) {
    forall x: SignedTx, index: nat, y: SignedTx, later: nat ::
      x.submittedAt == submitted && x.last == Some(last) && SplitReads(x, index, early, y, later, late) ==>
          Dead(y, later)
  }

  /**
   Reading the deadline and the coverage after the lookup is sound exactly when the server that
   answered the lookup had itself passed the deadline with full history (or the range is empty).
  */
  lemma SplitReadsExactly(submitted: nat, last: nat, early: View, late: View)
    requires ProvablyDead(Some(last), Some(submitted), late)
    ensures SplitProofSound(submitted, last, early, late)
       <==> last <= submitted
            || (last < early.latest && forall i :: submitted < i <= last ==> Reports(early.complete, i))
  {
    if last <= submitted || (last < early.latest && forall i :: submitted < i <= last ==> Reports(early.complete, i)) {
      forall x: SignedTx, index: nat, y: SignedTx, later: nat
        | x.submittedAt == submitted && x.last == Some(last) && SplitReads(x, index, early, y, later, late)
        ensures Dead(y, later)
      {
        NotFoundIsOpen(x, index, submitted, last, early);
      }
    } else if early.latest <= last {
      LateInclusion(submitted, last, early, late);
    } else {
      var i :| submitted < i <= last && !Reports(early.complete, i);
      HiddenInclusion(submitted, last, early, late, i);
    }
  }

  lemma NotFoundIsOpen(x: SignedTx, index: nat, submitted: nat, last: nat, early: View)
    requires x.submittedAt == submitted && x.last == Some(last) && TxOk(x, index) && Honest(x, index, early, None)
    requires last <= submitted
             || (last < early.latest && forall i :: submitted < i <= last ==> Reports(early.complete, i))
    ensures x.fate.Open?
  {
  }

  function Payment(submitted: nat, last: nat, fate: Fate): SignedTx {
    SignedTx(Purpose.Pay(0), 0, 1, submitted, Some(last), false, true, fate)
  }

  /** Validated in its last ledger, after the lookup and before the deadline was read. */
  lemma LateInclusion(submitted: nat, last: nat, early: View, late: View)
    requires submitted < last && early.latest <= last && last < late.latest
    ensures !SplitProofSound(submitted, last, early, late)
  {
    var x, y := Payment(submitted, last, Open), Payment(submitted, last, Included(last, SUCCESS));
    assert SplitReads(x, early.latest, early, y, late.latest, late) && !Dead(y, late.latest);
  }

  /** Validated in a ledger that the server answering the lookup did not hold. */
  lemma HiddenInclusion(submitted: nat, last: nat, early: View, late: View, i: nat)
    requires submitted < i <= last < early.latest && last < late.latest && !Reports(early.complete, i)
    ensures !SplitProofSound(submitted, last, early, late)
  {
    var x := Payment(submitted, last, Included(i, SUCCESS));
    var later := early.latest + late.latest;
    assert SplitReads(x, early.latest, early, x, later, late) && !Dead(x, later);
  }
}
