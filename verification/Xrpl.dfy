/**
 The XRP Ledger as the platform relies on it, and the evidence a server gives about it.

 `index` is the newest validated ledger. A hash is the position of a signed transaction
 in `txs`, the register of everything the platform ever signed and persisted.
*/
module Xrpl {
  import opened Wrappers
  import opened CompleteLedgers
  import opened Outcomes

  datatype Purpose = Burn(request: nat) | Pay(transfer: nat)
  datatype Fate = Open | Included(at: nat, code: string)

  datatype SignedTx = SignedTx(
    purpose: Purpose, account: nat, amount: int,
    submittedAt: nat,       // validated index read before signing
    last: Option<nat>,      // LastLedgerSequence
    malformed: bool,        // the server would refuse the blob (tem*)
    sent: bool, fate: Fate)

  datatype Ledger = Ledger(index: nat, txs: seq<SignedTx>, balances: map<nat, int>)

  predicate Success(x: SignedTx) { x.fate.Included? && x.fate.code == SUCCESS }
  predicate Rejected(x: SignedTx) { x.fate.Included? && x.fate.code != SUCCESS }

  /** Reliable transaction submission: only in (submittedAt, last], only once, only if well formed and sent. */
  predicate Includable(x: SignedTx, index: nat) {
    x.fate.Open? && x.sent && !x.malformed && x.submittedAt < index && (x.last.Some? ==> index <= x.last.value)
  }

  /** Moved nothing and never will: malformed, rejected by a validated ledger, or past its deadline. */
  predicate Dead(x: SignedTx, index: nat) {
    if x.fate.Open? then x.malformed || (x.last.Some? && x.last.value < index) else Rejected(x)
  }

  ghost predicate LedgerOk(l: Ledger) {
    forall h :: 0 <= h < |l.txs| ==> TxOk(l.txs[h], l.index)
  }

  predicate TxOk(x: SignedTx, index: nat) {
    && 0 < x.amount
    && (x.fate.Included? ==>
         x.sent && !x.malformed && x.submittedAt < x.fate.at <= index
         && (x.last.Some? ==> x.fate.at <= x.last.value))
  }

  // ---------------------------------------------------------------- evidence

  /** What one server reports: its newest validated ledger and its complete_ledgers text. */
  datatype View = View(latest: nat, complete: string)

  /**
   The lookup `answer` for `x` and the view come from one validated state of the ledger:
   a found result is the final one, and a transaction that is not found is in no ledger
   the server lists up to its newest.
  */
  predicate Honest(x: SignedTx, index: nat, view: View, answer: Option<string>) {
    && view.latest <= index
    && (answer.Some? ==> x.fate.Included? && x.fate.code == answer.value)
    && (answer.None? ==> !(x.fate.Included? && x.fate.at <= view.latest && Reports(view.complete, x.fate.at)))
  }

  /** The gate of a re-send, and of a restore after "not found". */
  predicate ProvablyDead(last: Option<nat>, submitted: Option<nat>, view: View) {
    && last.Some? && submitted.Some?
    && last.value < view.latest
    && HasCompleteRange(view.complete, submitted.value, last.value)
  }

  datatype Verdict = Moved | NeverMoved | Unresolved

  /** How reconcile reads the evidence. */
  function ReconcileVerdict(last: Option<nat>, submitted: Option<nat>, view: View, answer: Option<string>): Verdict {
    if answer == Some(SUCCESS) then Moved
    else if answer.Some? then NeverMoved
    else if ProvablyDead(last, submitted, view) then NeverMoved
    else Unresolved
  }

  /** Not found, past the deadline, full history: the transaction is in no ledger. */
  lemma DeathProofSound(x: SignedTx, index: nat, view: View)
    requires TxOk(x, index) && Honest(x, index, view, None)
    requires ProvablyDead(x.last, Some(x.submittedAt), view)
    ensures x.fate.Open? && Dead(x, index)
  {
    if x.fate.Included? {
      CoverageReportsEveryLedger(view.complete, x.submittedAt, x.last.value, x.fate.at);
    }
  }

  /** Dead is for ever: at no later index, sent or not, can it be included. */
  lemma DeadIsForever(x: SignedTx, index: nat, later: nat, sent: bool)
    requires Dead(x, index) && index <= later
    ensures Dead(x.(sent := sent), later) && !Includable(x.(sent := sent), later) && !Success(x)
  {
  }

  /** Either verdict of reconcile is the ledger's own final answer. */
  lemma VerdictSound(x: SignedTx, index: nat, view: View, answer: Option<string>)
    requires TxOk(x, index) && Honest(x, index, view, answer)
    ensures match ReconcileVerdict(x.last, Some(x.submittedAt), view, answer)
            case Moved => Success(x)
            case NeverMoved => Dead(x, index)
            case Unresolved => true
  {
    if answer.None? && ProvablyDead(x.last, Some(x.submittedAt), view) { DeathProofSound(x, index, view); }
  }

  /** With the deadline passed and the range held, reconcile always decides. */
  lemma VerdictComplete(x: SignedTx, view: View, answer: Option<string>)
    requires ProvablyDead(x.last, Some(x.submittedAt), view)
    ensures !ReconcileVerdict(x.last, Some(x.submittedAt), view, answer).Unresolved?
    ensures answer == Some(SUCCESS) <==> ReconcileVerdict(x.last, Some(x.submittedAt), view, answer).Moved?
  {
  }
}
