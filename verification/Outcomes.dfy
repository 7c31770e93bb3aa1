/** What one submission attempt told us (app/services/xrpl_service.py:57-262). */
module Outcomes {
  import opened Wrappers

  datatype Resolution = Succeeded | Failed | Unknown | NotSubmitted

  const SUCCESS := "tesSUCCESS"
  const FAILED_PREFIX := "Transaction failed: "

  datatype XrplResult = XrplResult(success: bool, code: string, txHash: Option<nat>, outcome: Option<Resolution>) {
    /** An unset outcome is inferred conservatively. */
    function Resolution(): Resolution {
      if outcome.Some? then outcome.value
      else if success then Succeeded
      else if txHash.None? then NotSubmitted
      else Unknown
    }
  }

  /** A result that does not say what happened is never a proven failure, and may be retried only if unsigned. */
  lemma UnsetOutcomeIsConservative(x: XrplResult)
    ensures x.outcome.Some? ==> x.Resolution() == x.outcome.value
    ensures x.outcome.None? ==>
              && (x.Resolution().Succeeded? <==> x.success)
              && (x.Resolution().NotSubmitted? <==> !x.success && x.txHash.None?)
              && !x.Resolution().Failed?
  {
  }

  predicate IsLower(c: char) { 'a' <= c <= 'z' }
  predicate IsUpper(c: char) { 'A' <= c <= 'Z' }
  predicate IsCodeTail(s: string) { forall k :: 0 <= k < |s| ==> IsUpper(s[k]) || s[k] == '_' }

  /** Three lower-case letters, an upper-case one, then upper-case letters and underscores. */
  predicate IsCode(s: string) {
    4 <= |s| && IsLower(s[0]) && IsLower(s[1]) && IsLower(s[2]) && IsUpper(s[3]) && IsCodeTail(s[4..])
  }

  predicate IsMalformedCode(s: string) {
    4 <= |s| && s[..3] == "tem" && IsCodeTail(s[3..])
  }

  /** The code of a validated failure; a final newline is tolerated, as `$` does. */
  function ValidatedFailure(text: string): Option<string> {
    if !(FAILED_PREFIX <= text) then None
    else
      var rest := text[|FAILED_PREFIX|..];
      var code := if rest != "" && rest[|rest| - 1] == '\n' then rest[..|rest| - 1] else rest;
      if IsCode(code) then Some(code) else None
  }

  /** How far the run of code characters starting at `i` reaches. */
  function RunEnd(text: string, i: nat): (e: nat)
    requires i <= |text|
    ensures i <= e <= |text|
    ensures forall k :: i <= k < e ==> IsUpper(text[k]) || text[k] == '_'
    ensures e < |text| ==> !IsUpper(text[e]) && text[e] != '_'
    decreases |text| - i
  {
    if i < |text| && (IsUpper(text[i]) || text[i] == '_') then RunEnd(text, i + 1) else i
  }

  /** The code of a blob the server rejected outright. */
  function Malformed(text: string): Option<string> {
    if !("tem" <= text) then None
    else
      var e := RunEnd(text, 3);
      if 3 < e < |text| && text[e] == ':' then Some(text[..e]) else None
  }

  predicate Contains(text: string, part: string) {
    exists k :: 0 <= k <= |text| - |part| && StandsAt(text, part, k)
  }

  predicate StandsAt(text: string, part: string, k: int)
    requires 0 <= k <= |text| - |part|
  {
    text[k..k + |part|] == part
  }

  /** Maps a submission exception to what may be done next; `reliable` is its type test. */
  function Classify(reliable: bool, text: string): (Resolution, string) {
    if !reliable then (Unknown, "submission_error")
    else if ValidatedFailure(text).Some? then (Failed, ValidatedFailure(text).value)
    else if Malformed(text).Some? then (Failed, Malformed(text).value)
    else if Contains(text, "LastLedgerSequence") then (Unknown, "submission_timeout")
    else (Unknown, "submission_error")
  }

  // ---------------------------------------------------------------- what FAILED means

  ghost predicate SaysValidatedFailure(text: string, code: string) {
    IsCode(code) && (text == FAILED_PREFIX + code || text == FAILED_PREFIX + code + "\n")
  }

  ghost predicate SaysMalformed(text: string, code: string) {
    IsMalformedCode(code) && exists rest: string :: text == code + ":" + rest
  }

  lemma ValidatedFailureExactly(text: string, code: string)
    ensures SaysValidatedFailure(text, code) <==> ValidatedFailure(text) == Some(code)
  {
    if SaysValidatedFailure(text, code) {
      var rest := text[|FAILED_PREFIX|..];
      if text == FAILED_PREFIX + code {
        assert rest == code;
        if 4 < |code| { assert code[|code| - 1] == code[4..][|code| - 5]; }
      } else {
        assert rest == code + "\n";
        assert rest[..|rest| - 1] == code;
      }
    }
    if ValidatedFailure(text) == Some(code) {
      var rest := text[|FAILED_PREFIX|..];
      assert text == FAILED_PREFIX + rest;
      if rest != code { assert rest == code + "\n"; }
    }
  }

  lemma MalformedExactly(text: string, code: string)
    ensures SaysMalformed(text, code) <==> Malformed(text) == Some(code)
  {
    if SaysMalformed(text, code) {
      var rest: string :| text == code + ":" + rest;
      var n := |code|;
      assert text[..3] == code[..3];
      assert text[n] == ':';
      assert forall k :: 3 <= k < n ==> text[k] == code[3..][k - 3];
      assert RunEnd(text, 3) == n;
      assert text[..n] == code;
    }
    if Malformed(text) == Some(code) {
      var e := RunEnd(text, 3);
      assert text == code + ":" + text[e + 1..];
      assert code[..3] == "tem";
    }
  }

  /** FAILED is reported exactly for the two messages that prove no funds moved. */
  lemma FailedExactly(reliable: bool, text: string)
    ensures Classify(reliable, text).0.Failed?
       <==> reliable && exists code :: SaysValidatedFailure(text, code) || SaysMalformed(text, code)
    ensures Classify(reliable, text).0 in {Failed, Unknown}
  {
    if Classify(reliable, text).0.Failed? {
      var code := Classify(reliable, text).1;
      ValidatedFailureExactly(text, code);
      MalformedExactly(text, code);
      assert SaysValidatedFailure(text, code) || SaysMalformed(text, code);
    }
    if code :| reliable && (SaysValidatedFailure(text, code) || SaysMalformed(text, code)) {
      ValidatedFailureExactly(text, code);
      MalformedExactly(text, code);
    }
  }

  /** The two ways a message can start that may be proof of failure. */
  predicate StartsLikeProof(text: string) { FAILED_PREFIX <= text || "tem" <= text }

  /** A message that starts any other way proves nothing, whatever codes it quotes further on. */
  lemma QuotedCodeIsUnknown(reliable: bool, text: string)
    requires !StartsLikeProof(text)
    ensures Classify(reliable, text).0.Unknown?
  {
    FailedExactly(reliable, text);
    if Classify(reliable, text).0.Failed? { FailedStart(text); }
  }

  lemma FailedStart(text: string)
    requires Classify(true, text).0.Failed?
    ensures StartsLikeProof(text)
  {
    FailedExactly(true, text);
    var code :| SaysValidatedFailure(text, code) || SaysMalformed(text, code);
    if SaysMalformed(text, code) { assert text[..3] == code[..3] == "tem"; }
  }

  /** The deadline message of the reliable-submission client, whatever preliminary code it carries. */
  lemma TimeoutIsUnknown(ledger: string, last: string, preliminary: string)
    ensures Classify(true, "The latest ledger sequence " + ledger
              + " is greater than the transaction's LastLedgerSequence " + last
              + ". Prelim result: " + preliminary) == (Unknown, "submission_timeout")
  {
    var head := "The latest ledger sequence ";
    var middle := " is greater than the transaction's ";
    var tail := last + ". Prelim result: " + preliminary;
    var text := "The latest ledger sequence " + ledger
              + " is greater than the transaction's LastLedgerSequence " + last
              + ". Prelim result: " + preliminary;
    var k := |head + ledger + middle|;
    assert text == head + ledger + middle + "LastLedgerSequence" + (" " + tail);
    assert StandsAt(text, "LastLedgerSequence", k);
    assert text[0] == head[0] == 'T' && text[1] == head[1] == 'h';
    QuotedCodeIsUnknown(true, text);
  }
}
