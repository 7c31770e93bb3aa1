/** Which remittances can still be delivered, and how: by the queue, by one retry, or not at all. */
module Delivery {
  import opened Wrappers
  import opened Outcomes
  import opened Xrpl
  import opened Rows
  import opened Machine
  import opened Invariant
  import opened Preservation
  import opened Guarantees
  import opened Progress

  // ---------------------------------------------------------------- one worker, everybody else alive

  /** Nobody's deadline is nearer than `k` microseconds. */
  predicate Slack(s: State, k: nat) { Timely(s.(now := s.now + k)) }

  /** Settlement worker `j` is on row `t` and early in its time. */
  predicate At(s: State, j: nat, t: nat) {
    && j in s.settlers && s.settlers[j].row == t < |s.db.transfers|
    && s.db.transfers[t].status.Processing? && s.db.transfers[t].updatedAt <= s.now
  }

  predicate Ready(s: State, j: nat, t: nat) {
    && At(s, j, t) && s.settlers[j].phase.Claimed?
    && var u := s.db.transfers[t].recipient;
       u in s.db.wallets && s.db.wallets[u].trustSet && u in s.ledger.balances
  }

  /** Everything that another actor could notice, apart from row `t`, the wallet and the new transaction. */
  predicate Undisturbed(s: State, v: State, t: nat) {
    && v.db.requests == s.db.requests && v.burners == s.burners && v.admins == s.admins
    && v.publishing == s.publishing && v.published == s.published && v.deaths == s.deaths
    && t < |s.db.transfers| == |v.db.transfers| && v.db.transfers == s.db.transfers[t := v.db.transfers[t]]
    && v.db.transfers[t].recipient == s.db.transfers[t].recipient && v.db.transfers[t].quote == s.db.transfers[t].quote
    && s.ledger.index <= v.ledger.index && s.ledger.txs <= v.ledger.txs
  }

  predicate Others(s: State, v: State, j: nat) {
    v.settlers - {j} == s.settlers - {j}
  }

  lemma Claims(s: State, j: nat, t: nat, k: nat)
    requires j !in s.settlers && t < |s.db.transfers| && PayClaimable(s.db.transfers[t]) && Fresh(s, t)
             && Slack(s, k) && k < STUCK_AFTER
    ensures SettleEnabled(s, j, PayClaim(t))
    ensures var v := SettleStep(s, j, PayClaim(t));
            && At(v, j, t) && v.settlers[j].phase.Claimed? && Undisturbed(s, v, t) && Others(s, v, j) && Slack(v, k)
            && v.now == s.now && v.ledger == s.ledger && v.db.transfers[t].hash.None? && v.db.wallets == s.db.wallets
  {
  }

  lemma Provides(s: State, j: nat, t: nat, k: nat)
    requires At(s, j, t) && s.settlers[j].phase.Claimed? && s.db.wallets.Keys == s.ledger.balances.Keys && Slack(s, k)
    ensures SettleEnabled(s, j, Provision(true))
    ensures var v := SettleStep(s, j, Provision(true));
            && Ready(v, j, t) && Undisturbed(s, v, t) && v.settlers == s.settlers && Slack(v, k)
            && v.now == s.now && v.ledger.txs == s.ledger.txs && v.db.transfers == s.db.transfers
            && v.db.wallets.Keys == v.ledger.balances.Keys
  {
  }

  lemma TakesNow(p: Params, s: State, j: nat, t: nat, k: nat) returns (run: seq<Action>, v: State)
    requires j !in s.settlers && t < |s.db.transfers| && PayClaimable(s.db.transfers[t]) && Fresh(s, t)
    requires Slack(s, k) && k < STUCK_AFTER && s.db.wallets.Keys == s.ledger.balances.Keys
    ensures Play(p, s, run) == Some(v) && Ready(v, j, t) && Undisturbed(s, v, t) && Others(s, v, j) && Slack(v, k)
    ensures v.now == s.now && v.ledger.txs == s.ledger.txs && v.db.transfers[t].hash.None?
    ensures v.db.wallets.Keys == v.ledger.balances.Keys
  {
    Claims(s, j, t, k);
    var u := SettleStep(s, j, PayClaim(t));
    Provides(u, j, t, k);
    v := SettleStep(u, j, Provision(true));
    TwoSteps(p, s, Settler(j, PayClaim(t)), u, Settler(j, Provision(true)), v);
    run := [Settler(j, PayClaim(t))] + [Settler(j, Provision(true))];
  }

  lemma Takes(p: Params, s: State, j: nat, t: nat, k: nat) returns (run: seq<Action>, v: State)
    requires j !in s.settlers && t < |s.db.transfers| && PayClaimable(s.db.transfers[t])
    requires Slack(s, k) && 0 < k < STUCK_AFTER
    requires s.db.transfers[t].updatedAt <= s.now && s.db.wallets.Keys == s.ledger.balances.Keys
    ensures Play(p, s, run) == Some(v) && Ready(v, j, t) && Undisturbed(s, v, t) && Others(s, v, j) && Slack(v, k - 1)
    ensures v.now == s.now + 1 && v.ledger.txs == s.ledger.txs && v.db.transfers[t].hash.None?
    ensures v.db.wallets.Keys == v.ledger.balances.Keys
  {
    var u, rest;
    run, u := Then(p, s, [], s, World(Tick(1)));
    rest, v := TakesNow(p, u, j, t, k - 1);
    PlayAppend(p, s, run, rest);
    run := run + rest;
  }

  /** The worker signed and persisted, and perhaps sent, a payment that the next ledger may include. */
  predicate Prepared(s: State, j: nat, t: nat, h: nat, sent: bool) {
    && At(s, j, t) && h < |s.ledger.txs| && s.db.transfers[t].hash == Some(h)
    && s.settlers[j].phase == (if sent then Sent(h) else Persisted(h))
    && s.ledger.txs[h] ==
       PayTx(t, s.db.transfers[t], s.ledger.index, Some(s.ledger.index + 20), false).(sent := sent)
  }

  predicate Sending(s: State, j: nat, t: nat, h: nat) { Prepared(s, j, t, h, true) }

  lemma Persists(s: State, j: nat, t: nat, k: nat)
    requires Ready(s, j, t) && Fresh(s, t) && Slack(s, k)
    ensures SettleEnabled(s, j, PayPersist(s.ledger.index, Some(s.ledger.index + 20), false))
    ensures var v := SettleStep(s, j, PayPersist(s.ledger.index, Some(s.ledger.index + 20), false));
            var h := |s.ledger.txs|;
            && Prepared(v, j, t, h, false) && v.ledger.txs[..h] == s.ledger.txs && |v.ledger.txs| == h + 1
            && Undisturbed(s, v, t) && Others(s, v, j) && Slack(v, k) && v.now == s.now
            && v.ledger.balances == s.ledger.balances && v.db.wallets == s.db.wallets
  {
  }

  lemma Submits(s: State, j: nat, t: nat, h: nat, k: nat)
    requires Prepared(s, j, t, h, false) && Slack(s, k)
    ensures SettleEnabled(s, j, PaySend)
    ensures var v := SettleStep(s, j, PaySend);
            && Sending(v, j, t, h) && v.ledger.txs == s.ledger.txs[h := v.ledger.txs[h]] && v.db == s.db
            && v == s.(ledger := v.ledger, settlers := v.settlers) && Others(s, v, j) && Slack(v, k)
            && v.ledger == s.ledger.(txs := v.ledger.txs)
  {
  }

  lemma SignsNow(p: Params, s: State, j: nat, t: nat, k: nat) returns (run: seq<Action>, v: State)
    requires Ready(s, j, t) && Fresh(s, t) && Slack(s, k)
    ensures var h := |s.ledger.txs|;
            && Play(p, s, run) == Some(v) && Sending(v, j, t, h)
            && v.ledger.txs[..h] == s.ledger.txs && |v.ledger.txs| == h + 1
    ensures Undisturbed(s, v, t) && Others(s, v, j) && Slack(v, k) && v.now == s.now
    ensures v.db.wallets == s.db.wallets && v.ledger.balances == s.ledger.balances
  {
    var a, b := Settler(j, PayPersist(s.ledger.index, Some(s.ledger.index + 20), false)), Settler(j, PaySend);
    Persists(s, j, t, k);
    var u := SettleStep(s, j, a.p);
    Submits(u, j, t, |s.ledger.txs|, k);
    v := SettleStep(u, j, PaySend);
    TwoSteps(p, s, a, u, b, v);
    run := [a] + [b];
  }

  lemma Signs(p: Params, s: State, j: nat, t: nat, k: nat) returns (run: seq<Action>, v: State)
    requires Ready(s, j, t) && Slack(s, k) && 0 < k
    ensures var h := |s.ledger.txs|;
            && Play(p, s, run) == Some(v) && Sending(v, j, t, h)
            && v.ledger.txs[..h] == s.ledger.txs && |v.ledger.txs| == h + 1
    ensures Undisturbed(s, v, t) && Others(s, v, j) && Slack(v, k - 1) && v.now == s.now + 1
    ensures v.db.wallets == s.db.wallets && v.ledger.balances == s.ledger.balances
  {
    var u, rest;
    run, u := Then(p, s, [], s, World(Tick(1)));
    rest, v := SignsNow(p, u, j, t, k - 1);
    PlayAppend(p, s, run, rest);
    run := run + rest;
  }

  lemma Lands(p: Params, s: State, j: nat, t: nat, h: nat) returns (run: seq<Action>, v: State)
    requires Sending(s, j, t, h) && s.db.transfers[t].recipient in s.ledger.balances
    ensures Play(p, s, run) == Some(v) && h < |v.ledger.txs| && Success(v.ledger.txs[h])
    ensures v == s.(ledger := v.ledger) && v.ledger.index == s.ledger.index + 1 && |v.ledger.txs| == |s.ledger.txs|
    ensures v.ledger.txs == s.ledger.txs[h := v.ledger.txs[h]] && v.ledger.txs[h].purpose == s.ledger.txs[h].purpose
    ensures v.ledger.balances.Keys == s.ledger.balances.Keys
  {
    var u := s;
    run, u := Then(p, s, [], u, World(CloseLedger));
    run, v := Then(p, s, run, u, World(Include(h, SUCCESS)));
  }

  lemma Completes(p: Params, s: State, j: nat, t: nat, h: nat, k: nat) returns (run: seq<Action>, v: State)
    requires At(s, j, t) && s.settlers[j].phase == Sent(h) && h < |s.ledger.txs| && Success(s.ledger.txs[h])
             && Slack(s, k) && 0 < k
    ensures Play(p, s, run) == Some(v) && Undisturbed(s, v, t) && v.settlers == s.settlers - {j} && v.now == s.now + 1
    ensures v.db.transfers[t].status.Settled? && v.ledger == s.ledger
  {
    var u := s;
    run, u := Then(p, s, [], u, World(Tick(1)));
    run, v := Then(p, s, run, u, Settler(j, PayResult(Succeeded)));
  }

  /** A claimed and provided row is signed for, and its payment validated in the next ledger. */
  lemma SignedLands(p: Params, s: State, j: nat, t: nat, k: nat) returns (run: seq<Action>, v: State)
    requires Ready(s, j, t) && Slack(s, k) && 0 < k
    ensures var h := |s.ledger.txs|;
            && Play(p, s, run) == Some(v) && |v.ledger.txs| == h + 1 && v.ledger.txs[..h] == s.ledger.txs
            && v.ledger.txs[h].purpose == Purpose.Pay(t) && Success(v.ledger.txs[h])
            && At(v, j, t) && v.settlers[j].phase == Sent(h)
    ensures Undisturbed(s, v, t) && Others(s, v, j) && Slack(v, k - 1) && v.now == s.now + 1
    ensures v.db.wallets == s.db.wallets && v.ledger.balances.Keys == s.ledger.balances.Keys
  {
    var u;
    run, u := Signs(p, s, j, t, k);
    var rest;
    rest, v := Lands(p, u, j, t, |s.ledger.txs|);
    PlayAppend(p, s, run, rest);
    run := run + rest;
  }

  lemma UndisturbedTwice(s: State, u: State, v: State, t: nat)
    requires Undisturbed(s, u, t) && Undisturbed(u, v, t)
    ensures Undisturbed(s, v, t)
  {
  }

  lemma JobGone(jobs: map<nat, Job>, mid: map<nat, Job>, last: map<nat, Job>, j: nat)
    requires j !in jobs && mid - {j} == jobs - {j} && last - {j} == mid - {j}
    ensures last - {j} == jobs
  {
    assert jobs - {j} == jobs;
  }

  lemma ReadyIsDelivered(p: Params, s: State, j: nat, t: nat) returns (run: seq<Action>, v: State)
    requires Ready(s, j, t) && Slack(s, 2)
    ensures Play(p, s, run) == Some(v) && Undisturbed(s, v, t) && Others(s, v, j) && j !in v.settlers
    ensures v.now == s.now + 2 && v.db.transfers[t].status.Settled?
  {
    var w, rest;
    run, w := SignedLands(p, s, j, t, 2);
    rest, v := Completes(p, w, j, t, |s.ledger.txs|, 1);
    UndisturbedTwice(s, w, v, t);
    PlayAppend(p, s, run, rest);
    run := run + rest;
  }

  /**
   A queued settlement can be claimed, signed, submitted, validated and completed, in three
   microseconds of the clock, whoever else is alive and without disturbing them.
  */
  lemma QueuedIsDelivered(p: Params, s: State, j: nat, t: nat) returns (run: seq<Action>, v: State)
    requires Inv(s) && t < |s.db.transfers| && s.db.transfers[t].status.Queued? && j !in s.settlers && Slack(s, 3)
    ensures Play(p, s, run) == Some(v) && Undisturbed(s, v, t) && v.settlers == s.settlers && v.now == s.now + 3
    ensures v.db.transfers[t].status.Settled?
  {
    assert TransferOk(t, s.db.transfers[t], s.db.wallets, s.ledger, s.now);
    var u, rest;
    run, u := Takes(p, s, j, t, 3);
    rest, v := ReadyIsDelivered(p, u, j, t);
    UndisturbedTwice(s, u, v, t);
    JobGone(s.settlers, u.settlers, v.settlers, j);
    assert v.settlers - {j} == v.settlers;
    PlayAppend(p, s, run, rest);
    run := run + rest;
  }

  // ---------------------------------------------------------------- one retry, everybody else alive

  /** A validated payment of a failed or stuck settlement is credited, in full, by one admin retry. */
  lemma RetryCredits(p: Params, s: State, j: nat, t: nat, h: nat) returns (run: seq<Action>, s': State)
    requires Inv(s) && AdminEnabled(s, j, RetryRead(t)) && Fresh(s, t)
    requires h < |s.ledger.txs| && s.ledger.txs[h].purpose == Purpose.Pay(t) && Success(s.ledger.txs[h])
    ensures Play(p, s, run) == Some(s') && s'.now == s.now && t < |s'.db.transfers|
            && s'.db.transfers[t].status.Settled?
    ensures var x := s.db.transfers[t];
            && x.recipient in s.db.wallets && x.recipient in s'.db.wallets
            && s'.db.wallets[x.recipient].balance == s.db.wallets[x.recipient].balance + x.quote.uctusd
  {
    LandedIsLive(s, t, h);
    assert TransferOk(t, s.db.transfers[t], s.db.wallets, s.ledger, s.now);
    var u;
    run, u := Then(p, s, [], s, Administrator(j, RetryRead(t)));
    run, u := Then(p, s, run, u, Administrator(j, RetryLook(FullView(s.ledger), Some(SUCCESS))));
    run, s' := Then(p, s, run, u, Administrator(j, RetryCommit));
  }

  /** The ledger has given, or can no longer give, the row's payment: a retry finds it dead. */
  predicate Retirable(x: Transfer, l: Ledger) {
    x.hash.Some? ==>
      x.hash.value < |l.txs| && !Success(l.txs[x.hash.value])
      && (l.txs[x.hash.value].fate.Open? ==> x.last.Some? && x.last.value < l.index)
  }

  /** What a server with full history answers about the row's payment. */
  function AnswerFor(x: Transfer, l: Ledger): Option<string> {
    if x.hash.Some? && x.hash.value < |l.txs| && l.txs[x.hash.value].fate.Included?
    then Some(l.txs[x.hash.value].fate.code) else None
  }

  lemma RetryLooksDead(s: State, j: nat, t: nat)
    requires Inv(s) && t < |s.db.transfers| && Retirable(s.db.transfers[t], s.ledger)
    requires j in s.admins && s.admins[j] == PaySeen(t, s.db.transfers[t])
    ensures var look := RetryLook(FullView(s.ledger), AnswerFor(s.db.transfers[t], s.ledger));
            AdminEnabled(s, j, look) && AdminStep(s, j, look)
                == s.(admins := s.admins[j := PayDead(t, s.db.transfers[t])])
  {
    var x := s.db.transfers[t];
    assert TransferOk(t, x, s.db.wallets, s.ledger, s.now);
    if x.hash.Some? && x.last.Some? && x.submitted.Some? && x.last.value < s.ledger.index {
      FullViewCovers(s.ledger, x.submitted.value, x.last.value);
    }
  }

  lemma ResendCommits(s: State, j: nat, t: nat)
    requires Fresh(s, t) && j in s.admins && s.admins[j] == PayDead(t, s.db.transfers[t])
    ensures AdminEnabled(s, j, RetryCommit)
    ensures var v := AdminStep(s, j, RetryCommit);
            && v == s.(db := v.db, admins := s.admins - {j}) && v.db.requests == s.db.requests
            && |v.db.transfers| == |s.db.transfers| && v.db.transfers[t].status.Queued?
  {
  }

  /** A failed or stuck row whose attempt is dead, or was never signed, is queued again by one retry. */
  lemma Resends(p: Params, s: State, j: nat, t: nat) returns (run: seq<Action>, v: State)
    requires Inv(s) && AdminEnabled(s, j, RetryRead(t)) && Fresh(s, t) && Retirable(s.db.transfers[t], s.ledger)
    ensures Play(p, s, run) == Some(v) && Inv(v) && t < |v.db.transfers| && v.db.transfers[t].status.Queued?
    ensures v == s.(db := v.db) && v.db.requests == s.db.requests && |v.db.transfers| == |s.db.transfers|
  {
    var u;
    run, u := Then(p, s, [], s, Administrator(j, RetryRead(t)));
    RunKeepsInv(p, s, run);
    RetryLooksDead(u, j, t);
    run, u := Then(p, s, run, u,
        Administrator(j, RetryLook(FullView(u.ledger), AnswerFor(u.db.transfers[t], u.ledger))));
    ResendCommits(u, j, t);
    run, v := Then(p, s, run, u, Administrator(j, RetryCommit));
    RunKeepsInv(p, s, run);
    PageGone(s.admins, j, PaySeen(t, s.db.transfers[t]), PayDead(t, s.db.transfers[t]));
  }

  lemma PageGone(pages: map<nat, Admin>, j: nat, a: Admin, b: Admin)
    requires j !in pages
    ensures pages[j := a][j := b] - {j} == pages
  {
  }

  // ---------------------------------------------------------------- exactly which remittances can be completed

  /** A live settlement worker has signed for row `t`. */
  predicate Held(s: State, t: nat) {
    exists j :: j in s.settlers && s.settlers[j].row == t && !s.settlers[j].phase.Claimed?
  }

  /**
   A remittance can be completed unless its cash-in failed, or its payment was signed without a
   deadline, is in no ledger, and is malformed or neither sent nor with a live worker.
  */
  predicate CanComplete(s: State, t: nat) {
    t < |s.db.transfers| && !s.db.transfers[t].send.cashin.Declined? &&
    var x := s.db.transfers[t];
    x.hash.Some? ==>
      x.hash.value < |s.ledger.txs|
      && var y := s.ledger.txs[x.hash.value];
         y.fate.Included? || y.last.Some? || (!y.malformed && (y.sent || Held(s, t)))
  }

  ghost predicate Delivers(p: Params, s: State, run: seq<Action>, t: nat) {
    Play(p, s, run).Some? && t < |Play(p, s, run).value.db.transfers|
        && Play(p, s, run).value.db.transfers[t].status.Settled?
  }

  predicate InTrouble(s: State, t: nat) {
    t < |s.db.transfers| && (s.db.transfers[t].status.Unsettled? || s.db.transfers[t].status.Processing?)
  }

  lemma BecomesRetryable(p: Params, s: State, t: nat) returns (run: seq<Action>, v: State)
    requires Inv(s) && Quiet(s) && InTrouble(s, t)
    ensures Play(p, s, run) == Some(v) && Inv(v) && Quiet(v) && v == s.(now := v.now)
    ensures AdminEnabled(v, 0, RetryRead(t)) && Fresh(v, t)
  {
    assert TransferOk(t, s.db.transfers[t], s.db.wallets, s.ledger, s.now);
    run, v := Then(p, s, [], s, World(Tick(STUCK_AFTER + 1)));
    RunKeepsInv(p, s, run);
  }

  lemma DeadIsDelivered(p: Params, s: State, t: nat) returns (run: seq<Action>, v: State)
    requires Inv(s) && Quiet(s) && InTrouble(s, t) && Retirable(s.db.transfers[t], s.ledger)
    ensures Play(p, s, run) == Some(v) && t < |v.db.transfers| && v.db.transfers[t].status.Settled?
  {
    var u, rest;
    run, u := BecomesRetryable(p, s, t);
    rest, v := Resends(p, u, 0, t);
    PlayAppend(p, s, run, rest);
    run, u := run + rest, v;
    rest, v := QueuedIsDelivered(p, u, 0, t);
    PlayAppend(p, s, run, rest);
    run := run + rest;
  }

  lemma LandedIsDelivered(p: Params, s: State, t: nat, h: nat) returns (run: seq<Action>, v: State)
    requires Inv(s) && Quiet(s) && InTrouble(s, t)
    requires h < |s.ledger.txs| && s.ledger.txs[h].purpose == Purpose.Pay(t) && Success(s.ledger.txs[h])
    ensures Play(p, s, run) == Some(v) && t < |v.db.transfers| && v.db.transfers[t].status.Settled?
  {
    var u, rest;
    run, u := BecomesRetryable(p, s, t);
    rest, v := RetryCredits(p, u, 0, t, h);
    PlayAppend(p, s, run, rest);
    run := run + rest;
  }

  /** A payment that was sent can still be validated. */
  lemma SentIsDelivered(p: Params, s: State, t: nat) returns (run: seq<Action>, v: State)
    requires Inv(s) && Quiet(s) && InTrouble(s, t) && s.db.transfers[t].hash.Some?
    requires var h := s.db.transfers[t].hash.value;
             h < |s.ledger.txs| && var y := s.ledger.txs[h]; y.fate.Open? && y.last.None? && y.sent && !y.malformed
    ensures Play(p, s, run) == Some(v) && t < |v.db.transfers| && v.db.transfers[t].status.Settled?
  {
    var h := s.db.transfers[t].hash.value;
    assert TransferOk(t, s.db.transfers[t], s.db.wallets, s.ledger, s.now);
    var u, rest;
    run, u := LedgerAdvances(p, s, s.ledger.txs[h].submittedAt);
    run, u := Then(p, s, run, u, World(Include(h, SUCCESS)));
    RunKeepsInv(p, s, run);
    rest, v := LandedIsDelivered(p, u, t, h);
    PlayAppend(p, s, run, rest);
    run := run + rest;
  }

  lemma UnsettledIsDelivered(p: Params, s: State, t: nat) returns (run: seq<Action>, v: State)
    requires Inv(s) && Quiet(s) && InTrouble(s, t) && CanComplete(s, t)
    ensures Play(p, s, run) == Some(v) && t < |v.db.transfers| && v.db.transfers[t].status.Settled?
  {
    var x := s.db.transfers[t];
    assert TransferOk(t, x, s.db.wallets, s.ledger, s.now);
    if x.hash.Some? && Success(s.ledger.txs[x.hash.value]) {
      run, v := LandedIsDelivered(p, s, t, x.hash.value);
    } else if x.hash.Some? && s.ledger.txs[x.hash.value].fate.Open? && x.last.None? {
      run, v := SentIsDelivered(p, s, t);
    } else {
      var u, rest;
      run, u := LedgerAdvances(p, s, if x.last.Some? then x.last.value else 0);
      RunKeepsInv(p, s, run);
      rest, v := DeadIsDelivered(p, u, t);
      PlayAppend(p, s, run, rest);
      run := run + rest;
    }
  }

  /** A cash-in still waiting for its confirmation. */
  lemma PendingIsDelivered(p: Params, s: State, t: nat) returns (run: seq<Action>, v: State)
    requires Inv(s) && Quiet(s) && t < |s.db.transfers| && s.db.transfers[t].send.cashin.Pending?
    ensures Play(p, s, run) == Some(v) && t < |v.db.transfers| && v.db.transfers[t].status.Settled?
  {
    assert TransferOk(t, s.db.transfers[t], s.db.wallets, s.ledger, s.now);
    var u, rest;
    run, u := Then(p, s, [], s, World(Tick(1)));
    run, u := Then(p, s, run, u, CashInDesk(Receive(t)));
    RunKeepsInv(p, s, run);
    rest, v := QueuedIsDelivered(p, u, 0, t);
    PlayAppend(p, s, run, rest);
    run := run + rest;
  }

  lemma QuietIsDelivered(p: Params, s: State, t: nat) returns (run: seq<Action>, v: State)
    requires Inv(s) && Quiet(s) && CanComplete(s, t)
    ensures Play(p, s, run) == Some(v) && t < |v.db.transfers| && v.db.transfers[t].status.Settled?
  {
    var x := s.db.transfers[t];
    assert TransferOk(t, x, s.db.wallets, s.ledger, s.now);
    if x.status.Settled? { run, v := [], s; }
    else if x.status.Queued? { run, v := QueuedIsDelivered(p, s, 0, t); }
    else if x.status.NotQueued? { run, v := PendingIsDelivered(p, s, t); }
    else { run, v := UnsettledIsDelivered(p, s, t); }
  }

  lemma SendingIsEnough(s: State, j: nat, t: nat)
    requires Inv(s) && CanComplete(s, t) && SettlerAt(s, j) && s.settlers[j].row == t && s.settlers[j].phase.Persisted?
    ensures SettleEnabled(s, j, PaySend) && CanComplete(SettleStep(s, j, PaySend).(settlers := map[]), t)
  {
    assert PayJobOk(s.settlers[j], s.db.transfers, s.ledger);
  }

  /** A worker that has signed can at least send before it dies. */
  lemma HeldIsSent(p: Params, s: State, t: nat) returns (run: seq<Action>, v: State)
    requires Inv(s) && CanComplete(s, t)
    ensures Play(p, s, run) == Some(v) && Inv(v) && CanComplete(v.(settlers := map[]), t)
  {
    run, v := [], s;
    if Held(s, t) {
      var j :| j in s.settlers && s.settlers[j].row == t && !s.settlers[j].phase.Claimed?;
      assert PayJobOk(s.settlers[j], s.db.transfers, s.ledger);
      if s.settlers[j].phase.Persisted? {
        SendingIsEnough(s, j, t);
        run, v := Then(p, s, [], s, Settler(j, PaySend));
        RunKeepsInv(p, s, run);
      }
    }
  }

  lemma RemittanceIsDelivered(p: Params, s: State, t: nat) returns (run: seq<Action>, v: State)
    requires Inv(s) && CanComplete(s, t)
    ensures Play(p, s, run) == Some(v) && t < |v.db.transfers| && v.db.transfers[t].status.Settled?
  {
    var u, rest;
    run, u := HeldIsSent(p, s, t);
    rest, v := AllDie(p, u);
    PlayAppend(p, s, run, rest);
    run, u := run + rest, v;
    rest, v := QuietIsDelivered(p, u, t);
    PlayAppend(p, s, run, rest);
    run := run + rest;
  }

  /**
   From every reachable state, even if every process dies first, a remittance whose cash-in did not
   fail can still be completed: by its message if it is queued, by one admin retry if it failed or
   got stuck. Only a payment without a deadline that nobody sent, or that is malformed, cannot.
  */
  lemma NoRemittanceIsStranded(p: Params, before: seq<Action>, s: State, t: nat)
      returns (deaths: seq<Action>, s1: State, more: seq<Action>, v: State)
    requires Reaches(p, before, s) && CanComplete(s.(settlers := map[]), t)
    ensures Play(p, s, deaths) == Some(s1) && Quiet(s1) && s1.db == s.db && s1.ledger == s.ledger
    ensures Play(p, s1, more) == Some(v) && t < |v.db.transfers| && v.db.transfers[t].status.Settled?
  {
    RunKeepsInv(p, INIT, before);
    deaths, s1 := AllDie(p, s);
    more, v := QuietIsDelivered(p, s1, t);
  }
}
