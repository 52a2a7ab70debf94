/** How a reconciled retry leaves a receipt that stops every start-up pass: a process dies between
    saving its claim and marking its receipt as applying, the retry's probe finds a matching state that
    was not this key's doing and saves it as the result of the accepted receipt, and from then on
    neither the retry nor any pass can move that receipt. */
module PoisonedPass {
  import opened Options
  import opened Outcomes
  import opened EffectMachine
  import opened Traces
  import opened ReconcilePass
  import opened SettledStores

  /** An accepted receipt that already has a result, its task still pending. */
  predicate StrandedAt(d: Durable, id: ReceiptId) {
    && id in d.receipts && d.receipts[id].receipt.state == Accepted && ValidReceipt(d.receipts[id].receipt)
    && d.receipts[id].receipt.opId in d.results && d.receipts[id].receipt.opId in d.tasks
  }

  /** Such a receipt stops every pass whose page holds it, wherever it stands on the page, once its
      task is old enough. */
  lemma StrandedStopsPass(p: Pass, d: Durable, id: ReceiptId, page: seq<ReceiptId>)
    requires StrandedAt(d, id) && d.tasks[d.receipts[id].receipt.opId].updatedAt <= p.cutoff
    requires Sound(StoresOf(d)) && Distinct(page) && id in page && forall other :: other in page ==> other in d.receipts
    ensures Run(p, StoresOf(d), page, EMPTY).1.None?
  {
    hide Run;
    assert Poisoned(p, StoresOf(d), id);
    RunRaisesIff(p, StoresOf(d), page, EMPTY);
  }

  // ----- for ever -----

  /** The record waits for the stranded receipt, and whoever has read the receipt cannot move it. */
  predicate Trapped(s: State) {
    && s.d.record.Some? && s.d.record.value.state != Completed
    && var r := s.d.record.value;
       && StrandedAt(s.d, r.receiptId) && s.d.receipts[r.receiptId].receipt.opId == r.opId
       && (s.call.Some? ==> var pc := s.call.value.pc; pc.Probe? || pc.ProbeResult? || pc.ProbeReceipt?)
       && (s.startup.Some? && s.startup.value.receiptId == r.receiptId ==>
             && !s.startup.value.Tidying?
             && s.startup.value.env.receipt == s.d.receipts[r.receiptId].receipt
             && (s.startup.value.Planned? ==> s.startup.value.plan in {Defer, Validate}))
  }

  lemma TrappedNext(c: Config, s: State)
    requires c.keyed && Trapped(s) && NextEnabled(c, s)
    ensures
      var s' := NextAction(c, s);
      Trapped(s') && s'.h.returned == s.h.returned && s'.h.invocations == s.h.invocations
  {
    hide Attempt, AttemptTask, LadderTarget;
  }

  lemma TrappedSettle(s: State)
    requires Trapped(s) && SettleEnabled(s)
    ensures
      var s' := SettleAction(s);
      Trapped(s') && s'.h.returned == s.h.returned && s'.h.invocations == s.h.invocations
  {
    var r := s.d.record.value;
    assert s.startup.value.receiptId != r.receiptId;
  }

  lemma TrappedStep(c: Config, s: State, step: Step)
    requires c.keyed && c.reconciler == NeverMisses && Trapped(s) && Enabled(c, s, step)
    ensures
      var s' := Do(c, s, step);
      Trapped(s') && s'.h.returned == s.h.returned && s'.h.invocations == s.h.invocations
  {
    hide NextAction, NextEnabled, SettleAction, SettleEnabled;
    if step.Next? {
      TrappedNext(c, s);
    } else if step.Settle? {
      TrappedSettle(s);
    }
  }

  /** A trapped key stays trapped: no retry, crash, start-up pass, clock advance or change to a task
      completes its record or moves its receipt. */
  lemma {:induction false} TrappedForever(c: Config, s: State, steps: seq<Step>)
    requires c.keyed && c.reconciler == NeverMisses && Trapped(s) && Runs(c, s, steps)
    ensures
      var s' := After(c, s, steps);
      Trapped(s') && s'.h.returned == s.h.returned && s'.h.invocations == s.h.invocations
    decreases |steps|
  {
    hide Trapped, Enabled, Do;
    if steps != [] {
      TrappedStep(c, s, steps[0]);
      TrappedForever(c, Do(c, s, steps[0]), steps[1..]);
    }
  }

  /** It is reachable for every keyed caller with a reconciler, without the operation ever having been
      called. */
  lemma RetryStrandsReceipt(c: Config) returns (s: State)
    requires c.keyed && c.reconciler != Absent
    ensures Reachable(c, s) && StrandedAt(s.d, 0) && s.call.None? && s.h.invocations == 0
    ensures s.d.receipts[0].receipt.opId == 0 && s.d.tasks[0].updatedAt < s.now && Trapped(s)
  {
    hide Reachable;
    Start(c);
    s := EnterStep(c, INITIAL, 0, None, 0, 0, 0);
    s := OpenClaim(c, s);
    s := StopStep(c, s);
    s := TickStep(c, s, c.staleSeconds + 1);
    s := EnterStep(c, s, 0, None, 1, 1, 1);
    s := ProbedStep(c, s, Some(7));
    s := SaveFound(c, s);
    s := StopStep(c, s);
  }

  lemma SaveFound(c: Config, s: State) returns (s': State)
    requires Reachable(c, s) && s.call.Some? && s.call.value.pc.ProbeResult? && s.d.record.Some?
    ensures Reachable(c, s') && s'.call.Some? && s'.now == s.now && s'.h.invocations == s.h.invocations
    ensures s'.h.misled == s.h.misled
    ensures s'.startup == s.startup && s'.d == s.d.(results := s.d.results[s.d.record.value.opId := s.call.value.pc.v])
  {
    s' := Take(c, s, Next);
  }
}
