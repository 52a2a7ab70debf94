/** A retry that asks its caller before start-up reconciliation has looked at the receipt: when it
    completes the record, and when it makes a completable key a lost one. */
module StaleRetries {
  import opened Options
  import opened Outcomes
  import opened EffectMachine
  import opened Traces
  import opened ProbedRetry
  import opened CompletableKeys
  import opened HopelessKeys
  import opened ReclaimedKeys
  import opened Completion
  import opened LostKeys
  import StoreInvariant

  /** The call enters with the record's input and is told to ask. */
  predicate Asks(c: Config, s: State, enter: Step) {
    enter.Enter? && s.call.None? && Classify(c, s.d.record, enter.fingerprint, enter.opArg, s.now) == AskCaller
  }

  /** The call takes its own next actions as long as it can, at most `n`, and ends. */
  function Continued(c: Config, s: State, n: nat): State
    decreases n
  {
    if s.call.None? then s
    else if n == 0 || !NextEnabled(c, s) then Finish(s)
    else Continued(c, NextAction(c, s), n - 1)
  }

  /** What a retry whose probe answers `v` leaves: result, receipt, task, record, as far as it comes. */
  function Retried(c: Config, s: State, enter: Step, v: Value): State
    requires Asks(c, s, enter)
  {
    Continued(c, Do(c, EnterCall(c, s, enter), Probed(Some(v))), 4)
  }

  /** The retry up to its saved result. */
  lemma UpToResult(c: Config, s: State, enter: Step, v: Value) returns (s': State)
    requires c.keyed && Reachable(c, s) && Open(s) && s.startup.None? && Asks(c, s, enter)
    ensures Reachable(c, s') && StoreInvariant.Inv(c, s') && s'.call.Some? && s'.call.value.pc == ProbeReceipt(v)
    ensures s'.d == s.d.(results := s.d.results[s.d.record.value.opId := v]) && s'.startup.None? && s'.now == s.now && s'.h.returned == s.h.returned
    ensures Retried(c, s, enter, v) == Continued(c, s', 3)
  {
    hide Reachable;
    s' := EnterStep(c, s, enter.fingerprint, enter.opArg, enter.correlation, enter.freshOp, enter.freshReceipt);
    s' := ProbedStep(c, s', Some(v));
    s' := SavedStep(c, s', v);
    StoreInvariant.Holds(c, s');
  }

  lemma SavedStep(c: Config, s: State, v: Value) returns (s': State)
    requires Reachable(c, s) && s.call.Some? && s.call.value.pc == ProbeResult(v) && s.d.record.Some?
    ensures Reachable(c, s') && s'.call.Some? && s'.call.value.pc == ProbeReceipt(v)
    ensures s'.d == s.d.(results := s.d.results[s.d.record.value.opId := v])
    ensures s'.startup == s.startup && s'.now == s.now && s'.h.returned == s.h.returned
    ensures NextEnabled(c, s) && s' == NextAction(c, s)
  {
    s' := Take(c, s, Next);
  }

  /** The receipt is refused: the call ends with the result saved and nothing else. */
  lemma RefusedReceipt(c: Config, s: State) returns (s': State)
    requires Reachable(c, s) && s.call.Some? && s.call.value.pc.ProbeReceipt? && !NextEnabled(c, s)
    ensures s' == Continued(c, s, 3) == Finish(s) && Reachable(c, s')
  {
    s' := StopStep(c, s);
  }

  /** The receipt is validated, but its task is refused. */
  lemma RefusedTask(c: Config, s: State) returns (s': State)
    requires Reachable(c, s) && s.call.Some? && NextEnabled(c, s)
    requires NextAction(c, s).call.Some? && !NextEnabled(c, NextAction(c, s))
    ensures s' == Continued(c, s, 3) == Finish(NextAction(c, s)) && Reachable(c, s')
  {
    hide Reachable, NextEnabled, NextAction;
    s' := Take(c, s, Next);
    s' := StopStep(c, s');
  }

  /** Receipt, task and record are written. */
  lemma AllWritten(c: Config, s: State)
    requires NextEnabled(c, s) && NextEnabled(c, NextAction(c, s)) && NextEnabled(c, NextAction(c, NextAction(c, s)))
    ensures Continued(c, s, 3) == Continued(c, NextAction(c, NextAction(c, NextAction(c, s))), 0)
  {
    hide NextAction;
    assert s.call.Some? && NextAction(c, s).call.Some? && NextAction(c, NextAction(c, s)).call.Some?;
    hide NextEnabled;
    assert Continued(c, NextAction(c, s), 2) == Continued(c, NextAction(c, NextAction(c, s)), 1);
  }

  /** What the answered retry costs a key it does not complete. */
  predicate Loses(d: Durable, r: Record)
    requires Bound(d, r)
  {
    || !Completable(d, r) || d.receipts[r.receiptId].receipt.state != Applying
    || (!Reconcilable(d.tasks[r.opId], r.opId, r.receiptId) && d.tasks[r.opId].cancelRequested)
  }

  lemma ResultCosts(d: Durable, r: Record, v: Value)
    requires Bound(d, r) && d.receipts[r.receiptId].receipt.state !in {AppliedUnvalidated, AppliedValidated, Unknown}
    ensures
      var d' := d.(results := d.results[r.opId := v]);
      !CanComplete(d, r) && Bound(d', r) && (!Completable(d', r) <==> Loses(d, r))
  {
    hide Reconcilable;
  }

  lemma ReceiptCosts(d: Durable, d': Durable, r: Record)
    requires Bound(d, r) && d.receipts[r.receiptId].receipt.state in {AppliedUnvalidated, AppliedValidated, Unknown}
    requires Bound(d', r) && d'.receipts[r.receiptId].receipt.state == AppliedValidated && d'.tasks == d.tasks
    requires !Reconcilable(d.tasks[r.opId], r.opId, r.receiptId)
    ensures !CanComplete(d, r) && !Completable(d', r) && Loses(d, r)
  {
    hide Reconcilable;
  }

  /** A retry that asks, and is answered, before any start-up pass: it completes the record and returns
      the answer where the receipt and the task allow it.  Otherwise the key is lost afterwards exactly if
      it was lost before, its receipt is not applying, or cancellation was requested of a task the retry
      does not accept. */
  lemma RetryLosesIff(c: Config, s: State, enter: Step, v: Value)
    requires c.keyed && c.reconciler == NeverMisses && Waiting(c, s) && Asks(c, s, enter)
    ensures Bound(s.d, s.d.record.value)
    ensures
      var r, s' := s.d.record.value, Retried(c, s, enter, v);
      if CanComplete(s.d, r) then
        && s'.d.record == Some(r.(state := Completed, updatedAt := s.now, result := Some(PersistedForm(v))))
        && s'.call.None? && s'.h.returned == s.h.returned + [PersistedForm(v)]
      else
        Waiting(c, s') && s'.d.record == s.d.record && (Lost(c, s') <==> Loses(s.d, r))
  {
    WaitingIsBound(c, s);
    var r := s.d.record.value;
    var s1 := UpToResult(c, s, enter, v);
    ReceiptHalf(c, s1, v);
    hide Reachable, Lost, StoreInvariant.Inv, NextEnabled, NextAction, Reconcilable, Retried, Asks, Completable, Loses, Bound, Finishable;
    if !NextEnabled(c, s1) {
      var s' := RefusedReceipt(c, s1);
      ResultCosts(s.d, r, v);
      LostIff(c, s');
    } else {
      var s2 := NextAction(c, s1);
      TaskHalf(c, s2, v);
      if !NextEnabled(c, s2) {
        var s' := RefusedTask(c, s1);
        LostIff(c, s');
        ReceiptCosts(s.d, s'.d, r);
      } else {
        RecordHalf(c, NextAction(c, s2), v);
        AllWritten(c, s1);
      }
    }
  }

  // ----- both happen -----

  /** A crash after the result was saved, and before the record was completed, is completable until a
      stale retry comes before the start-up pass: the retry validates the receipt over a running task. */
  lemma RetryFirstLoses(c: Config) returns (before: State, enter: Step)
    requires c.keyed && c.reconciler == NeverMisses
    ensures Waiting(c, before) && !Lost(c, before) && before.h.effects == 1 && Asks(c, before, enter)
    ensures Lost(c, Retried(c, before, enter, 7))
  {
    hide Reachable, Lost;
    enter := Enter(0, None, 1, 1, 1);
    before := ReachUnvalidated(c);
    before := StopStep(c, before);
    before := TickStep(c, before, c.staleSeconds + 1);
    LostIff(c, before);
    RetryLosesIff(c, before, enter, 7);
  }

  /** A crash inside the operation, its effect applied, survives such a retry. */
  lemma RetryFirstSpares(c: Config) returns (before: State, enter: Step)
    requires c.keyed && c.reconciler == NeverMisses
    ensures Waiting(c, before) && before.h.effects == 1 && Asks(c, before, enter)
    ensures Waiting(c, Retried(c, before, enter, 7)) && !Lost(c, Retried(c, before, enter, 7))
  {
    hide Reachable, Lost;
    enter := Enter(0, None, 1, 1, 1);
    before := ReachEffect(c);
    before := StopStep(c, before);
    before := TickStep(c, before, c.staleSeconds + 1);
    LostIff(c, before);
    RetryLosesIff(c, before, enter, 7);
  }
}
