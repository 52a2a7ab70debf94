/** Keys that runs lose: reachable states whose undecided record no continuation completes. */
module LostKeys {
  import opened Options
  import opened Outcomes
  import opened EffectMachine
  import opened Traces
  import opened ProbedRetry
  import opened CompletableKeys
  import opened HopelessKeys
  import opened ReclaimedKeys
  import opened Completion
  import StoreInvariant

  /** Between calls and start-up passes, with the record in progress or uncertain. */
  ghost predicate Waiting(c: Config, s: State) {
    Reachable(c, s) && Open(s) && s.startup.None?
  }

  /** No fair continuation completes the record, whatever probes answer. */
  ghost predicate Lost(c: Config, s: State) {
    forall steps :: Runs(c, s, steps) && FairRun(false, c, s, steps) ==> !Done(After(c, s, steps).d)
  }

  lemma WaitingIsBound(c: Config, s: State)
    requires Waiting(c, s)
    ensures Bound(s.d, s.d.record.value)
  {
    StoreInvariant.Holds(c, s);
  }

  lemma LostIff(c: Config, s: State)
    requires c.keyed && Waiting(c, s)
    ensures Bound(s.d, s.d.record.value)
    ensures Lost(c, s) <==> !Finishable(false, c, s)
    ensures c.reconciler == NeverMisses ==> (Lost(c, s) <==> !Completable(s.d, s.d.record.value))
  {
    assert c.reconciler == NeverMisses && Bound(s.d, s.d.record.value) ==>
             (Finishable(false, c, s) <==> Completable(s.d, s.d.record.value)) by {
      hide Completable, Bound;
    }
    CompletesIff(false, c, s);
    hide Finishable, Bound, Waiting, FairRun;
    if Finishable(false, c, s) {
      var steps :| Runs(c, s, steps) && FairRun(false, c, s, steps) && Done(After(c, s, steps).d);
      assert !Lost(c, s);
    } else {
      forall steps | Runs(c, s, steps) && FairRun(false, c, s, steps)
        ensures !Done(After(c, s, steps).d)
      {
      }
    }
  }

  /** A result that was saved before its record was completed is lost exactly under these receipts and
      tasks. */
  lemma SavedResultIsLostIff(c: Config, s: State)
    requires c.keyed && c.reconciler == NeverMisses && Waiting(c, s) && s.d.record.value.opId in s.d.results
    ensures Bound(s.d, s.d.record.value)
    ensures
      var r := s.d.record.value;
      var state, t := s.d.receipts[r.receiptId].receipt.state, s.d.tasks[r.opId];
      Lost(c, s) <==>
        || state in {Accepted, FailedBeforeEffect, FailedAfterEffect, RolledBack}
        || (!Reconcilable(t, r.opId, r.receiptId) &&
              (state in {AppliedValidated, Unknown} || !Live(t.state) || t.cancelRequested))
  {
    LostIff(c, s);
    hide Lost, Waiting, Reconcilable;
  }

  /** A failed or rolled-back receipt under an undecided record is lost, also where its failure is
      advertised as safe to retry automatically. */
  lemma FailedIsLost(c: Config, s: State)
    requires c.keyed && c.reconciler == NeverMisses && Waiting(c, s)
    requires s.d.record.value.receiptId in s.d.receipts
    requires s.d.receipts[s.d.record.value.receiptId].receipt.state in {FailedBeforeEffect, FailedAfterEffect, RolledBack}
    ensures Lost(c, s)
  {
    LostIff(c, s);
  }

  /** A process that died before its effect leaves a key that no honest probe and no pass ever complete,
      and under which the operation is never called again. */
  lemma DiedBeforeEffectIsLost(c: Config, s: State, steps: seq<Step>)
    requires c.keyed && c.reconciler == NeverMisses && Waiting(c, s) && s.h.effects <= 0
    requires Runs(c, s, steps) && FairRun(true, c, s, steps)
    ensures !Done(After(c, s, steps).d) && Unmoved(s, After(c, s, steps))
  {
    StoreInvariant.Holds(c, s);
    WaitingIsBound(c, s);
    NeverCompletes(true, c, s, steps);
  }

  // ----- such states are reachable -----

  /** The process dies between saving its claim and marking its receipt as applying. */
  lemma DiesAfterClaim(c: Config) returns (s: State)
    requires c.keyed && c.reconciler == NeverMisses
    ensures Waiting(c, s) && Lost(c, s) && s.h.invocations == 0
    ensures s.d.receipts == map[0 := Envelope(NewReceipt(0), 1)] && s.d.results == map[]
    ensures s.d.tasks == map[0 := NewTask(0)] && s.d.record == Some(Record(InProgress, 0, 0, 0, None, 0, 0)) && s.now == 0
  {
    hide Reachable;
    Start(c);
    s := EnterStep(c, INITIAL, 0, None, 0, 0, 0);
    s := OpenClaim(c, s);
    s := StopStep(c, s);
    LostIff(c, s);
  }

  /** The next start-up pass then calls it failed before its effect, and it stays lost. */
  lemma StartupFailsIt(c: Config) returns (s: State)
    requires c.keyed && c.reconciler == NeverMisses
    ensures Waiting(c, s) && Lost(c, s) && 0 in s.d.receipts && s.d.receipts[0].receipt.state == FailedBeforeEffect
    ensures 0 in s.d.tasks && s.d.tasks[0].state == Failed && s.d.tasks[0].error == Some(FailedBeforeEffectCode)
  {
    hide Reachable, Lost;
    s := DiesAfterClaim(c);
    s := TickStep(c, s, c.staleSeconds);
    s := FailPass(c, s);
    FailedIsLost(c, s);
  }

  lemma FailPass(c: Config, s: State) returns (s': State)
    requires Reachable(c, s) && s.call.None? && s.startup.None? && s.d.results == map[] && s.now == c.staleSeconds
    requires s.d.receipts == map[0 := Envelope(NewReceipt(0), 1)] && s.d.tasks == map[0 := NewTask(0)]
    ensures Reachable(c, s') && s'.call.None? && s'.startup.None? && s'.d.record == s.d.record
    ensures 0 in s'.d.receipts && s'.d.receipts[0].receipt.state == FailedBeforeEffect
    ensures 0 in s'.d.tasks && s'.d.tasks[0].state == Failed && s'.d.tasks[0].error == Some(FailedBeforeEffectCode)
  {
    hide Reachable, NextEnabled, NextAction, SettleEnabled, SettleAction, TidyTask, TidyAction;
    s' := Take(c, s, Look(0));
    s' := Take(c, s', Judge(false, s'.now - c.staleSeconds));
    s' := FailReceipt(c, s');
    s' := FailTaskBefore(c, s');
  }

  lemma FailReceipt(c: Config, s: State) returns (s': State)
    requires Reachable(c, s) && s.d.receipts == map[0 := Envelope(NewReceipt(0), 1)]
    requires s.startup == Some(Planned(0, Envelope(NewReceipt(0), 1), FailBefore))
    ensures Reachable(c, s') && s'.call == s.call && s'.startup == Some(Tidying(0, 0, FailBefore))
    ensures s'.d.record == s.d.record && s'.d.tasks == s.d.tasks
    ensures 0 in s'.d.receipts && s'.d.receipts[0].receipt.state == FailedBeforeEffect
  {
    hide Reachable;
    s' := Take(c, s, Settle);
  }

  lemma FailTaskBefore(c: Config, s: State) returns (s': State)
    requires Reachable(c, s) && s.startup == Some(Tidying(0, 0, FailBefore)) && s.d.tasks == map[0 := NewTask(0)]
    ensures Reachable(c, s') && s'.call == s.call && s'.startup.None? && s'.d.record == s.d.record && s'.d.receipts == s.d.receipts
    ensures 0 in s'.d.tasks && s'.d.tasks[0].state == Failed && s'.d.tasks[0].error == Some(FailedBeforeEffectCode)
  {
    hide Reachable, NextStamp;
    s' := Take(c, s, Tidy);
  }

  /** An operation that recorded its authoritative result and then raised: the ladder saves the result,
      fails the receipt after its effect and completes the record.  Where the process dies before the
      receipt write the key can still be completed; where it dies after it, the saved result is never
      replayed. */
  lemma RecordedResultIsLost(c: Config) returns (before: State, s: State)
    requires c.keyed && c.reconciler == NeverMisses && c.hasBoundary
    ensures Waiting(c, before) && !Lost(c, before) && Waiting(c, s) && Lost(c, s)
    ensures s.d.record == before.d.record && s.d.results == before.d.results && s.d.tasks == before.d.tasks
    ensures 0 in s.d.results && s.d.record.value.opId == 0 && s.h.effects == before.h.effects == 1
  {
    hide Reachable, Lost;
    s := ReachEffect(c);
    s := Event(c, s, RecordResult(7));
    s := RaiseStep(c, s);
    s := LadderStep(c, s);
    s := AuthResultStep(c, s);
    before := StopStep(c, s);
    SavedResultIsLostIff(c, before);
    s := NextReceiptStep(c, s, Receipt(0, FailedAfterEffect, true, Some(0), Some(FailedAfterEffectCode)));
    s := StopStep(c, s);
    FailedIsLost(c, s);
  }

  lemma AuthResultStep(c: Config, s: State) returns (s': State)
    requires Reachable(c, s) && s.call.Some? && s.call.value.pc.AuthResult?
    ensures Reachable(c, s')
    ensures
      var call := s.call.value;
      s' == s.(d := s.d.(results := s.d.results[call.opId := call.pc.v]), call := Some(call.(pc := AuthReceipt(call.pc.v))))
  {
    s' := Take(c, s, Next);
  }

  /** Where the ladder has marked an outcome unknown, with its task, no start-up pass is needed. */
  lemma UnknownIsNotLost(c: Config) returns (s: State)
    requires c.keyed && c.reconciler == NeverMisses && c.hasBoundary
    ensures Waiting(c, s) && !Lost(c, s) && Bound(s.d, s.d.record.value) && CanComplete(s.d, s.d.record.value) && s.h.effects == 1
  {
    hide Reachable, Lost;
    s := ReachEffect(c);
    s := RaiseStep(c, s);
    s := LadderStep(c, s);
    s := NextReceiptStep(c, s, Receipt(0, Unknown, true, None, Some(OutcomeUnknownCode)));
    s := NextTaskStep(c, s, AttemptTask(s, s.call.value).value);
    s := StopStep(c, s);
    LostIff(c, s);
  }
}
