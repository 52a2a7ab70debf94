/** When a completed record holds the result that is saved for its operation: in every reachable state
    exactly for callers without an effect boundary.  With one, an operation may record one value and
    return another, and the ladder saves the recorded one over a record completed with the other. */
module MatchingRecords {
  import opened Options
  import opened Outcomes
  import opened EffectMachine
  import opened Traces
  import opened Provenance
  import StoreInvariant

  /** The outcome is still open here. */
  predicate Early(pc: Pc) {
    || Probing(pc) || pc.CreateTask? || pc.CreateReceipt? || pc.SaveClaim? || pc.MarkApplying? || pc.BeginTask? || pc.Gate?
    || pc.InOperation? || pc.SaveResult? || pc.MarkUnvalidated? || pc.CommitDurable?
  }

  predicate Authoritative(pc: Pc) {
    pc.AuthResult? || pc.AuthReceipt? || pc.AuthTask? || pc.AuthCommit?
  }

  predicate CallMatches(d: Durable, call: Call) {
    && (Early(call.pc) ==> !Done(d))
    && !Authoritative(call.pc) && call.boundary.authoritative.None? && !call.boundary.started
  }

  predicate Inv(s: State) {
    Matches(s.d) && (s.call.Some? ==> CallMatches(s.d, s.call.value))
  }

  lemma ReceiptKeeps(c: Config, s: State, r: Receipt)
    requires c.keyed && Inv(s) && s.call.Some? && ReceiptPc(s.call.value.pc)
    ensures Inv(WriteReceipt(c, s, r))
  {
  }

  lemma AfterTaskIs(c: Config, pc: Pc)
    requires TaskPc(pc) && AfterTask(c, pc).Some?
    ensures Early(AfterTask(c, pc).value) ==> Early(pc) || DeletePc(AfterTask(c, pc).value)
    ensures Authoritative(AfterTask(c, pc).value) ==> Authoritative(pc)
    ensures DeletePc(AfterTask(c, pc).value) ==> !Early(AfterTask(c, pc).value)
  {
  }

  lemma TaskKeeps(c: Config, s: State, t: Task)
    requires c.keyed && Inv(s) && s.call.Some? && TaskPc(s.call.value.pc)
    ensures Inv(WriteTask(c, s, t))
  {
    if AfterTask(c, s.call.value.pc).Some? {
      AfterTaskIs(c, s.call.value.pc);
    }
    hide AfterTask, TaskPc, Early, Authoritative;
  }

  lemma CommitKeeps(c: Config, s: State)
    requires c.keyed && StoreInvariant.Inv(c, s) && Provenance.Inv(s) && Inv(s) && s.call.Some? && CommitPc(s.call.value.pc)
    requires s.d.record.Some?
    ensures Inv(NextCommit(s))
  {
    Provenance.CommitKeeps(c, s);
    hide StoreInvariant.Inv, Provenance.Inv, Owns;
  }

  lemma LadderKeeps(c: Config, s: State)
    requires Inv(s) && s.call.Some? && s.call.value.pc.Ladder?
    ensures Inv(NextLadder(c, s))
  {
    hide Owns;
  }

  lemma OtherKeeps(c: Config, s: State)
    requires c.keyed && Inv(s) && NextEnabled(c, s)
    requires var pc := s.call.value.pc; !ReceiptPc(pc) && !TaskPc(pc) && !CommitPc(pc) && !DeletePc(pc) && !pc.Ladder?
    ensures Inv(NextOther(c, s))
  {
    hide Attempt, AttemptTask;
  }

  lemma DeleteKeeps(s: State)
    requires Inv(s) && s.call.Some? && DeletePc(s.call.value.pc)
    ensures Inv(NextDelete(s))
  {
  }

  lemma NextKeeps(c: Config, s: State)
    requires c.keyed && StoreInvariant.Inv(c, s) && Provenance.Inv(s) && Inv(s) && NextEnabled(c, s)
    ensures Inv(NextAction(c, s))
  {
    var pc := s.call.value.pc;
    assert CommitPc(pc) && !pc.AuthCommit? ==> s.d.record.Some?;
    assert !pc.AuthCommit?;
    hide Attempt, AttemptTask, WriteReceipt, WriteTask, NextCommit, NextLadder, NextOther, NextDelete, Inv, Provenance.Inv, StoreInvariant.Inv;
    if ReceiptPc(pc) {
      ReceiptKeeps(c, s, Attempt(c, s.call.value).value);
    } else if TaskPc(pc) {
      TaskKeeps(c, s, AttemptTask(s, s.call.value).value);
    } else if CommitPc(pc) {
      CommitKeeps(c, s);
    } else if pc.Ladder? {
      LadderKeeps(c, s);
    } else if DeletePc(pc) {
      DeleteKeeps(s);
    } else {
      OtherKeeps(c, s);
    }
  }

  lemma EnterKeeps(c: Config, s: State, step: Step)
    requires c.keyed && Inv(s) && s.call.None? && step.Enter?
    ensures Inv(EnterCall(c, s, step))
  {
  }

  lemma OperationKeeps(c: Config, s: State, step: Step)
    requires !c.hasBoundary && Inv(s) && s.call.Some? && EventStep(step) && OperationEnabled(c, s.call.value, step)
    ensures Inv(OperationEvent(s, step))
  {
  }

  lemma MoveKeeps(c: Config, s: State, step: Step)
    requires Inv(s) && Enabled(c, s, step) && MoveStep(step)
    ensures Inv(Do(c, s, step))
  {
    hide NextAction, NextEnabled;
  }

  lemma ActorKeeps(c: Config, s: State, step: Step)
    requires Inv(s) && Enabled(c, s, step) && (ActorStep(step) || step.Settle?)
    ensures Inv(Do(c, s, step))
  {
    hide NextAction, NextEnabled, SettleReceipt, EnterCall, OperationEvent, OperationEnabled, TidyTask, Decide, Early, Authoritative;
  }

  lemma StepKeeps(c: Config, s: State, step: Step)
    requires c.keyed && !c.hasBoundary && StoreInvariant.Inv(c, s) && Provenance.Inv(s) && Inv(s) && Enabled(c, s, step)
    ensures Inv(Do(c, s, step))
  {
    hide Inv, Provenance.Inv, StoreInvariant.Inv, NextAction, NextEnabled, SettleAction, SettleEnabled, EnterCall, OperationEvent, TidyTask;
    if step.Next? {
      NextKeeps(c, s);
    } else if step.Enter? {
      EnterKeeps(c, s, step);
    } else if EventStep(step) {
      OperationKeeps(c, s, step);
    } else if MoveStep(step) {
      MoveKeeps(c, s, step);
    } else {
      ActorKeeps(c, s, step);
    }
  }

  lemma {:induction false} RunKeeps(c: Config, s: State, steps: seq<Step>)
    requires c.keyed && !c.hasBoundary && StoreInvariant.Inv(c, s) && Provenance.Inv(s) && Inv(s) && Runs(c, s, steps)
    ensures Inv(After(c, s, steps))
    decreases |steps|
  {
    hide Inv, Provenance.Inv, StoreInvariant.Inv, Enabled, Do;
    if steps != [] {
      StoreInvariant.StepKeeps(c, s, steps[0]);
      Provenance.StepKeeps(c, s, steps[0]);
      StepKeeps(c, s, steps[0]);
      RunKeeps(c, Do(c, s, steps[0]), steps[1..]);
    }
  }

  lemma UnboundedMatches(c: Config, s: State)
    requires c.keyed && !c.hasBoundary && Reachable(c, s)
    ensures Matches(s.d)
  {
    var steps :| Runs(c, INITIAL, steps) && After(c, INITIAL, steps) == s;
    RunKeeps(c, INITIAL, steps);
  }

  // ----- with a boundary -----

  /** The operation records 7 and returns 8; its result cannot be encoded, and then its task cannot be
      failed: the ladder saves the recorded 7 under a record completed with 8. */
  lemma RecordedOverReturned(c: Config) returns (s: State)
    requires c.keyed && c.hasBoundary
    ensures Reachable(c, s) && !Matches(s.d)
  {
    hide Reachable;
    s := ReachEffect(c);
    s := Event(c, s, RecordResult(7));
    s := Event(c, s, Return(8));
    s := ResultStep(c, s);
    s := NextReceiptStep(c, s, Receipt(0, AppliedUnvalidated, true, Some(0), None));
    s := CommitStep(c, s);
    s := FailToEncode(c, s);
    s := NextReceiptStep(c, s, Receipt(0, FailedAfterEffect, true, Some(0), Some(FailedAfterEffectCode)));
    s := RaiseStep(c, s);
    s := LadderStep(c, s);
    s := SaveRecorded(c, s);
  }

  lemma FailToEncode(c: Config, s: State) returns (s': State)
    requires Reachable(c, s) && s.call.Some? && s.call.value.pc.Materialize?
    ensures Reachable(c, s') && s' == s.(call := Some(s.call.value.(pc := MarkFailedAfter(s.call.value.pc.v))))
  {
    s' := Take(c, s, MaterializeFails);
  }

  lemma SaveRecorded(c: Config, s: State) returns (s': State)
    requires Reachable(c, s) && s.call.Some? && s.call.value.pc.AuthResult?
    ensures Reachable(c, s') && s'.d == s.d.(results := s.d.results[s.call.value.opId := s.call.value.pc.v])
  {
    s' := Take(c, s, Next);
  }

  /** Over all runs of a keyed caller completed records hold the saved results exactly when the caller
      passes no effect boundary. */
  lemma MatchesIffUnbounded(c: Config)
    requires c.keyed
    ensures (forall s :: Reachable(c, s) ==> Matches(s.d)) <==> !c.hasBoundary
  {
    hide Reachable, Matches;
    if c.hasBoundary {
      var s := RecordedOverReturned(c);
    } else {
      forall s | Reachable(c, s)
        ensures Matches(s.d)
      {
        UnboundedMatches(c, s);
      }
    }
  }
}
