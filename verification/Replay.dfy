/** A completed record is absorbing: once a keyed call has returned, every later call with the
    same key and input returns the same stored result without invoking the operation, and every
    call with other input or another bound operation is refused without invoking it. */
module Replay {
  import opened Options
  import opened Outcomes
  import opened EffectMachine

  /** Between calls, with the outcome decided. */
  predicate Settled(s: State) {
    s.call.None? && Done(s.d) && s.d.record.value.result.Some?
  }

  predicate Validating(pc: Pc) {
    pc.MarkValidated? || pc.FinishTask?
  }

  predicate Inv(s: State) {
    && (Done(s.d) ==> s.d.record.value.result.Some?)
    && (s.call.Some? ==> s.h.returned == [])
    && (s.call.Some? && Validating(s.call.value.pc) ==>
          Done(s.d) && s.d.record.value.result == Some(PersistedForm(s.call.value.pc.v)))
    && (s.h.returned != [] ==>
          Done(s.d) && forall i :: 0 <= i < |s.h.returned| ==> s.d.record.value.result == Some(s.h.returned[i]))
  }

  lemma ReceiptKeeps(c: Config, s: State, r: Receipt)
    requires c.keyed && Inv(s) && s.call.Some? && ReceiptPc(s.call.value.pc)
    ensures Inv(WriteReceipt(c, s, r))
  {
  }

  lemma TaskKeeps(c: Config, s: State, t: Task)
    requires c.keyed && Inv(s) && s.call.Some? && TaskPc(s.call.value.pc)
    ensures Inv(WriteTask(c, s, t))
  {
  }

  lemma CommitKeeps(c: Config, s: State)
    requires Inv(s) && s.call.Some? && CommitPc(s.call.value.pc)
    requires s.call.value.pc.AuthCommit? || s.d.record.Some?
    ensures Inv(NextCommit(s))
  {
  }

  lemma OtherKeeps(c: Config, s: State)
    requires c.keyed && Inv(s) && NextEnabled(c, s)
    requires !ReceiptPc(s.call.value.pc) && !TaskPc(s.call.value.pc) && !CommitPc(s.call.value.pc)
    ensures Inv(NextAction(c, s))
  {
    hide Attempt, AttemptTask, Transition, CommitRecord;
  }

  lemma NextKeeps(c: Config, s: State)
    requires c.keyed && Inv(s) && NextEnabled(c, s)
    ensures Inv(NextAction(c, s))
  {
    hide Inv, Attempt, AttemptTask, WriteReceipt, WriteTask, NextCommit, NextOther, NextLadder, NextDelete;
    var pc := s.call.value.pc;
    if ReceiptPc(pc) {
      ReceiptKeeps(c, s, Attempt(c, s.call.value).value);
    } else if TaskPc(pc) {
      TaskKeeps(c, s, AttemptTask(s, s.call.value).value);
    } else if CommitPc(pc) {
      CommitKeeps(c, s);
    } else {
      OtherKeeps(c, s);
    }
  }

  lemma EnterKeeps(c: Config, s: State, step: Step)
    requires c.keyed && Inv(s) && s.call.None? && step.Enter?
    ensures Inv(EnterCall(c, s, step))
  {
  }

  lemma StepKeeps(c: Config, s: State, step: Step)
    requires c.keyed && Inv(s) && Enabled(c, s, step)
    ensures Inv(Do(c, s, step))
  {
    hide NextAction, NextEnabled, EnterCall, SettleReceipt, Decide;
    if step.Next? {
      NextKeeps(c, s);
    } else if step.Enter? {
      EnterKeeps(c, s, step);
    }
  }

  lemma {:induction false} RunKeeps(c: Config, s: State, steps: seq<Step>)
    requires c.keyed && Inv(s) && Runs(c, s, steps)
    ensures Inv(After(c, s, steps))
    decreases |steps|
  {
    if steps != [] {
      StepKeeps(c, s, steps[0]);
      RunKeeps(c, Do(c, s, steps[0]), steps[1..]);
    }
  }

  lemma Holds(c: Config, s: State)
    requires c.keyed && Reachable(c, s)
    ensures Inv(s)
  {
    var steps :| Runs(c, INITIAL, steps) && After(c, INITIAL, steps) == s;
    RunKeeps(c, INITIAL, steps);
  }

  /** Nothing that matters to the caller can change any more. */
  predicate Same(s: State, s': State) {
    && s.d.record.Some? && s'.d.record == s.d.record && s'.call.None?
    && s'.h.invocations == s.h.invocations && s'.h.gross == s.h.gross && s'.h.effects == s.h.effects
    && |s.h.returned| <= |s'.h.returned| && s'.h.returned[..|s.h.returned|] == s.h.returned
    && forall i :: |s.h.returned| <= i < |s'.h.returned| ==> Some(s'.h.returned[i]) == s.d.record.value.result
  }

  lemma SettledStep(c: Config, s: State, step: Step)
    requires c.keyed && Settled(s) && Enabled(c, s, step)
    ensures Settled(Do(c, s, step)) && Same(s, Do(c, s, step))
  {
    hide NextAction, SettleReceipt, Decide;
  }

  lemma {:induction false} SettledRun(c: Config, s: State, steps: seq<Step>)
    requires c.keyed && Settled(s) && Runs(c, s, steps)
    ensures Settled(After(c, s, steps)) && Same(s, After(c, s, steps))
    decreases |steps|
  {
    if steps != [] {
      SettledStep(c, s, steps[0]);
      SettledRun(c, Do(c, s, steps[0]), steps[1..]);
    }
  }

  /** After a keyed call has returned, in every continuation of the run the record is unchanged, no
      operation is invoked, and every call that returns returns the same stored result. */
  lemma ReturnedIsFinal(c: Config, s: State, steps: seq<Step>)
    requires c.keyed && Reachable(c, s) && s.h.returned != [] && Runs(c, s, steps)
    ensures
      var s' := After(c, s, steps);
      && s'.d.record == s.d.record && s'.h.invocations == s.h.invocations && s'.h.gross == s.h.gross
      && forall i :: 0 <= i < |s'.h.returned| ==> s'.h.returned[i] == s.h.returned[0]
  {
    var before :| Runs(c, INITIAL, before) && After(c, INITIAL, before) == s;
    RunKeeps(c, INITIAL, before);
    SettledRun(c, s, steps);
    var all := After(c, s, steps).h.returned;
    assert forall i :: 0 <= i < |s.h.returned| ==> all[i] == all[..|s.h.returned|][i];
  }

  /** What a call does on a settled key: the same input replays the stored result; other input, or
      another operation than the bound one, changes nothing at all. */
  lemma SettledCall(c: Config, s: State, step: Step)
    requires c.keyed && Settled(s) && step.Enter?
    ensures
      var r := s.d.record.value;
      var s' := Do(c, s, step);
      if step.fingerprint == r.fingerprint && (step.opArg.Some? ==> step.opArg.value == r.opId) then
        s' == s.(h := s.h.(returned := s.h.returned + [r.result.value]))
      else
        s' == s
  {
  }

  /** Whatever the record's state, a key bound to other input or another operation is refused. */
  lemma ConflictIsRefused(c: Config, s: State, step: Step)
    requires c.keyed && s.call.None? && s.d.record.Some? && step.Enter?
    requires
      || step.fingerprint != s.d.record.value.fingerprint
      || (step.opArg.Some? && step.opArg.value != s.d.record.value.opId)
    ensures Do(c, s, step) == s
  {
  }

  /** The record was claimed anew, with the stamp of the call's entry, or rewritten with the stamp of now
      under the identities it had. */
  predicate Stamped(s: State, r: Record) {
    if s.call.Some? && s.call.value.pc.SaveClaim? then
      var call := s.call.value;
      r == Record(InProgress, call.fingerprint, call.epoch, call.correlation, None, call.receiptId, call.opId)
    else
      s.d.record.Some? && r == s.d.record.value.(state := r.state, result := r.result, updatedAt := s.now)
  }

  lemma NextStamps(c: Config, s: State)
    requires NextEnabled(c, s)
    ensures var record := NextAction(c, s).d.record; record.Some? && record != s.d.record ==> Stamped(s, record.value)
  {
    hide Attempt, AttemptTask, Transition, LadderTarget, LadderReturns;
    var pc := s.call.value.pc;
    if CommitPc(pc) {
      assert !ReceiptPc(pc) && !TaskPc(pc);
      hide AfterCommit;
    } else if !ReceiptPc(pc) && !TaskPc(pc) {
    }
  }

  /** Any step that leaves a changed record has stamped it. */
  lemma RecordIsStamped(c: Config, s: State, step: Step)
    requires Enabled(c, s, step)
    ensures var record := Do(c, s, step).d.record; record.Some? && record != s.d.record ==> Stamped(s, record.value)
  {
    hide NextAction, NextEnabled, SettleReceipt, TidyTask, Decide, RaiseEnabled, OperationEnabled;
    if step.Next? {
      NextStamps(c, s);
    }
  }

  /** Once the record holds the call's result and its receipt is validated the call returns that result,
      also when finishing its task raises. */
  lemma ValidatedReturns(c: Config, s: State)
    requires c.keyed && Reachable(c, s) && NextEnabled(c, s) && s.call.value.pc.MarkValidated?
    ensures
      var stored, s1 := PersistedForm(s.call.value.pc.v), Do(c, s, Next);
      && (NextEnabled(c, s1) ==> Do(c, s1, Next).call.None? && Do(c, s1, Next).h.returned == s.h.returned + [stored])
      && RaiseEnabled(c, s1)
      && var s2 := Do(c, s1, Raise);
         NextEnabled(c, s2) && Do(c, s2, Next).call.None? && Do(c, s2, Next).h.returned == s.h.returned + [stored]
  {
    Holds(c, s);
    hide Reachable, AttemptTask;
  }

  /** The statements of the call behind its gate, up to its return. */
  predicate InsideTry(pc: Pc) {
    || pc.InOperation? || pc.SaveResult? || pc.MarkUnvalidated? || pc.CommitDurable? || pc.MarkFailedAfter? || pc.FailTaskAfter?
    || pc.CommitPersisted? || pc.MarkValidated? || pc.FinishTask?
  }

  /** Where store writes can fail behind a boundary, every one of these may raise, and nothing else does;
      where they cannot, a write of the receipt or the record raises only when it is refused. */
  lemma RaisesIff(c: Config, s: State)
    requires c.keyed && s.call.Some?
    ensures RaiseEnabled(c, s) ==> InsideTry(s.call.value.pc)
    ensures c.ioFaults && InsideTry(s.call.value.pc) ==> RaiseEnabled(c, s)
    ensures !c.ioFaults && RaiseEnabled(c, s) && (ReceiptPc(s.call.value.pc) || CommitPc(s.call.value.pc)) ==> !NextEnabled(c, s)
  {
    hide Attempt, AttemptTask;
  }
}
