/** At most one net effect per idempotency key, over every run with crashes, retries, clock
    advances, start-up reconciliation and interference on operation tasks: exactly when the
    caller passes a boundary and either a reconciler that is never blind or a local action. */
module AtMostOnce {
  import opened Options
  import opened Outcomes
  import opened EffectMachine
  import opened Traces

  /** What a caller of `execute_idempotent` can check about its own arguments. */
  predicate Guarded(c: Config) {
    && c.keyed && c.hasBoundary
    && (c.reconciler == NeverMisses || c.reconciler == Truthful || (c.reconciler == Absent && c.local))
  }

  predicate Untouched(call: Call) {
    call.boundary == Boundary(false, false, None) && !call.applied && !call.env.receipt.crossed
  }

  predicate BeforeClaim(pc: Pc) {
    pc.CreateTask? || pc.CreateReceipt? || pc.SaveClaim?
  }

  predicate BeforeOperation(pc: Pc) {
    pc.MarkApplying? || pc.BeginTask? || pc.Gate?
  }

  predicate Undoing(pc: Pc) {
    pc.UndoneReceipt? || pc.UndoneTask? || pc.UndoneDelete? || pc.BeforeReceipt? || pc.BeforeTask? || pc.BeforeDelete?
  }

  predicate Closing(pc: Pc) {
    || Undoing(pc) || pc.UnknownReceipt? || pc.UnknownTask? || pc.UnknownCommit?
    || pc.AuthResult? || pc.AuthReceipt? || pc.AuthTask? || pc.AuthCommit?
  }

  /** The boundary tells the truth about the effect of this invocation. */
  predicate Truthfully(s: State, call: Call) {
    && s.h.effects == (if call.applied then 1 else 0)
    && (call.applied ==> call.boundary.started && !call.boundary.rolledBack)
    && (call.boundary.authoritative.Some? ==> call.applied)
    && (call.env.receipt.crossed && !Closing(call.pc) ==> call.boundary.started)
  }

  predicate CallInv(s: State, call: Call) {
    if BeforeClaim(call.pc) then Untouched(call) && s.h.effects == 0
    else if Probing(call.pc) then Untouched(call) && (call.pc.ProbeDelete? ==> s.h.effects == 0)
    else if BeforeOperation(call.pc) then Untouched(call) && s.h.effects == 0 && Owns(s.d, call)
    else Owns(s.d, call) && Truthfully(s, call) && (Undoing(call.pc) ==> s.h.effects == 0)
  }

  predicate Inv(s: State) {
    && 0 <= s.h.effects <= 1
    && (s.h.effects == 1 ==> s.d.record.Some?)
    && (s.call.Some? ==> CallInv(s, s.call.value))
  }

  lemma ReceiptKeeps(c: Config, s: State)
    requires Guarded(c) && Inv(s) && s.call.Some? && ReceiptPc(s.call.value.pc) && Attempt(c, s.call.value).Some?
    ensures Inv(NextReceipt(c, s))
  {
  }

  lemma TaskKeeps(c: Config, s: State, t: Task)
    requires Guarded(c) && Inv(s) && s.call.Some? && TaskPc(s.call.value.pc)
    ensures Inv(WriteTask(c, s, t))
  {
  }

  lemma CommitKeeps(c: Config, s: State)
    requires Guarded(c) && Inv(s) && s.call.Some? && CommitPc(s.call.value.pc)
    requires s.call.value.pc.AuthCommit? || s.d.record.Some?
    ensures Inv(NextCommit(s))
  {
  }

  lemma LadderKeeps(c: Config, s: State)
    requires Guarded(c) && Inv(s) && s.call.Some? && s.call.value.pc.Ladder?
    ensures Inv(NextLadder(c, s))
  {
  }

  lemma OtherKeeps(c: Config, s: State)
    requires Guarded(c) && Inv(s) && NextEnabled(c, s)
    requires var pc := s.call.value.pc; !ReceiptPc(pc) && !TaskPc(pc) && !CommitPc(pc) && !pc.Ladder?
    ensures Inv(NextAction(c, s))
  {
  }

  lemma NextKeeps(c: Config, s: State)
    requires Guarded(c) && Inv(s) && NextEnabled(c, s)
    ensures Inv(NextAction(c, s))
  {
    var pc := s.call.value.pc;
    if ReceiptPc(pc) {
      ReceiptKeeps(c, s);
    } else if TaskPc(pc) {
      TaskKeeps(c, s, AttemptTask(s, s.call.value).value);
    } else if CommitPc(pc) {
      CommitKeeps(c, s);
    } else if pc.Ladder? {
      LadderKeeps(c, s);
    } else {
      OtherKeeps(c, s);
    }
  }

  lemma EnterKeeps(c: Config, s: State, step: Step)
    requires Guarded(c) && Inv(s) && s.call.None? && step.Enter?
    ensures Inv(EnterCall(c, s, step))
  {
  }

  lemma OperationKeeps(c: Config, s: State, step: Step)
    requires Guarded(c) && Inv(s) && s.call.Some? && EventStep(step) && OperationEnabled(c, s.call.value, step)
    ensures Inv(OperationEvent(s, step))
  {
  }

  lemma MoveKeeps(c: Config, s: State, step: Step)
    requires Guarded(c) && Inv(s) && MoveStep(step) && Enabled(c, s, step)
    ensures Inv(Do(c, s, step))
  {
    hide Attempt, AttemptTask, NextEnabled, NextAction, EnterCall, OperationEvent, SettleAction, TidyTask, Transition;
  }

  lemma SettleKeeps(c: Config, s: State)
    requires Inv(s) && SettleEnabled(s)
    ensures Inv(SettleAction(s))
  {
    hide SettleReceipt;
  }

  lemma ActorKeeps(c: Config, s: State, step: Step)
    requires Guarded(c) && Inv(s) && ActorStep(step) && Enabled(c, s, step)
    ensures Inv(Do(c, s, step))
  {
  }

  lemma StepKeeps(c: Config, s: State, step: Step)
    requires Guarded(c) && Inv(s) && Enabled(c, s, step)
    ensures Inv(Do(c, s, step))
  {
    hide Inv, NextEnabled, NextAction, EnterCall, OperationEvent, WriteSettled;
    if step.Next? {
      NextKeeps(c, s);
    } else if step.Enter? {
      EnterKeeps(c, s, step);
    } else if step.Settle? {
      SettleKeeps(c, s);
    } else if EventStep(step) {
      OperationKeeps(c, s, step);
    } else if MoveStep(step) {
      MoveKeeps(c, s, step);
    } else {
      ActorKeeps(c, s, step);
    }
  }

  lemma {:induction false} RunKeeps(c: Config, s: State, steps: seq<Step>)
    requires Guarded(c) && Inv(s) && Runs(c, s, steps)
    ensures Inv(After(c, s, steps))
    decreases |steps|
  {
    if steps != [] {
      StepKeeps(c, s, steps[0]);
      RunKeeps(c, Do(c, s, steps[0]), steps[1..]);
    }
  }

  /** For local mutations and for reconciled actions alike, the net number of applied effects is
      at most one in every reachable state. */
  lemma NetEffectAtMostOnce(c: Config, s: State)
    requires Guarded(c) && Reachable(c, s)
    ensures 0 <= s.h.effects <= 1
  {
    var steps :| Runs(c, INITIAL, steps) && After(c, INITIAL, steps) == s;
    RunKeeps(c, INITIAL, steps);
  }

  // ----- publication -----

  /** The arguments `PublicationCoordinator.execute` passes: a boundary that is never rolled back
      and a reconciler that raises rather than report a miss. */
  predicate Publication(c: Config) {
    c.keyed && c.hasBoundary && !c.mayRollback && c.reconciler == NeverMisses
  }

  lemma {:induction false} NothingIsUndone(c: Config, s: State, steps: seq<Step>)
    requires !c.mayRollback && Runs(c, s, steps) && s.h.gross == s.h.effects
    ensures After(c, s, steps).h.gross == After(c, s, steps).h.effects
    decreases |steps|
  {
    if steps != [] {
      var s' := Do(c, s, steps[0]);
      assert s'.h.gross == s'.h.effects;
      NothingIsUndone(c, s', steps[1..]);
    }
  }

  /** `gateway.publish` is called at most once for a key, whatever crashes, retries, I/O faults
      and reconciliations happen. */
  lemma PublishAtMostOnce(c: Config, s: State)
    requires Publication(c) && Reachable(c, s)
    ensures s.h.gross <= 1
  {
    var steps :| Runs(c, INITIAL, steps) && After(c, INITIAL, steps) == s;
    NothingIsUndone(c, INITIAL, steps);
    NetEffectAtMostOnce(c, s);
  }

  // ----- the condition is exact -----

  /** Without a boundary the ladder takes an applied effect for a failure before the effect. */
  lemma ForgetEffect(c: Config, s: State) returns (s': State)
    requires !c.hasBoundary && Reachable(c, s) && s.call.Some?
    requires
      var call := s.call.value;
      && call.pc.InOperation? && call.boundary == Boundary(false, false, None)
      && call.env == Envelope(Receipt(call.opId, Applying, false, None, None), 2)
      && call.receiptId in s.d.receipts && s.d.receipts[call.receiptId] == call.env
      && call.opId in s.d.tasks && s.d.tasks[call.opId].state == Running
      && (c.keyed ==> Owns(s.d, call))
    ensures Reachable(c, s') && s'.call.None? && s'.startup == s.startup && (c.keyed ==> s'.d.record.None?)
    ensures s'.h.effects == s.h.effects && s'.h.misled == s.h.misled
    ensures s'.d.tasks.Keys == s.d.tasks.Keys && s'.d.receipts.Keys == s.d.receipts.Keys
  {
    hide Reachable;
    var call := s.call.value;
    s' := RaiseStep(c, s);
    s' := LadderStep(c, s');
    s' := NextReceiptStep(c, s', Receipt(call.opId, FailedBeforeEffect, false, None, Some(FailedBeforeEffectCode)));
    s' := NextTaskStep(c, s', AttemptTask(s', s'.call.value).value);
    if c.keyed {
      s' := DeleteStep(c, s');
    }
  }

  /** A second call with the same key claims again. */
  lemma ClaimAgain(c: Config, s: State) returns (s': State)
    requires !Guarded(c) && Reachable(c, s) && s.call.None? && 1 !in s.d.tasks && 1 !in s.d.receipts
    requires c.keyed && s.d.record.Some? ==>
      var r := s.d.record.value;
      c.hasBoundary && r.state == InProgress && r.fingerprint == 0 && s.now - r.updatedAt > c.staleSeconds
    ensures Reachable(c, s') && s'.call.Some? && s'.h == s.h
    ensures s'.call.value.pc.CreateTask? && Untouched(s'.call.value)
    ensures s'.call.value.opId == 1 && s'.call.value.receiptId == 1 && s'.call.value.fingerprint == 0 && s'.call.value.correlation == 1
    ensures s'.d.tasks == s.d.tasks && s'.d.receipts == s.d.receipts && s'.startup == s.startup
  {
    s' := EnterStep(c, s, 0, None, 1, 1, 1);
    if s'.call.value.pc.Probe? {
      s' := ProbedStep(c, s', None);
      s' := DeleteStep(c, s');
    }
  }

  /** The first call of an unguarded caller applies its effect and fails or dies, and a later call with
      the same key claims again. */
  lemma SecondClaim(c: Config) returns (s: State)
    requires !Guarded(c)
    ensures Reachable(c, s) && s.startup.None? && s.h.effects == 1 && !s.h.misled
    ensures s.call.Some? && s.call.value.pc.MarkApplying? && Untouched(s.call.value)
    ensures s.call.value.opId == 1 && s.call.value.receiptId == 1 && s.call.value.env == Envelope(NewReceipt(1), 1)
    ensures 1 in s.d.receipts && s.d.receipts[1] == s.call.value.env && 1 in s.d.tasks && s.d.tasks[1].state == Pending
    ensures c.keyed ==> s.d.record.Some? && s.d.record.value == Record(InProgress, 0, s.d.record.value.updatedAt, 1, None, 1, 1)
  {
    hide Reachable;
    Start(c);
    s := EnterStep(c, INITIAL, 0, None, 0, 0, 0);
    s := OpenClaim(c, s);
    s := RunToOperation(c, s);
    s := ApplyEffect(c, s);
    if !c.hasBoundary {
      s := ForgetEffect(c, s);
    } else {
      s := StopStep(c, s);
      s := TickStep(c, s, c.staleSeconds + 1);
    }
    s := ClaimAgain(c, s);
    s := OpenClaim(c, s);
  }

  /** Two effects for one key whenever the caller is not guarded. */
  lemma SecondEffect(c: Config) returns (s: State)
    requires !Guarded(c)
    ensures Reachable(c, s) && s.h.effects == 2
  {
    hide Reachable;
    s := SecondClaim(c);
    s := RunToOperation(c, s);
    s := ApplyEffect(c, s);
  }

  /** At-most-once holds over all runs exactly for guarded callers. */
  lemma AtMostOnceIffGuarded(c: Config)
    ensures (forall s :: Reachable(c, s) ==> s.h.effects <= 1) <==> Guarded(c)
  {
    if Guarded(c) {
      forall s | Reachable(c, s) ensures s.h.effects <= 1 {
        NetEffectAtMostOnce(c, s);
      }
    } else {
      var s := SecondEffect(c);
    }
  }
}
