/** The order of durable writes: a completed record always has a saved result for its operation
    and a receipt that says the effect was applied.  It holds in every reachable state exactly
    when store writes cannot raise behind an effect boundary. */
module WriteOrder {
  import opened Options
  import opened Outcomes
  import opened EffectMachine
  import opened Traces
  import StoreInvariant

  predicate Backed(state: ReceiptState) {
    state in {AppliedUnvalidated, AppliedValidated, FailedAfterEffect}
  }

  predicate Ordered(d: Durable) {
    d.record.Some? && d.record.value.state == Completed ==>
      && d.record.value.opId in d.results
      && d.record.value.receiptId in d.receipts && Backed(d.receipts[d.record.value.receiptId].receipt.state)
  }

  /** The stored receipt of this call says the effect was applied. */
  predicate CallBacked(d: Durable, call: Call) {
    && call.opId in d.results
    && call.receiptId in d.receipts && Backed(d.receipts[call.receiptId].receipt.state)
  }

  /** A ladder entered behind a completed record cannot move the receipt to a failure: its snapshot
      is stale, or the table has no such edge. */
  predicate Harmless(d: Durable, call: Call) {
    || !CasOk(d, call.receiptId, call.env)
    || call.env.receipt.state in {FailedAfterEffect, AppliedValidated}
    || (call.env.receipt.state == AppliedUnvalidated && !call.boundary.started && !call.env.receipt.crossed)
  }

  predicate Unvalidated(call: Call) {
    call.env.receipt.state == AppliedUnvalidated && call.env.receipt.crossed == call.boundary.started
  }

  predicate BoundaryOk(c: Config, b: Boundary) {
    (b.started ==> c.hasBoundary) && (b.rolledBack || b.authoritative.Some? ==> b.started)
  }

  predicate AtPc(d: Durable, call: Call) {
    match call.pc
    case Probe | ProbeDelete | ProbeResult(_) | CreateTask | CreateReceipt | SaveClaim | MarkApplying => !Done(d)
    case ProbeReceipt(_) => !Done(d) && call.opId in d.results
    case ProbeTask(_) | ProbeCommit(_) => !Done(d) && CallBacked(d, call)
    case BeginTask | Gate | InOperation | SaveResult(_) => !Done(d) && call.env.receipt.state == Applying
    case MarkUnvalidated(_) => !Done(d) && call.env.receipt.state == Applying && call.opId in d.results
    case CommitDurable(_) => !Done(d) && CallBacked(d, call) && Unvalidated(call)
    case Materialize(_) | CommitPersisted(_) | MarkValidated(_) | MarkFailedAfter(_) =>
      Done(d) && Unvalidated(call) && call.opId in d.results
    case FailTaskAfter(_) => Done(d) && call.env.receipt.state == FailedAfterEffect
    case FinishTask(_) => Done(d) && call.env.receipt.state == AppliedValidated
    case Ladder => Done(d) ==> Harmless(d, call)
    case AuthResult(_) => true
    case AuthReceipt(_) => call.opId in d.results
    case AuthTask(_) | AuthCommit(_) => CallBacked(d, call)
    case UndoneReceipt => Done(d) ==> Harmless(d, call) && call.boundary.started
    case UnknownReceipt => Done(d) ==> Harmless(d, call) && (call.boundary.started || call.env.receipt.crossed)
    case BeforeReceipt => Done(d) ==> Harmless(d, call)
    case UndoneTask | UndoneDelete | UnknownTask | UnknownCommit | BeforeTask | BeforeDelete => !Done(d)
  }

  predicate CallOrdered(c: Config, d: Durable, call: Call) {
    && BoundaryOk(c, call.boundary) && AtPc(d, call)
  }

  predicate StartupOrdered(d: Durable, r: Startup) {
    !r.Tidying? ==>
      && (Backed(r.env.receipt.state) ==> r.env.receipt.opId in d.results)
      && (r.Planned? && r.plan == Validate ==> r.env.receipt.opId in d.results)
      && (r.Planned? && r.env.receipt.state == AppliedUnvalidated ==> r.plan != MarkUnknown)
  }

  predicate StoresOrdered(d: Durable) {
    && Ordered(d)
    && (forall id :: id in d.receipts && Backed(d.receipts[id].receipt.state) ==> d.receipts[id].receipt.opId in d.results)
  }

  predicate Inv(c: Config, s: State) {
    && StoresOrdered(s.d)
    && (s.startup.Some? ==> StartupOrdered(s.d, s.startup.value))
    && (s.call.Some? ==> CallOrdered(c, s.d, s.call.value))
  }

  /** Callers for whom no store write can raise behind a boundary. */
  predicate Quiet(c: Config) {
    c.keyed && !(c.ioFaults && c.hasBoundary)
  }

  predicate Good(c: Config, s: State) {
    Quiet(c) && StoreInvariant.Inv(c, s) && Inv(c, s)
  }

  /** Behind a completed record the failing branches of the ladder are stopped by the table or by
      the compare-and-swap. */
  lemma LadderBlocked(c: Config, d: Durable, call: Call)
    requires AtPc(d, call) && Done(d) && (call.pc.UndoneReceipt? || call.pc.UnknownReceipt? || call.pc.BeforeReceipt?)
    ensures Attempt(c, call).None? || !CasOk(d, call.receiptId, call.env)
  {
  }

  lemma SaveOrdered(s: State, id: ReceiptId, r: Receipt, revision: nat)
    requires StoresOrdered(s.d)
    requires Backed(r.state) ==> r.opId in s.d.results
    requires Done(s.d) && s.d.record.value.receiptId == id ==> Backed(r.state)
    ensures StoresOrdered(SaveReceipt(s, id, r, revision).d)
  {
  }

  /** What the call's own receipt write leaves true of the call. */
  lemma ReceiptPart(c: Config, s: State, r: Receipt)
    requires Quiet(c) && s.call.Some? && ReceiptPc(s.call.value.pc) && CallOrdered(c, s.d, s.call.value)
    requires CasOk(s.d, s.call.value.receiptId, s.call.value.env) && Attempt(c, s.call.value) == Some(r)
    ensures CallOrdered(c, WriteReceipt(c, s, r).d, WriteReceipt(c, s, r).call.value)
    ensures Backed(r.state) ==> s.call.value.opId in s.d.results
    ensures Done(s.d) ==> Backed(r.state)
  {
    var call := s.call.value;
    if Done(s.d) && (call.pc.UndoneReceipt? || call.pc.UnknownReceipt? || call.pc.BeforeReceipt?) {
      LadderBlocked(c, s.d, call);
      assert false;
    }
  }

  lemma WriteReceiptKeeps(c: Config, s: State, r: Receipt)
    requires Good(c, s) && s.call.Some? && ReceiptPc(s.call.value.pc)
    requires CasOk(s.d, s.call.value.receiptId, s.call.value.env) && Attempt(c, s.call.value) == Some(r)
    ensures Inv(c, WriteReceipt(c, s, r))
  {
    AttemptClimbs(c, s.call.value);
    ReceiptPart(c, s, r);
    SaveOrdered(s, s.call.value.receiptId, r, s.call.value.env.revision + 1);
  }

  /** The pc after a task write needs no more than the pc before it. */
  lemma TaskPart(c: Config, d: Durable, call: Call)
    requires TaskPc(call.pc) && AfterTask(c, call.pc).Some? && CallOrdered(c, d, call)
    ensures CallOrdered(c, d, call.(pc := AfterTask(c, call.pc).value))
  {
  }

  lemma WriteTaskKeeps(c: Config, s: State, t: Task)
    requires Inv(c, s) && s.call.Some? && TaskPc(s.call.value.pc)
    ensures Inv(c, WriteTask(c, s, t))
  {
    var call := s.call.value;
    var saved := SaveTask(s, call.opId, t);
    assert StoresOrdered(saved.d) && CallOrdered(c, saved.d, call);
    if AfterTask(c, call.pc).Some? {
      TaskPart(c, saved.d, call);
    }
  }

  /** A commit completes the record only behind a saved result and an applied receipt. */
  lemma CommitPart(c: Config, s: State, call: Call)
    requires StoresOrdered(s.d) && CallOrdered(c, s.d, call) && CommitPc(call.pc) && s.d.record.Some?
    requires s.d.record.value.receiptId == call.receiptId && s.d.record.value.opId == call.opId
    ensures
      var saved := SaveRecord(s, CommitRecord(s, call)).d;
      StoresOrdered(saved) && (AfterCommit(call.pc).Some? ==> CallOrdered(c, saved, call.(pc := AfterCommit(call.pc).value)))
  {
  }

  lemma CommitKeeps(c: Config, s: State)
    requires Inv(c, s) && c.keyed && s.call.Some? && CommitPc(s.call.value.pc)
    requires s.d.record.Some? && s.d.record.value.receiptId == s.call.value.receiptId
    requires s.d.record.value.opId == s.call.value.opId
    ensures Inv(c, NextCommit(s))
  {
    hide AtPc, CommitRecord, AfterCommit;
    CommitPart(c, s, s.call.value);
  }

  lemma DeleteKeeps(c: Config, s: State)
    requires Good(c, s) && s.call.Some? && DeletePc(s.call.value.pc)
    ensures Inv(c, NextDelete(s))
  {
  }

  lemma LadderKeeps(c: Config, s: State)
    requires Inv(c, s) && s.call.Some? && s.call.value.pc.Ladder?
    ensures Inv(c, NextLadder(c, s))
  {
    var call := s.call.value;
    var target := LadderTarget(c, s, call);
    if !LadderReturns(c, s, call) && target.Some? {
      LadderPart(c, s, call, target.value);
    }
  }

  lemma LadderPart(c: Config, s: State, call: Call, pc: Pc)
    requires CallOrdered(c, s.d, call) && call.pc.Ladder? && LadderTarget(c, s, call) == Some(pc)
    ensures CallOrdered(c, s.d, call.(pc := pc))
  {
  }

  lemma CreateKeeps(c: Config, s: State)
    requires Good(c, s) && NextEnabled(c, s)
    requires s.call.value.pc.CreateTask? || s.call.value.pc.CreateReceipt? || s.call.value.pc.SaveClaim?
    ensures Inv(c, NextOther(c, s))
  {
  }

  lemma OtherKeeps(c: Config, s: State)
    requires Good(c, s) && NextEnabled(c, s)
    requires
      var pc := s.call.value.pc;
      pc.Gate? || pc.ProbeResult? || pc.SaveResult? || pc.AuthResult? || pc.Materialize?
    ensures Inv(c, NextOther(c, s))
  {
  }

  lemma ProbeReceiptKeeps(c: Config, s: State)
    requires Good(c, s) && NextEnabled(c, s) && s.call.value.pc.ProbeReceipt?
    ensures Inv(c, NextOther(c, s))
  {
  }

  lemma NextKeeps(c: Config, s: State)
    requires Good(c, s) && NextEnabled(c, s)
    ensures Inv(c, NextAction(c, s))
  {
    var pc := s.call.value.pc;
    if ReceiptPc(pc) {
      WriteReceiptKeeps(c, s, Attempt(c, s.call.value).value);
    } else if TaskPc(pc) {
      WriteTaskKeeps(c, s, AttemptTask(s, s.call.value).value);
    } else if CommitPc(pc) {
      CommitKeeps(c, s);
    } else if DeletePc(pc) {
      DeleteKeeps(c, s);
    } else if pc.Ladder? {
      LadderKeeps(c, s);
    } else if pc.CreateTask? || pc.CreateReceipt? || pc.SaveClaim? {
      CreateKeeps(c, s);
    } else if pc.ProbeReceipt? {
      ProbeReceiptKeeps(c, s);
    } else {
      OtherKeeps(c, s);
    }
  }

  /** What start-up reconciliation writes over an applied receipt still says it was applied. */
  lemma SettlePart(r: Receipt, plan: Plan)
    requires SettleReceipt(r, plan).Some? && Unfinished(r.state)
    ensures Backed(SettleReceipt(r, plan).value.state) <==> plan == Validate
    ensures Backed(r.state) <==> r.state == AppliedUnvalidated
  {
  }

  /** The running call keeps what it relies on when another actor advances its receipt. */
  lemma CallAfterSave(c: Config, s: State, call: Call, id: ReceiptId, r: Receipt)
    requires CallOrdered(c, s.d, call) && id in s.d.receipts
    requires StoreInvariant.HasReceipt(call.pc) && call.receiptId == id ==> call.env.revision <= s.d.receipts[id].revision
    requires Backed(s.d.receipts[id].receipt.state) ==> Backed(r.state)
    ensures CallOrdered(c, SaveReceipt(s, id, r, s.d.receipts[id].revision + 1).d, call)
  {
  }

  lemma WriteSettledKeeps(c: Config, s: State, r: Receipt)
    requires Inv(c, s) && s.startup.Some? && s.startup.value.Planned?
    requires
      var id, env := s.startup.value.receiptId, s.startup.value.env;
      && id in s.d.receipts && s.d.receipts[id] == env && r.opId == env.receipt.opId
      && (s.call.Some? && StoreInvariant.HasReceipt(s.call.value.pc) && s.call.value.receiptId == id ==>
            s.call.value.env.revision <= env.revision)
    requires Backed(r.state) <==> s.startup.value.plan == Validate
    requires Backed(s.startup.value.env.receipt.state) ==> s.startup.value.plan == Validate
    ensures Inv(c, WriteSettled(s, r))
  {
    hide AtPc;
    var id, env := s.startup.value.receiptId, s.startup.value.env;
    SaveOrdered(s, id, r, env.revision + 1);
    if s.call.Some? {
      CallAfterSave(c, s, s.call.value, id, r);
    }
  }

  lemma SettleKeeps(c: Config, s: State)
    requires Good(c, s) && SettleEnabled(s)
    ensures Inv(c, SettleAction(s))
  {
    var env, plan := s.startup.value.env, s.startup.value.plan;
    SettleClimbs(env.receipt, plan);
    SettlePart(env.receipt, plan);
    WriteSettledKeeps(c, s, SettleReceipt(env.receipt, plan).value);
  }

  lemma EnterKeeps(c: Config, s: State, step: Step)
    requires Good(c, s) && s.call.None? && step.Enter?
    ensures Inv(c, EnterCall(c, s, step))
  {
    hide Attempt, AttemptTask, LadderTarget, Transition, NextEnabled, Enabled;
  }

  lemma OperationKeeps(c: Config, s: State, step: Step)
    requires Good(c, s) && s.call.Some? && EventStep(step) && OperationEnabled(c, s.call.value, step)
    ensures Inv(c, OperationEvent(s, step))
  {
  }

  lemma RaiseKeeps(c: Config, s: State)
    requires Good(c, s) && RaiseEnabled(c, s)
    ensures Inv(c, Goto(s, Ladder))
  {
  }

  lemma MoveKeeps(c: Config, s: State, step: Step)
    requires Good(c, s) && MoveStep(step) && !step.Raise? && Enabled(c, s, step)
    ensures Inv(c, Do(c, s, step))
  {
  }

  lemma ActorKeeps(c: Config, s: State, step: Step)
    requires Good(c, s) && ActorStep(step) && Enabled(c, s, step)
    ensures Inv(c, Do(c, s, step))
  {
    hide NextEnabled, NextAction, EnterCall, OperationEvent, SettleAction, Attempt, OperationEnabled, RaiseEnabled, BoundaryOk;
  }

  lemma StepKeeps(c: Config, s: State, step: Step)
    requires Good(c, s) && Enabled(c, s, step)
    ensures Inv(c, Do(c, s, step))
  {
    hide Inv, NextEnabled, NextAction, EnterCall, OperationEvent, WriteSettled;
    if step.Next? {
      NextKeeps(c, s);
    } else if step.Enter? {
      EnterKeeps(c, s, step);
    } else if step.Settle? {
      SettleKeeps(c, s);
    } else if EventStep(step) {
      OperationKeeps(c, s, step);
    } else if step.Raise? {
      RaiseKeeps(c, s);
    } else if MoveStep(step) {
      MoveKeeps(c, s, step);
    } else {
      ActorKeeps(c, s, step);
    }
  }

  lemma {:induction false} RunKeeps(c: Config, s: State, steps: seq<Step>)
    requires Good(c, s) && Runs(c, s, steps)
    ensures Good(c, After(c, s, steps))
    decreases |steps|
  {
    if steps != [] {
      StoreInvariant.StepKeeps(c, s, steps[0]);
      StepKeeps(c, s, steps[0]);
      RunKeeps(c, Do(c, s, steps[0]), steps[1..]);
    }
  }

  /** In every reachable state of a quiet caller a completed record is backed by a saved result
      and an applied receipt. */
  lemma CompletedIsBacked(c: Config, s: State)
    requires Quiet(c) && Reachable(c, s)
    ensures Ordered(s.d)
  {
    var steps :| Runs(c, INITIAL, steps) && After(c, INITIAL, steps) == s;
    RunKeeps(c, INITIAL, steps);
  }

  /** With I/O faults behind a boundary: the operation returns, the record is completed, saving the
      validated form raises, and the ladder marks the receipt unknown before it could demote the
      record; a crash there leaves a completed record without backing. */
  lemma UnbackedRecord(c: Config) returns (s: State)
    requires c.keyed && c.ioFaults && c.hasBoundary
    ensures Reachable(c, s) && !Ordered(s.d)
  {
    hide Reachable;
    s := ReachUnvalidated(c);
    s := FailSecondSave(c, s);
    s := NextReceiptStep(c, s, Receipt(0, Unknown, true, None, Some(OutcomeUnknownCode)));
  }

  lemma FailSecondSave(c: Config, s: State) returns (s': State)
    requires c.keyed && c.ioFaults && Reachable(c, s) && s.call.Some?
    requires
      var call := s.call.value;
      && call.pc.CommitDurable? && Owns(s.d, call) && call.boundary == Boundary(true, false, None)
      && call.env.receipt.state == AppliedUnvalidated
    ensures Reachable(c, s') && s'.call == Some(s.call.value.(pc := UnknownReceipt))
    ensures
      && s'.d.record == Some(s.d.record.value.(state := Completed, updatedAt := s.now, result := Some(DurableForm(s.call.value.pc.v))))
      && s'.d.receipts == s.d.receipts
  {
    hide Reachable;
    s' := CommitStep(c, s);
    s' := MaterializeStep(c, s');
    s' := RaiseStep(c, s');
    s' := LadderStep(c, s');
  }

  /** The write order holds over all runs of keyed calls exactly when no store write can raise
      behind an effect boundary. */
  lemma WriteOrderIffQuiet(c: Config)
    requires c.keyed
    ensures (forall s :: Reachable(c, s) ==> Ordered(s.d)) <==> !(c.ioFaults && c.hasBoundary)
  {
    if Quiet(c) {
      forall s | Reachable(c, s) ensures Ordered(s.d) {
        CompletedIsBacked(c, s);
      }
    } else {
      var s := UnbackedRecord(c);
    }
  }
}
