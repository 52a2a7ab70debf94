/** What every step of the effect protocol keeps about its durable stores: receipts are valid
    and belong to one operation each, every in-memory envelope is a snapshot that a
    compare-and-swap can trust, and the record names the receipt and operation of its claim. */
module StoreInvariant {
  import opened Options
  import opened Outcomes
  import opened EffectMachine

  /** `env` was read from the stored receipt `current`, which may have moved on since. */
  predicate Snapshot(current: Envelope, env: Envelope) {
    env.revision <= current.revision && (env.revision == current.revision ==> env == current)
  }

  predicate HasReceipt(pc: Pc) {
    !Probing(pc) && !pc.CreateTask? && !pc.CreateReceipt?
  }

  /** The record is this call's claim. */
  predicate Claimed(d: Durable, call: Call) {
    Owns(d, call) && d.record.value.receiptId == call.receiptId && d.record.value.opId == call.opId
  }

  /** A call that holds its receipt and, when keyed, its record. */
  predicate Working(c: Config, d: Durable, call: Call) {
    && call.receiptId in d.receipts && Snapshot(d.receipts[call.receiptId], call.env)
    && call.env.receipt.opId == call.opId == d.receipts[call.receiptId].receipt.opId
    && (c.keyed && !call.pc.SaveClaim? ==> Claimed(d, call))
  }

  predicate Receipts(d: Durable) {
    && (forall id :: id in d.receipts ==> ValidReceipt(d.receipts[id].receipt) && d.receipts[id].receipt.opId in d.tasks)
    && (forall i, j :: i in d.receipts && j in d.receipts && d.receipts[i].receipt.opId == d.receipts[j].receipt.opId ==> i == j)
  }

  predicate RecordBound(d: Durable) {
    d.record.Some? ==>
      d.record.value.receiptId in d.receipts && d.receipts[d.record.value.receiptId].receipt.opId == d.record.value.opId
  }

  predicate CallBound(c: Config, d: Durable, call: Call) {
    && (HasReceipt(call.pc) ==> Working(c, d, call))
    && (call.pc.CreateReceipt? ==>
          call.opId in d.tasks && forall id :: id in d.receipts ==> d.receipts[id].receipt.opId != call.opId)
    && (Probing(call.pc) ==> c.keyed && d.record.Some?)
    && (call.pc.ProbeReceipt? || call.pc.ProbeTask? || call.pc.ProbeCommit? ==>
          d.record.value.opId == call.opId && d.record.value.receiptId == call.receiptId)
  }

  predicate StartupBound(d: Durable, r: Startup) {
    && r.receiptId in d.receipts
    && (r.Tidying? ==> r.opId == d.receipts[r.receiptId].receipt.opId && !Unfinished(d.receipts[r.receiptId].receipt.state))
    && (!r.Tidying? ==>
          Snapshot(d.receipts[r.receiptId], r.env) && r.env.receipt.opId == d.receipts[r.receiptId].receipt.opId)
    && (r.Planned? && r.plan in {Validate, FailBefore, MarkUnknown} ==> Unfinished(r.env.receipt.state))
    && (r.Planned? && r.plan == FailBefore ==> r.env.receipt.state == Accepted)
  }

  predicate Inv(c: Config, s: State) {
    && Receipts(s.d) && RecordBound(s.d)
    && (s.call.Some? ==> CallBound(c, s.d, s.call.value))
    && (s.startup.Some? ==> StartupBound(s.d, s.startup.value))
  }

  /** Saving a newer revision of a stored receipt keeps every other snapshot a snapshot. */
  lemma SaveKeeps(c: Config, s: State, id: ReceiptId, r: Receipt)
    requires Inv(c, s) && id in s.d.receipts && ValidReceipt(r) && r.opId == s.d.receipts[id].receipt.opId
    requires Unfinished(r.state) ==> Unfinished(s.d.receipts[id].receipt.state)
    ensures
      var s' := SaveReceipt(s, id, r, s.d.receipts[id].revision + 1);
      && Receipts(s'.d) && RecordBound(s'.d)
      && (s.startup.Some? ==> StartupBound(s'.d, s.startup.value))
      && (s.call.Some? ==> CallBound(c, s'.d, s.call.value))
  {
  }

  lemma StillWorking(c: Config, pc: Pc)
    ensures ReceiptPc(pc) ==> var pc' := AfterReceipt(c, pc); HasReceipt(pc) && !pc.SaveClaim? && HasReceipt(pc') && !pc'.SaveClaim?
    ensures TaskPc(pc) && AfterTask(c, pc).Some? && !pc.ProbeTask? ==>
      var pc' := AfterTask(c, pc).value; HasReceipt(pc) && !pc.SaveClaim? && HasReceipt(pc') && !pc'.SaveClaim?
  {
  }

  lemma WriteReceiptKeeps(c: Config, s: State, r: Receipt)
    requires Inv(c, s) && s.call.Some? && ReceiptPc(s.call.value.pc)
    requires CasOk(s.d, s.call.value.receiptId, s.call.value.env) && ValidReceipt(r) && r.opId == s.call.value.env.receipt.opId
    requires Unfinished(r.state) ==> Unfinished(s.call.value.env.receipt.state)
    ensures Inv(c, WriteReceipt(c, s, r))
  {
    StillWorking(c, s.call.value.pc);
    SaveKeeps(c, s, s.call.value.receiptId, r);
  }

  lemma WriteTaskKeeps(c: Config, s: State, t: Task)
    requires Inv(c, s) && s.call.Some? && TaskPc(s.call.value.pc)
    ensures Inv(c, WriteTask(c, s, t))
  {
    StillWorking(c, s.call.value.pc);
  }

  /** Rewriting the claimed record in place keeps the stores bound. */
  lemma RecordKeeps(c: Config, s: State, r: Record)
    requires Inv(c, s) && s.d.record.Some?
    requires
      var was := s.d.record.value;
      r.receiptId == was.receiptId && r.opId == was.opId && r.correlation == was.correlation
    ensures Inv(c, SaveRecord(s, r))
  {
  }

  lemma CommitKeeps(c: Config, s: State)
    requires Inv(c, s) && s.call.Some? && CommitPc(s.call.value.pc)
    requires s.call.value.pc.AuthCommit? || s.d.record.Some?
    ensures Inv(c, NextCommit(s))
  {
    if s.d.record.Some? {
      RecordKeeps(c, s, CommitRecord(s, s.call.value));
    }
  }

  lemma CreateKeeps(c: Config, s: State)
    requires Inv(c, s) && s.call.Some? && NextEnabled(c, s)
    requires s.call.value.pc.CreateTask? || s.call.value.pc.CreateReceipt? || s.call.value.pc.SaveClaim?
    ensures Inv(c, NextOther(c, s))
  {
    if s.call.value.pc.CreateTask? {
      TaskCreated(c, s);
    } else if s.call.value.pc.CreateReceipt? {
      ReceiptCreated(c, s);
    } else {
      ClaimSaved(c, s);
    }
    hide *;
  }

  lemma TaskCreated(c: Config, s: State)
    requires Inv(c, s) && s.call.Some? && NextEnabled(c, s) && s.call.value.pc.CreateTask?
    ensures Inv(c, NextOther(c, s))
  {
    hide Attempt, AttemptTask, Transition;
  }

  lemma ReceiptCreated(c: Config, s: State)
    requires Inv(c, s) && s.call.Some? && NextEnabled(c, s) && s.call.value.pc.CreateReceipt?
    ensures Inv(c, NextOther(c, s))
  {
    FreshReceipt(c, s, s.call.value.receiptId, s.call.value.opId);
    hide Attempt, AttemptTask, Transition, Receipts, RecordBound, StartupBound, ValidReceipt;
  }

  /** A new receipt for an operation that has none. */
  lemma FreshReceipt(c: Config, s: State, id: ReceiptId, opId: OpId)
    requires Inv(c, s) && id !in s.d.receipts && opId in s.d.tasks
    requires forall other :: other in s.d.receipts ==> s.d.receipts[other].receipt.opId != opId
    ensures
      var d' := s.d.(receipts := s.d.receipts[id := Envelope(NewReceipt(opId), 1)]);
      Receipts(d') && RecordBound(d') && (s.startup.Some? ==> StartupBound(d', s.startup.value))
  {
    hide CallBound, Snapshot;
  }

  lemma ClaimSaved(c: Config, s: State)
    requires Inv(c, s) && s.call.Some? && NextEnabled(c, s) && s.call.value.pc.SaveClaim?
    ensures Inv(c, NextOther(c, s))
  {
    hide Attempt, AttemptTask, Transition;
  }

  lemma ProbeReceiptKeeps(c: Config, s: State)
    requires Inv(c, s) && s.call.Some? && NextEnabled(c, s) && s.call.value.pc.ProbeReceipt?
    ensures Inv(c, NextOther(c, s))
  {
    var id := s.d.record.value.receiptId;
    var r := Transition(s.d.receipts[id].receipt, AppliedValidated, Some(s.d.record.value.opId), None, Some(true)).value;
    SaveKeeps(c, s, id, r);
  }

  lemma DeleteKeeps(c: Config, s: State)
    requires Inv(c, s) && s.call.Some? && DeletePc(s.call.value.pc)
    ensures Inv(c, NextDelete(s))
  {
  }

  lemma LadderKeeps(c: Config, s: State)
    requires Inv(c, s) && s.call.Some? && s.call.value.pc.Ladder?
    ensures Inv(c, NextLadder(c, s))
  {
  }

  lemma OtherKeeps(c: Config, s: State)
    requires Inv(c, s) && s.call.Some? && NextEnabled(c, s)
    requires
      var pc := s.call.value.pc;
      pc.Gate? || pc.ProbeResult? || pc.SaveResult? || pc.AuthResult? || pc.Materialize?
    ensures Inv(c, NextOther(c, s))
  {
    if s.call.value.pc.ProbeResult? {
      ProbeSaved(c, s);
    } else {
      ResultKeeps(c, s);
    }
    hide *;
  }

  lemma ProbeSaved(c: Config, s: State)
    requires Inv(c, s) && s.call.Some? && NextEnabled(c, s) && s.call.value.pc.ProbeResult?
    ensures Inv(c, NextOther(c, s))
  {
    hide Attempt, AttemptTask, Transition;
  }

  lemma ResultKeeps(c: Config, s: State)
    requires Inv(c, s) && s.call.Some? && NextEnabled(c, s)
    requires s.call.value.pc.Gate? || s.call.value.pc.SaveResult? || s.call.value.pc.AuthResult? || s.call.value.pc.Materialize?
    ensures Inv(c, NextOther(c, s))
  {
    hide Attempt, AttemptTask, Transition;
  }

  lemma NextKeeps(c: Config, s: State)
    requires Inv(c, s) && NextEnabled(c, s)
    ensures Inv(c, NextAction(c, s))
  {
    var pc := s.call.value.pc;
    if ReceiptPc(pc) {
      AttemptClimbs(c, s.call.value);
      WriteReceiptKeeps(c, s, Attempt(c, s.call.value).value);
    } else if TaskPc(pc) {
      WriteTaskKeeps(c, s, AttemptTask(s, s.call.value).value);
    } else if CommitPc(pc) {
      CommitKeeps(c, s);
    } else if pc.CreateTask? || pc.CreateReceipt? || pc.SaveClaim? {
      CreateKeeps(c, s);
    } else if pc.ProbeReceipt? {
      ProbeReceiptKeeps(c, s);
    } else if DeletePc(pc) {
      DeleteKeeps(c, s);
    } else if pc.Ladder? {
      LadderKeeps(c, s);
    } else {
      OtherKeeps(c, s);
    }
  }

  lemma SettleKeeps(c: Config, s: State, r: Receipt)
    requires Inv(c, s) && s.startup.Some? && s.startup.value.Planned?
    requires s.startup.value.plan in {Validate, FailBefore, MarkUnknown}
    requires CasOk(s.d, s.startup.value.receiptId, s.startup.value.env)
    requires ValidReceipt(r) && r.opId == s.startup.value.env.receipt.opId
    requires Unfinished(r.state) ==> r.state == AppliedUnvalidated && s.startup.value.plan == Validate
    ensures Inv(c, WriteSettled(s, r))
  {
    SaveKeeps(c, s, s.startup.value.receiptId, r);
  }

  lemma EnterKeeps(c: Config, s: State, step: Step)
    requires Inv(c, s) && s.call.None? && step.Enter?
    ensures Inv(c, EnterCall(c, s, step))
  {
  }

  lemma OperationKeeps(c: Config, s: State, step: Step)
    requires Inv(c, s) && s.call.Some? && EventStep(step) && OperationEnabled(c, s.call.value, step)
    ensures Inv(c, OperationEvent(s, step))
  {
  }

  lemma MoveKeeps(c: Config, s: State, step: Step)
    requires Inv(c, s) && MoveStep(step) && Enabled(c, s, step)
    ensures Inv(c, Do(c, s, step))
  {
  }

  lemma ActorKeeps(c: Config, s: State, step: Step)
    requires Inv(c, s) && ActorStep(step) && Enabled(c, s, step)
    ensures Inv(c, Do(c, s, step))
  {
  }

  lemma StepKeeps(c: Config, s: State, step: Step)
    requires Inv(c, s) && Enabled(c, s, step)
    ensures Inv(c, Do(c, s, step))
  {
    hide Inv, NextEnabled, NextAction, EnterCall, OperationEvent, WriteSettled;
    if step.Next? {
      NextKeeps(c, s);
    } else if step.Enter? {
      EnterKeeps(c, s, step);
    } else if step.Settle? {
      SettleClimbs(s.startup.value.env.receipt, s.startup.value.plan);
      SettleKeeps(c, s, SettleReceipt(s.startup.value.env.receipt, s.startup.value.plan).value);
    } else if EventStep(step) {
      OperationKeeps(c, s, step);
    } else if MoveStep(step) {
      MoveKeeps(c, s, step);
    } else {
      ActorKeeps(c, s, step);
    }
  }

  lemma {:induction false} RunKeeps(c: Config, s: State, steps: seq<Step>)
    requires Inv(c, s) && Runs(c, s, steps)
    ensures Inv(c, After(c, s, steps))
    decreases |steps|
  {
    if steps != [] {
      StepKeeps(c, s, steps[0]);
      RunKeeps(c, Do(c, s, steps[0]), steps[1..]);
    }
  }

  /** The stores are consistent in every reachable state. */
  lemma Holds(c: Config, s: State)
    requires Reachable(c, s)
    ensures Inv(c, s)
  {
    var steps :| Runs(c, INITIAL, steps) && After(c, INITIAL, steps) == s;
    RunKeeps(c, INITIAL, steps);
  }
}
