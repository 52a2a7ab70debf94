/** Start-up reconciliation is sound whatever durable state a crash of either executor left and
    however its reads and writes interleave with a running call: it calls an operation failed
    before its effect only if the operation was never invoked (and never will be), and validated
    only if the operation returned, recorded an authoritative result, or was found by a probe. */
module StartupSoundness {
  import opened Options
  import opened Outcomes
  import opened EffectMachine
  import StoreInvariant

  predicate CallSound(s: State, call: Call) {
    && (call.pc.CreateReceipt? ==> call.opId !in s.h.invoked && call.opId !in s.h.recoveredBefore)
    && (call.pc.SaveClaim? || call.pc.MarkApplying? ==> call.env.receipt.state == Accepted)
    && (call.pc.BeginTask? || call.pc.Gate? ==>
          && call.opId !in s.h.recoveredBefore
          && call.receiptId in s.d.receipts && s.d.receipts[call.receiptId].receipt.state != Accepted)
    && (call.pc.SaveResult? || call.pc.AuthResult? || call.boundary.authoritative.Some? ==> call.opId in s.h.evidence)
    && (Probing(call.pc) || call.pc.CreateTask? || call.pc.CreateReceipt? ==> call.boundary.authoritative.None?)
  }

  predicate Inv(s: State) {
    && s.d.results.Keys <= s.h.evidence
    && s.h.invoked <= s.d.tasks.Keys && s.h.recoveredBefore <= s.d.tasks.Keys
    && s.h.recoveredBefore !! s.h.invoked
    && s.h.recoveredValid <= s.h.evidence
    && (forall id :: id in s.d.receipts && s.d.receipts[id].receipt.state == Accepted ==>
          s.d.receipts[id].receipt.opId !in s.h.invoked && s.d.receipts[id].receipt.opId !in s.h.recoveredBefore)
    && (s.call.Some? ==> CallSound(s, s.call.value))
    && (s.startup.Some? && s.startup.value.Planned? && s.startup.value.plan == Validate ==>
          s.startup.value.env.receipt.opId in s.h.evidence)
  }

  lemma WriteReceiptKeeps(c: Config, s: State, r: Receipt)
    requires StoreInvariant.Inv(c, s) && Inv(s) && s.call.Some? && ReceiptPc(s.call.value.pc)
    requires CasOk(s.d, s.call.value.receiptId, s.call.value.env)
    requires r.opId == s.call.value.env.receipt.opId && r.state != Accepted
    ensures Inv(WriteReceipt(c, s, r))
  {
    StoreInvariant.StillWorking(c, s.call.value.pc);
  }

  /** After a task write the call stands at its gate, commits, or forgets its record. */
  lemma AfterTaskIs(c: Config, pc: Pc)
    requires TaskPc(pc)
    ensures
      AfterTask(c, pc).Some? ==>
        var after := AfterTask(c, pc).value;
        && ((after.Gate? && pc.BeginTask?) || CommitPc(after) || (DeletePc(after) && !Probing(after)))
        && (Probing(after) <==> Probing(pc))
  {
  }

  lemma WriteTaskKeeps(c: Config, s: State, t: Task)
    requires StoreInvariant.Inv(c, s) && Inv(s) && s.call.Some? && TaskPc(s.call.value.pc)
    ensures Inv(WriteTask(c, s, t))
  {
    AfterTaskIs(c, s.call.value.pc);
    hide AfterTask, TaskPc;
  }

  lemma CommitKeeps(c: Config, s: State)
    requires Inv(s) && s.call.Some? && CommitPc(s.call.value.pc)
    requires s.call.value.pc.AuthCommit? || s.d.record.Some?
    ensures Inv(NextCommit(s))
  {
  }

  lemma DeleteKeeps(s: State)
    requires Inv(s) && s.call.Some? && DeletePc(s.call.value.pc)
    ensures Inv(NextDelete(s))
  {
  }

  lemma LadderKeeps(c: Config, s: State)
    requires Inv(s) && s.call.Some? && s.call.value.pc.Ladder?
    ensures Inv(NextLadder(c, s))
  {
  }

  lemma CreateKeeps(c: Config, s: State)
    requires StoreInvariant.Inv(c, s) && Inv(s) && NextEnabled(c, s)
    requires s.call.value.pc.CreateTask? || s.call.value.pc.CreateReceipt? || s.call.value.pc.SaveClaim?
    ensures Inv(NextOther(c, s))
  {
  }

  lemma OtherKeeps(c: Config, s: State)
    requires StoreInvariant.Inv(c, s) && Inv(s) && NextEnabled(c, s)
    requires
      var pc := s.call.value.pc;
      pc.Gate? || pc.ProbeResult? || pc.SaveResult? || pc.AuthResult? || pc.Materialize?
    ensures Inv(NextOther(c, s))
  {
    if s.call.value.pc.ProbeResult? {
      ProbeSaved(c, s);
    } else if s.call.value.pc.Gate? {
      GateKeeps(c, s);
    } else {
      ResultKeeps(c, s);
    }
    hide *;
  }

  lemma ProbeSaved(c: Config, s: State)
    requires StoreInvariant.Inv(c, s) && Inv(s) && NextEnabled(c, s) && s.call.value.pc.ProbeResult?
    ensures Inv(NextOther(c, s))
  {
    hide Attempt, AttemptTask, Transition;
  }

  lemma GateKeeps(c: Config, s: State)
    requires StoreInvariant.Inv(c, s) && Inv(s) && NextEnabled(c, s) && s.call.value.pc.Gate?
    ensures Inv(NextOther(c, s))
  {
    hide Attempt, AttemptTask, Transition;
  }

  lemma ResultKeeps(c: Config, s: State)
    requires StoreInvariant.Inv(c, s) && Inv(s) && NextEnabled(c, s)
    requires s.call.value.pc.SaveResult? || s.call.value.pc.AuthResult? || s.call.value.pc.Materialize?
    ensures Inv(NextOther(c, s))
  {
    hide Attempt, AttemptTask, Transition;
  }

  lemma ProbeReceiptKeeps(c: Config, s: State)
    requires StoreInvariant.Inv(c, s) && Inv(s) && NextEnabled(c, s) && s.call.value.pc.ProbeReceipt?
    ensures Inv(NextOther(c, s))
  {
  }

  lemma NextKeeps(c: Config, s: State)
    requires StoreInvariant.Inv(c, s) && Inv(s) && NextEnabled(c, s)
    ensures Inv(NextAction(c, s))
  {
    var pc := s.call.value.pc;
    if ReceiptPc(pc) {
      AttemptClimbs(c, s.call.value);
      AttemptNeverAccepts(c, s.call.value);
      WriteReceiptKeeps(c, s, Attempt(c, s.call.value).value);
    } else if TaskPc(pc) {
      WriteTaskKeeps(c, s, AttemptTask(s, s.call.value).value);
    } else if CommitPc(pc) {
      CommitKeeps(c, s);
    } else if DeletePc(pc) {
      DeleteKeeps(s);
    } else if pc.Ladder? {
      LadderKeeps(c, s);
    } else if pc.CreateTask? || pc.CreateReceipt? || pc.SaveClaim? {
      CreateKeeps(c, s);
    } else if pc.ProbeReceipt? {
      ProbeReceiptKeeps(c, s);
    } else {
      OtherKeeps(c, s);
    }
  }

  lemma SettleKeeps(c: Config, s: State, r: Receipt)
    requires StoreInvariant.Inv(c, s) && Inv(s) && SettleEnabled(s)
    requires SettleReceipt(s.startup.value.env.receipt, s.startup.value.plan) == Some(r)
    ensures Inv(WriteSettled(s, r))
  {
    SettleClimbs(s.startup.value.env.receipt, s.startup.value.plan);
    SettlesAs(s.startup.value.env.receipt, s.startup.value.plan);
    hide SettleReceipt, ValidReceipt, CallSound;
    assert s.call.Some? ==> CallSound(WriteSettled(s, r), s.call.value) by {
      if s.call.Some? {
        CallStaysSound(c, s, r);
      }
    }
  }

  lemma SettlesAs(r: Receipt, plan: Plan)
    requires SettleReceipt(r, plan).Some?
    ensures SettleReceipt(r, plan).value.state != Accepted && plan in {Validate, FailBefore, MarkUnknown}
  {
  }

  lemma CallStaysSound(c: Config, s: State, r: Receipt)
    requires StoreInvariant.Inv(c, s) && Inv(s) && SettleEnabled(s) && s.call.Some? && r.state != Accepted
    requires s.startup.value.plan == FailBefore ==> s.startup.value.env.receipt.state == Accepted
    requires SettleReceipt(s.startup.value.env.receipt, s.startup.value.plan) == Some(r)
    ensures CallSound(WriteSettled(s, r), s.call.value)
  {
  }

  lemma EnterKeeps(c: Config, s: State, step: Step)
    requires Inv(s) && s.call.None? && step.Enter?
    ensures Inv(EnterCall(c, s, step))
  {
  }

  lemma OperationKeeps(c: Config, s: State, step: Step)
    requires Inv(s) && s.call.Some? && EventStep(step) && OperationEnabled(c, s.call.value, step)
    ensures Inv(OperationEvent(s, step))
  {
  }

  lemma MoveKeeps(c: Config, s: State, step: Step)
    requires Inv(s) && MoveStep(step) && Enabled(c, s, step)
    ensures Inv(Do(c, s, step))
  {
  }

  lemma ActorKeeps(c: Config, s: State, step: Step)
    requires StoreInvariant.Inv(c, s) && Inv(s) && ActorStep(step) && Enabled(c, s, step)
    ensures Inv(Do(c, s, step))
  {
  }

  lemma StepKeeps(c: Config, s: State, step: Step)
    requires StoreInvariant.Inv(c, s) && Inv(s) && Enabled(c, s, step)
    ensures Inv(Do(c, s, step))
  {
    hide Inv, NextEnabled, NextAction, EnterCall, OperationEvent, WriteSettled;
    if step.Next? {
      NextKeeps(c, s);
    } else if step.Enter? {
      EnterKeeps(c, s, step);
    } else if step.Settle? {
      SettleKeeps(c, s, SettleReceipt(s.startup.value.env.receipt, s.startup.value.plan).value);
    } else if EventStep(step) {
      OperationKeeps(c, s, step);
    } else if MoveStep(step) {
      MoveKeeps(c, s, step);
    } else {
      ActorKeeps(c, s, step);
    }
  }

  lemma {:induction false} RunKeeps(c: Config, s: State, steps: seq<Step>)
    requires StoreInvariant.Inv(c, s) && Inv(s) && Runs(c, s, steps)
    ensures StoreInvariant.Inv(c, After(c, s, steps)) && Inv(After(c, s, steps))
    decreases |steps|
  {
    if steps != [] {
      StoreInvariant.StepKeeps(c, s, steps[0]);
      StepKeeps(c, s, steps[0]);
      RunKeeps(c, Do(c, s, steps[0]), steps[1..]);
    }
  }

  /** Soundness of start-up reconciliation in every reachable state. */
  lemma ReconciliationIsSound(c: Config, s: State)
    requires Reachable(c, s)
    ensures s.h.recoveredBefore !! s.h.invoked
    ensures s.h.recoveredValid <= s.h.evidence
    ensures s.d.results.Keys <= s.h.evidence
  {
    var steps :| Runs(c, INITIAL, steps) && After(c, INITIAL, steps) == s;
    RunKeeps(c, INITIAL, steps);
  }
}
