/** Where probes answer only when the key's own effect stands, a guarded caller never leaves an accepted
    receipt with a result, so no start-up pass over its receipts raises; any other caller with a
    reconciler can leave one even then. */
module HonestProbes {
  import opened Options
  import opened Outcomes
  import opened EffectMachine
  import opened Traces
  import opened ReconcilePass
  import opened SettledStores
  import opened PoisonedPass
  import AtMostOnce
  import StartupSoundness
  import StoreInvariant

  /** An effect that stands belongs to the operation in the record, and evidence to invoked operations. */
  predicate Honest(s: State) {
    !s.h.misled ==>
      && s.h.evidence <= s.h.invoked
      && (s.h.effects > 0 ==> s.d.record.Some? && s.d.record.value.opId in s.h.invoked)
      && (s.call.Some? ==> CallHonest(s, s.call.value))
  }

  predicate CallHonest(s: State, call: Call) {
    && (call.pc.InOperation? || call.pc.SaveResult? ==> call.opId in s.h.invoked)
    && (call.pc.ProbeResult? ==> s.d.record.Some? && s.d.record.value.opId in s.h.invoked)
  }

  predicate Inv(c: Config, s: State) {
    StoreInvariant.Inv(c, s) && AtMostOnce.Inv(s) && Honest(s)
  }

  lemma ReceiptKeeps(c: Config, s: State, r: Receipt)
    requires Honest(s) && s.call.Some? && ReceiptPc(s.call.value.pc)
    ensures Honest(WriteReceipt(c, s, r))
  {
  }

  lemma TaskKeeps(c: Config, s: State, t: Task)
    requires Honest(s) && s.call.Some? && TaskPc(s.call.value.pc)
    ensures Honest(WriteTask(c, s, t))
  {
  }

  lemma CommitKeeps(c: Config, s: State)
    requires Honest(s) && s.call.Some? && CommitPc(s.call.value.pc)
    requires s.call.value.pc.AuthCommit? || s.d.record.Some?
    ensures Honest(NextCommit(s))
  {
    hide Owns;
  }

  lemma LadderKeeps(c: Config, s: State)
    requires Honest(s) && s.call.Some?
    ensures Honest(NextLadder(c, s))
  {
    hide Owns;
  }

  lemma DeleteKeeps(s: State)
    requires AtMostOnce.Inv(s) && Honest(s) && s.call.Some? && DeletePc(s.call.value.pc)
    ensures Honest(NextDelete(s))
  {
  }

  lemma OtherKeeps(c: Config, s: State)
    requires AtMostOnce.Inv(s) && Honest(s) && NextEnabled(c, s)
    requires var pc := s.call.value.pc; !ReceiptPc(pc) && !TaskPc(pc) && !CommitPc(pc) && !DeletePc(pc) && !pc.Ladder?
    ensures Honest(NextOther(c, s))
  {
    hide Attempt, AttemptTask, Owns;
  }

  lemma NextKeeps(c: Config, s: State)
    requires AtMostOnce.Inv(s) && Honest(s) && NextEnabled(c, s)
    ensures Honest(NextAction(c, s))
  {
    var pc := s.call.value.pc;
    hide Attempt, AttemptTask, WriteReceipt, WriteTask, NextCommit, NextLadder, NextOther, NextDelete, Honest, AtMostOnce.Inv;
    if ReceiptPc(pc) {
      ReceiptKeeps(c, s, Attempt(c, s.call.value).value);
    } else if TaskPc(pc) {
      TaskKeeps(c, s, AttemptTask(s, s.call.value).value);
    } else if CommitPc(pc) {
      CommitKeeps(c, s);
    } else if pc.Ladder? {
      LadderKeeps(c, s);
    } else if DeletePc(pc) {
      DeleteKeeps(s);
    } else {
      OtherKeeps(c, s);
    }
  }

  /** The effect is applied by the operation that the record names. */
  lemma OperationKeeps(c: Config, s: State, step: Step)
    requires c.keyed && StoreInvariant.Inv(c, s) && Honest(s) && s.call.Some? && EventStep(step) && OperationEnabled(c, s.call.value, step)
    ensures Honest(OperationEvent(s, step))
  {
    assert StoreInvariant.Claimed(s.d, s.call.value);
  }

  lemma EnterKeeps(c: Config, s: State, step: Step)
    requires Honest(s) && s.call.None? && step.Enter?
    ensures Honest(EnterCall(c, s, step))
  {
  }

  lemma OtherStepKeeps(c: Config, s: State, step: Step)
    requires Honest(s) && Enabled(c, s, step) && (ActorStep(step) || MoveStep(step) || step.Settle?)
    ensures Honest(Do(c, s, step))
  {
    hide NextAction, NextEnabled, SettleReceipt, EnterCall, OperationEvent, OperationEnabled, TidyTask, Decide;
  }

  lemma StepKeeps(c: Config, s: State, step: Step)
    requires AtMostOnce.Guarded(c) && Inv(c, s) && Enabled(c, s, step)
    ensures Inv(c, Do(c, s, step))
  {
    StoreInvariant.StepKeeps(c, s, step);
    AtMostOnce.StepKeeps(c, s, step);
    hide Honest, StoreInvariant.Inv, AtMostOnce.Inv, NextAction, NextEnabled, SettleAction, SettleEnabled, EnterCall, OperationEvent, TidyTask;
    if step.Next? {
      NextKeeps(c, s);
    } else if step.Enter? {
      EnterKeeps(c, s, step);
    } else if EventStep(step) {
      OperationKeeps(c, s, step);
    } else {
      OtherStepKeeps(c, s, step);
    }
  }

  lemma {:induction false} RunKeeps(c: Config, s: State, steps: seq<Step>)
    requires AtMostOnce.Guarded(c) && Inv(c, s) && Runs(c, s, steps)
    ensures Inv(c, After(c, s, steps))
    decreases |steps|
  {
    hide Inv, Enabled, Do;
    if steps != [] {
      StepKeeps(c, s, steps[0]);
      RunKeeps(c, Do(c, s, steps[0]), steps[1..]);
    }
  }

  lemma EvidenceIsOwn(c: Config, s: State)
    requires AtMostOnce.Guarded(c) && Reachable(c, s) && !s.h.misled
    ensures s.h.evidence <= s.h.invoked
  {
    var steps :| Runs(c, INITIAL, steps) && After(c, INITIAL, steps) == s;
    RunKeeps(c, INITIAL, steps);
  }

  /** An accepted receipt with a result. */
  ghost predicate Strands(d: Durable) {
    exists id :: StrandedAt(d, id)
  }

  lemma HonestNeverStrands(c: Config, s: State)
    requires AtMostOnce.Guarded(c) || Unreconciled(c)
    requires Reachable(c, s) && !s.h.misled
    ensures forall id :: id in s.d.receipts && s.d.receipts[id].receipt.state == Accepted ==> s.d.receipts[id].receipt.opId !in s.d.results
  {
    hide Reachable;
    AcceptedIsNotInvoked(c, s);
    StartupSoundness.ReconciliationIsSound(c, s);
    if Unreconciled(c) {
      ReachableIsSound(c, s);
    } else {
      EvidenceIsOwn(c, s);
    }
  }

  /** So no start-up pass raises, absent cancellation requests. */
  lemma HonestPassNeverRaises(c: Config, s: State, p: Pass, page: seq<ReceiptId>)
    requires AtMostOnce.Guarded(c) && Reachable(c, s) && !s.h.misled && NoCancellation(s.d)
    requires Distinct(page) && forall id :: id in page ==> id in s.d.receipts
    ensures Run(p, StoresOf(s.d), page, EMPTY).1.Some?
  {
    hide Reachable, Run, PlanFor, NoCancellation, AtMostOnce.Guarded, Conserved;
    HonestNeverStrands(c, s);
    PassAfterAnyRun(c, s, p, page);
  }

  /** An unguarded caller forgets an effect, or is told that there is none; its second claim dies, and the
      retry honestly finds the effect of the first. */
  lemma ForgottenEffectStrands(c: Config) returns (s: State)
    requires c.keyed && c.reconciler != Absent && !AtMostOnce.Guarded(c)
    ensures Reachable(c, s) && !s.h.misled && StrandedAt(s.d, 1)
  {
    hide Reachable;
    s := AtMostOnce.SecondClaim(c);
    s := StopStep(c, s);
    var r := s.d.record.value;
    s := TickStep(c, s, if r.updatedAt + c.staleSeconds + 1 > s.now then r.updatedAt + c.staleSeconds + 1 - s.now else 0);
    s := EnterStep(c, s, 0, None, 2, 2, 2);
    s := ProbedStep(c, s, Some(7));
    s := SaveFound(c, s);
  }

  /** Among runs whose probes are honest, none ever strands a receipt exactly for guarded callers and
      callers without a reconciler. */
  lemma NeverStrandsIff(c: Config)
    ensures (forall s :: Reachable(c, s) && !s.h.misled ==> !Strands(s.d)) <==> AtMostOnce.Guarded(c) || Unreconciled(c)
  {
    hide Reachable, AtMostOnce.Guarded;
    if AtMostOnce.Guarded(c) || Unreconciled(c) {
      forall s | Reachable(c, s) && !s.h.misled
        ensures !Strands(s.d)
      {
        HonestNeverStrands(c, s);
      }
    } else {
      var s := ForgottenEffectStrands(c);
      assert Strands(s.d);
    }
  }
}
