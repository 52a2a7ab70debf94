/** What a start-up pass meets in the stores that runs leave behind: when it raises, and that it
    otherwise settles. */
module SettledStores {
  import opened Options
  import opened Outcomes
  import opened EffectMachine
  import opened ReconcilePass
  import StoreInvariant
  import StartupSoundness

  predicate Unreconciled(c: Config) {
    !c.keyed || c.reconciler == Absent
  }

  /** An accepted receipt has not crossed its boundary; and when nobody probes, only an invoked
      operation can leave evidence. */
  predicate Inv(c: Config, s: State) {
    && (forall id :: id in s.d.receipts && s.d.receipts[id].receipt.state == Accepted ==> !s.d.receipts[id].receipt.crossed)
    && (Unreconciled(c) ==>
          && s.h.evidence <= s.h.invoked
          && (s.call.Some? ==>
                && !Probing(s.call.value.pc)
                && (s.call.value.pc.InOperation? || s.call.value.pc.SaveResult? ==> s.call.value.opId in s.h.invoked)))
  }

  lemma ReceiptKeeps(c: Config, s: State, r: Receipt)
    requires Inv(c, s) && s.call.Some? && ReceiptPc(s.call.value.pc) && r.state != Accepted
    ensures Inv(c, WriteReceipt(c, s, r))
  {
  }

  lemma TaskKeeps(c: Config, s: State, t: Task)
    requires Inv(c, s) && s.call.Some? && TaskPc(s.call.value.pc)
    ensures Inv(c, WriteTask(c, s, t))
  {
  }

  lemma CommitKeeps(c: Config, s: State)
    requires Inv(c, s) && s.call.Some? && CommitPc(s.call.value.pc)
    requires s.call.value.pc.AuthCommit? || s.d.record.Some?
    ensures Inv(c, NextCommit(s))
  {
    hide CommitRecord, Owns;
  }

  lemma LadderKeeps(c: Config, s: State)
    requires Inv(c, s) && s.call.Some?
    ensures Inv(c, NextLadder(c, s))
  {
    hide Owns;
  }

  lemma OtherKeeps(c: Config, s: State)
    requires Inv(c, s) && NextEnabled(c, s)
    requires var pc := s.call.value.pc; !ReceiptPc(pc) && !TaskPc(pc) && !CommitPc(pc) && !DeletePc(pc) && !pc.Ladder?
    ensures Inv(c, NextOther(c, s))
  {
    hide Attempt, AttemptTask;
  }

  lemma NextKeeps(c: Config, s: State)
    requires Inv(c, s) && NextEnabled(c, s)
    ensures Inv(c, NextAction(c, s))
  {
    var pc := s.call.value.pc;
    if ReceiptPc(pc) {
      AttemptNeverAccepts(c, s.call.value);
      hide Attempt, WriteReceipt, Inv;
      ReceiptKeeps(c, s, Attempt(c, s.call.value).value);
    } else if TaskPc(pc) {
      hide Attempt, AttemptTask, WriteTask, Inv;
      TaskKeeps(c, s, AttemptTask(s, s.call.value).value);
    } else if CommitPc(pc) {
      hide NextCommit, Inv;
      CommitKeeps(c, s);
    } else if pc.Ladder? {
      hide NextLadder, Inv;
      LadderKeeps(c, s);
    } else if !DeletePc(pc) {
      hide NextOther, Inv;
      OtherKeeps(c, s);
    }
  }

  lemma SettleKeeps(c: Config, s: State)
    requires Inv(c, s) && SettleEnabled(s)
    ensures Inv(c, SettleAction(s))
  {
    SettledIsNotAccepted(s.startup.value.env.receipt, s.startup.value.plan);
    hide SettleReceipt;
  }

  lemma SettledIsNotAccepted(r: Receipt, plan: Plan)
    requires SettleReceipt(r, plan).Some?
    ensures SettleReceipt(r, plan).value.state != Accepted
  {
  }

  lemma EnterKeeps(c: Config, s: State, step: Step)
    requires Inv(c, s) && s.call.None? && step.Enter?
    ensures Inv(c, EnterCall(c, s, step))
  {
  }

  lemma OperationKeeps(c: Config, s: State, step: Step)
    requires Inv(c, s) && s.call.Some? && EventStep(step) && OperationEnabled(c, s.call.value, step)
    ensures Inv(c, OperationEvent(s, step))
  {
  }

  lemma OtherStepKeeps(c: Config, s: State, step: Step)
    requires Inv(c, s) && Enabled(c, s, step) && (ActorStep(step) || MoveStep(step))
    ensures Inv(c, Do(c, s, step))
  {
    hide NextAction, NextEnabled, SettleAction, SettleEnabled, EnterCall, OperationEvent, OperationEnabled, TidyTask, Decide;
  }

  lemma StepKeeps(c: Config, s: State, step: Step)
    requires Inv(c, s) && Enabled(c, s, step)
    ensures Inv(c, Do(c, s, step))
  {
    hide Inv, NextAction, NextEnabled, SettleAction, SettleEnabled, EnterCall, OperationEvent, TidyTask;
    if step.Next? {
      NextKeeps(c, s);
    } else if step.Settle? {
      SettleKeeps(c, s);
    } else if step.Enter? {
      EnterKeeps(c, s, step);
    } else if EventStep(step) {
      OperationKeeps(c, s, step);
    } else {
      OtherStepKeeps(c, s, step);
    }
  }

  lemma {:induction false} RunKeeps(c: Config, s: State, steps: seq<Step>)
    requires Inv(c, s) && Runs(c, s, steps)
    ensures Inv(c, After(c, s, steps))
    decreases |steps|
  {
    hide Inv, Enabled, Do;
    if steps != [] {
      StepKeeps(c, s, steps[0]);
      RunKeeps(c, Do(c, s, steps[0]), steps[1..]);
    }
  }

  function StoresOf(d: Durable): Stores {
    Stores(d.receipts, d.tasks, d.results.Keys)
  }

  /** No living task was asked to cancel; the executors create their tasks without cancel support. */
  predicate NoCancellation(d: Durable) {
    forall op :: op in d.tasks && Live(d.tasks[op].state) ==> !d.tasks[op].cancelRequested
  }

  /** An accepted receipt whose operation has a result, not deferred behind a living task. */
  predicate Stranded(p: Pass, st: Stores, id: ReceiptId)
    requires id in st.receipts
  {
    var r := st.receipts[id].receipt;
    r.state == Accepted && r.opId in st.results && !Spared(p, st, id)
  }

  lemma ReachableIsSound(c: Config, s: State)
    requires Reachable(c, s)
    ensures Sound(StoresOf(s.d)) && Inv(c, s)
  {
    var steps :| Runs(c, INITIAL, steps) && After(c, INITIAL, steps) == s;
    RunKeeps(c, INITIAL, steps);
    StoreInvariant.Holds(c, s);
  }

  lemma PoisonedIsStranded(c: Config, s: State, p: Pass, id: ReceiptId)
    requires Inv(c, s) && NoCancellation(s.d) && id in s.d.receipts
    ensures Poisoned(p, StoresOf(s.d), id) <==> Stranded(p, StoresOf(s.d), id)
  {
  }

  predicate AnyStranded(p: Pass, st: Stores, page: seq<ReceiptId>)
    requires forall id :: id in page ==> id in st.receipts
  {
    exists id :: id in page && Stranded(p, st, id)
  }

  /** A pass over the receipts that any run of any caller has left, at any moment, raises if and only
      if its page holds an accepted receipt with a saved result that is not deferred.  Otherwise it
      counts every receipt once, decides each one, and leaves nothing for a second pass to do. */
  lemma PassAfterAnyRun(c: Config, s: State, p: Pass, page: seq<ReceiptId>)
    requires Reachable(c, s) && NoCancellation(s.d)
    requires Distinct(page) && forall id :: id in page ==> id in s.d.receipts
    ensures Run(p, StoresOf(s.d), page, EMPTY).1.None? <==> AnyStranded(p, StoresOf(s.d), page)
    ensures Run(p, StoresOf(s.d), page, EMPTY).1.Some? ==>
      Conserved(p, StoresOf(s.d), page, Run(p, StoresOf(s.d), page, EMPTY).0, Run(p, StoresOf(s.d), page, EMPTY).1.value)
  {
    hide Reachable, Run, Conserved, Sound, Stranded, Poisoned, Inv, NoCancellation;
    ReachableIsSound(c, s);
    PassConservesAndSettles(p, StoresOf(s.d), page);
    forall id | id in page
      ensures Poisoned(p, StoresOf(s.d), id) <==> Stranded(p, StoresOf(s.d), id)
    {
      PoisonedIsStranded(c, s, p, id);
    }
  }

  lemma AcceptedIsNotInvoked(c: Config, s: State)
    requires Reachable(c, s)
    ensures forall id :: id in s.d.receipts && s.d.receipts[id].receipt.state == Accepted ==> s.d.receipts[id].receipt.opId !in s.h.invoked
  {
    var steps :| Runs(c, INITIAL, steps) && After(c, INITIAL, steps) == s;
    StartupSoundness.RunKeeps(c, INITIAL, steps);
  }

  /** Without a reconciler no run leaves such a receipt, so no pass ever raises. */
  lemma UnreconciledNeverStrands(c: Config, s: State, p: Pass, page: seq<ReceiptId>)
    requires Unreconciled(c) && Reachable(c, s) && NoCancellation(s.d)
    requires Distinct(page) && forall id :: id in page ==> id in s.d.receipts
    ensures !AnyStranded(p, StoresOf(s.d), page) && Run(p, StoresOf(s.d), page, EMPTY).1.Some?
  {
    hide Reachable, Run, PlanFor;
    ReachableIsSound(c, s);
    AcceptedIsNotInvoked(c, s);
    StartupSoundness.ReconciliationIsSound(c, s);
    PassAfterAnyRun(c, s, p, page);
  }
}
