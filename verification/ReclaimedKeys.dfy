/** Keys that a later call claims afresh, so that their operation is called again, and keys about which
    nobody ever asks again: together with the keys whose caller is always told what happened, these are
    all undecided keys. */
module ReclaimedKeys {
  import opened Options
  import opened Outcomes
  import opened EffectMachine
  import opened HopelessKeys
  import opened Continuations
  import StoreInvariant

  /** The record is in progress or uncertain, and nobody holds the key's lock. */
  predicate Open(s: State) {
    s.call.None? && s.d.record.Some? && s.d.record.value.state != Completed
  }

  /** A stale retry claims the key again: nobody is asked about a call in progress that is not a local
      mutation, or the answer is that nothing happened. */
  predicate Reclaimable(c: Config, s: State)
    requires s.d.record.Some?
  {
    match c.reconciler
    case Absent => !c.local && s.d.record.value.state == InProgress
    case NeverMisses => false
    case Truthful => s.h.effects == 0
    case Blind => true
  }

  // ----- a fresh claim runs to its commit -----

  /** An identity that no store holds. */
  lemma {:induction false} Above(ids: set<nat>) returns (n: nat)
    ensures forall i :: i in ids ==> i < n
    decreases |ids|
  {
    if ids == {} {
      n := 0;
    } else {
      var i :| i in ids;
      n := Above(ids - {i});
      assert forall j :: j in ids ==> j == i || j in ids - {i};
      n := if n <= i then i + 1 else n;
    }
  }

  /** The call stands at `pc` with the receipt and the task state it needs there. */
  predicate At(s: State, pc: Pc, state: ReceiptState, task: TaskState) {
    && s.call.Some? && s.call.value.pc == pc
    && var call := s.call.value;
       && ValidReceipt(call.env.receipt) && call.env.receipt.state == state
       && CasOk(s.d, call.receiptId, call.env) && Owns(s.d, call)
       && call.opId in s.d.tasks && s.d.tasks[call.opId].state == task
  }

  predicate Unclaimed(s: State) {
    && s.call.Some? && s.call.value.pc.CreateTask?
    && s.call.value.opId !in s.d.tasks && s.call.value.receiptId !in s.d.receipts
  }

  lemma TaskStage(c: Config, s: State)
    requires Unclaimed(s)
    ensures NextEnabled(c, s)
    ensures
      var call := s.call.value;
      NextAction(c, s) == Goto(SaveTask(s, call.opId, NewTask(call.epoch)), CreateReceipt)
  {
  }

  lemma ReceiptStage(c: Config, s: State)
    requires c.keyed && s.call.Some? && s.call.value.pc.CreateReceipt? && s.call.value.receiptId !in s.d.receipts
    ensures NextEnabled(c, s)
    ensures
      var call, env := s.call.value, Envelope(NewReceipt(s.call.value.opId), 1);
      NextAction(c, s) == SaveReceipt(s, call.receiptId, env.receipt, 1).(call := Some(call.(env := env, pc := SaveClaim)))
  {
  }

  lemma RecordStage(c: Config, s: State)
    requires s.call.Some? && s.call.value.pc.SaveClaim?
    requires s.call.value.env == Envelope(NewReceipt(s.call.value.opId), 1)
    requires s.call.value.receiptId in s.d.receipts && s.d.receipts[s.call.value.receiptId] == s.call.value.env
    requires s.call.value.opId in s.d.tasks && s.d.tasks[s.call.value.opId].state == Pending
    ensures NextEnabled(c, s) && At(NextAction(c, s), MarkApplying, Accepted, Pending) && Unmoved(s, NextAction(c, s))
  {
  }

  lemma ApplyingStage(c: Config, s: State)
    requires At(s, MarkApplying, Accepted, Pending)
    ensures NextEnabled(c, s) && At(NextAction(c, s), BeginTask, Applying, Pending) && Unmoved(s, NextAction(c, s))
  {
  }

  lemma BeginStage(c: Config, s: State)
    requires At(s, BeginTask, Applying, Pending)
    ensures NextEnabled(c, s) && At(NextAction(c, s), Gate, Applying, Running) && Unmoved(s, NextAction(c, s))
  {
  }

  lemma GateStage(c: Config, s: State)
    requires At(s, Gate, Applying, Running)
    ensures NextEnabled(c, s) && At(NextAction(c, s), InOperation, Applying, Running)
    ensures NextAction(c, s).h.invocations == s.h.invocations + 1
  {
  }

  lemma ReturnStage(c: Config, s: State, v: Value)
    requires At(s, InOperation, Applying, Running)
    ensures Enabled(c, s, Return(v)) && At(Do(c, s, Return(v)), SaveResult(v), Applying, Running)
    ensures Unmoved(s, Do(c, s, Return(v)))
  {
  }

  lemma ResultStage(c: Config, s: State, v: Value)
    requires At(s, SaveResult(v), Applying, Running)
    ensures NextEnabled(c, s) && At(NextAction(c, s), MarkUnvalidated(v), Applying, Running) && Unmoved(s, NextAction(c, s))
  {
  }

  lemma AppliedStage(c: Config, s: State, v: Value)
    requires c.keyed && At(s, MarkUnvalidated(v), Applying, Running)
    ensures NextEnabled(c, s) && At(NextAction(c, s), CommitDurable(v), AppliedUnvalidated, Running) && Unmoved(s, NextAction(c, s))
  {
  }

  lemma CommitStage(c: Config, s: State, v: Value)
    requires At(s, CommitDurable(v), AppliedUnvalidated, Running)
    ensures NextEnabled(c, s) && Done(NextAction(c, s).d) && NextAction(c, s).d.record.value.result == Some(DurableForm(v))
    ensures Unmoved(s, NextAction(c, s))
  {
  }

  lemma LeadsNext(honest: bool, c: Config, s: State, s1: State) returns (s2: State)
    requires Leads(honest, c, s, s1) && StoreInvariant.Inv(c, s1) && NextEnabled(c, s1)
    ensures s2 == NextAction(c, s1) && Leads(honest, c, s, s2) && StoreInvariant.Inv(c, s2)
  {
    hide NextEnabled, NextAction, Leads, StoreInvariant.Inv;
    s2 := LeadsStep(honest, c, s, s1, Next);
  }

  lemma LeadsToGate(honest: bool, c: Config, s: State, s1: State) returns (s2: State)
    requires c.keyed && Leads(honest, c, s, s1) && StoreInvariant.Inv(c, s1) && Unclaimed(s1)
    ensures Leads(honest, c, s, s2) && StoreInvariant.Inv(c, s2) && At(s2, Gate, Applying, Running) && Unmoved(s1, s2)
  {
    hide NextEnabled, NextAction, Leads, StoreInvariant.Inv, At;
    TaskStage(c, s1);
    s2 := LeadsNext(honest, c, s, s1);
    ReceiptStage(c, s2);
    s2 := LeadsNext(honest, c, s, s2);
    RecordStage(c, s2);
    s2 := LeadsNext(honest, c, s, s2);
    ApplyingStage(c, s2);
    s2 := LeadsNext(honest, c, s, s2);
    BeginStage(c, s2);
    s2 := LeadsNext(honest, c, s, s2);
  }

  /** A fresh claim calls the operation and completes the record with what it returns. */
  lemma LeadsThroughClaim(honest: bool, c: Config, s: State, s1: State, v: Value) returns (s2: State)
    requires c.keyed && Leads(honest, c, s, s1) && StoreInvariant.Inv(c, s1) && Unclaimed(s1)
    ensures Leads(honest, c, s, s2) && Done(s2.d) && s2.d.record.value.result == Some(DurableForm(v))
    ensures s2.h.invocations == s1.h.invocations + 1
  {
    s2 := LeadsToGate(honest, c, s, s1);
    hide NextEnabled, NextAction, Leads, StoreInvariant.Inv, At, Do, Enabled;
    GateStage(c, s2);
    s2 := LeadsNext(honest, c, s, s2);
    ReturnStage(c, s2, v);
    assert Fair(honest, s2, Return(v));
    s2 := LeadsStep(honest, c, s, s2, Return(v));
    ResultStage(c, s2, v);
    s2 := LeadsNext(honest, c, s, s2);
    AppliedStage(c, s2, v);
    s2 := LeadsNext(honest, c, s, s2);
    CommitStage(c, s2, v);
    s2 := LeadsNext(honest, c, s, s2);
  }

  /** A stale retry of a reclaimable key arrives at a fresh claim. */
  lemma LeadsToClaim(honest: bool, c: Config, s: State, s1: State) returns (s2: State)
    requires c.keyed && Leads(honest, c, s, s1) && StoreInvariant.Inv(c, s1) && Open(s1) && Reclaimable(c, s1)
    ensures Leads(honest, c, s, s2) && StoreInvariant.Inv(c, s2) && Unclaimed(s2) && Unmoved(s1, s2)
  {
    hide Leads, StoreInvariant.Inv;
    var r := s1.d.record.value;
    var wait: nat := if r.updatedAt + c.staleSeconds + 1 > s1.now then r.updatedAt + c.staleSeconds + 1 - s1.now else 0;
    var op := Above(s1.d.tasks.Keys);
    var rid := Above(s1.d.receipts.Keys);
    s2 := LeadsStep(honest, c, s, s1, Tick(wait));
    s2 := LeadsToEntry(honest, c, s, s2, op, rid);
    if s2.call.value.pc.Probe? {
      s2 := LeadsStep(honest, c, s, s2, Probed(None));
      s2 := LeadsToDeleted(honest, c, s, s2);
    }
  }

  lemma LeadsToEntry(honest: bool, c: Config, s: State, s1: State, op: OpId, rid: ReceiptId) returns (s2: State)
    requires c.keyed && Leads(honest, c, s, s1) && StoreInvariant.Inv(c, s1) && Open(s1) && Reclaimable(c, s1)
    requires s1.now - s1.d.record.value.updatedAt > c.staleSeconds
    ensures Leads(honest, c, s, s2) && StoreInvariant.Inv(c, s2) && s2.d == s1.d && s2.h == s1.h
    ensures s2.call.Some? && s2.call.value.opId == op && s2.call.value.receiptId == rid
    ensures s2.call.value.pc == if c.reconciler == Absent then CreateTask else Probe
  {
    hide Leads, StoreInvariant.Inv;
    s2 := LeadsStep(honest, c, s, s1, Enter(s1.d.record.value.fingerprint, None, 0, op, rid));
  }

  lemma LeadsToDeleted(honest: bool, c: Config, s: State, s1: State) returns (s2: State)
    requires Leads(honest, c, s, s1) && StoreInvariant.Inv(c, s1) && s1.call.Some? && s1.call.value.pc.ProbeDelete?
    ensures Leads(honest, c, s, s2) && StoreInvariant.Inv(c, s2)
    ensures s2 == Goto(DeleteRecord(s1), CreateTask)
  {
    hide Leads, StoreInvariant.Inv;
    s2 := LeadsStep(honest, c, s, s1, Next);
  }

  /** Every reclaimable key can be completed, at the price of another call of its operation. */
  lemma ReclaimCompletes(honest: bool, c: Config, s: State, v: Value) returns (s': State)
    requires c.keyed && StoreInvariant.Inv(c, s) && Open(s) && Reclaimable(c, s)
    ensures Leads(honest, c, s, s') && Done(s'.d) && s'.d.record.value.result == Some(DurableForm(v))
    ensures s'.h.invocations == s.h.invocations + 1
  {
    hide Leads, StoreInvariant.Inv;
    LeadsNowhere(honest, c, s);
    s' := LeadsToClaim(honest, c, s, s);
    s' := LeadsThroughClaim(honest, c, s, s', v);
  }

  // ----- nobody asks any more -----

  /** The caller has no reconciler, and the record is uncertain or will be marked so. */
  predicate Abandoned(c: Config, s: State) {
    c.keyed && c.reconciler == Absent && Open(s) && (c.local || s.d.record.value.state == Uncertain)
  }

  lemma AbandonedStep(c: Config, s: State, step: Step)
    requires Abandoned(c, s) && Enabled(c, s, step)
    ensures Abandoned(c, Do(c, s, step)) && Unmoved(s, Do(c, s, step))
  {
    hide SettleReceipt, TidyTask, Decide, NextAction, Attempt, AttemptTask;
  }

  /** An abandoned key stays so: no continuation at all completes its record, returns anything or calls
      its operation. */
  lemma {:induction false} AbandonedForever(c: Config, s: State, steps: seq<Step>)
    requires Abandoned(c, s) && Runs(c, s, steps)
    ensures Abandoned(c, After(c, s, steps)) && Unmoved(s, After(c, s, steps))
    decreases |steps|
  {
    hide Abandoned, Do, Enabled;
    if steps != [] {
      AbandonedStep(c, s, steps[0]);
      AbandonedForever(c, Do(c, s, steps[0]), steps[1..]);
    }
  }

  // ----- when the operation is called again -----

  /** A call under the key only ever asks. */
  predicate OnlyAsks(c: Config, s: State) {
    && NoMiss(c, s) && s.d.record.Some?
    && (s.call.Some? ==> Probing(s.call.value.pc) && !s.call.value.pc.ProbeDelete?)
  }

  predicate NotCalled(s: State, s': State) {
    s'.h.invocations == s.h.invocations && s'.h.effects == s.h.effects
  }

  lemma AskingNext(c: Config, s: State)
    requires OnlyAsks(c, s) && NextEnabled(c, s)
    ensures OnlyAsks(c, NextAction(c, s)) && NotCalled(s, NextAction(c, s))
  {
    hide Attempt, AttemptTask, LadderTarget, Transition;
  }

  lemma AskingStep(c: Config, s: State, step: Step)
    requires OnlyAsks(c, s) && Enabled(c, s, step)
    ensures OnlyAsks(c, Do(c, s, step)) && NotCalled(s, Do(c, s, step))
  {
    hide SettleReceipt, TidyTask, Decide, NextAction, NextEnabled;
    if step.Next? {
      AskingNext(c, s);
    }
  }

  lemma {:induction false} AskingForever(c: Config, s: State, steps: seq<Step>)
    requires OnlyAsks(c, s) && Runs(c, s, steps)
    ensures NotCalled(s, After(c, s, steps))
    decreases |steps|
  {
    hide OnlyAsks, Do, Enabled;
    if steps != [] {
      AskingStep(c, s, steps[0]);
      AskingForever(c, Do(c, s, steps[0]), steps[1..]);
    }
  }

  /** Every undecided key of a keyed caller is reclaimable, abandoned, or only asked about. */
  lemma ThreeKinds(c: Config, s: State)
    requires c.keyed && Open(s)
    ensures Reclaimable(c, s) || Abandoned(c, s) || OnlyAsks(c, s)
    ensures Reclaimable(c, s) ==> !Abandoned(c, s) && !OnlyAsks(c, s)
    ensures Abandoned(c, s) ==> !OnlyAsks(c, s)
  {
  }

  /** Over all runs of all keyed callers: once a call has left an undecided record, some continuation
      calls the operation again if and only if the key is reclaimable. */
  lemma CalledAgainIff(c: Config, s: State)
    requires c.keyed && Reachable(c, s) && Open(s)
    ensures (exists steps :: Runs(c, s, steps) && After(c, s, steps).h.invocations > s.h.invocations) <==> Reclaimable(c, s)
  {
    StoreInvariant.Holds(c, s);
    ThreeKinds(c, s);
    hide StoreInvariant.Inv, Reachable, Abandoned, OnlyAsks, Reclaimable, Enabled, Do;
    if Reclaimable(c, s) {
      var s' := ReclaimCompletes(false, c, s, 0);
      var steps :| Runs(c, s, steps) && FairRun(false, c, s, steps) && After(c, s, steps) == s';
      assert After(c, s, steps).h.invocations > s.h.invocations;
    } else {
      forall steps | Runs(c, s, steps)
        ensures After(c, s, steps).h.invocations == s.h.invocations
      {
        if Abandoned(c, s) {
          AbandonedForever(c, s, steps);
        } else {
          AskingForever(c, s, steps);
        }
      }
    }
  }
}
