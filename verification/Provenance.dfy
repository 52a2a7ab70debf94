/** Where the values come from that a key stores and returns: every one was returned or recorded by its
    operation, or found for it by a probe, and a record is completed with the result that is saved. */
module Provenance {
  import opened Options
  import opened Outcomes
  import opened EffectMachine
  import opened Traces
  import StoreInvariant
  import Replay

  /** The value came out of the operation. */
  predicate Produced(h: History, opId: OpId, v: Value) {
    (opId, v) in h.produced
  }

  predicate SavedAreProduced(s: State) {
    forall opId :: opId in s.d.results ==> Produced(s.h, opId, s.d.results[opId])
  }

  predicate CompletedIsProduced(s: State) {
    Done(s.d) ==>
      var r := s.d.record.value;
      r.result.Some? && r.opId in s.d.results && Produced(s.h, r.opId, r.result.value.v)
  }

  /** The result of this operation is saved with this value. */
  predicate SavedAs(d: Durable, opId: OpId, v: Value) {
    opId in d.results && d.results[opId] == v
  }

  /** The call carries a value that is saved already. */
  predicate Carrying(pc: Pc) {
    || pc.ProbeReceipt? || pc.ProbeTask? || pc.ProbeCommit?
    || pc.MarkUnvalidated? || pc.CommitDurable? || pc.Materialize? || pc.CommitPersisted? || pc.MarkValidated? || pc.FinishTask?
    || pc.MarkFailedAfter? || pc.FailTaskAfter?
    || pc.AuthReceipt? || pc.AuthTask? || pc.AuthCommit?
  }

  predicate CallKnows(s: State, call: Call) {
    && (call.boundary.authoritative.Some? ==> !Probing(call.pc) && Produced(s.h, call.opId, call.boundary.authoritative.value))
    && (call.pc.ProbeResult? ==> s.d.record.Some? && Produced(s.h, s.d.record.value.opId, call.pc.v))
    && (call.pc.SaveResult? || call.pc.AuthResult? ==> Produced(s.h, call.opId, call.pc.v))
    && (Carrying(call.pc) ==> SavedAs(s.d, call.opId, call.pc.v))
  }

  predicate Inv(s: State) {
    SavedAreProduced(s) && CompletedIsProduced(s) && (s.call.Some? ==> CallKnows(s, s.call.value))
  }

  lemma ReceiptKeeps(c: Config, s: State, r: Receipt)
    requires c.keyed && Inv(s) && s.call.Some? && ReceiptPc(s.call.value.pc)
    ensures Inv(WriteReceipt(c, s, r))
  {
  }

  /** A task write carries its value on. */
  lemma AfterTaskCarries(c: Config, pc: Pc)
    requires TaskPc(pc) && AfterTask(c, pc).Some?
    ensures
      var after := AfterTask(c, pc).value;
      && (Probing(after) ==> Probing(pc)) && !after.ProbeResult? && !after.SaveResult? && !after.AuthResult?
      && (Carrying(after) ==> Carrying(pc) && after.v == pc.v)
  {
  }

  lemma TaskKeeps(c: Config, s: State, t: Task)
    requires c.keyed && Inv(s) && s.call.Some? && TaskPc(s.call.value.pc)
    ensures Inv(WriteTask(c, s, t))
  {
    if AfterTask(c, s.call.value.pc).Some? {
      AfterTaskCarries(c, s.call.value.pc);
    }
    hide AfterTask, TaskPc, Carrying;
  }

  /** A commit writes the record of its own operation. */
  lemma CommitOwns(c: Config, s: State)
    requires c.keyed && StoreInvariant.Inv(c, s) && s.call.Some? && CommitPc(s.call.value.pc) && s.d.record.Some?
    requires s.call.value.pc.AuthCommit? ==> Owns(s.d, s.call.value)
    ensures s.d.record.value.opId == s.call.value.opId
  {
  }

  lemma CommitKeeps(c: Config, s: State)
    requires c.keyed && StoreInvariant.Inv(c, s) && Inv(s) && s.call.Some? && CommitPc(s.call.value.pc)
    requires s.call.value.pc.AuthCommit? || s.d.record.Some?
    ensures Inv(NextCommit(s))
    ensures
      var s' := NextCommit(s);
      Done(s'.d) && s'.d.record != s.d.record ==>
        s'.d.record.value.result.Some? && SavedAs(s'.d, s'.d.record.value.opId, s'.d.record.value.result.value.v)
  {
    var call := s.call.value;
    if !call.pc.AuthCommit? || Owns(s.d, call) {
      CommitOwns(c, s);
    }
    hide StoreInvariant.Inv, Owns;
  }

  lemma LadderKeeps(c: Config, s: State)
    requires Inv(s) && s.call.Some? && s.call.value.pc.Ladder?
    ensures Inv(NextLadder(c, s))
  {
  }

  lemma OtherKeeps(c: Config, s: State)
    requires Inv(s) && NextEnabled(c, s)
    requires var pc := s.call.value.pc; !ReceiptPc(pc) && !TaskPc(pc) && !CommitPc(pc) && !DeletePc(pc) && !pc.Ladder?
    ensures Inv(NextOther(c, s))
  {
    hide Attempt, AttemptTask;
  }

  lemma DeleteKeeps(s: State)
    requires Inv(s) && s.call.Some? && DeletePc(s.call.value.pc)
    ensures Inv(NextDelete(s))
  {
  }

  lemma NextKeeps(c: Config, s: State)
    requires c.keyed && StoreInvariant.Inv(c, s) && Inv(s) && NextEnabled(c, s)
    ensures Inv(NextAction(c, s))
  {
    var pc := s.call.value.pc;
    hide Attempt, AttemptTask, WriteReceipt, WriteTask, NextCommit, NextLadder, NextOther, NextDelete, Inv, StoreInvariant.Inv;
    if ReceiptPc(pc) {
      ReceiptKeeps(c, s, Attempt(c, s.call.value).value);
    } else if TaskPc(pc) {
      TaskKeeps(c, s, AttemptTask(s, s.call.value).value);
    } else if CommitPc(pc) {
      CommitKeeps(c, s);
    } else if pc.Ladder? {
      LadderKeeps(c, s);
    } else if DeletePc(pc) {
      DeleteKeeps(s);
    } else {
      OtherKeeps(c, s);
    }
  }

  lemma EnterKeeps(c: Config, s: State, step: Step)
    requires Inv(s) && s.call.None? && step.Enter?
    ensures Inv(EnterCall(c, s, step))
  {
  }

  lemma OperationKeeps(c: Config, s: State, step: Step)
    requires Inv(s) && s.call.Some? && EventStep(step) && OperationEnabled(c, s.call.value, step)
    ensures Inv(OperationEvent(s, step))
  {
  }

  lemma MoveKeeps(c: Config, s: State, step: Step)
    requires Inv(s) && Enabled(c, s, step) && MoveStep(step)
    ensures Inv(Do(c, s, step))
  {
    hide NextAction, NextEnabled;
  }

  lemma ActorKeeps(c: Config, s: State, step: Step)
    requires Inv(s) && Enabled(c, s, step) && (ActorStep(step) || step.Settle?)
    ensures Inv(Do(c, s, step))
  {
    hide NextAction, NextEnabled, SettleReceipt, EnterCall, OperationEvent, OperationEnabled, TidyTask, Decide, CallKnows;
    assert s.call.Some? ==> CallKnows(Do(c, s, step), s.call.value) by {
      if s.call.Some? {
        SameKnows(s, Do(c, s, step), s.call.value);
      }
    }
  }

  lemma SameKnows(s: State, s': State, call: Call)
    requires CallKnows(s, call) && s'.d.record == s.d.record && s'.d.results == s.d.results && s'.h.produced == s.h.produced
    ensures CallKnows(s', call)
  {
  }

  lemma StepKeeps(c: Config, s: State, step: Step)
    requires c.keyed && StoreInvariant.Inv(c, s) && Inv(s) && Enabled(c, s, step)
    ensures Inv(Do(c, s, step))
  {
    hide Inv, StoreInvariant.Inv, NextAction, NextEnabled, SettleAction, SettleEnabled, EnterCall, OperationEvent, TidyTask;
    if step.Next? {
      NextKeeps(c, s);
    } else if step.Enter? {
      EnterKeeps(c, s, step);
    } else if EventStep(step) {
      OperationKeeps(c, s, step);
    } else if MoveStep(step) {
      MoveKeeps(c, s, step);
    } else {
      ActorKeeps(c, s, step);
    }
  }

  lemma {:induction false} RunKeeps(c: Config, s: State, steps: seq<Step>)
    requires c.keyed && StoreInvariant.Inv(c, s) && Inv(s) && Runs(c, s, steps)
    ensures StoreInvariant.Inv(c, After(c, s, steps)) && Inv(After(c, s, steps))
    decreases |steps|
  {
    hide Inv, StoreInvariant.Inv, Enabled, Do;
    if steps != [] {
      StoreInvariant.StepKeeps(c, s, steps[0]);
      StepKeeps(c, s, steps[0]);
      RunKeeps(c, Do(c, s, steps[0]), steps[1..]);
    }
  }

  lemma Holds(c: Config, s: State)
    requires c.keyed && Reachable(c, s)
    ensures StoreInvariant.Inv(c, s) && Inv(s)
  {
    var steps :| Runs(c, INITIAL, steps) && After(c, INITIAL, steps) == s;
    RunKeeps(c, INITIAL, steps);
  }

  /** In every reachable state of a keyed caller: every saved result, the result of a completed record and
      every returned value came out of the operation that the key names. */
  lemma ValuesAreProduced(c: Config, s: State)
    requires c.keyed && Reachable(c, s)
    ensures forall opId :: opId in s.d.results ==> Produced(s.h, opId, s.d.results[opId])
    ensures Done(s.d) ==>
      && s.d.record.value.opId in s.d.results && s.d.record.value.result.Some?
      && Produced(s.h, s.d.record.value.opId, s.d.record.value.result.value.v)
    ensures s.h.returned != [] ==> Done(s.d)
    ensures forall i :: 0 <= i < |s.h.returned| ==> Produced(s.h, s.d.record.value.opId, s.h.returned[i].v)
  {
    hide Reachable;
    Holds(c, s);
    Replay.Holds(c, s);
  }

  /** Nothing but a commit completes a record. */
  lemma OnlyCommitsComplete(c: Config, s: State, step: Step)
    requires Enabled(c, s, step) && !(step.Next? && CommitPc(s.call.value.pc))
    ensures Done(Do(c, s, step).d) ==> Do(c, s, step).d.record == s.d.record
  {
    hide Attempt, AttemptTask, SettleReceipt, TidyTask, Decide, LadderTarget, Transition, RaiseEnabled, OperationEnabled;
  }

  /** Whenever a step completes a record, or completes it anew, the record holds the saved result of its
      operation. */
  lemma EveryCommitAgrees(c: Config, s: State, step: Step)
    requires c.keyed && Reachable(c, s) && Enabled(c, s, step)
    ensures
      var s' := Do(c, s, step);
      Done(s'.d) && s'.d.record != s.d.record ==>
        && s'.d.record.value.result.Some? && s'.d.record.value.opId in s'.d.results
        && s'.d.record.value.result.value.v == s'.d.results[s'.d.record.value.opId]
  {
    Holds(c, s);
    hide Reachable, Inv, StoreInvariant.Inv;
    if step.Next? && CommitPc(s.call.value.pc) {
      hide NextCommit;
      CommitKeeps(c, s);
    } else {
      OnlyCommitsComplete(c, s, step);
      hide Enabled, Do;
    }
  }

  // ----- the record and the saved result -----

  /** A completed record holds the result that is saved for its operation. */
  predicate Matches(d: Durable) {
    Done(d) ==> d.record.value.result.Some? && SavedAs(d, d.record.value.opId, d.record.value.result.value.v)
  }

  /** As long as the operation produced one value, it does. */
  lemma OneValueMatches(c: Config, s: State, v: Value)
    requires c.keyed && Reachable(c, s)
    requires forall u :: Done(s.d) && Produced(s.h, s.d.record.value.opId, u) ==> u == v
    ensures Matches(s.d)
  {
    hide Reachable;
    ValuesAreProduced(c, s);
  }
}
