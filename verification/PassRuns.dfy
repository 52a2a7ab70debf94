/** A start-up pass over one receipt, which `ReconcilePass` computes in one step, as steps of the protocol
    machine. */
module PassRuns {
  import opened Options
  import opened Outcomes
  import opened EffectMachine
  import opened ReconcilePass
  import opened SettledStores
  import opened Continuations
  import StoreInvariant

  /** What a whole pass over one receipt leaves. */
  predicate IsPass(s: State, p: Pass, id: ReceiptId, s': State)
    requires id in s.d.receipts
  {
    var after := Handle(p, StoresOf(s.d), id).after;
    && s'.d == s.d.(receipts := after.receipts, tasks := after.tasks)
    && s'.call == s.call && s'.startup.None? && s'.now == s.now && s'.h.effects == s.h.effects
  }

  /** Reading the receipt and the evidence. */
  lemma LeadsToPlan(honest: bool, c: Config, s: State, s1: State, p: Pass, id: ReceiptId) returns (s2: State)
    requires Leads(honest, c, s, s1) && StoreInvariant.Inv(c, s1) && s1.startup.None? && id in s1.d.receipts && p.cutoff <= s1.now
    ensures Leads(honest, c, s, s2) && StoreInvariant.Inv(c, s2)
    ensures s2 == s1.(startup := Some(Planned(id, s1.d.receipts[id], PlanFor(p, StoresOf(s1.d), id))))
  {
    hide Leads, StoreInvariant.Inv;
    s2 := LeadsStep(honest, c, s, s1, Look(id));
    s2 := LeadsStep(honest, c, s, s2, Judge(id in p.resumable, p.cutoff));
  }

  /** Writing the receipt. */
  lemma LeadsToSettled(honest: bool, c: Config, s: State, s1: State) returns (s2: State)
    requires Leads(honest, c, s, s1) && StoreInvariant.Inv(c, s1) && SettleEnabled(s1)
    ensures Leads(honest, c, s, s2) && StoreInvariant.Inv(c, s2) && s2 == SettleAction(s1)
  {
    hide Leads, StoreInvariant.Inv, SettleEnabled, SettleAction;
    s2 := LeadsStep(honest, c, s, s1, Settle);
  }

  /** The receipt write of a plan: both saves of a validation that starts from applying. */
  lemma LeadsToReceipt(honest: bool, c: Config, s: State, s1: State, r: Receipt, revision: nat) returns (s2: State)
    requires Leads(honest, c, s, s1) && StoreInvariant.Inv(c, s1) && s1.startup.Some? && s1.startup.value.Planned?
    requires s1.startup.value.plan in {Validate, FailBefore, MarkUnknown}
    requires s1.startup.value.receiptId in s1.d.receipts && s1.d.receipts[s1.startup.value.receiptId] == s1.startup.value.env
    requires ValidReceipt(s1.startup.value.env.receipt)
    requires
      var was, plan := s1.startup.value.env.receipt, s1.startup.value.plan;
      if plan == MarkUnknown then
        Transition(was, Unknown, None, Some(OutcomeUnknownCode), Some(was.crossed)) == Some(r) && was.state != Unknown
        && revision == s1.startup.value.env.revision + 1
      else if plan == FailBefore then
        Transition(was, FailedBeforeEffect, None, Some(FailedBeforeEffectCode), None) == Some(r) && was.state == Accepted
        && revision == s1.startup.value.env.revision + 1
      else
        && was.state in {Applying, AppliedUnvalidated}
        && r == Receipt(was.opId, AppliedValidated, was.crossed, Some(was.opId), None)
        && revision == s1.startup.value.env.revision + (if was.state == Applying then 2 else 1)
    ensures Leads(honest, c, s, s2) && StoreInvariant.Inv(c, s2)
    ensures
      var id, plan := s1.startup.value.receiptId, s1.startup.value.plan;
      && s2.d == s1.d.(receipts := s1.d.receipts[id := Envelope(r, revision)])
      && s2.startup == Some(Tidying(id, r.opId, plan)) && s2.call == s1.call && s2.now == s1.now && s2.h.effects == s1.h.effects
  {
    hide Leads, StoreInvariant.Inv;
    s2 := LeadsToSettled(honest, c, s, s1);
    if s2.startup.value.Planned? {
      s2 := LeadsToSettled(honest, c, s, s2);
      assert s2.d.receipts == s1.d.receipts[s1.startup.value.receiptId := Envelope(r, revision)];
    }
  }

  /** What the pass makes of a living task. */
  function Tidied(t: Task, opId: OpId, id: ReceiptId, plan: Plan, now: int): Option<Task> {
    if plan == FailBefore then FailTask(t, FailedBeforeEffectCode, None, id, now)
    else match StartTask(t, now)
    case None => None
    case Some(running) =>
      if plan == Validate then Outcomes.SucceedTask(running, opId, id, now) else FailTask(running, OutcomeUnknownCode, None, id, now)
  }

  /** Writing the task. */
  lemma LeadsToTidied(honest: bool, c: Config, s: State, s1: State) returns (s2: State)
    requires Leads(honest, c, s, s1) && StoreInvariant.Inv(c, s1) && s1.startup.Some? && s1.startup.value.Tidying?
    requires s1.startup.value.plan in {Validate, FailBefore, MarkUnknown} && s1.startup.value.opId in s1.d.tasks
    requires
      var t := s1.d.tasks[s1.startup.value.opId];
      s1.startup.value.plan == Validate && Live(t.state) ==> !t.cancelRequested
    ensures Leads(honest, c, s, s2) && StoreInvariant.Inv(c, s2)
    ensures
      var id, opId, plan, t := s1.startup.value.receiptId, s1.startup.value.opId, s1.startup.value.plan, s1.d.tasks[s1.startup.value.opId];
      && s2.startup.None? && s2.call == s1.call && s2.now == s1.now && s2.h == s1.h
      && (!Live(t.state) ==> s2.d == s1.d)
      && (Live(t.state) ==>
            Tidied(t, opId, id, plan, s1.now).Some? && s2.d == s1.d.(tasks := s1.d.tasks[opId := Tidied(t, opId, id, plan, s1.now).value]))
  {
    hide Leads, StoreInvariant.Inv, NextStamp;
    var opId, t := s1.startup.value.opId, s1.d.tasks[s1.startup.value.opId];
    if !Live(t.state) {
      s2 := LeadsStep(honest, c, s, s1, StartupStop);
    } else {
      s2 := LeadsStep(honest, c, s, s1, Tidy);
      if s2.startup.Some? {
        var running := s2.d.tasks[opId];
        s2 := LeadsStep(honest, c, s, s2, Tidy);
        assert s1.d.tasks[opId := running][opId := s2.d.tasks[opId]] == s1.d.tasks[opId := s2.d.tasks[opId]];
      }
    }
  }

  /** What a plan that writes makes of one receipt and its task, as the machine's steps make it. */
  lemma HandleIs(p: Pass, d: Durable, id: ReceiptId)
    requires id in d.receipts && ValidReceipt(d.receipts[id].receipt) && d.receipts[id].receipt.opId in d.tasks
    requires PlanFor(p, StoresOf(d), id) in {Validate, FailBefore, MarkUnknown} && !Handle(p, StoresOf(d), id).raised
    ensures
      var was, plan, after := d.receipts[id].receipt, PlanFor(p, StoresOf(d), id), Handle(p, StoresOf(d), id).after;
      var t := d.tasks[was.opId];
      && Unfinished(was.state)
      && (plan == Validate ==>
            && was.state in {Applying, AppliedUnvalidated} && (Live(t.state) ==> !t.cancelRequested)
            && after.receipts == d.receipts[id := Envelope(Receipt(was.opId, AppliedValidated, was.crossed, Some(was.opId), None),
                                                       d.receipts[id].revision + (if was.state == Applying then 2 else 1))])
      && (plan == FailBefore ==>
            && was.state == Accepted && Transition(was, FailedBeforeEffect, None, Some(FailedBeforeEffectCode), None).Some?
            && after.receipts == d.receipts[id := Envelope(Transition(was, FailedBeforeEffect, None, Some(FailedBeforeEffectCode), None).value,
                                                       d.receipts[id].revision + 1)])
      && (plan == MarkUnknown ==>
            && Transition(was, Unknown, None, Some(OutcomeUnknownCode), Some(was.crossed)).Some?
            && after.receipts == d.receipts[id := Envelope(Transition(was, Unknown, None, Some(OutcomeUnknownCode), Some(was.crossed)).value,
                                                       d.receipts[id].revision + 1)])
      && (!Live(t.state) ==> after.tasks == d.tasks)
      && (Live(t.state) ==>
            Tidied(t, was.opId, id, plan, p.now).Some? && after.tasks == d.tasks[was.opId := Tidied(t, was.opId, id, plan, p.now).value])
  {
    hide NextStamp;
  }

  /** A terminal or deferred receipt is read and left alone. */
  lemma LeadsPastReceipt(honest: bool, c: Config, s: State, s1: State, p: Pass, id: ReceiptId) returns (s2: State)
    requires Leads(honest, c, s, s1) && StoreInvariant.Inv(c, s1) && s1.startup.None? && id in s1.d.receipts && p.cutoff <= s1.now
    requires PlanFor(p, StoresOf(s1.d), id) in {KeepTerminal, Defer}
    ensures Leads(honest, c, s, s2) && StoreInvariant.Inv(c, s2) && IsPass(s1, p, id, s2)
  {
    hide Leads, StoreInvariant.Inv, PlanFor;
    s2 := LeadsToPlan(honest, c, s, s1, p, id);
    s2 := LeadsStep(honest, c, s, s2, StartupStop);
  }

  /** A pass over one receipt that does not raise, as a fair continuation: read, judge, settle, tidy. */
  lemma LeadsThroughPass(honest: bool, c: Config, s: State, s1: State, p: Pass, id: ReceiptId) returns (s2: State)
    requires Leads(honest, c, s, s1) && StoreInvariant.Inv(c, s1) && s1.startup.None? && id in s1.d.receipts && p.cutoff <= p.now == s1.now
    requires !Handle(p, StoresOf(s1.d), id).raised
    ensures Leads(honest, c, s, s2) && StoreInvariant.Inv(c, s2) && IsPass(s1, p, id, s2)
  {
    assert ValidReceipt(s1.d.receipts[id].receipt) && s1.d.receipts[id].receipt.opId in s1.d.tasks;
    hide Leads, StoreInvariant.Inv, Handle, PlanFor, Transition, Tidied;
    if PlanFor(p, StoresOf(s1.d), id) in {KeepTerminal, Defer} {
      s2 := LeadsPastReceipt(honest, c, s, s1, p, id);
    } else {
      HandleIs(p, s1.d, id);
      var after := Handle(p, StoresOf(s1.d), id).after;
      s2 := LeadsToPlan(honest, c, s, s1, p, id);
      s2 := LeadsToReceipt(honest, c, s, s2, after.receipts[id].receipt, after.receipts[id].revision);
      s2 := LeadsToTidied(honest, c, s, s2);
    }
  }
}
