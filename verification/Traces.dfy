/** Concrete pieces of runs, used to show that a state is reachable. */
module Traces {
  import opened Options
  import opened Outcomes
  import opened EffectMachine

  lemma NextReceiptStep(c: Config, s: State, r: Receipt) returns (s': State)
    requires Reachable(c, s) && s.call.Some? && ReceiptPc(s.call.value.pc)
    requires Attempt(c, s.call.value) == Some(r) && CasOk(s.d, s.call.value.receiptId, s.call.value.env)
    ensures Reachable(c, s')
    ensures
      var call := s.call.value;
      var env := Envelope(r, call.env.revision + 1);
      && s'.call == Some(call.(env := env, pc := AfterReceipt(c, call.pc)))
      && s'.d == s.d.(receipts := s.d.receipts[call.receiptId := env])
      && s'.now == s.now && s'.h == s.h && s'.startup == s.startup
  {
    s' := Take(c, s, Next);
  }

  /** A task write that does not end the call. */
  lemma NextTaskStep(c: Config, s: State, t: Task) returns (s': State)
    requires Reachable(c, s) && s.call.Some? && TaskPc(s.call.value.pc)
    requires AttemptTask(s, s.call.value) == Some(t)
    ensures Reachable(c, s')
    ensures
      var call := s.call.value;
      var after := AfterTask(c, call.pc);
      && s'.d == s.d.(tasks := s.d.tasks[call.opId := t])
      && s'.now == s.now && s'.startup == s.startup
      && (after.Some? ==> s'.call == Some(call.(pc := after.value)) && s'.h == s.h)
      && (after.None? ==> s'.call.None? && s'.h == s.h.(returned := s'.h.returned))
  {
    s' := Take(c, s, Next);
  }

  /** A claim: task, receipt and (for a keyed call) record are created. */
  lemma OpenClaim(c: Config, s: State) returns (s': State)
    requires Reachable(c, s) && s.call.Some? && s.call.value.pc.CreateTask?
    requires s.call.value.opId !in s.d.tasks && s.call.value.receiptId !in s.d.receipts
    ensures Reachable(c, s')
    ensures
      var call := s.call.value;
      var env := Envelope(NewReceipt(call.opId), 1);
      && s'.call == Some(call.(pc := MarkApplying, env := env))
      && s'.now == s.now && s'.h == s.h && s'.startup == s.startup
      && s'.d.tasks == s.d.tasks[call.opId := NewTask(call.epoch)]
      && s'.d.receipts == s.d.receipts[call.receiptId := env]
      && s'.d.results == s.d.results
      && (c.keyed ==> s'.d.record == Some(Record(InProgress, call.fingerprint, call.epoch, call.correlation, None,
                                                call.receiptId, call.opId)))
  {
    s' := NextCreate(c, s);
    s' := NextCreateReceipt(c, s');
    if c.keyed {
      s' := NextClaim(c, s');
    }
  }

  lemma NextCreate(c: Config, s: State) returns (s': State)
    requires Reachable(c, s) && s.call.Some? && s.call.value.pc.CreateTask? && s.call.value.opId !in s.d.tasks
    ensures Reachable(c, s')
    ensures
      var call := s.call.value;
      && s'.call == Some(call.(pc := CreateReceipt))
      && s'.d == s.d.(tasks := s.d.tasks[call.opId := NewTask(call.epoch)])
      && s'.now == s.now && s'.h == s.h && s'.startup == s.startup
  {
    s' := Take(c, s, Next);
  }

  lemma NextCreateReceipt(c: Config, s: State) returns (s': State)
    requires Reachable(c, s) && s.call.Some? && s.call.value.pc.CreateReceipt? && s.call.value.receiptId !in s.d.receipts
    ensures Reachable(c, s')
    ensures
      var call := s.call.value;
      var env := Envelope(NewReceipt(call.opId), 1);
      && s'.call == Some(call.(pc := if c.keyed then SaveClaim else MarkApplying, env := env))
      && s'.d == s.d.(receipts := s.d.receipts[call.receiptId := env])
      && s'.now == s.now && s'.h == s.h && s'.startup == s.startup
  {
    s' := Take(c, s, Next);
  }

  lemma NextClaim(c: Config, s: State) returns (s': State)
    requires Reachable(c, s) && s.call.Some? && s.call.value.pc.SaveClaim?
    ensures Reachable(c, s')
    ensures
      var call := s.call.value;
      && s'.call == Some(call.(pc := MarkApplying))
      && s'.d == s.d.(record := Some(Record(InProgress, call.fingerprint, call.epoch, call.correlation, None,
                                            call.receiptId, call.opId)))
      && s'.now == s.now && s'.h == s.h && s'.startup == s.startup
  {
    s' := Take(c, s, Next);
  }

  /** The gate opens and the operation is called. */
  lemma NextInvoke(c: Config, s: State) returns (s': State)
    requires Reachable(c, s) && s.call.Some? && s.call.value.pc.Gate?
    ensures Reachable(c, s')
    ensures
      && s'.call == Some(s.call.value.(pc := InOperation)) && s'.d == s.d && s'.now == s.now && s'.startup == s.startup
      && s'.h == s.h.(invocations := s.h.invocations + 1, invoked := s.h.invoked + {s.call.value.opId})
  {
    s' := Take(c, s, Next);
  }

  /** From the claim to inside the operation. */
  lemma RunToOperation(c: Config, s: State) returns (s': State)
    requires Reachable(c, s) && s.call.Some? && s.call.value.pc.MarkApplying?
    requires
      var call := s.call.value;
      && call.env == Envelope(NewReceipt(call.opId), 1)
      && call.receiptId in s.d.receipts && s.d.receipts[call.receiptId] == call.env
      && call.opId in s.d.tasks && s.d.tasks[call.opId].state == Pending
    ensures Reachable(c, s')
    ensures
      var call := s.call.value;
      var env := Envelope(Receipt(call.opId, Applying, false, None, None), 2);
      && s'.call == Some(call.(pc := InOperation, env := env))
      && s'.d.receipts == s.d.receipts[call.receiptId := env] && s'.d.results == s.d.results
      && s'.d.tasks.Keys == s.d.tasks.Keys && s'.d.tasks[call.opId].state == Running
      && s'.d.tasks[call.opId].cancelRequested == s.d.tasks[call.opId].cancelRequested
      && s'.d.record == s.d.record && s'.now == s.now && s'.startup == s.startup
      && s'.h == s.h.(invocations := s.h.invocations + 1, invoked := s.h.invoked + {call.opId})
  {
    s' := NextReceiptStep(c, s, NewReceipt(s.call.value.opId).(state := Applying));
    s' := NextTaskStep(c, s', StartTask(s'.d.tasks[s.call.value.opId], s'.now).value);
    s' := NextInvoke(c, s');
  }

  lemma Event(c: Config, s: State, step: Step) returns (s': State)
    requires Reachable(c, s) && s.call.Some?
    requires EventStep(step)
    requires OperationEnabled(c, s.call.value, step)
    ensures Reachable(c, s') && s' == OperationEvent(s, step)
  {
    s' := Take(c, s, step);
  }

  /** The boundary, where there is one, is begun and the effect applied. */
  lemma ApplyEffect(c: Config, s: State) returns (s': State)
    requires Reachable(c, s) && s.call.Some? && s.call.value.pc.InOperation? && !s.call.value.applied
    requires s.call.value.boundary == Boundary(false, false, None)
    ensures Reachable(c, s')
    ensures
      && s'.call == Some(s.call.value.(applied := true, boundary := Boundary(c.hasBoundary, false, None)))
      && s'.d == s.d && s'.now == s.now && s'.startup == s.startup
      && s'.h == s.h.(gross := s.h.gross + 1, effects := s.h.effects + 1)
  {
    s' := s;
    if c.hasBoundary {
      s' := Event(c, s', Begin);
    }
    s' := Event(c, s', Apply);
  }

  lemma RaiseStep(c: Config, s: State) returns (s': State)
    requires Reachable(c, s) && RaiseEnabled(c, s)
    ensures Reachable(c, s') && s' == s.(call := Some(s.call.value.(pc := Ladder)))
  {
    s' := Take(c, s, Raise);
  }

  lemma LadderStep(c: Config, s: State) returns (s': State)
    requires Reachable(c, s) && s.call.Some? && s.call.value.pc.Ladder?
    requires LadderTarget(c, s, s.call.value).Some? && !LadderReturns(c, s, s.call.value)
    ensures Reachable(c, s')
    ensures s' == s.(call := Some(s.call.value.(pc := LadderTarget(c, s, s.call.value).value)))
  {
    s' := Take(c, s, Next);
  }

  lemma DeleteStep(c: Config, s: State) returns (s': State)
    requires Reachable(c, s) && s.call.Some? && DeletePc(s.call.value.pc)
    ensures Reachable(c, s') && s'.d == s.d.(record := None) && s'.h == s.h && s'.now == s.now && s'.startup == s.startup
    ensures s'.call == if s.call.value.pc.ProbeDelete? then Some(s.call.value.(pc := CreateTask)) else None
  {
    s' := Take(c, s, Next);
  }

  lemma ResultStep(c: Config, s: State) returns (s': State)
    requires Reachable(c, s) && s.call.Some? && s.call.value.pc.SaveResult?
    ensures Reachable(c, s')
    ensures
      var call := s.call.value;
      s' == s.(d := s.d.(results := s.d.results[call.opId := call.pc.v]), call := Some(call.(pc := MarkUnvalidated(call.pc.v))))
  {
    s' := Take(c, s, Next);
  }

  lemma CommitStep(c: Config, s: State) returns (s': State)
    requires Reachable(c, s) && s.call.Some? && CommitPc(s.call.value.pc) && Owns(s.d, s.call.value)
    ensures Reachable(c, s') && s' == NextCommit(s)
  {
    s' := Take(c, s, Next);
  }

  lemma MaterializeStep(c: Config, s: State) returns (s': State)
    requires Reachable(c, s) && s.call.Some? && s.call.value.pc.Materialize? && c.keyed
    ensures Reachable(c, s') && s' == s.(call := Some(s.call.value.(pc := CommitPersisted(s.call.value.pc.v))))
  {
    s' := Take(c, s, Next);
  }

  lemma StopStep(c: Config, s: State) returns (s': State)
    requires Reachable(c, s) && s.call.Some?
    ensures Reachable(c, s') && s' == s.(call := None)
  {
    s' := Take(c, s, Stop);
  }

  lemma TickStep(c: Config, s: State, seconds: nat) returns (s': State)
    requires Reachable(c, s)
    ensures Reachable(c, s') && s' == s.(now := s.now + seconds)
  {
    s' := Take(c, s, Tick(seconds));
  }

  lemma EnterStep(c: Config, s: State, fingerprint: nat, opArg: Option<OpId>, correlation: nat, op: OpId, rid: ReceiptId)
    returns (s': State)
    requires Reachable(c, s) && s.call.None?
    ensures Reachable(c, s') && s' == EnterCall(c, s, Enter(fingerprint, opArg, correlation, op, rid))
  {
    s' := Take(c, s, Enter(fingerprint, opArg, correlation, op, rid));
  }

  lemma ProbedStep(c: Config, s: State, found: Option<Value>) returns (s': State)
    requires Reachable(c, s) && s.call.Some? && s.call.value.pc.Probe? && s.d.record.Some?
    requires found.None? ==> c.reconciler == Blind || (c.reconciler == Truthful && s.h.effects == 0)
    ensures Reachable(c, s')
    ensures s' == s.(call := Some(s.call.value.(pc := if found.Some? then ProbeResult(found.value) else ProbeDelete)),
                     h := s'.h)
    ensures s'.h == s.h.(misled := s.h.misled || (found.Some? && s.h.effects <= 0), produced := s'.h.produced)
    ensures found.None? ==> s'.h.produced == s.h.produced
    ensures Enabled(c, s, Probed(found)) && s' == Do(c, s, Probed(found))
  {
    s' := Take(c, s, Probed(found));
  }

  /** Inside the operation of the first keyed call, its effect applied. */
  lemma ReachEffect(c: Config) returns (s: State)
    requires c.keyed
    ensures Reachable(c, s)
    ensures
      var env := Envelope(Receipt(0, Applying, false, None, None), 2);
      && s.call == Some(Call(InOperation, 0, 0, 0, 0, 0, env, Boundary(c.hasBoundary, false, None), true))
      && s.d.record == Some(Record(InProgress, 0, 0, 0, None, 0, 0))
      && s.d.receipts == map[0 := env] && s.d.results == map[]
      && s.d.tasks.Keys == {0} && s.d.tasks[0].state == Running && !s.d.tasks[0].cancelRequested
      && s.startup.None? && s.now == 0 && s.h.returned == [] && s.h.effects == 1
  {
    hide Reachable;
    Start(c);
    s := EnterStep(c, INITIAL, 0, None, 0, 0, 0);
    s := OpenClaim(c, s);
    s := RunToOperation(c, s);
    s := ApplyEffect(c, s);
  }

  /** The operation has returned, its result is saved and its receipt is applied but unvalidated. */
  lemma ReachUnvalidated(c: Config) returns (s: State)
    requires c.keyed
    ensures Reachable(c, s)
    ensures
      var env := Envelope(Receipt(0, AppliedUnvalidated, c.hasBoundary, Some(0), None), 3);
      && s.call == Some(Call(CommitDurable(7), 0, 0, 0, 0, 0, env, Boundary(c.hasBoundary, false, None), true))
      && s.d.record == Some(Record(InProgress, 0, 0, 0, None, 0, 0))
      && s.d.receipts == map[0 := env] && s.d.results == map[0 := 7]
      && s.d.tasks.Keys == {0} && s.d.tasks[0].state == Running && !s.d.tasks[0].cancelRequested
      && s.startup.None? && s.now == 0 && s.h.returned == [] && s.h.effects == 1
  {
    hide Reachable;
    s := ReachEffect(c);
    s := Event(c, s, Return(7));
    s := ResultStep(c, s);
    s := NextReceiptStep(c, s, Receipt(0, AppliedUnvalidated, c.hasBoundary, Some(0), None));
  }
}
