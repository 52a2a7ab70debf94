/** One whole call, from entering to releasing the key's lock, as the loop that takes its actions one
    after another.  `outside` is what the call cannot decide itself: the answer of the caller's
    reconciler, what the operation does, whether its result can be encoded, and after how many steps
    the process dies, if it does. */
module IdempotentCall {
  import opened Options
  import opened Outcomes
  import opened EffectMachine
  import AtMostOnce
  import CallOutcome
  import Provenance
  import Replay

  datatype Outside = Outside(found: Option<Value>, script: seq<Step>, encodes: bool, dies: Option<nat>)

  /** How far a program point is from the end of the call. */
  function Distance(pc: Pc): nat {
    match pc
    case Probe => 31
    case ProbeResult(_) => 30
    case ProbeReceipt(_) => 29
    case ProbeTask(_) => 28
    case ProbeCommit(_) => 27
    case ProbeDelete => 26
    case CreateTask => 25
    case CreateReceipt => 24
    case SaveClaim => 23
    case MarkApplying => 22
    case BeginTask => 21
    case Gate => 20
    case InOperation => 19
    case SaveResult(_) => 18
    case MarkUnvalidated(_) => 17
    case CommitDurable(_) => 16
    case Materialize(_) => 15
    case CommitPersisted(_) => 14
    case MarkValidated(_) => 13
    case FinishTask(_) => 12
    case MarkFailedAfter(_) => 11
    case FailTaskAfter(_) => 10
    case Ladder => 9
    case AuthResult(_) => 8
    case AuthReceipt(_) => 7
    case AuthTask(_) => 6
    case AuthCommit(_) => 5
    case UndoneReceipt => 8
    case UndoneTask => 7
    case UndoneDelete => 6
    case UnknownReceipt => 8
    case UnknownTask => 7
    case UnknownCommit => 6
    case BeforeReceipt => 8
    case BeforeTask => 7
    case BeforeDelete => 6
  }

  function Left(s: State): nat {
    if s.call.None? then 0 else 1 + Distance(s.call.value.pc)
  }

  /** The step the call takes next. */
  function Choose(c: Config, s: State, outside: Outside): (step: Step)
    requires s.call.Some?
    ensures Enabled(c, s, step)
  {
    var pc := s.call.value.pc;
    if pc.Probe? && Enabled(c, s, Probed(outside.found)) then Probed(outside.found)
    else if pc.InOperation? then
      if outside.script != [] && EventStep(outside.script[0]) && OperationEnabled(c, s.call.value, outside.script[0]) then outside.script[0]
      else Raise
    else if pc.Materialize? && !outside.encodes then MaterializeFails
    else if NextEnabled(c, s) then Next
    else if RaiseEnabled(c, s) then Raise
    else Stop
  }

  /** Nothing was returned, or one value at the end of the call. */
  ghost predicate ReturnsOnce(s: State, s': State) {
    if s'.call.Some? then s'.h.returned == s.h.returned
    else s.h.returned <= s'.h.returned && |s'.h.returned| <= |s.h.returned| + 1
  }

  /** The call is closer to its end and has not called the operation. */
  ghost predicate Closer(s: State, s': State) {
    Left(s') < Left(s) && s'.h.invocations == s.h.invocations && ReturnsOnce(s, s')
  }

  lemma ReceiptDescends(c: Config, s: State, r: Receipt)
    requires s.call.Some? && ReceiptPc(s.call.value.pc)
    ensures Closer(s, WriteReceipt(c, s, r))
  {
  }

  lemma TaskDescends(c: Config, s: State, t: Task)
    requires s.call.Some? && TaskPc(s.call.value.pc)
    ensures Closer(s, WriteTask(c, s, t))
  {
    AfterTaskDescends(c, s.call.value.pc);
    hide Distance, AfterTask, TaskPc;
  }

  lemma AfterTaskDescends(c: Config, pc: Pc)
    requires TaskPc(pc)
    ensures AfterTask(c, pc).Some? ==> Distance(AfterTask(c, pc).value) < Distance(pc)
  {
  }

  lemma CommitDescends(s: State)
    requires s.call.Some? && CommitPc(s.call.value.pc)
    requires s.call.value.pc.AuthCommit? || s.d.record.Some?
    ensures Closer(s, NextCommit(s))
  {
    hide Owns, CommitRecord;
  }

  lemma LadderDescends(c: Config, s: State)
    requires s.call.Some? && s.call.value.pc.Ladder?
    ensures Closer(s, NextLadder(c, s))
  {
  }

  lemma OtherDescends(c: Config, s: State)
    requires NextEnabled(c, s)
    requires var pc := s.call.value.pc; !ReceiptPc(pc) && !TaskPc(pc) && !CommitPc(pc) && !DeletePc(pc) && !pc.Ladder? && !pc.Gate?
    ensures Closer(s, NextOther(c, s))
  {
    hide Attempt, AttemptTask, Transition, Owns, CasOk;
  }

  lemma GateOpens(c: Config, s: State)
    requires s.call.Some? && s.call.value.pc.Gate?
    ensures
      var s' := NextAction(c, s);
      s'.call == Some(s.call.value.(pc := InOperation)) && s'.h.invocations == s.h.invocations + 1 && s'.h.returned == s.h.returned
  {
    hide Attempt, AttemptTask;
  }

  lemma NextDescends(c: Config, s: State)
    requires NextEnabled(c, s) && !s.call.value.pc.Gate?
    ensures Closer(s, NextAction(c, s))
  {
    var pc := s.call.value.pc;
    hide Closer, WriteReceipt, WriteTask, NextCommit, NextLadder, NextOther, Attempt, AttemptTask;
    if ReceiptPc(pc) {
      ReceiptDescends(c, s, Attempt(c, s.call.value).value);
    } else if TaskPc(pc) {
      TaskDescends(c, s, AttemptTask(s, s.call.value).value);
    } else if CommitPc(pc) {
      CommitDescends(s);
    } else if DeletePc(pc) {
      DeleteDescends(s);
    } else if pc.Ladder? {
      LadderDescends(c, s);
    } else {
      OtherDescends(c, s);
    }
  }

  lemma DeleteDescends(s: State)
    requires s.call.Some? && DeletePc(s.call.value.pc)
    ensures Closer(s, NextDelete(s))
  {
  }

  lemma RaiseDescends(c: Config, s: State)
    requires RaiseEnabled(c, s)
    ensures Closer(s, Goto(s, Ladder))
  {
  }

  /** Every step of a call except an event inside the operation brings it closer to its end, so no
      call runs for ever; the operation is called only at the gate. */
  lemma CallDescends(c: Config, s: State, outside: Outside)
    requires s.call.Some?
    ensures
      var step := Choose(c, s, outside);
      var s' := Do(c, s, step);
      if EventStep(step) then
        s.call.value.pc.InOperation? && s'.call.Some? && Left(s') <= Left(s) && s'.h.invocations == s.h.invocations && ReturnsOnce(s, s')
      else if s.call.value.pc.Gate? && step.Next? then
        s'.call.Some? && s'.call.value.pc.InOperation? && s'.h.invocations == s.h.invocations + 1 && ReturnsOnce(s, s')
      else Closer(s, s')
  {
    var step := Choose(c, s, outside);
    if step.Next? {
      hide NextAction, NextEnabled, RaiseEnabled, OperationEnabled, Left, Closer;
      if s.call.value.pc.Gate? {
        GateOpens(c, s);
      } else {
        NextDescends(c, s);
      }
    } else if step.Raise? {
      RaiseDescends(c, s);
      hide NextEnabled, RaiseEnabled, OperationEnabled, Left, Closer;
    } else {
      hide NextEnabled, RaiseEnabled;
    }
  }

  /** `execute_idempotent` (and, when not keyed, `execute_with_outcome_receipt`) over the stores in
      `s`.  Between its calls time may pass and other actors may act; see `Environment`. */
  class Executor {
    const c: Config
    var s: State

    /** The stores are in a state the protocol can reach, and nobody holds the key's lock. */
    ghost predicate Valid()
      reads this
    {
      Reachable(c, s) && s.call.None?
    }

    constructor (c: Config)
      ensures Valid() && this.c == c && s == INITIAL
    {
      this.c := c;
      s := INITIAL;
      new;
      Start(c);
    }

    method Step(step: EffectMachine.Step)
      requires Reachable(c, s) && Enabled(c, s, step)
      modifies this`s
      ensures Reachable(c, s) && s == Do(c, old(s), step)
    {
      hide Reachable, Enabled, Do;
      ghost var s' := Take(c, s, step);
      s := Do(c, s, step);
    }

    /** Time passing, start-up reconciliation and other actors, between calls. */
    method Environment(step: EffectMachine.Step)
      requires Valid() && (ActorStep(step) || step.Settle?) && Enabled(c, s, step)
      modifies this`s
      ensures Valid() && s == Do(c, old(s), step)
    {
      hide Reachable;
      Step(step);
    }

    /** A call always ends, also when the process dies after any of its steps, and calls the operation at
        most once.  Under other input or another operation, while the key is in progress and not stale, or
        uncertain with nobody to ask, it leaves every store as it was; a completed key replays its result;
        a stale local mutation that nobody can ask about is demoted.  Any call returns at most one value:
        the record is then completed with it, and it came out of the operation.  Every new value came from
        outside, as the operation's return, its recorded result or the probe's answer.  A call that claims
        the key under new identities and is not cut short leaves receipt, task, result and record exactly as
        its operation's ending calls for. */
    method Execute(fingerprint: nat, opArg: Option<OpId>, correlation: nat, freshOp: OpId, freshReceipt: ReceiptId, outside: Outside)
      requires Valid()
      modifies this`s
      ensures Valid()
      ensures s.h.invocations <= old(s).h.invocations + 1
      ensures old(s).h.returned <= s.h.returned && |s.h.returned| <= |old(s).h.returned| + 1
      ensures c.keyed && old(s).d.record.Some? ==>
        var o, r := old(s), old(s).d.record.value;
        if Conflicts(r, fingerprint, opArg) then s == o
        else match r.state
          case Completed =>
            r.result.Some? && s == o.(h := o.h.(returned := o.h.returned + [r.result.value]))
          case Uncertain => c.reconciler == Absent ==> s == o
          case InProgress =>
            if o.now <= r.updatedAt + c.staleSeconds then s == o
            else c.reconciler == Absent && c.local ==> s == o.(d := o.d.(record := Some(r.(state := Uncertain, updatedAt := o.now, result := None))))
      ensures c.keyed && |s.h.returned| > |old(s).h.returned| ==>
        var stored := s.h.returned[|s.h.returned| - 1];
        && Done(s.d) && s.d.record.value.result == Some(stored)
        && Provenance.Produced(s.h, s.d.record.value.opId, stored.v)
      ensures forall opId, v :: Provenance.Produced(s.h, opId, v) ==> Provenance.Produced(old(s).h, opId, v) || Gives(outside, v)
      ensures c.keyed && outside.dies.None? && Claims(c, old(s), fingerprint, opArg, freshOp, freshReceipt) ==>
        CallOutcome.Ended(old(s), s, CallOutcome.Identity(old(s).now, fingerprint, correlation, if opArg.Some? then opArg.value else freshOp, freshReceipt),
                          CallOutcome.Perform(c, outside.script, CallOutcome.UNTOUCHED, false), outside.encodes)
      ensures AtMostOnce.Guarded(c) ==> 0 <= s.h.effects <= 1
    {
      hide Reachable, Enabled, EnterCall, Do, SaveRecord, AtMostOnce.Guarded, Conflicts, Provenance.Produced, Gives, Claims, CallOutcome.Undisturbed, CallOutcome.Ended, CallOutcome.Perform;
      ghost var id := CallOutcome.Identity(s.now, fingerprint, correlation, if opArg.Some? then opArg.value else freshOp, freshReceipt);
      ghost var ending := CallOutcome.Perform(c, outside.script, CallOutcome.UNTOUCHED, false);
      ghost var told := c.keyed && outside.dies.None? && Claims(c, s, fingerprint, opArg, freshOp, freshReceipt);
      ghost var enter := EffectMachine.Enter(fingerprint, opArg, correlation, freshOp, freshReceipt);
      EnterIsEnabled(c, s, enter);
      StepGives(c, s, enter);
      if c.keyed {
        Replay.Holds(c, s);
        EntryIs(c, s, enter);
      }
      if told {
        ClaimIs(c, s, enter, outside);
      }
      Step(EffectMachine.Enter(fingerprint, opArg, correlation, freshOp, freshReceipt));
      Proceed(outside, told, old(s), id, ending);
      if c.keyed {
        Replay.Holds(c, s);
        Provenance.ValuesAreProduced(c, s);
      }
      if AtMostOnce.Guarded(c) {
        AtMostOnce.NetEffectAtMostOnce(c, s);
      }
    }

    /** The call takes its actions until it ends.  When `told`, nothing has disturbed it since `o`. */
    method Proceed(outside: Outside, ghost told: bool, ghost o: State, ghost id: CallOutcome.Identity, ghost e: CallOutcome.Ending)
      requires Reachable(c, s)
      requires told ==> c.keyed && outside.dies.None? && CallOutcome.Undisturbed(c, o, s, id, e, outside.encodes, outside.script)
      modifies this`s
      ensures Valid() && (old(s).call.None? ==> s == old(s))
      ensures s.h.invocations <= old(s).h.invocations + 1
      ensures old(s).h.returned <= s.h.returned && |s.h.returned| <= |old(s).h.returned| + 1
      ensures forall opId, v :: Provenance.Produced(s.h, opId, v) ==> Provenance.Produced(old(s).h, opId, v) || Gives(outside, v)
      ensures told ==> CallOutcome.Ended(o, s, id, e, outside.encodes)
    {
      hide Reachable, Enabled, Do, Provenance.Produced, Gives, CallOutcome.Undisturbed, CallOutcome.Ended;
      var rest, taken := outside.script, 0;
      while s.call.Some?
        invariant Reachable(c, s) && s.h.invocations <= old(s).h.invocations + 1
        invariant if s.call.Some? then s.h.returned == old(s).h.returned
                  else old(s).h.returned <= s.h.returned && |s.h.returned| <= |old(s).h.returned| + 1
        invariant Left(s) > 20 ==> s.h.invocations == old(s).h.invocations
        invariant old(s).call.None? ==> s == old(s)
        invariant forall step :: step in rest ==> step in outside.script
        invariant told ==> CallOutcome.Undisturbed(c, o, s, id, e, outside.encodes, rest)
        invariant forall opId, v :: Provenance.Produced(s.h, opId, v) ==> Provenance.Produced(old(s).h, opId, v) || Gives(outside, v)
        decreases Left(s), |rest|
      {
        if outside.dies == Some(taken) {
          StopEnds(c, s);
          Step(Stop);
          break;
        }
        var now := outside.(script := rest);
        CallDescends(c, s, now);
        var step := Choose(c, s, now);
        ChosenGives(c, s, now, outside);
        if told {
          ChosenKeeps(c, o, s, id, e, now);
        }
        if EventStep(step) {
          rest := rest[1..];
        }
        Step(step);
        taken := taken + 1;
      }
      if told {
        EndedIs(c, o, s, id, e, outside.encodes, rest);
      }
    }
  }

  /** The key is bound to other input or to another operation. */
  predicate Conflicts(r: Record, fingerprint: nat, opArg: Option<OpId>) {
    r.fingerprint != fingerprint || (opArg.Some? && opArg.value != r.opId)
  }

  /** The value is one that the operation returns or records here, or that the probe answers. */
  predicate Gives(outside: Outside, v: Value) {
    outside.found == Some(v) || Return(v) in outside.script || RecordResult(v) in outside.script
  }

  /** What a call does at its entry. */
  lemma EntryIs(c: Config, s: State, enter: Step)
    requires c.keyed && s.call.None? && enter.Enter? && Replay.Inv(s)
    ensures s.d.record.Some? ==>
      var r, s' := s.d.record.value, EnterCall(c, s, enter);
      if Conflicts(r, enter.fingerprint, enter.opArg) then s' == s
      else match r.state
        case Completed => r.result.Some? && s' == s.(h := s.h.(returned := s.h.returned + [r.result.value]))
        case Uncertain => c.reconciler == Absent ==> s' == s
        case InProgress =>
          if s.now <= r.updatedAt + c.staleSeconds then s' == s
          else c.reconciler == Absent && c.local ==> s' == s.(d := s.d.(record := Some(r.(state := Uncertain, updatedAt := s.now, result := None))))
  {
  }

  /** The call claims the key under identities that no store holds: nobody has, or a claim in progress is
      stale, is not a local mutation, and nobody can be asked about it. */
  predicate Claims(c: Config, s: State, fingerprint: nat, opArg: Option<OpId>, freshOp: OpId, freshReceipt: ReceiptId) {
    && (if opArg.Some? then opArg.value else freshOp) !in s.d.tasks && freshReceipt !in s.d.receipts
    && (s.d.record.Some? ==>
          var r := s.d.record.value;
          && !Conflicts(r, fingerprint, opArg) && r.state == InProgress && s.now > r.updatedAt + c.staleSeconds
          && c.reconciler == Absent && !c.local)
  }

  lemma ClaimIs(c: Config, s: State, enter: Step, outside: Outside)
    requires c.keyed && s.call.None? && enter.Enter?
    requires Claims(c, s, enter.fingerprint, enter.opArg, enter.freshOp, enter.freshReceipt)
    ensures
      var id := CallOutcome.Identity(s.now, enter.fingerprint, enter.correlation, if enter.opArg.Some? then enter.opArg.value else enter.freshOp, enter.freshReceipt);
      var ending := CallOutcome.Perform(c, outside.script, CallOutcome.UNTOUCHED, false);
      CallOutcome.Undisturbed(c, s, EnterCall(c, s, enter), id, ending, outside.encodes, outside.script)
  {
    CallOutcome.PerformSensible(c, outside.script, CallOutcome.UNTOUCHED, false);
    hide CallOutcome.Perform, CallOutcome.OnTrack, CallOutcome.Ended;
  }

  lemma EndedIs(c: Config, o: State, s: State, id: CallOutcome.Identity, e: CallOutcome.Ending, encodes: bool, events: seq<Step>)
    requires s.call.None? && CallOutcome.Undisturbed(c, o, s, id, e, encodes, events)
    ensures CallOutcome.Ended(o, s, id, e, encodes)
  {
  }

  /** What the call chooses keeps an undisturbed call so. */
  lemma ChosenKeeps(c: Config, o: State, s: State, id: CallOutcome.Identity, e: CallOutcome.Ending, now: Outside)
    requires c.keyed && s.call.Some? && CallOutcome.Undisturbed(c, o, s, id, e, now.encodes, now.script)
    ensures
      var step := Choose(c, s, now);
      && (EventStep(step) ==> now.script != [])
      && CallOutcome.Undisturbed(c, o, Do(c, s, step), id, e, now.encodes, if EventStep(step) then now.script[1..] else now.script)
  {
    var step := Choose(c, s, now);
    if s.call.value.pc.InOperation? {
      CallOutcome.OperationStays(c, o, s, id, e, now.encodes, now.script);
      hide CallOutcome.Undisturbed, OperationEnabled, NextEnabled, RaiseEnabled, OperationEvent;
    } else {
      NotProbing(c, o, s, id, e, now.encodes, now.script);
      hide CallOutcome.Undisturbed, OperationEnabled, NextEnabled, RaiseEnabled;
      CallOutcome.ForcedKeeps(c, o, s, id, e, now.encodes, now.script, step);
      hide Do;
    }
  }

  lemma NotProbing(c: Config, o: State, s: State, id: CallOutcome.Identity, e: CallOutcome.Ending, encodes: bool, events: seq<Step>)
    requires s.call.Some? && CallOutcome.Undisturbed(c, o, s, id, e, encodes, events)
    ensures !s.call.value.pc.Probe?
  {
    if !CallOutcome.OpeningPc(s.call.value.pc) {
      CallOutcome.KnownPc(c, o, s, id, e, encodes);
    }
    hide CallOutcome.OnTrack;
  }

  /** Only the operation's values and the probe's answer are new. */
  lemma ChosenGives(c: Config, s: State, now: Outside, outside: Outside)
    requires s.call.Some? && now.found == outside.found && forall step :: step in now.script ==> step in outside.script
    ensures forall opId, v ::
      Provenance.Produced(Do(c, s, Choose(c, s, now)).h, opId, v) ==> Provenance.Produced(s.h, opId, v) || Gives(outside, v)
  {
    var step := Choose(c, s, now);
    StepGives(c, s, step);
    hide NextEnabled, RaiseEnabled, OperationEnabled, Do;
  }

  lemma StepGives(c: Config, s: State, step: EffectMachine.Step)
    requires Enabled(c, s, step)
    ensures forall opId, v :: Provenance.Produced(Do(c, s, step).h, opId, v) ==>
      || Provenance.Produced(s.h, opId, v) || step == Return(v) || step == RecordResult(v) || step == Probed(Some(v))
  {
    hide Attempt, AttemptTask, SettleReceipt, TidyTask, Decide, LadderTarget, Transition, RaiseEnabled, OperationEnabled, NextEnabled;
  }

  lemma StopEnds(c: Config, s: State)
    requires s.call.Some?
    ensures Enabled(c, s, Stop) && Do(c, s, Stop) == Finish(s)
  {
  }

  lemma EnterIsEnabled(c: Config, s: State, step: EffectMachine.Step)
    requires s.call.None? && step.Enter?
    ensures Enabled(c, s, step) && Do(c, s, step) == EnterCall(c, s, step) && ReturnsOnce(s, EnterCall(c, s, step))
    ensures EnterCall(c, s, step).h.invocations == s.h.invocations
  {
  }
}
