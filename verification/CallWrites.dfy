/** Which receipt and task writes of a call are accepted, and what they leave. */
module CallWrites {
  import opened Options
  import opened Outcomes
  import opened EffectMachine

  /** The states from which each receipt write of a call is accepted.  A receipt that is already in the
      wanted state is accepted as it is. */
  predicate AcceptsReceipt(pc: Pc, r: Receipt) {
    match pc
    case MarkApplying => r.state in {Accepted, Applying}
    case MarkUnvalidated(_) => r.state in {Applying, AppliedUnvalidated}
    case MarkValidated(_) => r.state in {AppliedUnvalidated, Unknown, AppliedValidated}
    case MarkFailedAfter(_) => r.state == FailedAfterEffect || (r.state in {Applying, AppliedUnvalidated} && r.crossed)
    case AuthReceipt(_) => r.state in {Applying, AppliedUnvalidated, FailedAfterEffect}
    case UndoneReceipt => r.state in {Applying, AppliedUnvalidated, RolledBack}
    case UnknownReceipt => r.state in {Accepted, Applying, AppliedUnvalidated, Unknown}
    case BeforeReceipt => r.state == FailedBeforeEffect || (r.state in {Accepted, Applying} && !r.crossed)
    case _ => false
  }

  /** The receipt a write leaves: with a result where the effect was applied, with the code of its failure
      otherwise, and marked as crossed where the boundary was begun. */
  predicate LeavesReceipt(c: Config, call: Call, r: Receipt, written: Receipt) {
    var ref := Some(call.opId);
    match call.pc
    case MarkApplying => written == Receipt(r.opId, Applying, r.crossed, None, None)
    case MarkUnvalidated(_) => written == Receipt(r.opId, AppliedUnvalidated, c.hasBoundary && call.boundary.started, ref, None)
    case MarkValidated(_) => written == Receipt(r.opId, AppliedValidated, r.crossed, ref, None)
    case MarkFailedAfter(_) => written == Receipt(r.opId, FailedAfterEffect, true, ref, Some(FailedAfterEffectCode))
    case AuthReceipt(_) => written == Receipt(r.opId, FailedAfterEffect, true, ref, Some(FailedAfterEffectCode))
    case UndoneReceipt => written == Receipt(r.opId, RolledBack, true, None, Some(EffectRolledBackCode))
    case UnknownReceipt => written == Receipt(r.opId, Unknown, true, None, Some(OutcomeUnknownCode))
    case BeforeReceipt => written == Receipt(r.opId, FailedBeforeEffect, false, None, Some(FailedBeforeEffectCode))
    case _ => false
  }

  function Wanted(pc: Pc): ReceiptState
    requires ReceiptPc(pc)
  {
    match pc
    case MarkApplying => Applying
    case MarkUnvalidated(_) => AppliedUnvalidated
    case MarkValidated(_) => AppliedValidated
    case MarkFailedAfter(_) => FailedAfterEffect
    case AuthReceipt(_) => FailedAfterEffect
    case UndoneReceipt => RolledBack
    case UnknownReceipt => Unknown
    case BeforeReceipt => FailedBeforeEffect
  }

  /** Every receipt write of a call, on any valid receipt it may hold: when it is accepted and what it
      leaves. */
  lemma ReceiptWriteIff(c: Config, call: Call)
    requires ReceiptPc(call.pc) && ValidReceipt(call.env.receipt)
    ensures
      var r, written := call.env.receipt, Attempt(c, call);
      && (written.Some? <==> AcceptsReceipt(call.pc, r))
      && (written.Some? ==>
            && ValidReceipt(written.value) && written.value.state == Wanted(call.pc)
            && if r.state == Wanted(call.pc) then written.value == r else LeavesReceipt(c, call, r, written.value))
  {
  }

  /** The code a failing task write carries. */
  function CodeOf(pc: Pc): ErrorCode {
    match pc
    case UndoneTask => EffectRolledBackCode
    case UnknownTask => OutcomeUnknownCode
    case BeforeTask => FailedBeforeEffectCode
    case _ => FailedAfterEffectCode
  }

  /** A task is begun unless it runs already, finished only while it runs and nobody has asked to cancel
      it, and failed while it lives; every write is stamped later than the one before. */
  lemma TaskWriteIff(s: State, call: Call)
    requires TaskPc(call.pc) && !call.pc.ProbeTask? && call.opId in s.d.tasks
    ensures
      var t, written := s.d.tasks[call.opId], AttemptTask(s, call);
      && (written.Some? <==> if call.pc.FinishTask? then t.state == Running && !t.cancelRequested else Live(t.state))
      && (written.Some? ==>
            var t' := written.value;
            && (t' != t ==> t'.updatedAt > t.updatedAt && t'.updatedAt >= s.now)
            && t'.cancelRequested == t.cancelRequested
            && if call.pc.BeginTask? then t' == if t.state == Running then t else Task(Running, t'.updatedAt, t.receiptId, None, None, t.cancelRequested)
               else if call.pc.FinishTask? then t' == Task(Succeeded, t'.updatedAt, Some(call.receiptId), None, Some(call.opId), false)
               else
                 t' == Task(Failed, t'.updatedAt, Some(call.receiptId), Some(CodeOf(call.pc)),
                            if call.pc.FailTaskAfter? || call.pc.AuthTask? then Some(call.opId) else None, t.cancelRequested))
  {
  }
}
