/** Durable outcome evidence: effect receipts, operation tasks and the classification
    that start-up reconciliation gives to an unfinished receipt.

    Receipts and tasks are immutable values in the program (frozen records that a store
    replaces), so they are datatypes and functions here.  A transition that the program
    refuses by raising is `None`. */
module Outcomes {
  import opened Options

  type OpId = nat
  type ReceiptId = nat

  datatype ErrorCode = FailedBeforeEffectCode | FailedAfterEffectCode | EffectRolledBackCode | OutcomeUnknownCode | OtherCode

  // ----- effect receipts -----

  datatype ReceiptState =
    | Accepted
    | Applying
    | AppliedUnvalidated
    | AppliedValidated
    | RolledBack
    | FailedBeforeEffect
    | FailedAfterEffect
    | Unknown

  /** The fields of a receipt that transitions read or write.  `resultRef` names the
      operation whose saved result the receipt points at. */
  datatype Receipt = Receipt(
    opId: OpId,
    state: ReceiptState,
    crossed: bool,
    resultRef: Option<OpId>,
    error: Option<ErrorCode>)

  /** A stored receipt with its compare-and-swap revision. */
  datatype Envelope = Envelope(receipt: Receipt, revision: nat)

  predicate Allowed(from: ReceiptState, to: ReceiptState) {
    match from
    case Accepted => to in {Applying, FailedBeforeEffect, Unknown}
    case Applying => to in {AppliedUnvalidated, RolledBack, FailedBeforeEffect, FailedAfterEffect, Unknown}
    case AppliedUnvalidated => to in {AppliedValidated, FailedAfterEffect, RolledBack, Unknown}
    case Unknown => to == AppliedValidated
    case _ => false
  }

  predicate ValidReceipt(r: Receipt) {
    match r.state
    case Accepted => r.resultRef.None? && r.error.None?
    case Applying => r.resultRef.None? && r.error.None?
    case AppliedUnvalidated => r.resultRef.Some? && r.error.None?
    case AppliedValidated => r.resultRef.Some? && r.error.None?
    case FailedBeforeEffect => r.resultRef.None? && r.error.Some? && !r.crossed
    case FailedAfterEffect => r.resultRef.Some? && r.error.Some? && r.crossed
    case RolledBack => r.error.Some? && r.crossed
    case Unknown => r.error.Some?
  }

  function NewReceipt(opId: OpId): Receipt {
    Receipt(opId, Accepted, false, None, None)
  }

  /** `transition_effect_receipt`: validates, returns the receipt itself for its own state,
      refuses an edge outside the table, and validates what it produced. */
  function Transition(r: Receipt, to: ReceiptState, resultRef: Option<OpId>, error: Option<ErrorCode>,
                      crossed: Option<bool>): Option<Receipt>
  {
    if !ValidReceipt(r) then None
    else if to == r.state then Some(r)
    else if !Allowed(r.state, to) then None
    else
      var updated := Receipt(r.opId, to, if crossed.Some? then crossed.value else r.crossed, resultRef, error);
      if ValidReceipt(updated) then Some(updated) else None
  }

  predicate Unfinished(state: ReceiptState) {
    state in {Accepted, Applying, AppliedUnvalidated}
  }

  /** Distance from acceptance along the transition table. */
  function Rank(state: ReceiptState): nat {
    match state
    case Accepted => 0
    case Applying => 1
    case AppliedUnvalidated => 2
    case Unknown => 3
    case _ => 4
  }

  /** A receipt chain: each element is obtained from the previous one by a transition. */
  ghost predicate ReceiptChain(rs: seq<Receipt>) {
    forall i :: 0 <= i < |rs| - 1 ==>
      exists to, ref, error, crossed :: Transition(rs[i], to, ref, error, crossed) == Some(rs[i + 1])
  }

  // ----- operation tasks -----

  datatype TaskState = Pending | Running | Succeeded | Failed | Cancelled | Expired | Orphaned

  datatype Task = Task(
    state: TaskState,
    updatedAt: int,
    receiptId: Option<ReceiptId>,
    error: Option<ErrorCode>,
    resultRef: Option<OpId>,
    cancelRequested: bool)

  predicate TaskAllowed(from: TaskState, to: TaskState) {
    match from
    case Pending => to in {Running, Failed, Cancelled, Expired}
    case Running => to in {Succeeded, Failed, Cancelled, Expired, Orphaned}
    case _ => false
  }

  predicate Live(state: TaskState) {
    state == Pending || state == Running
  }

  function NewTask(now: int): Task {
    Task(Pending, now, None, None, None, false)
  }

  /** `next_operation_timestamp`: task timestamps increase strictly. */
  function NextStamp(previous: int, now: int): int {
    if now <= previous then previous + 1 else now
  }

  /** `OperationManager.start`: a running task is returned as it is. */
  function StartTask(t: Task, now: int): Option<Task> {
    if t.state == Running then Some(t)
    else if !TaskAllowed(t.state, Running) then None
    else Some(t.(state := Running, updatedAt := NextStamp(t.updatedAt, now), error := None, resultRef := None))
  }

  /** `OperationManager.succeed`, which always carries a result reference and a receipt id. */
  function SucceedTask(t: Task, opId: OpId, receiptId: ReceiptId, now: int): Option<Task> {
    if t.cancelRequested || !TaskAllowed(t.state, Succeeded) then None
    else Some(Task(Succeeded, NextStamp(t.updatedAt, now), Some(receiptId), None, Some(opId), false))
  }

  /** `OperationManager.fail`, which always carries an error code and a receipt id. */
  function FailTask(t: Task, error: ErrorCode, resultRef: Option<OpId>, receiptId: ReceiptId, now: int): Option<Task> {
    if !TaskAllowed(t.state, Failed) then None
    else Some(t.(state := Failed, updatedAt := NextStamp(t.updatedAt, now), receiptId := Some(receiptId),
                 error := Some(error), resultRef := resultRef))
  }

  /** `OperationManager.reconcile_success`. */
  function ReconcileTask(t: Task, opId: OpId, receiptId: ReceiptId, now: int): Option<Task> {
    if t.state == Succeeded then
      if t.resultRef == Some(opId) && t.receiptId == Some(receiptId) then Some(t) else None
    else if t.state == Failed && t.error == Some(OutcomeUnknownCode) && t.receiptId == Some(receiptId) then
      Some(t.(state := Succeeded, updatedAt := NextStamp(t.updatedAt, now), error := None, resultRef := Some(opId)))
    else None
  }

  // ----- start-up classification -----

  datatype Plan = KeepTerminal | Defer | Validate | FailBefore | MarkUnknown

  /** The branch `OutcomeReceiptReconciler.reconcile` takes for one scanned receipt. */
  function Decide(r: Receipt, resumable: bool, task: Option<Task>, hasResult: bool, cutoff: int): Plan {
    if !Unfinished(r.state) then KeepTerminal
    else if r.state == Applying && resumable && task.Some? && Live(task.value.state) then Defer
    else if task.Some? && Live(task.value.state) && task.value.updatedAt > cutoff then Defer
    else if hasResult then Validate
    else if r.state == Accepted && (task.None? || task.value.state == Pending) then FailBefore
    else MarkUnknown
  }

  // ----- what the receipt table promises -----

  /** Every accepted transition keeps the receipt valid and bound to its operation, and either
      changes nothing or climbs the table. */
  lemma TransitionClimbs(r: Receipt, to: ReceiptState, ref: Option<OpId>, error: Option<ErrorCode>, crossed: Option<bool>)
    requires Transition(r, to, ref, error, crossed).Some?
    ensures
      var r' := Transition(r, to, ref, error, crossed).value;
      ValidReceipt(r') && r'.opId == r.opId && r'.state == to && (r' == r || Rank(r.state) < Rank(r'.state))
  {
  }

  /** Over a whole chain of transitions a receipt never moves down: once it is validated, rolled
      back or failed, it is the same receipt for ever, and an unknown outcome can only become a
      validated one. */
  lemma {:induction false} TerminalIsFinal(rs: seq<Receipt>, i: nat, j: nat)
    requires ReceiptChain(rs) && i <= j < |rs|
    ensures rs[j].opId == rs[i].opId && Rank(rs[i].state) <= Rank(rs[j].state)
    ensures Rank(rs[i].state) == 4 ==> rs[j] == rs[i]
    ensures rs[i].state == Unknown ==> rs[j] == rs[i] || rs[j].state == AppliedValidated
    decreases j - i
  {
    if i < j {
      var to, ref, error, crossed :| Transition(rs[i], to, ref, error, crossed) == Some(rs[i + 1]);
      TransitionClimbs(rs[i], to, ref, error, crossed);
      TerminalIsFinal(rs, i + 1, j);
    }
  }
}
