/** The exactly-once effect protocol as a step machine for one idempotency key.

    One step is one durable write, one event inside the reviewed operation, one read that
    decides a branch, or an action of the environment: time passing, the process dying, the
    start-up reconciler, or any other actor saving an operation task.  Exceptions follow the
    program's two regions: inside `execute_and_commit` they enter its failure ladder
    (`Raise`), everywhere else they leave the stores as they are and end the call, which is
    what a crash does too (`Stop`).

    With `keyed == false` the same machine is `execute_with_outcome_receipt`: it has no
    idempotency record, and a refused gate goes through the ladder. */
module EffectMachine {
  import opened Options
  import opened Outcomes

  type Value = nat

  /** How the caller's `reconcile_uncertain` answers: not supplied, supplied and never `None`
      (publication raises instead), `None` only when the effect is known to be absent, or `None`
      without such knowledge. */
  datatype Reconciler = Absent | NeverMisses | Truthful | Blind

  datatype Config = Config(
    keyed: bool,
    local: bool,         // the action is one of _LOCAL_MUTATION_ACTIONS
    reconciler: Reconciler,
    hasBoundary: bool,   // the caller passes an effect boundary
    mayRollback: bool,   // the operation may undo its effect and call rollback()
    ioFaults: bool,      // a store write or identity capture may raise
    staleSeconds: nat)

  /** A result as stored in the record: the durable form written first, or the validated
      serialized form that replaces it.  A replay decodes this value and nothing else. */
  datatype Stored = DurableForm(v: Value) | PersistedForm(v: Value)

  datatype RecordState = InProgress | Completed | Uncertain

  datatype Record = Record(
    state: RecordState,
    fingerprint: nat,
    updatedAt: int,
    correlation: nat,
    result: Option<Stored>,
    receiptId: ReceiptId,
    opId: OpId)

  datatype Durable = Durable(
    record: Option<Record>,
    receipts: map<ReceiptId, Envelope>,
    tasks: map<OpId, Task>,
    results: map<OpId, Value>)

  datatype Boundary = Boundary(started: bool, rolledBack: bool, authoritative: Option<Value>)

  /** The next action of the call that holds the key's lock. */
  datatype Pc =
    // reconcile(): ask the caller, then save result, receipt, task and record
    | Probe | ProbeDelete
    | ProbeResult(v: Value) | ProbeReceipt(v: Value) | ProbeTask(v: Value) | ProbeCommit(v: Value)
    // claim
    | CreateTask | CreateReceipt | SaveClaim | MarkApplying | BeginTask | Gate
    // execute_and_commit
    | InOperation
    | SaveResult(v: Value) | MarkUnvalidated(v: Value) | CommitDurable(v: Value) | Materialize(v: Value)
    | MarkFailedAfter(v: Value) | FailTaskAfter(v: Value)
    | CommitPersisted(v: Value) | MarkValidated(v: Value) | FinishTask(v: Value)
    // the failure ladder
    | Ladder
    | AuthResult(v: Value) | AuthReceipt(v: Value) | AuthTask(v: Value) | AuthCommit(v: Value)
    | UndoneReceipt | UndoneTask | UndoneDelete
    | UnknownReceipt | UnknownTask | UnknownCommit
    | BeforeReceipt | BeforeTask | BeforeDelete

  /** Volatile state of the running call.  `applied` says whether this invocation's effect
      currently stands; the program cannot read it. */
  datatype Call = Call(
    pc: Pc,
    fingerprint: nat,
    correlation: nat,
    epoch: int,
    opId: OpId,
    receiptId: ReceiptId,
    env: Envelope,
    boundary: Boundary,
    applied: bool)

  /** The start-up reconciler working on one receipt: it has read the envelope, then the task and the
      result, then written the receipt and has its task left to write. */
  datatype Startup =
    | Seen(receiptId: ReceiptId, env: Envelope)
    | Planned(receiptId: ReceiptId, env: Envelope, plan: Plan)
    | Tidying(receiptId: ReceiptId, opId: OpId, plan: Plan)

  /** Facts about the run that no store records. */
  datatype History = History(
    invocations: nat,           // how often operation() was called
    invoked: set<OpId>,
    gross: nat,                 // how often the effect was applied
    effects: int,               // applications minus undone applications
    evidence: set<OpId>,        // operations that returned, recorded a result, or were found by a probe
    returned: seq<Stored>,      // what keyed calls returned, in order
    recoveredBefore: set<OpId>, // operations start-up reconciliation called failed-before-effect
    recoveredValid: set<OpId>,  // operations start-up reconciliation called validated
    misled: bool,               // a probe has answered although no effect stood
    produced: set<(OpId, Value)>) // the values that operations returned or recorded, or probes found for them

  datatype State = State(d: Durable, call: Option<Call>, startup: Option<Startup>, now: int, h: History)

  datatype Step =
    | Tick(seconds: nat)
    | Enter(fingerprint: nat, opArg: Option<OpId>, correlation: nat, freshOp: OpId, freshReceipt: ReceiptId)
    | Next
    | Probed(found: Option<Value>)
    | Begin | Apply | Rollback | RecordResult(v: Value) | Return(v: Value)
    | MaterializeFails
    | Raise
    | Stop
    | Look(receiptId: ReceiptId)
    | Judge(resumable: bool, cutoff: int)
    | Settle
    | Tidy
    | StartupStop
    | Meddle(opId: OpId, task: Task)

  const INITIAL := State(Durable(None, map[], map[], map[]), None, None, 0,
                         History(0, {}, 0, 0, {}, [], {}, {}, false, {}))

  /** Program points of a call that asks the caller what happened. */
  predicate Probing(pc: Pc) {
    pc.Probe? || pc.ProbeDelete? || pc.ProbeResult? || pc.ProbeReceipt? || pc.ProbeTask? || pc.ProbeCommit?
  }

  /** The outcome of the key is decided. */
  predicate Done(d: Durable) {
    d.record.Some? && d.record.value.state == Completed
  }

  // ----- entering: what a call does with the record it finds -----

  datatype Entry = Conflict | Replay(stored: Option<Stored>) | AskCaller | RefuseUncertain | DemoteStale | RefuseRunning | Claim

  function Classify(c: Config, record: Option<Record>, fingerprint: nat, opArg: Option<OpId>, now: int): Entry {
    if !c.keyed || record.None? then Claim
    else
      var r := record.value;
      var stale := now - r.updatedAt > c.staleSeconds;
      if opArg.Some? && r.opId != opArg.value then Conflict
      else if r.fingerprint != fingerprint then Conflict
      else if r.state == Completed then Replay(r.result)
      else if r.state == Uncertain then
        if c.reconciler != Absent then AskCaller else RefuseUncertain
      else if stale && c.reconciler != Absent then AskCaller
      else if stale && c.local then DemoteStale
      else if !stale then RefuseRunning
      else Claim
  }

  function EnterCall(c: Config, s: State, step: Step): State
    requires step.Enter?
  {
    var claim := Call(CreateTask, step.fingerprint, step.correlation, s.now,
                      if step.opArg.Some? then step.opArg.value else step.freshOp, step.freshReceipt,
                      Envelope(NewReceipt(0), 0), Boundary(false, false, None), false);
    match Classify(c, s.d.record, step.fingerprint, step.opArg, s.now)
    case Claim => s.(call := Some(claim))
    case AskCaller => s.(call := Some(claim.(pc := Probe)))
    case Replay(stored) => if stored.Some? then s.(h := s.h.(returned := s.h.returned + [stored.value])) else s
    case DemoteStale => SaveRecord(s, s.d.record.value.(state := Uncertain, updatedAt := s.now, result := None))
    case _ => s
  }

  // ----- writes -----

  function SaveRecord(s: State, r: Record): State {
    s.(d := s.d.(record := Some(r)))
  }

  function DeleteRecord(s: State): State {
    s.(d := s.d.(record := None))
  }

  function SaveTask(s: State, opId: OpId, t: Task): State {
    s.(d := s.d.(tasks := s.d.tasks[opId := t]))
  }

  function SaveReceipt(s: State, id: ReceiptId, r: Receipt, revision: nat): State {
    s.(d := s.d.(receipts := s.d.receipts[id := Envelope(r, revision)]))
  }

  /** The record, when it is the one this call claimed. */
  predicate Owns(d: Durable, call: Call) {
    d.record.Some? && d.record.value.correlation == call.correlation
  }

  /** A compare-and-swap on a receipt succeeds only on the revision that was read. */
  predicate CasOk(d: Durable, id: ReceiptId, env: Envelope) {
    id in d.receipts && d.receipts[id].revision == env.revision
  }

  /** The receipt transition the call attempts at its current program point. */
  function Attempt(c: Config, call: Call): Option<Receipt> {
    var r := call.env.receipt;
    var ref := Some(call.opId);
    match call.pc
    case MarkApplying => Transition(r, Applying, None, None, None)
    case MarkUnvalidated(_) => Transition(r, AppliedUnvalidated, ref, None, Some(c.hasBoundary && call.boundary.started))
    case MarkFailedAfter(_) => Transition(r, FailedAfterEffect, ref, Some(FailedAfterEffectCode), None)
    case MarkValidated(_) => Transition(r, AppliedValidated, ref, None, None)
    case AuthReceipt(_) => Transition(r, FailedAfterEffect, ref, Some(FailedAfterEffectCode), Some(true))
    case UndoneReceipt => Transition(r, RolledBack, None, Some(EffectRolledBackCode), Some(true))
    case UnknownReceipt => Transition(r, Unknown, None, Some(OutcomeUnknownCode), Some(true))
    case BeforeReceipt => Transition(r, FailedBeforeEffect, None, Some(FailedBeforeEffectCode), None)
    case _ => None
  }

  predicate ReceiptPc(pc: Pc) {
    pc.MarkApplying? || pc.MarkUnvalidated? || pc.MarkFailedAfter? || pc.MarkValidated? || pc.AuthReceipt?
    || pc.UndoneReceipt? || pc.UnknownReceipt? || pc.BeforeReceipt?
  }

  /** Where a receipt write leads. */
  function AfterReceipt(c: Config, pc: Pc): Pc
    requires ReceiptPc(pc)
  {
    match pc
    case MarkApplying => BeginTask
    case MarkUnvalidated(v) => if c.keyed then CommitDurable(v) else Materialize(v)
    case MarkFailedAfter(v) => FailTaskAfter(v)
    case MarkValidated(v) => FinishTask(v)
    case AuthReceipt(v) => AuthTask(v)
    case UndoneReceipt => UndoneTask
    case UnknownReceipt => UnknownTask
    case BeforeReceipt => BeforeTask
  }

  /** The operation-task transition the call attempts at its current program point. */
  function AttemptTask(s: State, call: Call): Option<Task> {
    if call.opId !in s.d.tasks then None
    else
      var t := s.d.tasks[call.opId];
      match call.pc
      case BeginTask => StartTask(t, s.now)
      case ProbeTask(_) => ReconcileTask(t, call.opId, call.receiptId, s.now)
      case FailTaskAfter(_) => FailTask(t, FailedAfterEffectCode, Some(call.opId), call.receiptId, s.now)
      case FinishTask(_) => Outcomes.SucceedTask(t, call.opId, call.receiptId, s.now)
      case AuthTask(_) => FailTask(t, FailedAfterEffectCode, Some(call.opId), call.receiptId, s.now)
      case UndoneTask => FailTask(t, EffectRolledBackCode, None, call.receiptId, s.now)
      case UnknownTask => FailTask(t, OutcomeUnknownCode, None, call.receiptId, s.now)
      case BeforeTask => FailTask(t, FailedBeforeEffectCode, None, call.receiptId, s.now)
      case _ => None
  }

  predicate TaskPc(pc: Pc) {
    pc.BeginTask? || pc.ProbeTask? || pc.FailTaskAfter? || pc.FinishTask? || pc.AuthTask?
    || pc.UndoneTask? || pc.UnknownTask? || pc.BeforeTask?
  }

  /** The pc after a task write, or `None` when the call ends there. */
  function AfterTask(c: Config, pc: Pc): Option<Pc>
    requires TaskPc(pc)
  {
    match pc
    case BeginTask => Some(Gate)
    case ProbeTask(v) => Some(ProbeCommit(v))
    case FailTaskAfter(_) => None
    case FinishTask(_) => None
    case AuthTask(v) => if c.keyed then Some(AuthCommit(v)) else None
    case UndoneTask => if c.keyed then Some(UndoneDelete) else None
    case UnknownTask => if c.keyed then Some(UnknownCommit) else None
    case BeforeTask => if c.keyed then Some(BeforeDelete) else None
  }

  /** The record a commit point writes over the claimed one. */
  function CommitRecord(s: State, call: Call): Record
    requires s.d.record.Some?
  {
    var r := s.d.record.value.(updatedAt := s.now);
    match call.pc
    case CommitDurable(v) => r.(state := Completed, result := Some(DurableForm(v)))
    case CommitPersisted(v) => r.(state := Completed, result := Some(PersistedForm(v)))
    case ProbeCommit(v) => r.(state := Completed, result := Some(PersistedForm(v)))
    case AuthCommit(v) => r.(state := Completed, result := Some(DurableForm(v)))
    case _ => r.(state := Uncertain, result := None)
  }

  predicate CommitPc(pc: Pc) {
    pc.CommitDurable? || pc.CommitPersisted? || pc.ProbeCommit? || pc.AuthCommit? || pc.UnknownCommit?
  }

  predicate DeletePc(pc: Pc) {
    pc.ProbeDelete? || pc.UndoneDelete? || pc.BeforeDelete?
  }

  function Goto(s: State, pc: Pc): State
    requires s.call.Some?
  {
    s.(call := Some(s.call.value.(pc := pc)))
  }

  function Finish(s: State): State {
    s.(call := None)
  }

  function ReturnStored(s: State, stored: Stored): State {
    Finish(s).(h := s.h.(returned := s.h.returned + [stored]))
  }

  // ----- the ladder's branch -----

  /** First decisions of the `except` clause.  `None` ends the call. */
  function LadderTarget(c: Config, s: State, call: Call): Option<Pc> {
    if call.env.receipt.state == AppliedValidated && (c.keyed ==> s.d.record.Some? && s.d.record.value.state == Completed) then None
    else if call.boundary.authoritative.Some? then Some(AuthResult(call.boundary.authoritative.value))
    else if c.keyed && !Owns(s.d, call) then None
    else if call.boundary.rolledBack then Some(UndoneReceipt)
    else if call.env.receipt.crossed || call.boundary.started then Some(UnknownReceipt)
    else Some(BeforeReceipt)
  }

  /** A call that already validated its receipt returns the stored result from the ladder. */
  predicate LadderReturns(c: Config, s: State, call: Call) {
    && c.keyed && call.env.receipt.state == AppliedValidated
    && s.d.record.Some? && s.d.record.value.state == Completed && s.d.record.value.result.Some?
  }

  // ----- the call's next action -----

  predicate NextEnabled(c: Config, s: State) {
    && s.call.Some?
    && var call := s.call.value;
       if ReceiptPc(call.pc) then Attempt(c, call).Some? && CasOk(s.d, call.receiptId, call.env)
       else if TaskPc(call.pc) then AttemptTask(s, call).Some?
       else if CommitPc(call.pc) then call.pc.AuthCommit? || (s.d.record.Some? && (call.pc.ProbeCommit? || Owns(s.d, call)))
       else match call.pc
            case CreateTask => call.opId !in s.d.tasks
            case CreateReceipt => call.receiptId !in s.d.receipts
            case ProbeReceipt(_) =>
              && s.d.record.Some? && s.d.record.value.receiptId in s.d.receipts
              && Transition(s.d.receipts[s.d.record.value.receiptId].receipt, AppliedValidated,
                            Some(s.d.record.value.opId), None, Some(true)).Some?
            case ProbeResult(_) => s.d.record.Some?
            case Probe => false
            case InOperation => false
            case _ => true
  }

  function WriteReceipt(c: Config, s: State, r: Receipt): State
    requires s.call.Some? && ReceiptPc(s.call.value.pc)
  {
    var call := s.call.value;
    var env := Envelope(r, call.env.revision + 1);
    SaveReceipt(s, call.receiptId, r, env.revision).(call := Some(call.(env := env, pc := AfterReceipt(c, call.pc))))
  }

  function NextReceipt(c: Config, s: State): State
    requires s.call.Some? && ReceiptPc(s.call.value.pc) && Attempt(c, s.call.value).Some?
  {
    WriteReceipt(c, s, Attempt(c, s.call.value).value)
  }

  function WriteTask(c: Config, s: State, t: Task): State
    requires s.call.Some? && TaskPc(s.call.value.pc)
  {
    var call := s.call.value;
    var saved := SaveTask(s, call.opId, t);
    var after := AfterTask(c, call.pc);
    if after.Some? then Goto(saved, after.value)
    else if call.pc.FinishTask? && c.keyed then ReturnStored(saved, PersistedForm(call.pc.v))
    else Finish(saved)
  }

  function NextTask(c: Config, s: State): State
    requires s.call.Some? && TaskPc(s.call.value.pc) && AttemptTask(s, s.call.value).Some?
  {
    WriteTask(c, s, AttemptTask(s, s.call.value).value)
  }

  function AfterCommit(pc: Pc): Option<Pc> {
    match pc
    case CommitDurable(v) => Some(Materialize(v))
    case CommitPersisted(v) => Some(MarkValidated(v))
    case _ => None
  }

  function NextCommit(s: State): State
    requires s.call.Some? && CommitPc(s.call.value.pc)
    requires s.call.value.pc.AuthCommit? || s.d.record.Some?
  {
    var call := s.call.value;
    if call.pc.AuthCommit? && !Owns(s.d, call) then Finish(s)
    else
      var saved := SaveRecord(s, CommitRecord(s, call));
      if AfterCommit(call.pc).Some? then Goto(saved, AfterCommit(call.pc).value)
      else if call.pc.ProbeCommit? then ReturnStored(saved, PersistedForm(call.pc.v))
      else Finish(saved)
  }

  function NextDelete(s: State): State
    requires s.call.Some? && DeletePc(s.call.value.pc)
  {
    if s.call.value.pc.ProbeDelete? then Goto(DeleteRecord(s), CreateTask) else Finish(DeleteRecord(s))
  }

  function NextLadder(c: Config, s: State): State
    requires s.call.Some?
  {
    var call := s.call.value;
    var target := LadderTarget(c, s, call);
    if LadderReturns(c, s, call) then ReturnStored(s, s.d.record.value.result.value)
    else if target.Some? then Goto(s, target.value)
    else Finish(s)
  }

  function NextAction(c: Config, s: State): State
    requires NextEnabled(c, s)
  {
    var pc := s.call.value.pc;
    if ReceiptPc(pc) then NextReceipt(c, s)
    else if TaskPc(pc) then NextTask(c, s)
    else if CommitPc(pc) then NextCommit(s)
    else if DeletePc(pc) then NextDelete(s)
    else if pc.Ladder? then NextLadder(c, s)
    else NextOther(c, s)
  }

  function NextOther(c: Config, s: State): State
    requires NextEnabled(c, s)
  {
    var call := s.call.value;
    match call.pc
    case CreateTask => Goto(SaveTask(s, call.opId, NewTask(call.epoch)), CreateReceipt)
    case CreateReceipt =>
      var r := NewReceipt(call.opId);
      Goto(SaveReceipt(s, call.receiptId, r, 1).(call := Some(call.(env := Envelope(r, 1)))),
           if c.keyed then SaveClaim else MarkApplying)
    case SaveClaim =>
      Goto(SaveRecord(s, Record(InProgress, call.fingerprint, call.epoch, call.correlation, None, call.receiptId, call.opId)),
           MarkApplying)
    case Gate =>
      Goto(s, InOperation).(h := s.h.(invocations := s.h.invocations + 1, invoked := s.h.invoked + {call.opId}))
    case ProbeResult(v) =>
      var opId := s.d.record.value.opId;
      // from here on the call works on the identities bound in the record
      Goto(s.(d := s.d.(results := s.d.results[opId := v]),
              call := Some(call.(opId := opId, receiptId := s.d.record.value.receiptId)),
              h := s.h.(evidence := s.h.evidence + {opId})), ProbeReceipt(v))
    case ProbeReceipt(v) =>
      var id := s.d.record.value.receiptId;
      var r := Transition(s.d.receipts[id].receipt, AppliedValidated, Some(s.d.record.value.opId), None, Some(true)).value;
      Goto(SaveReceipt(s, id, r, s.d.receipts[id].revision + 1), ProbeTask(v))
    case SaveResult(v) => Goto(s.(d := s.d.(results := s.d.results[call.opId := v])), MarkUnvalidated(v))
    case AuthResult(v) => Goto(s.(d := s.d.(results := s.d.results[call.opId := v])), AuthReceipt(v))
    case Materialize(v) => Goto(s, if c.keyed then CommitPersisted(v) else MarkValidated(v))
    case _ => s
  }

  /** Where the program can raise inside `execute_and_commit`. */
  predicate RaiseEnabled(c: Config, s: State) {
    && s.call.Some?
    && var call := s.call.value;
       match call.pc
       case Gate => !c.keyed
       case InOperation => true
       case SaveResult(_) => true
       case MarkUnvalidated(_) => c.ioFaults || !CasOk(s.d, call.receiptId, call.env)
       case CommitDurable(_) => c.ioFaults || !Owns(s.d, call)
       case MarkFailedAfter(_) => c.ioFaults || Attempt(c, call).None? || !CasOk(s.d, call.receiptId, call.env)
       case FailTaskAfter(_) => true
       case CommitPersisted(_) => c.ioFaults || !Owns(s.d, call)
       case MarkValidated(_) => c.ioFaults || !CasOk(s.d, call.receiptId, call.env)
       case FinishTask(_) => true
       case _ => false
  }

  // ----- the reviewed operation -----

  /** What the operation may do between its invocation and its return: the boundary is begun
      before the effect, one invocation applies at most one effect, rollback() follows the undo,
      and an authoritative result is recorded only for an effect that stands. */
  predicate OperationEnabled(c: Config, call: Call, step: Step) {
    call.pc.InOperation? &&
    match step
    case Begin => c.hasBoundary
    case Apply => !call.applied && (c.hasBoundary ==> call.boundary.started && !call.boundary.rolledBack)
    case Rollback => c.hasBoundary && c.mayRollback && call.boundary.started && call.boundary.authoritative.None?
    case RecordResult(_) => c.hasBoundary && call.boundary.started && call.applied && !call.boundary.rolledBack
    case Return(_) => true
    case _ => false
  }

  function OperationEvent(s: State, step: Step): State
    requires s.call.Some?
  {
    var call := s.call.value;
    match step
    case Begin => s.(call := Some(call.(boundary := call.boundary.(started := true, rolledBack := false))))
    case Apply => s.(call := Some(call.(applied := true)), h := s.h.(gross := s.h.gross + 1, effects := s.h.effects + 1))
    case Rollback =>
      s.(call := Some(call.(applied := false, boundary := call.boundary.(rolledBack := true))),
         h := s.h.(effects := s.h.effects - (if call.applied then 1 else 0)))
    case RecordResult(v) =>
      s.(call := Some(call.(boundary := call.boundary.(authoritative := Some(v)))),
         h := s.h.(evidence := s.h.evidence + {call.opId}, produced := s.h.produced + {(call.opId, v)}))
    case Return(v) =>
      Goto(s, SaveResult(v)).(h := s.h.(evidence := s.h.evidence + {call.opId}, produced := s.h.produced + {(call.opId, v)}))
    case _ => s
  }

  // ----- start-up reconciliation of one receipt -----

  /** The receipt write of a settled plan.  Validation of an unfinished receipt passes through
      applied-unvalidated. */
  function SettleReceipt(r: Receipt, plan: Plan): Option<Receipt> {
    match plan
    case Validate =>
      if r.state == AppliedUnvalidated then Transition(r, AppliedValidated, Some(r.opId), None, None)
      else Transition(r, AppliedUnvalidated, Some(r.opId), None, Some(r.crossed))
    case FailBefore => Transition(r, FailedBeforeEffect, None, Some(FailedBeforeEffectCode), None)
    case MarkUnknown => Transition(r, Unknown, None, Some(OutcomeUnknownCode), Some(r.crossed))
    case _ => None
  }

  predicate SettleEnabled(s: State) {
    && s.startup.Some? && s.startup.value.Planned?
    && SettleReceipt(s.startup.value.env.receipt, s.startup.value.plan).Some?
    && CasOk(s.d, s.startup.value.receiptId, s.startup.value.env)
  }

  function WriteSettled(s: State, r: Receipt): State
    requires s.startup.Some? && s.startup.value.Planned?
  {
    var id, env, plan := s.startup.value.receiptId, s.startup.value.env, s.startup.value.plan;
    var saved := SaveReceipt(s, id, r, env.revision + 1);
    if plan == Validate && r.state == AppliedUnvalidated then
      saved.(startup := Some(Planned(id, Envelope(r, env.revision + 1), Validate)))
    else
      saved.(startup := Some(Tidying(id, r.opId, plan)),
             h := s.h.(recoveredBefore := s.h.recoveredBefore + (if plan == FailBefore then {r.opId} else {}),
                       recoveredValid := s.h.recoveredValid + (if plan == Validate then {r.opId} else {})))
  }

  function SettleAction(s: State): State
    requires SettleEnabled(s)
  {
    WriteSettled(s, SettleReceipt(s.startup.value.env.receipt, s.startup.value.plan).value)
  }

  /** The task write that goes with a settled receipt.  A pending task is started first, except to
      fail it before its effect. */
  function TidyTask(s: State): Option<Task> {
    if s.startup.None? || !s.startup.value.Tidying? || s.startup.value.opId !in s.d.tasks then None
    else
      var id, opId, t := s.startup.value.receiptId, s.startup.value.opId, s.d.tasks[s.startup.value.opId];
      match s.startup.value.plan
      case FailBefore => FailTask(t, FailedBeforeEffectCode, None, id, s.now)
      case Validate => if t.state == Pending then StartTask(t, s.now) else Outcomes.SucceedTask(t, opId, id, s.now)
      case MarkUnknown => if t.state == Pending then StartTask(t, s.now) else FailTask(t, OutcomeUnknownCode, None, id, s.now)
      case _ => None
  }

  function TidyAction(s: State): State
    requires TidyTask(s).Some?
  {
    var opId, t := s.startup.value.opId, TidyTask(s).value;
    SaveTask(s, opId, t).(startup := if Live(t.state) then s.startup else None)
  }

  // ----- steps and runs -----

  predicate Enabled(c: Config, s: State, step: Step) {
    match step
    case Tick(_) => true
    case Enter(_, _, _, _, _) => s.call.None?
    case Next => NextEnabled(c, s)
    case Probed(found) =>
      && s.call.Some? && s.call.value.pc.Probe? && s.d.record.Some?
      && (found.None? ==> c.reconciler == Blind || (c.reconciler == Truthful && s.h.effects == 0))
    case MaterializeFails => s.call.Some? && s.call.value.pc.Materialize?
    case Raise => RaiseEnabled(c, s)
    case Stop => s.call.Some?
    case Look(id) => s.startup.None? && id in s.d.receipts
    // the cutoff is the pass's own clock reading less a non-negative number of seconds
    case Judge(_, cutoff) => s.startup.Some? && s.startup.value.Seen? && cutoff <= s.now
    case Settle => SettleEnabled(s)
    case Tidy => TidyTask(s).Some?
    case StartupStop => true
    case Meddle(_, _) => true
    case _ => s.call.Some? && OperationEnabled(c, s.call.value, step)
  }

  function Do(c: Config, s: State, step: Step): State
    requires Enabled(c, s, step)
  {
    match step
    case Tick(n) => s.(now := s.now + n)
    case Enter(_, _, _, _, _) => EnterCall(c, s, step)
    case Next => NextAction(c, s)
    case Probed(found) =>
      Goto(s, if found.Some? then ProbeResult(found.value) else ProbeDelete).(
        h := s.h.(misled := s.h.misled || Misleads(s, step),
                  produced := if found.Some? then s.h.produced + {(s.d.record.value.opId, found.value)} else s.h.produced))
    case MaterializeFails => Goto(s, MarkFailedAfter(s.call.value.pc.v))
    case Raise => Goto(s, Ladder)
    case Stop => Finish(s)
    case Look(id) => s.(startup := Some(Seen(id, s.d.receipts[id])))
    case Judge(resumable, cutoff) =>
      var id, env := s.startup.value.receiptId, s.startup.value.env;
      var opId := env.receipt.opId;
      var task := if opId in s.d.tasks then Some(s.d.tasks[opId]) else None;
      s.(startup := Some(Planned(id, env, Decide(env.receipt, resumable, task, opId in s.d.results, cutoff))))
    case Settle => SettleAction(s)
    case Tidy => TidyAction(s)
    case StartupStop => s.(startup := None)
    case Meddle(opId, task) => SaveTask(s, opId, task)
    case _ => OperationEvent(s, step)
  }

  /** The probe finds a matching state that is not this key's doing. */
  predicate Misleads(s: State, step: Step) {
    step.Probed? && step.found.Some? && s.h.effects <= 0
  }

  /** Events inside the reviewed operation. */
  predicate EventStep(step: Step) {
    step.Begin? || step.Apply? || step.Rollback? || step.RecordResult? || step.Return?
  }

  /** Steps of the call that only move its program counter. */
  predicate MoveStep(step: Step) {
    step.Probed? || step.MaterializeFails? || step.Raise? || step.Stop?
  }

  /** Time, start-up reconciliation except its receipt writes, and other actors. */
  predicate ActorStep(step: Step) {
    step.Tick? || step.Tidy? || step.Look? || step.Judge? || step.StartupStop? || step.Meddle?
  }

  /** A run: every step is enabled in the state the previous ones left. */
  predicate Runs(c: Config, s: State, steps: seq<Step>)
    decreases |steps|
  {
    steps == [] || (Enabled(c, s, steps[0]) && Runs(c, Do(c, s, steps[0]), steps[1..]))
  }

  function After(c: Config, s: State, steps: seq<Step>): State
    requires Runs(c, s, steps)
    decreases |steps|
  {
    if steps == [] then s else After(c, Do(c, s, steps[0]), steps[1..])
  }

  ghost predicate Reachable(c: Config, s: State) {
    exists steps :: Runs(c, INITIAL, steps) && After(c, INITIAL, steps) == s
  }

  /** What the call writes over a receipt is a valid successor of the receipt it read. */
  lemma AttemptClimbs(c: Config, call: Call)
    requires Attempt(c, call).Some?
    ensures
      var r, r' := call.env.receipt, Attempt(c, call).value;
      ValidReceipt(r') && r'.opId == r.opId && (r' == r || Rank(r.state) < Rank(r'.state))
  {
  }

  lemma AttemptNeverAccepts(c: Config, call: Call)
    requires Attempt(c, call).Some?
    ensures Attempt(c, call).value.state != Accepted
  {
  }

  lemma SettleClimbs(r: Receipt, plan: Plan)
    requires SettleReceipt(r, plan).Some?
    ensures
      var r' := SettleReceipt(r, plan).value;
      ValidReceipt(r') && r'.opId == r.opId && (r' == r || Rank(r.state) < Rank(r'.state))
  {
  }

  lemma {:induction false} RunsSnoc(c: Config, s: State, steps: seq<Step>, step: Step)
    requires Runs(c, s, steps) && Enabled(c, After(c, s, steps), step)
    ensures Runs(c, s, steps + [step]) && After(c, s, steps + [step]) == Do(c, After(c, s, steps), step)
    decreases |steps|
  {
    if steps == [] {
      assert Runs(c, Do(c, s, step), []);
    } else {
      assert (steps + [step])[1..] == steps[1..] + [step];
      RunsSnoc(c, Do(c, s, steps[0]), steps[1..], step);
    }
  }

  /** Reachability is closed under steps. */
  lemma Take(c: Config, s: State, step: Step) returns (s': State)
    requires Reachable(c, s) && Enabled(c, s, step)
    ensures s' == Do(c, s, step) && Reachable(c, s')
  {
    var steps :| Runs(c, INITIAL, steps) && After(c, INITIAL, steps) == s;
    RunsSnoc(c, INITIAL, steps, step);
    s' := Do(c, s, step);
  }

  lemma Start(c: Config)
    ensures Reachable(c, INITIAL)
  {
    assert Runs(c, INITIAL, []) && After(c, INITIAL, []) == INITIAL;
  }
}
