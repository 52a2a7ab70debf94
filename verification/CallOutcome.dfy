/** What a call that claims its key leaves behind when nothing disturbs it: the receipt, the task, the
    result and the record tell one story, decided by how far the operation came. */
module CallOutcome {
  import opened Options
  import opened Outcomes
  import opened EffectMachine

  /** How the operation ended: its boundary as it left it, and the value it returned unless it raised. */
  datatype Ending = Ending(boundary: Boundary, returned: Option<Value>)

  /** The operation performs these events in turn, as far as the boundary allows, and raises when it
      cannot go on. */
  function Perform(c: Config, events: seq<Step>, b: Boundary, applied: bool): Ending {
    if events == [] then Ending(b, None)
    else
      var rest := events[1..];
      match events[0]
      case Return(v) => Ending(b, Some(v))
      case Begin => if c.hasBoundary then Perform(c, rest, b.(started := true, rolledBack := false), applied) else Ending(b, None)
      case Apply =>
        if !applied && (c.hasBoundary ==> b.started && !b.rolledBack) then Perform(c, rest, b, true) else Ending(b, None)
      case Rollback =>
        if c.hasBoundary && c.mayRollback && b.started && b.authoritative.None? then Perform(c, rest, b.(rolledBack := true), false)
        else Ending(b, None)
      case RecordResult(v) =>
        if c.hasBoundary && b.started && applied && !b.rolledBack then Perform(c, rest, b.(authoritative := Some(v)), applied)
        else Ending(b, None)
      case _ => Ending(b, None)
  }

  const UNTOUCHED := Boundary(false, false, None)

  /** The identities of a claim, and when it was made. */
  datatype Identity = Identity(at: int, fingerprint: nat, correlation: nat, opId: OpId, receiptId: ReceiptId)

  /** What the stores say about a claim. */
  datatype Story = Story(
    receipt: ReceiptState,
    crossed: bool,
    error: Option<ErrorCode>,
    task: TaskState,
    taskError: Option<ErrorCode>,
    record: Option<RecordState>,
    stored: Option<Stored>,
    result: Option<Value>)

  /** The story of an ended call.  A result that cannot be encoded counts as a failure after the effect
      where the boundary was begun; otherwise it leaves the receipt unvalidated and the task running. */
  function Told(e: Ending, encodes: bool): Story {
    var b := e.boundary;
    match e.returned
    case Some(v) =>
      if encodes then
        Story(AppliedValidated, b.started, None, Succeeded, None, Some(Completed), Some(PersistedForm(v)), Some(v))
      else if b.started then
        Story(FailedAfterEffect, true, Some(FailedAfterEffectCode), Failed, Some(FailedAfterEffectCode), Some(Completed), Some(DurableForm(v)), Some(v))
      else
        Story(AppliedUnvalidated, false, None, Running, None, Some(Completed), Some(DurableForm(v)), Some(v))
    case None =>
      if b.authoritative.Some? then
        var v := b.authoritative.value;
        Story(FailedAfterEffect, true, Some(FailedAfterEffectCode), Failed, Some(FailedAfterEffectCode), Some(Completed), Some(DurableForm(v)), Some(v))
      else if b.rolledBack then
        Story(RolledBack, true, Some(EffectRolledBackCode), Failed, Some(EffectRolledBackCode), None, None, None)
      else if b.started then
        Story(Unknown, true, Some(OutcomeUnknownCode), Failed, Some(OutcomeUnknownCode), Some(Uncertain), None, None)
      else
        Story(FailedBeforeEffect, false, Some(FailedBeforeEffectCode), Failed, Some(FailedBeforeEffectCode), None, None, None)
  }

  /** The stores tell this story of the claim, and are otherwise as they were in `o`. */
  predicate Tells(o: State, s: State, id: Identity, y: Story) {
    && s.d.receipts.Keys == o.d.receipts.Keys + {id.receiptId} && s.d.tasks.Keys == o.d.tasks.Keys + {id.opId}
    && (forall r :: r in o.d.receipts && r != id.receiptId ==> s.d.receipts[r] == o.d.receipts[r])
    && (forall op :: op in o.d.tasks && op != id.opId ==> s.d.tasks[op] == o.d.tasks[op])
    && s.d.results == (if y.result.Some? then o.d.results[id.opId := y.result.value] else o.d.results)
    && TellsReceipt(s.d.receipts[id.receiptId].receipt, id, y) && TellsTask(s.d.tasks[id.opId], id, y) && TellsRecord(s.d.record, id, y)
  }

  predicate TellsReceipt(r: Receipt, id: Identity, y: Story) {
    && ValidReceipt(r) && r.opId == id.opId && r.state == y.receipt && r.crossed == y.crossed && r.error == y.error
    && r.resultRef == if y.receipt in {AppliedUnvalidated, AppliedValidated, FailedAfterEffect} then Some(id.opId) else None
  }

  /** Every task write is stamped later than the one before, though the clock stands. */
  function Stamps(state: TaskState): int {
    match state
    case Pending => 0
    case Running => 1
    case _ => 2
  }

  predicate TellsTask(t: Task, id: Identity, y: Story) {
    && t.state == y.task && t.error == y.taskError && !t.cancelRequested && t.updatedAt == id.at + Stamps(y.task)
    && t.receiptId == (if y.task in {Succeeded, Failed} then Some(id.receiptId) else None)
    && t.resultRef == if y.task in {Succeeded, Failed} && y.result.Some? then Some(id.opId) else None
  }

  predicate TellsRecord(record: Option<Record>, id: Identity, y: Story) {
    && (record.Some? <==> y.record.Some?)
    && (record.Some? ==>
          var r := record.value;
          && r.state == y.record.value && r.result == y.stored && r.fingerprint == id.fingerprint && r.correlation == id.correlation
          && r.opId == id.opId && r.receiptId == id.receiptId && r.updatedAt == id.at)
  }

  // ----- the story on the way -----

  function Working(receipt: ReceiptState, crossed: bool, task: TaskState, result: Option<Value>): Story {
    Story(receipt, crossed, None, task, None, Some(InProgress), None, result)
  }

  function Failing(receipt: ReceiptState, crossed: bool, code: ErrorCode, task: TaskState, result: Option<Value>): Story {
    Story(receipt, crossed, Some(code), task, if task == Failed then Some(code) else None, Some(InProgress), None, result)
  }

  /** The story while the call stands at a program point. */
  function Midway(pc: Pc, e: Ending): Story {
    var crossed := e.boundary.started;
    match pc
    case MarkApplying => Working(Accepted, false, Pending, None)
    case BeginTask => Working(Applying, false, Pending, None)
    case MarkUnvalidated(v) => Working(Applying, false, Running, Some(v))
    case CommitDurable(v) => Working(AppliedUnvalidated, crossed, Running, Some(v))
    case Materialize(v) => Working(AppliedUnvalidated, crossed, Running, Some(v)).(record := Some(Completed), stored := Some(DurableForm(v)))
    case CommitPersisted(v) => Working(AppliedUnvalidated, crossed, Running, Some(v)).(record := Some(Completed), stored := Some(DurableForm(v)))
    case MarkFailedAfter(v) => Working(AppliedUnvalidated, crossed, Running, Some(v)).(record := Some(Completed), stored := Some(DurableForm(v)))
    case MarkValidated(v) => Working(AppliedUnvalidated, crossed, Running, Some(v)).(record := Some(Completed), stored := Some(PersistedForm(v)))
    case FinishTask(v) => Working(AppliedValidated, crossed, Running, Some(v)).(record := Some(Completed), stored := Some(PersistedForm(v)))
    case FailTaskAfter(v) =>
      Failing(FailedAfterEffect, true, FailedAfterEffectCode, Running, Some(v)).(record := Some(Completed), stored := Some(DurableForm(v)))
    case AuthReceipt(v) => Working(Applying, false, Running, Some(v))
    case AuthTask(v) => Failing(FailedAfterEffect, true, FailedAfterEffectCode, Running, Some(v))
    case AuthCommit(v) => Failing(FailedAfterEffect, true, FailedAfterEffectCode, Failed, Some(v))
    case UndoneTask => Failing(RolledBack, true, EffectRolledBackCode, Running, None)
    case UndoneDelete => Failing(RolledBack, true, EffectRolledBackCode, Failed, None)
    case UnknownTask => Failing(Unknown, true, OutcomeUnknownCode, Running, None)
    case UnknownCommit => Failing(Unknown, true, OutcomeUnknownCode, Failed, None)
    case BeforeTask => Failing(FailedBeforeEffect, false, FailedBeforeEffectCode, Running, None)
    case BeforeDelete => Failing(FailedBeforeEffect, false, FailedBeforeEffectCode, Failed, None)
    case _ =>
      if e.returned.Some? && (pc.Ladder? || pc.BeforeReceipt?) then Told(e, false)
      else Working(Applying, false, Running, None)
  }

  /** The program point belongs to this ending. */
  predicate Leads(pc: Pc, e: Ending, encodes: bool) {
    var b := e.boundary;
    match pc
    case MarkApplying | BeginTask | Gate | InOperation => true
    case SaveResult(v) => e.returned == Some(v)
    case MarkUnvalidated(v) => e.returned == Some(v)
    case CommitDurable(v) => e.returned == Some(v)
    case Materialize(v) => e.returned == Some(v)
    case CommitPersisted(v) => e.returned == Some(v) && encodes
    case MarkValidated(v) => e.returned == Some(v) && encodes
    case FinishTask(v) => e.returned == Some(v) && encodes
    case MarkFailedAfter(v) => e.returned == Some(v) && !encodes
    case FailTaskAfter(v) => e.returned == Some(v) && !encodes && b.started
    case Ladder => e.returned.Some? ==> !encodes && !b.started
    case AuthResult(v) => e.returned.None? && b.authoritative == Some(v)
    case AuthReceipt(v) => e.returned.None? && b.authoritative == Some(v)
    case AuthTask(v) => e.returned.None? && b.authoritative == Some(v)
    case AuthCommit(v) => e.returned.None? && b.authoritative == Some(v)
    case UndoneReceipt | UndoneTask | UndoneDelete => e.returned.None? && b.authoritative.None? && b.rolledBack
    case UnknownReceipt | UnknownTask | UnknownCommit => e.returned.None? && b.authoritative.None? && !b.rolledBack && b.started
    case BeforeReceipt => b.authoritative.None? && !b.rolledBack && !b.started && (e.returned.Some? ==> !encodes)
    case BeforeTask | BeforeDelete => e.returned.None? && b.authoritative.None? && !b.rolledBack && !b.started
    case _ => false
  }

  /** A boundary that was not begun knows nothing. */
  predicate Sensible(c: Config, b: Boundary) {
    (b.started ==> c.hasBoundary) && (!b.started ==> !b.rolledBack && b.authoritative.None?)
  }

  /** The call is on its way to this ending, and nobody has interfered. */
  predicate OnTrack(c: Config, o: State, s: State, id: Identity, e: Ending, encodes: bool) {
    && s.call.Some? && s.h.returned == o.h.returned && s.now == id.at
    && var call := s.call.value;
       && call.opId == id.opId && call.receiptId == id.receiptId && call.fingerprint == id.fingerprint && call.correlation == id.correlation
       && Leads(call.pc, e, encodes) && Sensible(c, e.boundary) && Sensible(c, call.boundary)
       && BoundaryFits(call, e) && Tells(o, s, id, Midway(call.pc, e)) && s.d.receipts[id.receiptId] == call.env
  }

  /** The boundary is untouched before the operation and as the operation left it afterwards. */
  predicate BoundaryFits(call: Call, e: Ending) {
    if call.pc.MarkApplying? || call.pc.BeginTask? || call.pc.Gate? then call.boundary == UNTOUCHED && !call.applied
    else call.pc.InOperation? || call.boundary == e.boundary
  }

  /** What a call does where nothing but itself decides. */
  predicate Forced(c: Config, s: State, encodes: bool, step: Step)
    requires s.call.Some?
  {
    if s.call.value.pc.Materialize? && !encodes then step == MaterializeFails
    else if NextEnabled(c, s) then step == Next
    else if RaiseEnabled(c, s) then step == Raise
    else step == Stop
  }

  /** The call has ended as told. */
  predicate Ended(o: State, s: State, id: Identity, e: Ending, encodes: bool) {
    && Tells(o, s, id, Told(e, encodes))
    && s.h.returned == o.h.returned + if e.returned.Some? && encodes then [PersistedForm(e.returned.value)] else []
  }

  predicate Arrives(c: Config, o: State, s: State, id: Identity, e: Ending, encodes: bool) {
    if s.call.Some? then OnTrack(c, o, s, id, e, encodes) else Ended(o, s, id, e, encodes)
  }

  // ----- one write at a time -----

  lemma ReceiptWritten(o: State, s: State, id: Identity, y: Story, r: Receipt, revision: nat)
    requires Tells(o, s, id, y) && TellsReceipt(r, id, y.(receipt := r.state, crossed := r.crossed, error := r.error))
    ensures Tells(o, SaveReceipt(s, id.receiptId, r, revision), id, y.(receipt := r.state, crossed := r.crossed, error := r.error))
  {
    hide TellsTask, TellsRecord;
    var y' := y.(receipt := r.state, crossed := r.crossed, error := r.error);
    SameTask(s.d.tasks[id.opId], id, y, y');
    SameRecord(s.d.record, id, y, y');
  }

  lemma TaskWritten(o: State, s: State, id: Identity, y: Story, y': Story, t: Task)
    requires Tells(o, s, id, y) && TellsTask(t, id, y') && y' == y.(task := y'.task, taskError := y'.taskError)
    ensures Tells(o, SaveTask(s, id.opId, t), id, y')
  {
    hide TellsReceipt, TellsRecord, TellsTask;
    assert TellsReceipt(s.d.receipts[id.receiptId].receipt, id, y) ==> TellsReceipt(s.d.receipts[id.receiptId].receipt, id, y') by {
      SameReceipt(s.d.receipts[id.receiptId].receipt, id, y, y');
    }
    assert TellsRecord(s.d.record, id, y) ==> TellsRecord(s.d.record, id, y') by {
      SameRecord(s.d.record, id, y, y');
    }
  }

  lemma SameReceipt(r: Receipt, id: Identity, y: Story, y': Story)
    requires y'.receipt == y.receipt && y'.crossed == y.crossed && y'.error == y.error
    ensures TellsReceipt(r, id, y) <==> TellsReceipt(r, id, y')
  {
  }

  lemma SameTask(t: Task, id: Identity, y: Story, y': Story)
    requires y'.task == y.task && y'.taskError == y.taskError && (y'.result.Some? == y.result.Some? || y.task == Running)
    ensures TellsTask(t, id, y) <==> TellsTask(t, id, y')
  {
  }

  lemma SameRecord(record: Option<Record>, id: Identity, y: Story, y': Story)
    requires y'.record == y.record && y'.stored == y.stored
    ensures TellsRecord(record, id, y) <==> TellsRecord(record, id, y')
  {
  }

  lemma RecordWritten(o: State, s: State, id: Identity, y: Story, y': Story, record: Option<Record>)
    requires Tells(o, s, id, y) && TellsRecord(record, id, y') && y' == y.(record := y'.record, stored := y'.stored)
    ensures Tells(o, s.(d := s.d.(record := record)), id, y')
  {
    hide TellsReceipt, TellsRecord, TellsTask;
    SameReceipt(s.d.receipts[id.receiptId].receipt, id, y, y');
    SameTask(s.d.tasks[id.opId], id, y, y');
  }

  lemma ResultWritten(o: State, s: State, id: Identity, y: Story, v: Value)
    requires Tells(o, s, id, y) && y.task == Running
    ensures Tells(o, s.(d := s.d.(results := s.d.results[id.opId := v])), id, y.(result := Some(v)))
  {
    hide TellsReceipt, TellsRecord, TellsTask;
    var y' := y.(result := Some(v));
    SameReceipt(s.d.receipts[id.receiptId].receipt, id, y, y');
    SameTask(s.d.tasks[id.opId], id, y, y');
    SameRecord(s.d.record, id, y, y');
  }

  /** Only the stores are told of. */
  lemma SameStores(o: State, s: State, s': State, id: Identity, y: Story)
    requires Tells(o, s, id, y) && s'.d == s.d
    ensures Tells(o, s', id, y)
  {
    hide TellsReceipt, TellsRecord, TellsTask;
  }

  /** The receipt write is refused here. */
  predicate Refuses(pc: Pc, e: Ending) {
    (pc.MarkFailedAfter? && !e.boundary.started) || (pc.BeforeReceipt? && e.returned.Some?)
  }

  /** What a receipt write makes of the story. */
  predicate ReceiptGoes(c: Config, call: Call, id: Identity, e: Ending, encodes: bool)
    requires ReceiptPc(call.pc)
  {
    var after, r := AfterReceipt(c, call.pc), Attempt(c, call);
    && (r.None? <==> Refuses(call.pc, e))
    && (r.Some? ==>
          && Leads(after, e, encodes) && TellsReceipt(r.value, id, Midway(after, e))
          && Midway(after, e) == Midway(call.pc, e).(receipt := r.value.state, crossed := r.value.crossed, error := r.value.error))
  }

  lemma ForwardReceipt(c: Config, call: Call, id: Identity, e: Ending, encodes: bool)
    requires c.keyed && Leads(call.pc, e, encodes) && Sensible(c, e.boundary) && call.opId == id.opId
    requires call.pc.MarkApplying? || call.pc.MarkUnvalidated? || call.pc.MarkFailedAfter? || call.pc.MarkValidated?
    requires TellsReceipt(call.env.receipt, id, Midway(call.pc, e)) && (!call.pc.MarkApplying? ==> call.boundary == e.boundary)
    ensures ReceiptGoes(c, call, id, e, encodes)
  {
    hide Told;
  }

  lemma FailingReceipt(c: Config, call: Call, id: Identity, e: Ending, encodes: bool)
    requires c.keyed && Leads(call.pc, e, encodes) && Sensible(c, e.boundary) && call.opId == id.opId
    requires call.pc.AuthReceipt? || call.pc.UndoneReceipt? || call.pc.UnknownReceipt? || call.pc.BeforeReceipt?
    requires TellsReceipt(call.env.receipt, id, Midway(call.pc, e))
    ensures ReceiptGoes(c, call, id, e, encodes)
  {
    if call.pc.BeforeReceipt? {
      BeforeGoes(c, call, id, e, encodes);
    }
  }

  lemma BeforeGoes(c: Config, call: Call, id: Identity, e: Ending, encodes: bool)
    requires c.keyed && Leads(call.pc, e, encodes) && call.opId == id.opId && call.pc.BeforeReceipt?
    requires TellsReceipt(call.env.receipt, id, Midway(call.pc, e))
    ensures ReceiptGoes(c, call, id, e, encodes)
  {
  }

  lemma AttemptIs(c: Config, call: Call, id: Identity, e: Ending, encodes: bool)
    requires c.keyed && ReceiptPc(call.pc) && Leads(call.pc, e, encodes) && Sensible(c, e.boundary) && call.opId == id.opId
    requires TellsReceipt(call.env.receipt, id, Midway(call.pc, e)) && (!call.pc.MarkApplying? ==> call.boundary == e.boundary)
    ensures ReceiptGoes(c, call, id, e, encodes)
  {
    hide ReceiptGoes, Midway, Leads, Sensible, TellsReceipt;
    if call.pc.MarkApplying? || call.pc.MarkUnvalidated? || call.pc.MarkFailedAfter? || call.pc.MarkValidated? {
      ForwardReceipt(c, call, id, e, encodes);
    } else {
      FailingReceipt(c, call, id, e, encodes);
    }
  }

  /** From one program point to the next. */
  lemma StillOnTrack(c: Config, o: State, s: State, s': State, id: Identity, e: Ending, encodes: bool, pc: Pc, env: Envelope)
    requires OnTrack(c, o, s, id, e, encodes) && s'.call == Some(s.call.value.(pc := pc, env := env)) && s'.h.returned == s.h.returned && s'.now == s.now
    requires Leads(pc, e, encodes) && Tells(o, s', id, Midway(pc, e)) && s'.d.receipts[id.receiptId] == env
    requires BoundaryFits(s'.call.value, e)
    ensures OnTrack(c, o, s', id, e, encodes)
  {
    hide Tells, Midway, Leads, Sensible;
  }

  lemma AfterReceiptFits(c: Config, call: Call, e: Ending)
    requires c.keyed && ReceiptPc(call.pc) && BoundaryFits(call, e)
    ensures BoundaryFits(call.(pc := AfterReceipt(c, call.pc)), e)
    ensures !AfterReceipt(c, call.pc).InOperation? && !call.pc.InOperation?
  {
  }

  lemma TrackReceipt(c: Config, o: State, s: State, id: Identity, e: Ending, encodes: bool)
    requires c.keyed && OnTrack(c, o, s, id, e, encodes) && ReceiptPc(s.call.value.pc) && Attempt(c, s.call.value).Some?
    ensures NextEnabled(c, s) && OnTrack(c, o, NextReceipt(c, s), id, e, encodes)
  {
    var call := s.call.value;
    assert TellsReceipt(call.env.receipt, id, Midway(call.pc, e)) && CasOk(s.d, call.receiptId, call.env);
    AttemptIs(c, call, id, e, encodes);
    AfterReceiptFits(c, call, e);
    hide Tells, Midway, Leads, Attempt, ReceiptPc, AfterReceipt;
    var r, after, revision := Attempt(c, call).value, AfterReceipt(c, call.pc), call.env.revision + 1;
    ReceiptWritten(o, s, id, Midway(call.pc, e), r, revision);
    SameStores(o, SaveReceipt(s, id.receiptId, r, revision), NextReceipt(c, s), id, Midway(after, e));
    StillOnTrack(c, o, s, NextReceipt(c, s), id, e, encodes, after, Envelope(r, revision));
  }

  /** Where a refused receipt write leaves the story. */
  lemma RefusedIs(c: Config, s: State, e: Ending, encodes: bool)
    requires c.keyed && s.call.Some? && Leads(s.call.value.pc, e, encodes) && Refuses(s.call.value.pc, e) && Attempt(c, s.call.value).None?
    ensures !NextEnabled(c, s) && (RaiseEnabled(c, s) <==> s.call.value.pc.MarkFailedAfter?)
    ensures s.call.value.pc.MarkFailedAfter? ==> Leads(Ladder, e, encodes) && Midway(Ladder, e) == Midway(s.call.value.pc, e)
    ensures s.call.value.pc.BeforeReceipt? ==> Told(e, encodes) == Midway(s.call.value.pc, e) && e.returned.Some? && !encodes
  {
    hide Attempt;
  }

  /** It enters the ladder, or ends the call there. */
  lemma TrackRefused(c: Config, o: State, s: State, id: Identity, e: Ending, encodes: bool)
    requires c.keyed && OnTrack(c, o, s, id, e, encodes) && ReceiptPc(s.call.value.pc) && Attempt(c, s.call.value).None?
    ensures !NextEnabled(c, s)
    ensures RaiseEnabled(c, s) ==> OnTrack(c, o, Goto(s, Ladder), id, e, encodes)
    ensures !RaiseEnabled(c, s) ==> Ended(o, Finish(s), id, e, encodes)
  {
    var call := s.call.value;
    assert TellsReceipt(call.env.receipt, id, Midway(call.pc, e)) && s.d.receipts[id.receiptId] == call.env;
    AttemptIs(c, call, id, e, encodes);
    RefusedIs(c, s, e, encodes);
    assert Refuses(call.pc, e);
    hide Tells, Attempt, Midway, Leads, Told, Sensible, NextEnabled, RaiseEnabled;
    SameStores(o, s, Goto(s, Ladder), id, Midway(call.pc, e));
    SameStores(o, s, Finish(s), id, Midway(call.pc, e));
    if RaiseEnabled(c, s) {
      StillOnTrack(c, o, s, Goto(s, Ladder), id, e, encodes, Ladder, call.env);
    }
  }

  /** What a task write makes of the story, and where it leads. */
  predicate TaskGoes(c: Config, s: State, id: Identity, e: Ending, encodes: bool)
    requires s.call.Some? && TaskPc(s.call.value.pc)
  {
    var pc, t := s.call.value.pc, AttemptTask(s, s.call.value);
    var after := AfterTask(c, pc);
    var y, y' := Midway(pc, e), if after.Some? then Midway(after.value, e) else Told(e, encodes);
    && t.Some? && TellsTask(t.value, id, y') && y' == y.(task := y'.task, taskError := y'.taskError)
    && (after.Some? ==> Leads(after.value, e, encodes))
    && (after.None? ==> pc.FinishTask? == (e.returned.Some? && encodes) && (pc.FinishTask? ==> e.returned == Some(pc.v)))
  }

  predicate TaskTold(s: State, id: Identity, e: Ending, encodes: bool) {
    && s.call.Some? && TaskPc(s.call.value.pc) && Leads(s.call.value.pc, e, encodes)
    && s.call.value.opId == id.opId && s.call.value.receiptId == id.receiptId && s.now == id.at
    && id.opId in s.d.tasks && TellsTask(s.d.tasks[id.opId], id, Midway(s.call.value.pc, e))
  }

  lemma StartOrFinish(c: Config, s: State, id: Identity, e: Ending, encodes: bool)
    requires c.keyed && TaskTold(s, id, e, encodes) && (s.call.value.pc.BeginTask? || s.call.value.pc.FinishTask?)
    ensures TaskGoes(c, s, id, e, encodes)
  {
  }

  lemma FailAfter(c: Config, s: State, id: Identity, e: Ending, encodes: bool)
    requires c.keyed && TaskTold(s, id, e, encodes) && (s.call.value.pc.FailTaskAfter? || s.call.value.pc.AuthTask?)
    ensures TaskGoes(c, s, id, e, encodes)
  {
  }

  lemma FailOtherwise(c: Config, s: State, id: Identity, e: Ending, encodes: bool)
    requires c.keyed && TaskTold(s, id, e, encodes)
    requires s.call.value.pc.UndoneTask? || s.call.value.pc.UnknownTask?
    ensures TaskGoes(c, s, id, e, encodes)
  {
    hide Told;
  }

  lemma FailBeforeEffect(c: Config, s: State, id: Identity, e: Ending, encodes: bool)
    requires c.keyed && TaskTold(s, id, e, encodes) && s.call.value.pc.BeforeTask?
    ensures TaskGoes(c, s, id, e, encodes)
  {
    hide Told;
  }

  /** The task write at each program point. */
  lemma TaskIs(c: Config, s: State, id: Identity, e: Ending, encodes: bool)
    requires c.keyed && TaskTold(s, id, e, encodes)
    ensures TaskGoes(c, s, id, e, encodes)
  {
    assert !s.call.value.pc.ProbeTask?;
    hide TaskTold, TaskGoes, Leads;
    if s.call.value.pc.BeginTask? || s.call.value.pc.FinishTask? {
      StartOrFinish(c, s, id, e, encodes);
    } else if s.call.value.pc.FailTaskAfter? || s.call.value.pc.AuthTask? {
      FailAfter(c, s, id, e, encodes);
    } else if s.call.value.pc.BeforeTask? {
      FailBeforeEffect(c, s, id, e, encodes);
    } else {
      FailOtherwise(c, s, id, e, encodes);
    }
  }

  lemma AfterTaskFits(c: Config, call: Call, e: Ending)
    requires c.keyed && TaskPc(call.pc) && BoundaryFits(call, e) && AfterTask(c, call.pc).Some? && !call.pc.ProbeTask?
    ensures BoundaryFits(call.(pc := AfterTask(c, call.pc).value), e)
  {
  }

  lemma TrackTask(c: Config, o: State, s: State, id: Identity, e: Ending, encodes: bool)
    requires c.keyed && OnTrack(c, o, s, id, e, encodes) && TaskPc(s.call.value.pc)
    ensures NextEnabled(c, s) && Arrives(c, o, NextTask(c, s), id, e, encodes)
  {
    var call := s.call.value;
    assert TellsTask(s.d.tasks[id.opId], id, Midway(call.pc, e)) && id.opId in s.d.tasks;
    TaskIs(c, s, id, e, encodes);
    assert !call.pc.ProbeTask? && !ReceiptPc(call.pc);
    var t, after := AttemptTask(s, call).value, AfterTask(c, call.pc);
    var y' := if after.Some? then Midway(after.value, e) else Told(e, encodes);
    if after.Some? {
      AfterTaskFits(c, call, e);
    }
    assert s.d.receipts[id.receiptId] == call.env;
    hide Tells, Midway, Leads, AttemptTask, TaskPc, AfterTask, Told;
    TaskWritten(o, s, id, Midway(call.pc, e), y', t);
    SameStores(o, SaveTask(s, id.opId, t), NextTask(c, s), id, y');
    if after.Some? {
      StillOnTrack(c, o, s, NextTask(c, s), id, e, encodes, after.value, call.env);
    }
  }

  /** The record write at each commit, and where it leads. */
  lemma CommitIs(c: Config, s: State, id: Identity, e: Ending, encodes: bool)
    requires c.keyed && s.call.Some? && CommitPc(s.call.value.pc) && Leads(s.call.value.pc, e, encodes)
    requires s.call.value.correlation == id.correlation && s.now == id.at && TellsRecord(s.d.record, id, Midway(s.call.value.pc, e))
    ensures
      var pc := s.call.value.pc;
      var after := AfterCommit(pc);
      var y, y' := Midway(pc, e), if after.Some? then Midway(after.value, e) else Told(e, encodes);
      && s.d.record.Some? && Owns(s.d, s.call.value) && !pc.ProbeCommit?
      && TellsRecord(Some(CommitRecord(s, s.call.value)), id, y') && y' == y.(record := y'.record, stored := y'.stored)
      && (after.Some? ==> Leads(after.value, e, encodes) && !after.value.InOperation?)
      && (after.None? ==> e.returned.None?)
  {
  }

  lemma AfterCommitFits(call: Call, e: Ending)
    requires CommitPc(call.pc) && BoundaryFits(call, e) && AfterCommit(call.pc).Some?
    ensures BoundaryFits(call.(pc := AfterCommit(call.pc).value), e)
  {
  }

  lemma TrackCommit(c: Config, o: State, s: State, id: Identity, e: Ending, encodes: bool)
    requires c.keyed && OnTrack(c, o, s, id, e, encodes) && CommitPc(s.call.value.pc)
    ensures NextEnabled(c, s) && Arrives(c, o, NextAction(c, s), id, e, encodes)
  {
    var call := s.call.value;
    assert TellsRecord(s.d.record, id, Midway(call.pc, e));
    CommitIs(c, s, id, e, encodes);
    var record, after := CommitRecord(s, call), AfterCommit(call.pc);
    var y' := if after.Some? then Midway(after.value, e) else Told(e, encodes);
    if after.Some? {
      AfterCommitFits(call, e);
    }
    assert s.d.receipts[id.receiptId] == call.env;
    assert NextAction(c, s) == NextCommit(s) && NextEnabled(c, s);
    hide Tells, Midway, Leads, CommitPc, AfterCommit, Told, CommitRecord, Owns, NextAction, NextEnabled;
    RecordWritten(o, s, id, Midway(call.pc, e), y', Some(record));
    SameStores(o, SaveRecord(s, record), NextCommit(s), id, y');
    if after.Some? {
      StillOnTrack(c, o, s, NextCommit(s), id, e, encodes, after.value, call.env);
    }
  }

  lemma DeleteIs(c: Config, s: State, e: Ending, encodes: bool)
    requires c.keyed && s.call.Some? && DeletePc(s.call.value.pc) && Leads(s.call.value.pc, e, encodes)
    ensures Midway(s.call.value.pc, e).(record := None, stored := None) == Told(e, encodes) && e.returned.None?
    ensures NextEnabled(c, s) && NextAction(c, s) == Finish(DeleteRecord(s))
  {
    hide Attempt, AttemptTask;
  }

  lemma TrackDelete(c: Config, o: State, s: State, id: Identity, e: Ending, encodes: bool)
    requires c.keyed && OnTrack(c, o, s, id, e, encodes) && DeletePc(s.call.value.pc)
    ensures NextEnabled(c, s) && Arrives(c, o, NextAction(c, s), id, e, encodes)
  {
    var y := Midway(s.call.value.pc, e);
    hide Tells, Midway, Leads, Told, NextEnabled, NextAction, Sensible, BoundaryFits, DeletePc;
    DeleteIs(c, s, e, encodes);
    RecordWritten(o, s, id, y, Told(e, encodes), None);
    SameStores(o, s.(d := s.d.(record := None)), NextAction(c, s), id, Told(e, encodes));
  }

  /** The ladder's branch. */
  lemma LadderIs(c: Config, s: State, id: Identity, e: Ending, encodes: bool)
    requires c.keyed && s.call.Some? && s.call.value.pc.Ladder? && Leads(s.call.value.pc, e, encodes) && Sensible(c, e.boundary)
    requires s.call.value.boundary == e.boundary && s.call.value.correlation == id.correlation
    requires TellsReceipt(s.call.value.env.receipt, id, Midway(s.call.value.pc, e)) && TellsRecord(s.d.record, id, Midway(s.call.value.pc, e))
    ensures !LadderReturns(c, s, s.call.value)
    ensures
      var target := LadderTarget(c, s, s.call.value);
      && target.Some? && Leads(target.value, e, encodes) && Midway(target.value, e) == Midway(s.call.value.pc, e)
      && BoundaryFits(s.call.value.(pc := target.value), e)
  {
  }

  lemma TrackLadder(c: Config, o: State, s: State, id: Identity, e: Ending, encodes: bool)
    requires c.keyed && OnTrack(c, o, s, id, e, encodes) && s.call.value.pc.Ladder?
    ensures NextEnabled(c, s) && Arrives(c, o, NextAction(c, s), id, e, encodes)
  {
    var call := s.call.value;
    assert TellsReceipt(call.env.receipt, id, Midway(call.pc, e)) && TellsRecord(s.d.record, id, Midway(call.pc, e));
    assert s.d.receipts[id.receiptId] == call.env && NextAction(c, s) == NextLadder(c, s);
    hide Tells, Midway, Leads, LadderTarget, LadderReturns, BoundaryFits, Sensible, TellsReceipt, TellsRecord, NextAction;
    LadderBoundary(c, o, s, id, e, encodes);
    LadderIs(c, s, id, e, encodes);
    SameStores(o, s, NextLadder(c, s), id, Midway(call.pc, e));
    StillOnTrack(c, o, s, NextLadder(c, s), id, e, encodes, LadderTarget(c, s, call).value, call.env);
  }

  lemma LadderBoundary(c: Config, o: State, s: State, id: Identity, e: Ending, encodes: bool)
    requires OnTrack(c, o, s, id, e, encodes) && s.call.value.pc.Ladder?
    ensures s.call.value.boundary == e.boundary
  {
    hide Tells, Midway, Leads, Sensible;
  }

  function AfterResult(pc: Pc): Pc
    requires pc.SaveResult? || pc.AuthResult?
  {
    if pc.SaveResult? then MarkUnvalidated(pc.v) else AuthReceipt(pc.v)
  }

  lemma ResultLeads(pc: Pc, e: Ending, encodes: bool)
    requires Leads(pc, e, encodes) && (pc.SaveResult? || pc.AuthResult?)
    ensures Leads(AfterResult(pc), e, encodes) && Midway(pc, e).task == Running && Midway(AfterResult(pc), e) == Midway(pc, e).(result := Some(pc.v))
  {
  }

  lemma MaterializeLeads(v: Value, e: Ending, encodes: bool)
    requires Leads(Materialize(v), e, encodes)
    ensures
      var after := if encodes then CommitPersisted(v) else MarkFailedAfter(v);
      Leads(after, e, encodes) && Midway(after, e) == Midway(Materialize(v), e)
  {
  }

  lemma NextIs(c: Config, s: State, id: Identity)
    requires c.keyed && s.call.Some? && s.call.value.opId == id.opId
    ensures
      var pc := s.call.value.pc;
      && (pc.SaveResult? || pc.AuthResult? ==>
            NextEnabled(c, s) && NextAction(c, s) == Goto(s.(d := s.d.(results := s.d.results[id.opId := pc.v])), AfterResult(pc)))
      && (pc.Materialize? ==>
            NextEnabled(c, s) && NextAction(c, s) == Goto(s, CommitPersisted(pc.v)) && Do(c, s, MaterializeFails) == Goto(s, MarkFailedAfter(pc.v)))
  {
    hide Attempt, AttemptTask;
  }

  /** The result is saved. */
  lemma TrackResult(c: Config, o: State, s: State, id: Identity, e: Ending, encodes: bool)
    requires c.keyed && OnTrack(c, o, s, id, e, encodes) && (s.call.value.pc.SaveResult? || s.call.value.pc.AuthResult?)
    ensures NextEnabled(c, s) && OnTrack(c, o, NextAction(c, s), id, e, encodes)
  {
    var call := s.call.value;
    hide Tells, Midway, Leads, Sensible, NextAction, NextEnabled, AfterResult;
    assert s.d.receipts[id.receiptId] == call.env;
    NextIs(c, s, id);
    ResultLeads(call.pc, e, encodes);
    ResultWritten(o, s, id, Midway(call.pc, e), call.pc.v);
    ResultFits(call, e);
    SameStores(o, s.(d := s.d.(results := s.d.results[id.opId := call.pc.v])), NextAction(c, s), id, Midway(AfterResult(call.pc), e));
    StillOnTrack(c, o, s, NextAction(c, s), id, e, encodes, AfterResult(call.pc), call.env);
  }

  lemma ResultFits(call: Call, e: Ending)
    requires BoundaryFits(call, e) && (call.pc.SaveResult? || call.pc.AuthResult?)
    ensures BoundaryFits(call.(pc := AfterResult(call.pc)), e)
  {
  }

  /** The result is encoded, or is not. */
  lemma TrackMaterialize(c: Config, o: State, s: State, id: Identity, e: Ending, encodes: bool)
    requires c.keyed && OnTrack(c, o, s, id, e, encodes) && s.call.value.pc.Materialize?
    ensures NextEnabled(c, s)
    ensures OnTrack(c, o, if encodes then NextAction(c, s) else Do(c, s, MaterializeFails), id, e, encodes)
  {
    var call := s.call.value;
    var after := if encodes then CommitPersisted(call.pc.v) else MarkFailedAfter(call.pc.v);
    hide Tells, Midway, Leads, Sensible, NextAction, NextEnabled, Do;
    assert s.d.receipts[id.receiptId] == call.env;
    NextIs(c, s, id);
    MaterializeLeads(call.pc.v, e, encodes);
    SameStores(o, s, Goto(s, after), id, Midway(after, e));
    StillOnTrack(c, o, s, Goto(s, after), id, e, encodes, after, call.env);
  }

  // ----- the claim, and the operation -----

  predicate OpeningPc(pc: Pc) {
    pc.CreateTask? || pc.CreateReceipt? || pc.SaveClaim?
  }

  /** The call has begun to claim the key under identities that no store holds. */
  predicate Opening(o: State, s: State, id: Identity) {
    && id.opId !in o.d.tasks && id.receiptId !in o.d.receipts && s.h.returned == o.h.returned
    && s.call.Some? && s.now == id.at
    && var call := s.call.value;
       && call.epoch == id.at && call.opId == id.opId && call.receiptId == id.receiptId && call.fingerprint == id.fingerprint && call.correlation == id.correlation
       && call.boundary == UNTOUCHED && !call.applied && OpeningPc(call.pc)
       && s.d.results == o.d.results
       && s.d.tasks == (if call.pc.CreateTask? then o.d.tasks else o.d.tasks[id.opId := NewTask(call.epoch)])
       && s.d.receipts == (if call.pc.SaveClaim? then o.d.receipts[id.receiptId := Envelope(NewReceipt(id.opId), 1)] else o.d.receipts)
       && (call.pc.SaveClaim? ==> call.env == Envelope(NewReceipt(id.opId), 1))
  }

  lemma TrackOpening(c: Config, o: State, s: State, id: Identity, e: Ending, encodes: bool)
    requires c.keyed && Opening(o, s, id) && Sensible(c, e.boundary)
    ensures
      var s' := NextAction(c, s);
      && NextEnabled(c, s) && s'.call.Some? && s'.call.value.boundary == UNTOUCHED && !s'.call.value.applied
      && if s.call.value.pc.SaveClaim? then OnTrack(c, o, s', id, e, encodes) && s'.call.value.pc.MarkApplying? else Opening(o, s', id)
  {
    hide Attempt, AttemptTask;
  }

  lemma {:induction false} PerformSensible(c: Config, events: seq<Step>, b: Boundary, applied: bool)
    requires Sensible(c, b)
    ensures Sensible(c, Perform(c, events, b, applied).boundary)
    decreases |events|
  {
    if events != [] {
      var rest := events[1..];
      match events[0] {
        case Begin => if c.hasBoundary { PerformSensible(c, rest, b.(started := true, rolledBack := false), applied); }
        case Apply => PerformSensible(c, rest, b, true);
        case Rollback => if b.started { PerformSensible(c, rest, b.(rolledBack := true), false); }
        case RecordResult(v) => if b.started { PerformSensible(c, rest, b.(authoritative := Some(v)), applied); }
        case _ =>
      }
    }
  }

  /** The gate opens on an untouched boundary. */
  lemma TrackGate(c: Config, o: State, s: State, id: Identity, e: Ending, encodes: bool)
    requires c.keyed && OnTrack(c, o, s, id, e, encodes) && s.call.value.pc.Gate?
    ensures NextEnabled(c, s) && OnTrack(c, o, NextAction(c, s), id, e, encodes)
    ensures NextAction(c, s).call.value == s.call.value.(pc := InOperation)
  {
    var call := s.call.value;
    assert Midway(InOperation, e) == Midway(Gate, e) && s.d.receipts[id.receiptId] == call.env;
    assert NextEnabled(c, s) && NextAction(c, s).call == Some(call.(pc := InOperation)) && NextAction(c, s).d == s.d;
    hide Tells, Midway, Leads, Sensible, NextAction, NextEnabled;
    SameStores(o, s, NextAction(c, s), id, Midway(InOperation, e));
    assert Leads(InOperation, e, encodes) by { InOperationLeads(e, encodes); }
    StillOnTrack(c, o, s, NextAction(c, s), id, e, encodes, InOperation, call.env);
  }

  lemma InOperationLeads(e: Ending, encodes: bool)
    ensures Leads(InOperation, e, encodes)
  {
  }

  /** What an event makes of the boundary, and of the rest of the performance. */
  lemma EventIs(c: Config, s: State, e: Ending, events: seq<Step>)
    requires s.call.Some? && s.call.value.pc.InOperation? && Sensible(c, s.call.value.boundary)
    requires events != [] && EventStep(events[0]) && OperationEnabled(c, s.call.value, events[0])
    requires Perform(c, events, s.call.value.boundary, s.call.value.applied) == e
    ensures
      var call, s' := s.call.value, OperationEvent(s, events[0]);
      && s'.d == s.d && s'.now == s.now && s'.h.returned == s.h.returned && s'.call.Some?
      && var call' := s'.call.value;
         && call' == call.(pc := call'.pc, boundary := call'.boundary, applied := call'.applied) && Sensible(c, call'.boundary)
         && if call'.pc.InOperation? then Perform(c, events[1..], call'.boundary, call'.applied) == e
            else call'.pc.SaveResult? && e == Ending(call'.boundary, Some(call'.pc.v))
  {
  }

  lemma NoEvent(c: Config, s: State, e: Ending, events: seq<Step>)
    requires s.call.Some? && s.call.value.pc.InOperation?
    requires !(events != [] && EventStep(events[0]) && OperationEnabled(c, s.call.value, events[0]))
    requires Perform(c, events, s.call.value.boundary, s.call.value.applied) == e
    ensures e == Ending(s.call.value.boundary, None)
  {
  }

  /** Inside the operation and right after it the stores tell the same. */
  lemma SameMidway(v: Value, e: Ending)
    ensures Midway(SaveResult(v), e) == Midway(InOperation, e) && (e.returned.None? ==> Midway(Ladder, e) == Midway(InOperation, e))
    ensures e.returned == Some(v) ==> Leads(SaveResult(v), e, true) && Leads(SaveResult(v), e, false)
    ensures e.returned.None? ==> Leads(Ladder, e, true) && Leads(Ladder, e, false)
    ensures Leads(InOperation, e, true) && Leads(InOperation, e, false)
  {
  }

  /** The operation performs its next event. */
  lemma TrackEvent(c: Config, o: State, s: State, id: Identity, e: Ending, encodes: bool, events: seq<Step>)
    requires c.keyed && OnTrack(c, o, s, id, e, encodes) && s.call.value.pc.InOperation?
    requires Perform(c, events, s.call.value.boundary, s.call.value.applied) == e
    requires events != [] && EventStep(events[0]) && OperationEnabled(c, s.call.value, events[0])
    ensures
      var s' := OperationEvent(s, events[0]);
      && OnTrack(c, o, s', id, e, encodes)
      && (s'.call.value.pc.InOperation? ==> Perform(c, events[1..], s'.call.value.boundary, s'.call.value.applied) == e)
  {
    hide Tells, Midway, Leads, Sensible, Perform, OperationEvent, OperationEnabled;
    var s' := OperationEvent(s, events[0]);
    EventIs(c, s, e, events);
    SameMidway(if s'.call.value.pc.SaveResult? then s'.call.value.pc.v else 0, e);
    SameStores(o, s, s', id, Midway(InOperation, e));
  }

  /** It raises. */
  lemma TrackRaise(c: Config, o: State, s: State, id: Identity, e: Ending, encodes: bool, events: seq<Step>)
    requires c.keyed && OnTrack(c, o, s, id, e, encodes) && s.call.value.pc.InOperation?
    requires Perform(c, events, s.call.value.boundary, s.call.value.applied) == e
    requires !(events != [] && EventStep(events[0]) && OperationEnabled(c, s.call.value, events[0]))
    ensures OnTrack(c, o, Goto(s, Ladder), id, e, encodes)
  {
    hide Tells, Midway, Leads, Sensible, Perform, OperationEnabled;
    NoEvent(c, s, e, events);
    SameMidway(0, e);
    SameStores(o, s, Goto(s, Ladder), id, Midway(InOperation, e));
  }

  // ----- the whole call -----

  /** Program points up to the operation. */
  predicate UpToOperation(pc: Pc) {
    OpeningPc(pc) || pc.MarkApplying? || pc.BeginTask? || pc.Gate? || pc.InOperation?
  }

  /** An undisturbed call, with the events its operation has left. */
  predicate Undisturbed(c: Config, o: State, s: State, id: Identity, e: Ending, encodes: bool, events: seq<Step>) {
    if s.call.None? then Ended(o, s, id, e, encodes)
    else
      var call := s.call.value;
      && (if OpeningPc(call.pc) then Opening(o, s, id) else OnTrack(c, o, s, id, e, encodes))
      && Sensible(c, e.boundary)
      && (UpToOperation(call.pc) ==> Perform(c, events, call.boundary, call.applied) == e)
  }

  lemma KnownPc(c: Config, o: State, s: State, id: Identity, e: Ending, encodes: bool)
    requires OnTrack(c, o, s, id, e, encodes)
    ensures
      var pc := s.call.value.pc;
      || ReceiptPc(pc) || TaskPc(pc) || CommitPc(pc) || (DeletePc(pc) && !pc.ProbeDelete?)
      || pc.Materialize? || pc.Ladder? || pc.Gate? || pc.InOperation? || pc.SaveResult? || pc.AuthResult?
    ensures !Probing(s.call.value.pc) && !OpeningPc(s.call.value.pc)
  {
    hide Tells, Midway, Sensible;
  }

  /** Nothing but a claim on its way leads to the operation, and the boundary is left alone. */
  lemma StaysUpTo(c: Config, s: State, encodes: bool, step: Step)
    requires c.keyed && s.call.Some? && !Probing(s.call.value.pc) && !s.call.value.pc.InOperation?
    requires Forced(c, s, encodes, step) && Enabled(c, s, step)
    ensures
      var s' := Do(c, s, step);
      s'.call.Some? && UpToOperation(s'.call.value.pc) ==>
        && UpToOperation(s.call.value.pc)
        && s'.call.value.boundary == s.call.value.boundary && s'.call.value.applied == s.call.value.applied
  {
    hide Attempt, AttemptTask, CommitRecord, Owns, CasOk, RaiseEnabled;
  }

  lemma ForcedReceipt(c: Config, o: State, s: State, id: Identity, e: Ending, encodes: bool, step: Step)
    requires c.keyed && OnTrack(c, o, s, id, e, encodes) && ReceiptPc(s.call.value.pc) && Forced(c, s, encodes, step) && Enabled(c, s, step)
    ensures Arrives(c, o, Do(c, s, step), id, e, encodes)
  {
    assert s.call.Some?;
    hide OnTrack, Ended, NextEnabled, RaiseEnabled, Attempt, NextReceipt;
    if Attempt(c, s.call.value).Some? {
      TrackReceipt(c, o, s, id, e, encodes);
    } else {
      TrackRefused(c, o, s, id, e, encodes);
    }
  }

  lemma ForcedTask(c: Config, o: State, s: State, id: Identity, e: Ending, encodes: bool, step: Step)
    requires c.keyed && OnTrack(c, o, s, id, e, encodes) && TaskPc(s.call.value.pc) && Forced(c, s, encodes, step) && Enabled(c, s, step)
    ensures Arrives(c, o, Do(c, s, step), id, e, encodes)
  {
    hide OnTrack, Ended, NextEnabled, RaiseEnabled, AttemptTask, NextTask;
    TrackTask(c, o, s, id, e, encodes);
  }

  lemma ForcedOther(c: Config, o: State, s: State, id: Identity, e: Ending, encodes: bool, step: Step)
    requires c.keyed && OnTrack(c, o, s, id, e, encodes) && Forced(c, s, encodes, step) && Enabled(c, s, step)
    requires var pc := s.call.value.pc; !ReceiptPc(pc) && !TaskPc(pc) && !pc.InOperation?
    ensures Arrives(c, o, Do(c, s, step), id, e, encodes)
  {
    KnownPc(c, o, s, id, e, encodes);
    var pc := s.call.value.pc;
    hide OnTrack, Ended, NextEnabled, NextAction, RaiseEnabled;
    if pc.Materialize? {
      TrackMaterialize(c, o, s, id, e, encodes);
    } else if CommitPc(pc) {
      TrackCommit(c, o, s, id, e, encodes);
    } else if DeletePc(pc) {
      TrackDelete(c, o, s, id, e, encodes);
    } else if pc.Ladder? {
      TrackLadder(c, o, s, id, e, encodes);
    } else if pc.Gate? {
      TrackGate(c, o, s, id, e, encodes);
    } else {
      TrackResult(c, o, s, id, e, encodes);
    }
  }

  lemma ForcedOpening(c: Config, o: State, s: State, id: Identity, e: Ending, encodes: bool, events: seq<Step>, step: Step)
    requires c.keyed && s.call.Some? && Undisturbed(c, o, s, id, e, encodes, events) && OpeningPc(s.call.value.pc)
    requires Forced(c, s, encodes, step) && Enabled(c, s, step)
    ensures Undisturbed(c, o, Do(c, s, step), id, e, encodes, events)
  {
    TrackOpening(c, o, s, id, e, encodes);
    OpeningIs(o, s, id);
    hide OnTrack, Ended, NextEnabled, NextAction, RaiseEnabled, Perform, Sensible, Opening;
    OpeningStays(c, o, s, id, e, encodes);
  }

  lemma OpeningIs(o: State, s: State, id: Identity)
    requires Opening(o, s, id)
    ensures s.call.value.boundary == UNTOUCHED && !s.call.value.applied
  {
  }

  lemma OpeningStays(c: Config, o: State, s: State, id: Identity, e: Ending, encodes: bool)
    requires c.keyed && Opening(o, s, id) && Sensible(c, e.boundary)
    ensures
      var s' := NextAction(c, s);
      s'.call.Some? && (OpeningPc(s'.call.value.pc) <==> !s.call.value.pc.SaveClaim?)
  {
    hide Attempt, AttemptTask;
  }

  /** A step that only the call decides keeps it so. */
  lemma ForcedKeeps(c: Config, o: State, s: State, id: Identity, e: Ending, encodes: bool, events: seq<Step>, step: Step)
    requires c.keyed && s.call.Some? && Undisturbed(c, o, s, id, e, encodes, events)
    requires !s.call.value.pc.InOperation? && Forced(c, s, encodes, step) && Enabled(c, s, step)
    ensures Undisturbed(c, o, Do(c, s, step), id, e, encodes, events)
  {
    var pc, s' := s.call.value.pc, Do(c, s, step);
    hide OnTrack, Ended, Perform, Sensible, Forced, Enabled, Do, Opening, OpeningPc;
    if OpeningPc(pc) {
      ForcedOpening(c, o, s, id, e, encodes, events, step);
    } else {
      KnownPc(c, o, s, id, e, encodes);
      StaysUpTo(c, s, encodes, step);
      if ReceiptPc(pc) {
        ForcedReceipt(c, o, s, id, e, encodes, step);
      } else if TaskPc(pc) {
        ForcedTask(c, o, s, id, e, encodes, step);
      } else {
        ForcedOther(c, o, s, id, e, encodes, step);
      }
      if s'.call.Some? {
        KnownPc(c, o, s', id, e, encodes);
      }
    }
  }

  /** So does what happens inside the operation. */
  lemma OperationStays(c: Config, o: State, s: State, id: Identity, e: Ending, encodes: bool, events: seq<Step>)
    requires c.keyed && s.call.Some? && s.call.value.pc.InOperation? && Undisturbed(c, o, s, id, e, encodes, events)
    ensures
      if events != [] && EventStep(events[0]) && OperationEnabled(c, s.call.value, events[0]) then
        Undisturbed(c, o, OperationEvent(s, events[0]), id, e, encodes, events[1..])
      else Undisturbed(c, o, Goto(s, Ladder), id, e, encodes, events)
  {
    if events != [] && EventStep(events[0]) && OperationEnabled(c, s.call.value, events[0]) {
      TrackEvent(c, o, s, id, e, encodes, events);
      OperationLeadsOn(c, s, events[0]);
    } else {
      TrackRaise(c, o, s, id, e, encodes, events);
    }
    hide OnTrack, Ended, Perform, Sensible, OperationEvent, OperationEnabled, Opening;
  }

  lemma OperationLeadsOn(c: Config, s: State, step: Step)
    requires s.call.Some? && s.call.value.pc.InOperation? && EventStep(step) && OperationEnabled(c, s.call.value, step)
    ensures OperationEvent(s, step).call.Some?
    ensures var pc := OperationEvent(s, step).call.value.pc; pc.InOperation? || pc.SaveResult?
  {
  }
}
