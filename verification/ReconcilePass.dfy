/** One pass of start-up reconciliation over a page of receipts, in the form the program has it:
    a loop that updates the stores and five counters. */
module ReconcilePass {
  import opened Options
  import opened Outcomes

  /** Receipts with their revisions, tasks, and the operations that have a saved result. */
  datatype Stores = Stores(receipts: map<ReceiptId, Envelope>, tasks: map<OpId, Task>, results: set<OpId>)

  /** `now`, the cutoff `now - stale_after_seconds`, and the receipts whose action may be resumed. */
  datatype Pass = Pass(now: int, cutoff: int, resumable: set<ReceiptId>)

  /** What handling one receipt did: the branch taken, the stores it left, and whether it raised. */
  datatype Handled = Handled(plan: Plan, after: Stores, raised: bool)

  datatype Report = Report(validated: nat, failedBefore: nat, unknown: nat, deferred: nat, terminal: nat)

  const EMPTY := Report(0, 0, 0, 0, 0)

  function TaskOf(st: Stores, opId: OpId): Option<Task> {
    if opId in st.tasks then Some(st.tasks[opId]) else None
  }

  function PlanFor(p: Pass, st: Stores, id: ReceiptId): Plan
    requires id in st.receipts
  {
    var r := st.receipts[id].receipt;
    Decide(r, id in p.resumable, TaskOf(st, r.opId), r.opId in st.results, p.cutoff)
  }

  function Put(st: Stores, id: ReceiptId, r: Receipt): Stores
    requires id in st.receipts
  {
    st.(receipts := st.receipts[id := Envelope(r, st.receipts[id].revision + 1)])
  }

  /** `manager.start` for a pending task, then `manager.succeed`; `None` when a cancellation was requested. */
  function SucceedLive(p: Pass, st: Stores, id: ReceiptId, opId: OpId): Handled {
    match TaskOf(st, opId)
    case None => Handled(Validate, st, false)
    case Some(t) =>
      if !Live(t.state) then Handled(Validate, st, false)
      else
        var running := StartTask(t, p.now).value;
        var started := st.(tasks := st.tasks[opId := running]);
        match SucceedTask(running, opId, id, p.now)
        case None => Handled(Validate, started, true)
        case Some(done) => Handled(Validate, st.(tasks := st.tasks[opId := done]), false)
  }

  function HandleValidate(p: Pass, st: Stores, id: ReceiptId): Handled
    requires id in st.receipts
  {
    var r := st.receipts[id].receipt;
    var ref := Some(r.opId);
    var applied := if r.state == AppliedUnvalidated then Some(r) else Transition(r, AppliedUnvalidated, ref, None, Some(r.crossed));
    if applied.None? then Handled(Validate, st, true)
    else
      var st1 := if r.state == AppliedUnvalidated then st else Put(st, id, applied.value);
      match Transition(applied.value, AppliedValidated, ref, None, None)
      case None => Handled(Validate, st1, true)
      case Some(valid) => SucceedLive(p, Put(st1, id, valid), id, r.opId)
  }

  function HandleFailBefore(p: Pass, st: Stores, id: ReceiptId): Handled
    requires id in st.receipts
  {
    var r := st.receipts[id].receipt;
    match Transition(r, FailedBeforeEffect, None, Some(FailedBeforeEffectCode), None)
    case None => Handled(FailBefore, st, true)
    case Some(failed) =>
      var st1 := Put(st, id, failed);
      match TaskOf(st, r.opId)
      case None => Handled(FailBefore, st1, false)
      case Some(t) =>
        match FailTask(t, FailedBeforeEffectCode, None, id, p.now)
        case None => Handled(FailBefore, st1, true)
        case Some(done) => Handled(FailBefore, st1.(tasks := st1.tasks[r.opId := done]), false)
  }

  /** The operation-task errors of this branch are swallowed. */
  function HandleUnknown(p: Pass, st: Stores, id: ReceiptId): Handled
    requires id in st.receipts
  {
    var r := st.receipts[id].receipt;
    match Transition(r, Unknown, None, Some(OutcomeUnknownCode), Some(r.crossed))
    case None => Handled(MarkUnknown, st, true)
    case Some(unknown) =>
      var st1 := Put(st, id, unknown);
      match TaskOf(st, r.opId)
      case None => Handled(MarkUnknown, st1, false)
      case Some(t) =>
        if !Live(t.state) then Handled(MarkUnknown, st1, false)
        else
          var running := StartTask(t, p.now).value;
          match FailTask(running, OutcomeUnknownCode, None, id, p.now)
          case None => Handled(MarkUnknown, st1.(tasks := st1.tasks[r.opId := running]), false)
          case Some(done) => Handled(MarkUnknown, st1.(tasks := st1.tasks[r.opId := done]), false)
  }

  function Handle(p: Pass, st: Stores, id: ReceiptId): Handled
    requires id in st.receipts
  {
    match PlanFor(p, st, id)
    case Validate => HandleValidate(p, st, id)
    case FailBefore => HandleFailBefore(p, st, id)
    case MarkUnknown => HandleUnknown(p, st, id)
    case plan => Handled(plan, st, false)
  }

  function Count(r: Report, plan: Plan): Report {
    match plan
    case KeepTerminal => r.(terminal := r.terminal + 1)
    case Defer => r.(deferred := r.deferred + 1)
    case Validate => r.(validated := r.validated + 1)
    case FailBefore => r.(failedBefore := r.failedBefore + 1)
    case MarkUnknown => r.(unknown := r.unknown + 1)
  }

  function Total(r: Report): nat {
    r.validated + r.failedBefore + r.unknown + r.deferred + r.terminal
  }

  /** The whole pass; `None` for the report when a receipt raised, with the stores it left. */
  function Run(p: Pass, st: Stores, page: seq<ReceiptId>, done: Report): (Stores, Option<Report>)
    requires forall id :: id in page ==> id in st.receipts
    decreases |page|
  {
    if page == [] then (st, Some(done))
    else
      var h := Handle(p, st, page[0]);
      HandleFrame(p, st, page[0]);
      if h.raised then (h.after, None)
      else Run(p, h.after, page[1..], Count(done, h.plan))
  }

  /** Handling a receipt writes that receipt and its operation's task, and nothing else. */
  predicate Framed(st: Stores, id: ReceiptId, st': Stores)
    requires id in st.receipts
  {
    && st'.receipts.Keys == st.receipts.Keys && st'.results == st.results
    && (forall j :: j in st.receipts && j != id ==> st'.receipts[j] == st.receipts[j])
    && st'.receipts[id].receipt.opId == st.receipts[id].receipt.opId
    && st'.tasks.Keys == st.tasks.Keys
    && (forall op :: op in st.tasks && op != st.receipts[id].receipt.opId ==> st'.tasks[op] == st.tasks[op])
  }

  lemma ValidateFrame(p: Pass, st: Stores, id: ReceiptId)
    requires id in st.receipts
    ensures Framed(st, id, HandleValidate(p, st, id).after)
  {
  }

  lemma FailBeforeFrame(p: Pass, st: Stores, id: ReceiptId)
    requires id in st.receipts
    ensures Framed(st, id, HandleFailBefore(p, st, id).after)
  {
  }

  lemma UnknownFrame(p: Pass, st: Stores, id: ReceiptId)
    requires id in st.receipts
    ensures Framed(st, id, HandleUnknown(p, st, id).after)
  {
  }

  lemma HandleFrame(p: Pass, st: Stores, id: ReceiptId)
    requires id in st.receipts
    ensures Framed(st, id, Handle(p, st, id).after)
  {
    hide HandleValidate, HandleFailBefore, HandleUnknown;
    match PlanFor(p, st, id) {
      case Validate => ValidateFrame(p, st, id);
      case FailBefore => FailBeforeFrame(p, st, id);
      case MarkUnknown => UnknownFrame(p, st, id);
      case _ =>
    }
  }

  /** The stores as the reconciler holds them. */
  class OutcomeReceiptReconciler {
    var stores: Stores

    constructor (stores: Stores)
      ensures this.stores == stores
    {
      this.stores := stores;
    }

    /** The loop of `reconcile`. */
    method Reconcile(p: Pass, page: seq<ReceiptId>) returns (report: Option<Report>)
      requires forall id :: id in page ==> id in stores.receipts
      modifies this
      ensures (stores, report) == Run(p, old(stores), page, EMPTY)
    {
      hide HandleValidate, HandleFailBefore, HandleUnknown, Decide;
      var validated, failedBefore, unknown, deferred, terminal := 0, 0, 0, 0, 0;
      var i := 0;
      while i < |page|
        invariant 0 <= i <= |page| && validated >= 0 && failedBefore >= 0 && unknown >= 0 && deferred >= 0 && terminal >= 0
        invariant stores.receipts.Keys == old(stores).receipts.Keys
        invariant Run(p, stores, page[i..], Report(validated, failedBefore, unknown, deferred, terminal))
               == Run(p, old(stores), page, EMPTY)
      {
        assert page[i..][1..] == page[i + 1..];
        var h := Handle(p, stores, page[i]);
        HandleFrame(p, stores, page[i]);
        stores := h.after;
        if h.raised {
          return None;
        }
        match h.plan {
          case KeepTerminal => terminal := terminal + 1;
          case Defer => deferred := deferred + 1;
          case Validate => validated := validated + 1;
          case FailBefore => failedBefore := failedBefore + 1;
          case MarkUnknown => unknown := unknown + 1;
        }
        i := i + 1;
      }
      report := Some(Report(validated, failedBefore, unknown, deferred, terminal));
    }
  }

  // ----- what a pass conserves and settles -----

  /** What every writer of receipts keeps: valid receipts, one per operation. */
  predicate Sound(st: Stores) {
    && (forall id :: id in st.receipts ==> ValidReceipt(st.receipts[id].receipt))
    && (forall i, j :: i in st.receipts && j in st.receipts && st.receipts[i].receipt.opId == st.receipts[j].receipt.opId ==> i == j)
  }

  /** The operation has a task that has not ended. */
  predicate Alive(st: Stores, opId: OpId) {
    opId in st.tasks && Live(st.tasks[opId].state)
  }

  /** Left to a later pass: its task is alive, and younger than the cutoff or going to be resumed. */
  predicate Spared(p: Pass, st: Stores, id: ReceiptId)
    requires id in st.receipts
  {
    var r := st.receipts[id].receipt;
    Unfinished(r.state) && Alive(st, r.opId)
    && (st.tasks[r.opId].updatedAt > p.cutoff || (r.state == Applying && id in p.resumable))
  }

  /** Nobody has started the operation. */
  predicate Untried(st: Stores, r: Receipt) {
    r.state == Accepted && (r.opId in st.tasks ==> st.tasks[r.opId].state == Pending)
  }

  /** A receipt that cannot be moved: a result behind an accepted receipt, a cancellation request on a
      living task that should succeed, or an accepted receipt that claims its boundary was crossed. */
  predicate Poisoned(p: Pass, st: Stores, id: ReceiptId)
    requires id in st.receipts
  {
    var r := st.receipts[id].receipt;
    && Unfinished(r.state) && !Spared(p, st, id)
    && if r.opId in st.results then r.state == Accepted || (Alive(st, r.opId) && st.tasks[r.opId].cancelRequested)
       else Untried(st, r) && r.crossed
  }

  /** A receipt the pass has dealt with: terminal, or deferred because its task is still alive. */
  predicate SettledOrDeferred(p: Pass, st: Stores, id: ReceiptId)
    requires id in st.receipts
  {
    !Unfinished(st.receipts[id].receipt.state) || Spared(p, st, id)
  }

  /** A living task has ended in this state, at a later time; any other is as it was. */
  predicate TaskEnds(st: Stores, st': Stores, r: Receipt, id: ReceiptId, now: int, state: TaskState, error: Option<ErrorCode>, ref: Option<OpId>) {
    if Alive(st, r.opId) then
      && r.opId in st'.tasks
      && var was, t := st.tasks[r.opId], st'.tasks[r.opId];
         && t.state == state && t.error == error && t.resultRef == ref && t.receiptId == Some(id)
         && t.updatedAt > was.updatedAt && t.updatedAt >= now
    else TaskOf(st', r.opId) == TaskOf(st, r.opId)
  }

  /** What a pass makes of a scanned receipt and the task of its operation, by the evidence it finds: a
      saved result validates it, an operation that nobody started has failed before its effect, and
      otherwise the outcome is unknown. */
  predicate Decided(p: Pass, st: Stores, id: ReceiptId, st': Stores)
    requires id in st.receipts && id in st'.receipts
  {
    var env, env', r := st.receipts[id], st'.receipts[id], st.receipts[id].receipt;
    if !Unfinished(r.state) || Spared(p, st, id) then
      env' == env && TaskOf(st', r.opId) == TaskOf(st, r.opId)
    else
      && env'.revision > env.revision
      && if r.opId in st.results then
           && env'.receipt == Receipt(r.opId, AppliedValidated, r.crossed, Some(r.opId), None)
           && TaskEnds(st, st', r, id, p.now, Succeeded, None, Some(r.opId))
         else if Untried(st, r) then
           && env'.receipt == Receipt(r.opId, FailedBeforeEffect, false, None, Some(FailedBeforeEffectCode))
           && TaskEnds(st, st', r, id, p.now, Failed, Some(FailedBeforeEffectCode), None)
         else
           && env'.receipt == Receipt(r.opId, Unknown, r.crossed, None, Some(OutcomeUnknownCode))
           && TaskEnds(st, st', r, id, p.now, Failed, Some(OutcomeUnknownCode), None)
  }

  /** The branch decided its receipt, or raised because the receipt is poisoned. */
  predicate Ended(p: Pass, st: Stores, id: ReceiptId, h: Handled)
    requires id in st.receipts
  {
    && h.raised == Poisoned(p, st, id) && id in h.after.receipts && ValidReceipt(h.after.receipts[id].receipt)
    && (!h.raised ==> Decided(p, st, id, h.after))
  }

  lemma StampIs(previous: int, now: int)
    ensures NextStamp(previous, now) > previous && NextStamp(previous, now) >= now
  {
  }

  /** What `SucceedLive` makes of the task. */
  lemma SucceedLiveEnds(p: Pass, st: Stores, id: ReceiptId, r: Receipt)
    ensures
      var h := SucceedLive(p, st, id, r.opId);
      && h.plan == Validate && h.after.receipts == st.receipts && h.after.results == st.results
      && (h.raised <==> Alive(st, r.opId) && st.tasks[r.opId].cancelRequested)
      && (!h.raised ==> TaskEnds(st, h.after, r, id, p.now, Succeeded, None, Some(r.opId)))
  {
    if Alive(st, r.opId) {
      var t := st.tasks[r.opId];
      StampIs(t.updatedAt, p.now);
      StampIs(StartTask(t, p.now).value.updatedAt, p.now);
    }
    hide NextStamp;
  }

  lemma ValidateEnds(p: Pass, st: Stores, id: ReceiptId)
    requires Sound(st) && id in st.receipts && PlanFor(p, st, id) == Validate
    ensures Ended(p, st, id, HandleValidate(p, st, id)) && HandleValidate(p, st, id).plan == Validate
  {
    var r := st.receipts[id].receipt;
    if r.state != Accepted {
      var st1 := if r.state == AppliedUnvalidated then st else Put(st, id, Receipt(r.opId, AppliedUnvalidated, r.crossed, Some(r.opId), None));
      SucceedLiveEnds(p, Put(st1, id, Receipt(r.opId, AppliedValidated, r.crossed, Some(r.opId), None)), id, r);
    }
    hide SucceedLive, Sound, NextStamp;
  }

  lemma FailBeforeEnds(p: Pass, st: Stores, id: ReceiptId)
    requires Sound(st) && id in st.receipts && PlanFor(p, st, id) == FailBefore
    ensures Ended(p, st, id, HandleFailBefore(p, st, id)) && HandleFailBefore(p, st, id).plan == FailBefore
  {
  }

  lemma UnknownEnds(p: Pass, st: Stores, id: ReceiptId)
    requires Sound(st) && id in st.receipts && PlanFor(p, st, id) == MarkUnknown
    ensures Ended(p, st, id, HandleUnknown(p, st, id)) && HandleUnknown(p, st, id).plan == MarkUnknown
  {
  }

  lemma LeftEnds(p: Pass, st: Stores, id: ReceiptId)
    requires Sound(st) && id in st.receipts && PlanFor(p, st, id) in {KeepTerminal, Defer}
    ensures Ended(p, st, id, Handled(PlanFor(p, st, id), st, false))
  {
  }

  lemma BranchEnds(p: Pass, st: Stores, id: ReceiptId)
    requires Sound(st) && id in st.receipts
    ensures
      var h := Handle(p, st, id);
      && Ended(p, st, id, h) && h.plan == PlanFor(p, st, id)
      && (h.plan in {KeepTerminal, Defer} ==> h.after == st)
  {
    hide HandleValidate, HandleFailBefore, HandleUnknown, Ended;
    match PlanFor(p, st, id) {
      case Validate => ValidateEnds(p, st, id);
      case FailBefore => FailBeforeEnds(p, st, id);
      case MarkUnknown => UnknownEnds(p, st, id);
      case _ => LeftEnds(p, st, id);
    }
  }

  /** Which counter a handled receipt belongs to. */
  predicate Counted(plan: Plan, before: ReceiptState, after: ReceiptState) {
    match plan
    case KeepTerminal => !Unfinished(before)
    case Defer => Unfinished(before) && Unfinished(after)
    case Validate => Unfinished(before) && after == AppliedValidated
    case FailBefore => Unfinished(before) && after == FailedBeforeEffect
    case MarkUnknown => Unfinished(before) && after == Unknown
  }

  lemma HandleSettles(p: Pass, st: Stores, id: ReceiptId)
    requires Sound(st) && id in st.receipts
    ensures
      var h := Handle(p, st, id);
      && h.raised == Poisoned(p, st, id) && Sound(h.after) && h.plan == PlanFor(p, st, id)
      && h.after.receipts.Keys == st.receipts.Keys
      && (!h.raised ==>
            && SettledOrDeferred(p, h.after, id) && Decided(p, st, id, h.after)
            && Counted(h.plan, st.receipts[id].receipt.state, h.after.receipts[id].receipt.state))
  {
    hide Handle, Poisoned;
    HandleFrame(p, st, id);
    BranchEnds(p, st, id);
  }

  /** The receipt, the task of its operation and its result are as they were. */
  predicate Same(st: Stores, st': Stores, id: ReceiptId) {
    && id in st.receipts && id in st'.receipts && st'.receipts[id] == st.receipts[id]
    && var opId := st.receipts[id].receipt.opId;
       TaskOf(st', opId) == TaskOf(st, opId) && (opId in st'.results <==> opId in st.results)
  }

  /** Then the pass treats it the same. */
  lemma SameIsTreatedSame(p: Pass, st: Stores, st': Stores, id: ReceiptId)
    requires Same(st, st', id)
    ensures PlanFor(p, st', id) == PlanFor(p, st, id)
    ensures Poisoned(p, st', id) <==> Poisoned(p, st, id)
    ensures SettledOrDeferred(p, st', id) <==> SettledOrDeferred(p, st, id)
  {
  }

  lemma SameDecision(p: Pass, st: Stores, st': Stores, after: Stores, id: ReceiptId)
    requires Same(st, st', id) && id in after.receipts
    ensures Decided(p, st', id, after) <==> Decided(p, st, id, after)
  {
  }

  lemma DecisionStays(p: Pass, st: Stores, st': Stores, after: Stores, id: ReceiptId)
    requires id in st.receipts && Same(st', after, id) && st'.receipts[id].receipt.opId == st.receipts[id].receipt.opId
    ensures Decided(p, st, id, st') ==> Decided(p, st, id, after)
  {
  }

  /** Handling one receipt does not touch what the treatment of another depends on. */
  lemma OthersStaySame(p: Pass, st: Stores, id: ReceiptId, other: ReceiptId)
    requires Sound(st) && id in st.receipts && other in st.receipts && id != other
    ensures Same(st, Handle(p, st, id).after, other)
  {
    hide Handle;
    HandleFrame(p, st, id);
  }

  predicate Distinct(page: seq<ReceiptId>) {
    forall i, j :: 0 <= i < j < |page| ==> page[i] != page[j]
  }

  /** How many receipts of the page are still unfinished. */
  function UnfinishedIn(st: Stores, page: seq<ReceiptId>): nat
    requires forall id :: id in page ==> id in st.receipts
  {
    if page == [] then 0
    else (if Unfinished(st.receipts[page[0]].receipt.state) then 1 else 0) + UnfinishedIn(st, page[1..])
  }

  /** The operation belongs to a receipt of the page. */
  predicate OnPage(st: Stores, page: seq<ReceiptId>, opId: OpId) {
    exists id :: id in page && id in st.receipts && st.receipts[id].receipt.opId == opId
  }

  /** What a pass that did not raise has done to the scanned receipts, and that it did nothing else. */
  predicate Passed(p: Pass, st: Stores, page: seq<ReceiptId>, st': Stores) {
    && st'.receipts.Keys == st.receipts.Keys && st'.tasks.Keys == st.tasks.Keys && st'.results == st.results
    && (forall id :: id in page && id in st.receipts ==> SettledOrDeferred(p, st', id) && Decided(p, st, id, st'))
    && (forall id :: id in st.receipts && id !in page ==> Same(st, st', id))
    && (forall opId :: opId in st.tasks && !OnPage(st, page, opId) ==> st'.tasks[opId] == st.tasks[opId])
  }

  lemma PassedCons(p: Pass, st: Stores, id: ReceiptId, rest: seq<ReceiptId>, st': Stores)
    requires Sound(st) && id in st.receipts && id !in rest && !Poisoned(p, st, id) && Passed(p, Handle(p, st, id).after, rest, st')
    ensures Passed(p, st, [id] + rest, st')
  {
    var after := Handle(p, st, id).after;
    HandleSettles(p, st, id);
    HandleFrame(p, st, id);
    forall other | other in st.receipts && other != id
      ensures Same(st, after, other)
    {
      OthersStaySame(p, st, id, other);
    }
    hide Handle, Sound, Poisoned;
    JoinPassed(p, st, id, after, rest, st');
  }

  lemma JoinPassed(p: Pass, st: Stores, id: ReceiptId, after: Stores, rest: seq<ReceiptId>, st': Stores)
    requires id in st.receipts && id !in rest && Framed(st, id, after) && Decided(p, st, id, after) && SettledOrDeferred(p, after, id)
    requires forall other :: other in st.receipts && other != id ==> Same(st, after, other)
    requires Passed(p, after, rest, st')
    ensures Passed(p, st, [id] + rest, st')
  {
    hide Decided, SettledOrDeferred;
    forall other | other in st.receipts && other != id && other in rest
      ensures Decided(p, st, other, st') && SettledOrDeferred(p, st', other)
    {
      SameDecision(p, st, after, st', other);
    }
    DecisionStays(p, st, after, st', id);
    SameIsTreatedSame(p, after, st', id);
    forall opId | opId in st.tasks && !OnPage(st, [id] + rest, opId)
      ensures st'.tasks[opId] == st.tasks[opId]
    {
      OffPage(st, after, id, rest, opId);
    }
  }

  lemma OffPage(st: Stores, after: Stores, id: ReceiptId, rest: seq<ReceiptId>, opId: OpId)
    requires !OnPage(st, [id] + rest, opId) && id in st.receipts && Framed(st, id, after)
    ensures !OnPage(after, rest, opId) && st.receipts[id].receipt.opId != opId
  {
    assert id in [id] + rest;
    forall other | other in rest && other in after.receipts
      ensures after.receipts[other].receipt.opId != opId
    {
      assert other in [id] + rest;
    }
  }

  predicate AnyPoisoned(p: Pass, st: Stores, page: seq<ReceiptId>)
    requires forall id :: id in page ==> id in st.receipts
  {
    exists id :: id in page && Poisoned(p, st, id)
  }

  /** Handling the head of a page leaves the rest as poisoned as it was. */
  lemma PoisonedTail(p: Pass, st: Stores, id: ReceiptId, rest: seq<ReceiptId>)
    requires Sound(st) && id in st.receipts && id !in rest && forall other :: other in rest ==> other in st.receipts
    ensures Handle(p, st, id).raised == Poisoned(p, st, id) && Handle(p, st, id).after.receipts.Keys == st.receipts.Keys
    ensures Sound(Handle(p, st, id).after)
    ensures AnyPoisoned(p, st, [id] + rest) <==> Poisoned(p, st, id) || AnyPoisoned(p, Handle(p, st, id).after, rest)
  {
    hide Handle, Sound, Poisoned;
    HandleSettles(p, st, id);
    forall other | other in rest
      ensures other in Handle(p, st, id).after.receipts && (Poisoned(p, Handle(p, st, id).after, other) <==> Poisoned(p, st, other))
    {
      OthersStaySame(p, st, id, other);
      SameIsTreatedSame(p, st, Handle(p, st, id).after, other);
    }
    assert id in [id] + rest;
    assert forall other :: other in rest ==> other in [id] + rest;
  }

  /** A pass raises if and only if some receipt of its page is poisoned. */
  lemma {:induction false} RunRaisesIff(p: Pass, st: Stores, page: seq<ReceiptId>, done: Report)
    requires Sound(st) && Distinct(page) && forall id :: id in page ==> id in st.receipts
    ensures Run(p, st, page, done).1.None? <==> AnyPoisoned(p, st, page)
    decreases |page|
  {
    hide Handle, Sound, Poisoned;
    if page != [] {
      var id, rest := page[0], page[1..];
      assert page == [id] + rest && id !in rest;
      PoisonedTail(p, st, id, rest);
      hide AnyPoisoned;
      var h := Handle(p, st, id);
      if !h.raised {
        RunRaisesIff(p, h.after, rest, Count(done, h.plan));
      }
    }
  }

  /** How many receipts of the page were unfinished and are now in this state. */
  function EndedIn(st: Stores, st': Stores, page: seq<ReceiptId>, state: ReceiptState): nat {
    if page == [] then 0
    else
      var id := page[0];
      (if id in st.receipts && id in st'.receipts && Unfinished(st.receipts[id].receipt.state) && st'.receipts[id].receipt.state == state
       then 1 else 0) + EndedIn(st, st', page[1..], state)
  }

  /** The counters tell what happened to the page. */
  predicate Tally(st: Stores, st': Stores, page: seq<ReceiptId>, report: Report)
    requires forall id :: id in page ==> id in st.receipts && id in st'.receipts
  {
    && report.validated == EndedIn(st, st', page, AppliedValidated)
    && report.failedBefore == EndedIn(st, st', page, FailedBeforeEffect)
    && report.unknown == EndedIn(st, st', page, Unknown)
    && report.deferred == UnfinishedIn(st', page)
    && report.terminal == |page| - UnfinishedIn(st, page)
    && Total(report) == |page|
  }

  function Plus(a: Report, b: Report): Report {
    Report(a.validated + b.validated, a.failedBefore + b.failedBefore, a.unknown + b.unknown, a.deferred + b.deferred, a.terminal + b.terminal)
  }

  lemma PlusCount(a: Report, b: Report, plan: Plan)
    ensures Plus(Count(a, plan), b) == Plus(a, Count(b, plan))
  {
  }

  lemma PlusEmpty(a: Report)
    ensures Plus(EMPTY, a) == a && Plus(a, EMPTY) == a
  {
  }

  lemma {:induction false} EndedFrame(st: Stores, after: Stores, st': Stores, page: seq<ReceiptId>, state: ReceiptState)
    requires forall id :: id in page ==> id in st.receipts && id in after.receipts && after.receipts[id] == st.receipts[id]
    ensures EndedIn(after, st', page, state) == EndedIn(st, st', page, state)
    ensures UnfinishedIn(after, page) == UnfinishedIn(st, page)
  {
    if page != [] {
      EndedFrame(st, after, st', page[1..], state);
    }
  }

  lemma TallyCons(st: Stores, after: Stores, st': Stores, id: ReceiptId, rest: seq<ReceiptId>, plan: Plan, more: Report)
    requires forall other :: other in [id] + rest ==> other in st.receipts && other in after.receipts && other in st'.receipts
    requires forall other :: other in rest ==> after.receipts[other] == st.receipts[other]
    requires id in [id] + rest && st'.receipts[id] == after.receipts[id]
    requires Counted(plan, st.receipts[id].receipt.state, after.receipts[id].receipt.state)
    requires plan == KeepTerminal ==> after.receipts[id] == st.receipts[id]
    requires Tally(after, st', rest, more)
    ensures Tally(st, st', [id] + rest, Count(more, plan))
  {
    assert ([id] + rest)[1..] == rest;
    EndedFrame(st, after, st', rest, AppliedValidated);
    EndedFrame(st, after, st', rest, FailedBeforeEffect);
    EndedFrame(st, after, st', rest, Unknown);
  }

  /** The report of a pass is what it started with plus what happened to the page. */
  lemma {:induction false} RunSettles(p: Pass, st: Stores, page: seq<ReceiptId>, done: Report) returns (more: Report)
    requires Sound(st) && Distinct(page) && forall id :: id in page ==> id in st.receipts
    requires Run(p, st, page, done).1.Some?
    ensures Passed(p, st, page, Run(p, st, page, done).0) && Run(p, st, page, done).0.receipts.Keys == st.receipts.Keys
    ensures Tally(st, Run(p, st, page, done).0, page, more) && Run(p, st, page, done).1.value == Plus(done, more)
    decreases |page|
  {
    hide Handle, PlanFor, Sound, Poisoned, SettledOrDeferred, Passed, Tally, Decided, Plus;
    var st' := Run(p, st, page, done).0;
    if page != [] {
      var id, rest := page[0], page[1..];
      assert page == [id] + rest && id !in rest;
      var h := Handle(p, st, id);
      HandleSettles(p, st, id);
      BranchEnds(p, st, id);
      more := RunSettles(p, h.after, rest, Count(done, h.plan));
      PassedCons(p, st, id, rest, st');
      HeadIsLeft(p, h.after, id, rest, st');
      forall other | other in rest
        ensures other in h.after.receipts && h.after.receipts[other] == st.receipts[other]
      {
        OthersStaySame(p, st, id, other);
      }
      TallyCons(st, h.after, st', id, rest, h.plan, more);
      PlusCount(done, more, h.plan);
      more := Count(more, h.plan);
    } else {
      more := EMPTY;
      PassedNothing(p, st, page);
      PlusEmpty(done);
    }
  }

  lemma PassedNothing(p: Pass, st: Stores, page: seq<ReceiptId>)
    requires page == []
    ensures Passed(p, st, page, st) && Tally(st, st, page, EMPTY)
  {
  }

  lemma HeadIsLeft(p: Pass, st: Stores, id: ReceiptId, rest: seq<ReceiptId>, st': Stores)
    requires id in st.receipts && id !in rest && Passed(p, st, rest, st')
    ensures id in st'.receipts && st'.receipts[id] == st.receipts[id]
  {
    hide Decided, SettledOrDeferred;
  }

  lemma {:induction false} RunIdle(p: Pass, st: Stores, page: seq<ReceiptId>, done: Report)
    requires forall id :: id in page ==> id in st.receipts && SettledOrDeferred(p, st, id)
    ensures
      var d := UnfinishedIn(st, page);
      d <= |page| &&
      Run(p, st, page, done) == (st, Some(done.(deferred := done.deferred + d, terminal := done.terminal + |page| - d)))
    decreases |page|
  {
    if page != [] {
      RunIdle(p, st, page[1..], Count(done, Handle(p, st, page[0]).plan));
    }
  }

  /** Every scanned receipt and its task were decided by the evidence and nothing else was written; every
      receipt is counted once, by what became of it; and a second pass at the same clock changes nothing
      and reports the same deferrals, everything else terminal. */
  predicate Conserved(p: Pass, st: Stores, page: seq<ReceiptId>, st': Stores, report: Report)
    requires forall id :: id in page ==> id in st.receipts
  {
    && Passed(p, st, page, st') && Tally(st, st', page, report) && report.deferred <= |page|
    && Run(p, st', page, EMPTY) == (st', Some(Report(0, 0, 0, report.deferred, |page| - report.deferred)))
  }

  lemma PassedIsSettled(p: Pass, st: Stores, page: seq<ReceiptId>, st': Stores)
    requires Passed(p, st, page, st') && forall id :: id in page ==> id in st.receipts
    ensures forall id :: id in page ==> id in st'.receipts && SettledOrDeferred(p, st', id)
  {
    hide Decided, SettledOrDeferred, Same, OnPage;
  }

  lemma PassedConserves(p: Pass, st: Stores, page: seq<ReceiptId>, st': Stores, report: Report)
    requires forall id :: id in page ==> id in st.receipts && id in st'.receipts
    requires Passed(p, st, page, st') && Tally(st, st', page, report)
    ensures Conserved(p, st, page, st', report)
  {
    hide Run, UnfinishedIn, EndedIn, Passed, SettledOrDeferred;
    PassedIsSettled(p, st, page, st');
    RunIdle(p, st', page, EMPTY);
  }

  /** The pass raised at the first poisoned receipt of its page: everything before it is settled, and
      nothing else but that receipt and its task is touched. */
  predicate StopsAt(p: Pass, st: Stores, page: seq<ReceiptId>, k: nat, mid: Stores, st': Stores)
    requires forall id :: id in page ==> id in st.receipts
  {
    && k < |page| && Poisoned(p, st, page[k]) && (forall i :: 0 <= i < k ==> !Poisoned(p, st, page[i]))
    && Passed(p, st, page[..k], mid) && page[k] in mid.receipts && Framed(mid, page[k], st')
  }

  lemma StopsCons(p: Pass, st: Stores, id: ReceiptId, rest: seq<ReceiptId>, k: nat, mid: Stores, st': Stores)
    requires Sound(st) && id in st.receipts && id !in rest && !Poisoned(p, st, id)
    requires forall other :: other in rest ==> other in st.receipts && other in Handle(p, st, id).after.receipts
    requires StopsAt(p, Handle(p, st, id).after, rest, k, mid, st')
    ensures StopsAt(p, st, [id] + rest, k + 1, mid, st')
  {
    hide Handle, PlanFor, Sound, Poisoned, Passed, Framed;
    var page, after := [id] + rest, Handle(p, st, id).after;
    PassedCons(p, st, id, rest[..k], mid);
    assert page[..k + 1] == [id] + rest[..k];
    forall i | 0 <= i < |rest|
      ensures Poisoned(p, st, rest[i]) <==> Poisoned(p, after, rest[i])
    {
      OthersStaySame(p, st, id, rest[i]);
      SameIsTreatedSame(p, st, after, rest[i]);
    }
    forall i | 0 <= i < k + 1
      ensures !Poisoned(p, st, page[i])
    {
      assert i > 0 ==> page[i] == rest[i - 1];
    }
  }

  lemma StopsHere(p: Pass, st: Stores, page: seq<ReceiptId>)
    requires page != [] && (forall id :: id in page ==> id in st.receipts) && Poisoned(p, st, page[0])
    ensures StopsAt(p, st, page, 0, st, Handle(p, st, page[0]).after)
  {
    hide Handle, Poisoned, Passed, Framed;
    HandleFrame(p, st, page[0]);
    PassedNothing(p, st, page[..0]);
  }

  lemma {:induction false} RunStops(p: Pass, st: Stores, page: seq<ReceiptId>, done: Report) returns (k: nat, mid: Stores)
    requires Sound(st) && Distinct(page) && forall id :: id in page ==> id in st.receipts
    requires Run(p, st, page, done).1.None?
    ensures StopsAt(p, st, page, k, mid, Run(p, st, page, done).0)
    decreases |page|
  {
    hide Handle, PlanFor, Sound, Poisoned, Decided, StopsAt, Framed, SettledOrDeferred;
    var id, rest := page[0], page[1..];
    assert page == [id] + rest && id !in rest;
    var h := Handle(p, st, id);
    HandleSettles(p, st, id);
    if h.raised {
      k, mid := 0, st;
      StopsHere(p, st, page);
    } else {
      k, mid := RunStops(p, h.after, rest, Count(done, h.plan));
      StopsCons(p, st, id, rest, k, mid, Run(p, st, page, done).0);
      k := k + 1;
    }
  }

  lemma RunConserves(p: Pass, st: Stores, page: seq<ReceiptId>)
    requires Sound(st) && Distinct(page) && forall id :: id in page ==> id in st.receipts
    requires Run(p, st, page, EMPTY).1.Some?
    ensures Conserved(p, st, page, Run(p, st, page, EMPTY).0, Run(p, st, page, EMPTY).1.value)
  {
    hide Run, UnfinishedIn, Sound, Conserved, Passed, Tally, Plus, Total;
    var more := RunSettles(p, st, page, EMPTY);
    PlusEmpty(more);
    PassedConserves(p, st, page, Run(p, st, page, EMPTY).0, more);
  }

  /** A pass over a page of distinct receipts raises if and only if one of them is poisoned; otherwise
      it conserves and settles. */
  lemma PassConservesAndSettles(p: Pass, st: Stores, page: seq<ReceiptId>)
    requires Sound(st) && Distinct(page) && forall id :: id in page ==> id in st.receipts
    ensures Run(p, st, page, EMPTY).1.None? <==> AnyPoisoned(p, st, page)
    ensures Run(p, st, page, EMPTY).1.Some? ==>
      Conserved(p, st, page, Run(p, st, page, EMPTY).0, Run(p, st, page, EMPTY).1.value)
  {
    hide Run, Sound, Conserved, AnyPoisoned, Distinct;
    RunRaisesIff(p, st, page, EMPTY);
    if Run(p, st, page, EMPTY).1.Some? {
      RunConserves(p, st, page);
    }
  }
}
