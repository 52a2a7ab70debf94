/** Which undecided keys are completable: what the receipt, the result and the operation task tell about
    a record in progress or uncertain, and that it is exactly what a retry, or one start-up pass and then
    a retry, needs. */
module CompletableKeys {
  import opened Options
  import opened Outcomes
  import opened EffectMachine
  import opened ReconcilePass
  import opened SettledStores
  import opened ProbedRetry

  /** The record names a stored receipt and the task of its operation. */
  predicate Bound(d: Durable, r: Record) {
    && r.receiptId in d.receipts && r.opId in d.tasks && d.receipts[r.receiptId].receipt.opId == r.opId
    && ValidReceipt(d.receipts[r.receiptId].receipt)
  }

  /** What a look into the stores tells: an applied receipt waits only for a task that a retry accepts;
      an unfinished one also for a living task, unless a result is saved and its cancellation was
      requested; an accepted one is lost once it has a result or while its task is pending; a failed or
      rolled-back one is lost. */
  predicate Completable(d: Durable, r: Record)
    requires Bound(d, r)
  {
    var t, saved := d.tasks[r.opId], r.opId in d.results;
    var done := Reconcilable(t, r.opId, r.receiptId);
    match d.receipts[r.receiptId].receipt.state
    case AppliedValidated => done
    case Unknown => done
    case AppliedUnvalidated => done || (Live(t.state) && (saved ==> !t.cancelRequested))
    case Applying => done || (Live(t.state) && (saved ==> !t.cancelRequested))
    case Accepted => !saved && t.state != Pending && (done || Live(t.state))
    case _ => false
  }

  /** A pass over the receipt alone leaves stores in which a retry completes the record. */
  predicate PassHelps(p: Pass, d: Durable, r: Record)
    requires Bound(d, r)
  {
    var h := Handle(p, StoresOf(d), r.receiptId);
    && !h.raised && r.receiptId in h.after.receipts && r.opId in h.after.tasks
    && CanComplete(d.(receipts := h.after.receipts, tasks := h.after.tasks), r)
  }

  /** How long to wait, from `now`, for a pass that no living task defers. */
  function Wait(d: Durable, r: Record, now: int, staleAfter: nat): nat
    requires Bound(d, r)
  {
    var due := d.tasks[r.opId].updatedAt + staleAfter;
    if due <= now then 0 else due - now
  }

  /** The pass that starts after that wait: its cutoff lies `staleAfter` seconds before its clock. */
  function LatePass(d: Durable, r: Record, now: int, staleAfter: nat): (p: Pass)
    requires Bound(d, r)
    ensures p.now >= now && p.cutoff == p.now - staleAfter && d.tasks[r.opId].updatedAt <= p.cutoff
  {
    var start := now + Wait(d, r, now, staleAfter);
    Pass(start, start - staleAfter, {})
  }

  lemma LatePassHelps(d: Durable, r: Record, now: int, staleAfter: nat)
    requires Bound(d, r) && Completable(d, r) && !CanComplete(d, r)
    ensures PassHelps(LatePass(d, r, now, staleAfter), d, r)
    ensures PlanFor(LatePass(d, r, now, staleAfter), StoresOf(d), r.receiptId) in {Validate, MarkUnknown}
  {
    hide NextStamp;
  }

  lemma OnlyThenHelps(p: Pass, d: Durable, r: Record)
    requires Bound(d, r) && PassHelps(p, d, r) && !CanComplete(d, r)
    ensures Completable(d, r)
  {
    hide NextStamp;
  }

  /** A pass that starts no earlier than `now`. */
  predicate Later(p: Pass, now: int, staleAfter: nat) {
    p.now >= now && p.cutoff == p.now - staleAfter
  }

  /** The two ways out: the retry itself, or one later pass over the receipt and then the retry. */
  lemma CompletableIsOnePass(d: Durable, r: Record, now: int, staleAfter: nat)
    requires Bound(d, r)
    ensures Completable(d, r) <==> CanComplete(d, r) || exists p :: Later(p, now, staleAfter) && PassHelps(p, d, r)
  {
    hide PassHelps;
    if Completable(d, r) && !CanComplete(d, r) {
      LatePassHelps(d, r, now, staleAfter);
      assert Later(LatePass(d, r, now, staleAfter), now, staleAfter);
    }
    if p :| Later(p, now, staleAfter) && PassHelps(p, d, r) {
      if !CanComplete(d, r) {
        OnlyThenHelps(p, d, r);
      }
    }
  }
}
