/** Which undecided keys can still be completed.  A process has died, or a call has failed, and the
    record of a keyed caller is in progress or uncertain.  For every such state that a run can leave, the
    caller's arguments, the receipt, the result and the operation task tell whether some continuation of
    retries, start-up passes and time completes the record; in every other state none does. */
module Completion {
  import opened Options
  import opened Outcomes
  import opened EffectMachine
  import opened ReconcilePass
  import opened SettledStores
  import opened ProbedRetry
  import opened CompletableKeys
  import opened HopelessKeys
  import opened Continuations
  import opened PassRuns
  import opened ReclaimedKeys
  import StoreInvariant

  // ----- the way out -----

  /** A retry whose probe answers completes the record, when the receipt and the task allow it. */
  lemma LeadsThroughRetry(honest: bool, c: Config, s: State, s1: State, v: Value) returns (s2: State)
    requires c.keyed && c.reconciler != Absent && (honest ==> s1.h.effects > 0)
    requires Leads(honest, c, s, s1) && StoreInvariant.Inv(c, s1) && s1.call.None? && Undecided(s1) && CanComplete(s1.d, s1.d.record.value)
    ensures Leads(honest, c, s, s2) && Done(s2.d) && s2.d.record.value.result == Some(PersistedForm(v))
  {
    var r := s1.d.record.value;
    s2 := LeadsToProbe(honest, c, s, s1, v);
    ProbeCompletesIff(c, s2, v);
    s2 := LeadsThroughNexts(honest, c, s, s2);
  }

  /** Waiting until the record is stale, entering, probing, and saving the probe's result. */
  lemma LeadsToProbe(honest: bool, c: Config, s: State, s1: State, v: Value) returns (s2: State)
    requires c.keyed && c.reconciler != Absent && (honest ==> s1.h.effects > 0)
    requires Leads(honest, c, s, s1) && StoreInvariant.Inv(c, s1) && s1.call.None? && Undecided(s1)
    ensures Leads(honest, c, s, s2) && StoreInvariant.Inv(c, s2) && s2.call.Some? && s2.call.value.pc == ProbeReceipt(v)
    ensures s2.d.record == s1.d.record && s2.d.receipts == s1.d.receipts && s2.d.tasks == s1.d.tasks
  {
    hide Leads, StoreInvariant.Inv, Bound;
    var r := s1.d.record.value;
    var wait: nat := if r.updatedAt + c.staleSeconds + 1 > s1.now then r.updatedAt + c.staleSeconds + 1 - s1.now else 0;
    s2 := LeadsStep(honest, c, s, s1, Tick(wait));
    s2 := LeadsToEntered(honest, c, s, s2);
    s2 := LeadsStep(honest, c, s, s2, Probed(Some(v)));
    s2 := LeadsToSaved(honest, c, s, s2, v);
  }

  lemma LeadsToEntered(honest: bool, c: Config, s: State, s1: State) returns (s2: State)
    requires c.keyed && c.reconciler != Absent && Leads(honest, c, s, s1) && StoreInvariant.Inv(c, s1) && s1.call.None?
    requires s1.d.record.Some? && s1.d.record.value.state != Completed && s1.now - s1.d.record.value.updatedAt > c.staleSeconds
    ensures Leads(honest, c, s, s2) && StoreInvariant.Inv(c, s2) && s2.call.Some? && s2.call.value.pc.Probe? && s2.d == s1.d && s2.h == s1.h
  {
    hide Leads, StoreInvariant.Inv;
    s2 := LeadsStep(honest, c, s, s1, Enter(s1.d.record.value.fingerprint, None, 0, 0, 0));
  }

  lemma LeadsToSaved(honest: bool, c: Config, s: State, s1: State, v: Value) returns (s2: State)
    requires Leads(honest, c, s, s1) && StoreInvariant.Inv(c, s1) && s1.call.Some? && s1.call.value.pc == ProbeResult(v) && s1.d.record.Some?
    ensures Leads(honest, c, s, s2) && StoreInvariant.Inv(c, s2) && s2.call.Some? && s2.call.value.pc == ProbeReceipt(v)
    ensures s2.d.record == s1.d.record && s2.d.receipts == s1.d.receipts && s2.d.tasks == s1.d.tasks
  {
    hide Leads, StoreInvariant.Inv;
    s2 := LeadsStep(honest, c, s, s1, Next);
  }

  lemma LeadsThroughNexts(honest: bool, c: Config, s: State, s1: State) returns (s2: State)
    requires Leads(honest, c, s, s1) && StoreInvariant.Inv(c, s1) && Runs(c, s1, [Next, Next, Next])
    ensures Leads(honest, c, s, s2) && s2 == After(c, s1, [Next, Next, Next])
  {
    hide Leads, StoreInvariant.Inv, NextEnabled, NextAction;
    assert [Next, Next, Next][1..] == [Next, Next] && [Next, Next][1..] == [Next] && [Next][1..] == [];
    s2 := LeadsStep(honest, c, s, s1, Next);
    s2 := LeadsStep(honest, c, s, s2, Next);
    s2 := LeadsStep(honest, c, s, s2, Next);
  }

  /** From every completable state: the retry, after one pass where it is needed. */
  lemma WayOut(honest: bool, c: Config, s: State, v: Value) returns (s': State)
    requires c.keyed && c.reconciler != Absent && StoreInvariant.Inv(c, s) && s.call.None? && s.startup.None?
    requires Undecided(s) && Completable(s.d, s.d.record.value) && (honest ==> s.h.effects > 0)
    ensures Leads(honest, c, s, s') && Done(s'.d) && s'.d.record.value.result == Some(PersistedForm(v))
  {
    LeadsNowhere(honest, c, s);
    hide Leads, StoreInvariant.Inv;
    var r := s.d.record.value;
    s' := s;
    if !CanComplete(s.d, r) {
      var p := LatePass(s.d, r, s.now, c.staleSeconds);
      LatePassHelps(s.d, r, s.now, c.staleSeconds);
      var waited := LeadsStep(honest, c, s, s, Tick(p.now - s.now));
      s' := LeadsThroughPass(honest, c, s, waited, p, r.receiptId);
      BoundAfterPass(c, waited, p, s');
    }
    s' := LeadsThroughRetry(honest, c, s, s', v);
  }

  lemma BoundAfterPass(c: Config, s: State, p: Pass, s': State)
    requires Undecided(s) && StoreInvariant.Inv(c, s') && IsPass(s, p, s.d.record.value.receiptId, s') && PassHelps(p, s.d, s.d.record.value)
    ensures Undecided(s') && s'.d.record == s.d.record && CanComplete(s'.d, s.d.record.value)
  {
    hide Handle;
    HandleFrame(p, StoresOf(s.d), s.d.record.value.receiptId);
  }

  // ----- the exact condition -----

  /** What a caller could tell from its own arguments and the stores, and where it matters from whether
      the effect stands. */
  predicate Finishable(honest: bool, c: Config, s: State)
    requires s.d.record.Some? && Bound(s.d, s.d.record.value)
  {
    || Reclaimable(c, s)
    || (c.reconciler != Absent && Completable(s.d, s.d.record.value) && (honest ==> s.h.effects > 0))
  }

  lemma Finishes(honest: bool, c: Config, s: State) returns (steps: seq<Step>)
    requires c.keyed && StoreInvariant.Inv(c, s) && Undecided(s) && Open(s) && s.startup.None? && Finishable(honest, c, s)
    ensures Runs(c, s, steps) && FairRun(honest, c, s, steps) && Done(After(c, s, steps).d)
  {
    hide Completable, Reclaimable, StoreInvariant.Inv, Bound, Done;
    var s': State;
    if Reclaimable(c, s) {
      s' := ReclaimCompletes(honest, c, s, 0);
    } else {
      s' := WayOut(honest, c, s, 0);
    }
    steps :| Runs(c, s, steps) && FairRun(honest, c, s, steps) && After(c, s, steps) == s';
  }

  /** For every state that a run of a keyed caller leaves between calls and passes with an undecided
      record: some fair continuation completes the record if and only if a later call may claim the key
      again, or its stores are completable and, where probes are honest, the effect stands. */
  lemma CompletesIff(honest: bool, c: Config, s: State)
    requires c.keyed && Reachable(c, s) && Open(s) && s.startup.None?
    ensures Bound(s.d, s.d.record.value)
    ensures
      (exists steps :: Runs(c, s, steps) && FairRun(honest, c, s, steps) && Done(After(c, s, steps).d)) <==> Finishable(honest, c, s)
  {
    StoreInvariant.Holds(c, s);
    assert Bound(s.d, s.d.record.value);
    hide Completable, Reclaimable, StoreInvariant.Inv, Bound, Reachable;
    if Finishable(honest, c, s) {
      var steps := Finishes(honest, c, s);
    } else {
      forall steps | Runs(c, s, steps) && FairRun(honest, c, s, steps)
        ensures !Done(After(c, s, steps).d)
      {
        NeverCompletes(honest, c, s, steps);
      }
    }
  }

  /** Otherwise no continuation completes the record, returns anything or calls the operation. */
  lemma NeverCompletes(honest: bool, c: Config, s: State, steps: seq<Step>)
    requires c.keyed && StoreInvariant.Inv(c, s) && Undecided(s) && Open(s) && s.startup.None?
    requires Runs(c, s, steps) && FairRun(honest, c, s, steps)
    requires !Finishable(honest, c, s)
    ensures !Done(After(c, s, steps).d) && Unmoved(s, After(c, s, steps))
  {
    ThreeKinds(c, s);
    if Abandoned(c, s) {
      AbandonedForever(c, s, steps);
    } else if Completable(s.d, s.d.record.value) {
      EffectlessForever(c, s, steps);
    } else {
      HopelessForever(honest, c, s, steps);
    }
  }
}
