/** Keys that are not completable stay so: no fair continuation of retries, crashes, start-up passes and
    time completes their record. */
module HopelessKeys {
  import opened Options
  import opened Outcomes
  import opened EffectMachine
  import opened ProbedRetry
  import StoreInvariant
  import opened CompletableKeys

  /** Start-up reconciliation can still write the task of the record. */
  predicate InPlay(s: State)
    requires s.d.record.Some? && s.d.record.value.receiptId in s.d.receipts
  {
    var rid := s.d.record.value.receiptId;
    || Unfinished(s.d.receipts[rid].receipt.state)
    || (s.startup.Some? && s.startup.value.Tidying? && s.startup.value.receiptId == rid)
  }

  /** A living task is neither started nor revived nor exchanged for another, and a cancellation request is
      not taken back. */
  predicate Obeys(before: Task, after: Task) {
    Live(after.state) ==> after.state == before.state && (before.cancelRequested ==> after.cancelRequested)
  }

  /** Other actors never write a task that a retry would accept, and neither start nor revive one while
      reconciliation can still act on it.  In an `honest` continuation the caller's probe answers only
      when the effect stands. */
  predicate Fair(honest: bool, s: State, step: Step) {
    && (step.Meddle? && s.d.record.Some? && step.opId == s.d.record.value.opId ==>
          && !Reconcilable(step.task, step.opId, s.d.record.value.receiptId)
          && (s.d.record.value.receiptId in s.d.receipts && step.opId in s.d.tasks && InPlay(s) ==>
                Obeys(s.d.tasks[step.opId], step.task)))
    && (honest ==> !Misleads(s, step))
  }

  predicate FairRun(honest: bool, c: Config, s: State, steps: seq<Step>)
    requires Runs(c, s, steps)
    decreases |steps|
  {
    steps == [] || (Fair(honest, s, steps[0]) && FairRun(honest, c, Do(c, s, steps[0]), steps[1..]))
  }

  // ----- no way out -----

  /** No retry is told that nothing happened: the reconciler never says so, or it says so only truthfully
      and an effect stands. */
  predicate NoMiss(c: Config, s: State) {
    c.keyed && (c.reconciler == NeverMisses || (c.reconciler == Truthful && s.h.effects != 0))
  }

  predicate Undecided(s: State) {
    s.d.record.Some? && s.d.record.value.state != Completed && Bound(s.d, s.d.record.value)
  }

  /** Whoever has read the record's receipt at start-up cannot make it completable either. */
  predicate StartupIsIdle(d: Durable, r: Record, st: Startup)
    requires Bound(d, r)
  {
    var t := d.tasks[r.opId];
    st.receiptId == r.receiptId ==>
      match st
      case Seen(_, _) => true
      case Planned(_, env, plan) =>
        env == d.receipts[r.receiptId] ==>
          && (plan == Validate ==> r.opId in d.results)
          && (plan == MarkUnknown ==> !Live(t.state) && !Reconcilable(t, r.opId, r.receiptId))
      case Tidying(_, opId, plan) =>
        && opId == r.opId
        && (plan == Validate ==> Live(t.state) ==> t.cancelRequested)
        && (plan == MarkUnknown ==> !Live(t.state))
  }

  predicate CallIsIdle(call: Call) {
    call.pc.Probe? || call.pc.ProbeResult? || call.pc.ProbeReceipt? || call.pc.ProbeTask?
  }

  predicate Hopeless(s: State) {
    && Undecided(s) && !Completable(s.d, s.d.record.value)
    && (s.call.Some? ==> CallIsIdle(s.call.value))
    && (s.call.Some? && s.call.value.pc.ProbeTask? ==>
          s.d.receipts[s.d.record.value.receiptId].receipt.state == AppliedValidated)
    && (s.startup.Some? ==> StartupIsIdle(s.d, s.d.record.value, s.startup.value))
  }

  predicate Unmoved(s: State, s': State) {
    s'.h.returned == s.h.returned && s'.h.invocations == s.h.invocations && s'.h.effects == s.h.effects
  }

  lemma HopelessResult(c: Config, s: State)
    requires StoreInvariant.Inv(c, s) && Hopeless(s) && NextEnabled(c, s) && s.call.value.pc.ProbeResult?
    ensures Hopeless(NextAction(c, s)) && Unmoved(s, NextAction(c, s))
  {
    hide Attempt, AttemptTask, LadderTarget, Reconcilable, StoreInvariant.Inv;
  }

  /** The retry can only move the receipt to validated, over a task it will not accept. */
  lemma HopelessReceipt(c: Config, s: State)
    requires StoreInvariant.Inv(c, s) && Hopeless(s) && NextEnabled(c, s) && s.call.value.pc.ProbeReceipt?
    ensures Hopeless(NextAction(c, s)) && Unmoved(s, NextAction(c, s))
  {
    hide Attempt, AttemptTask, LadderTarget, Reconcilable;
  }

  lemma HopelessTask(c: Config, s: State)
    requires StoreInvariant.Inv(c, s) && Hopeless(s) && s.call.Some? && s.call.value.pc.ProbeTask?
    ensures !NextEnabled(c, s)
  {
    hide LadderTarget;
  }

  lemma HopelessNext(c: Config, s: State)
    requires StoreInvariant.Inv(c, s) && Hopeless(s) && NextEnabled(c, s)
    ensures Hopeless(NextAction(c, s)) && Unmoved(s, NextAction(c, s))
  {
    IdleNext(c, s);
    hide Hopeless, NextAction, NextEnabled;
    if s.call.value.pc.ProbeResult? {
      HopelessResult(c, s);
    } else if s.call.value.pc.ProbeReceipt? {
      HopelessReceipt(c, s);
    } else {
      HopelessTask(c, s);
    }
  }

  lemma IdleNext(c: Config, s: State)
    requires Hopeless(s) && NextEnabled(c, s)
    ensures s.call.value.pc.ProbeResult? || s.call.value.pc.ProbeReceipt? || s.call.value.pc.ProbeTask?
  {
    hide Attempt, AttemptTask, Completable, StartupIsIdle, Bound;
  }

  // ----- start-up reconciliation on a hopeless key -----

  /** The record and everything else about the call stay; only stores and start-up change. */
  predicate SameCall(s: State, s': State) {
    s'.call == s.call && s'.d.record == s.d.record && s'.d.results == s.d.results && Unmoved(s, s')
  }

  /** A write over another receipt. */
  lemma HopelessElsewhere(s: State, s': State)
    requires Hopeless(s) && SameCall(s, s')
    requires
      var r := s.d.record.value;
      && r.receiptId in s'.d.receipts && s'.d.receipts[r.receiptId] == s.d.receipts[r.receiptId]
      && r.opId in s'.d.tasks && s'.d.tasks[r.opId] == s.d.tasks[r.opId]
      && (s'.startup.Some? ==> StartupIsIdle(s.d, r, s'.startup.value))
    ensures Hopeless(s')
  {
    hide Reconcilable;
  }

  lemma HopelessSettle(c: Config, s: State)
    requires StoreInvariant.Inv(c, s) && Hopeless(s) && SettleEnabled(s)
    ensures Hopeless(SettleAction(s)) && Unmoved(s, SettleAction(s))
  {
    if s.startup.value.receiptId == s.d.record.value.receiptId {
      HopelessSettleHere(c, s);
    } else {
      hide Completable, Reconcilable, SettleReceipt, StoreInvariant.Inv;
      HopelessElsewhere(s, SettleAction(s));
    }
  }

  lemma HopelessSettleHere(c: Config, s: State)
    requires StoreInvariant.Inv(c, s) && Hopeless(s) && SettleEnabled(s) && s.startup.value.receiptId == s.d.record.value.receiptId
    ensures Hopeless(SettleAction(s)) && Unmoved(s, SettleAction(s))
  {
    hide Reconcilable;
  }

  lemma HopelessTidy(c: Config, s: State)
    requires StoreInvariant.Inv(c, s) && Hopeless(s) && TidyTask(s).Some?
    ensures Hopeless(TidyAction(s)) && Unmoved(s, TidyAction(s))
  {
    if s.startup.value.receiptId == s.d.record.value.receiptId {
      HopelessTidyHere(c, s);
    } else {
      hide Completable, Reconcilable, TidyTask;
      HopelessElsewhere(s, TidyAction(s));
    }
  }

  lemma HopelessTidyHere(c: Config, s: State)
    requires StoreInvariant.Inv(c, s) && Hopeless(s) && TidyTask(s).Some? && s.startup.value.receiptId == s.d.record.value.receiptId
    ensures Hopeless(TidyAction(s)) && Unmoved(s, TidyAction(s))
  {
    hide NextStamp;
  }

  lemma HopelessJudge(c: Config, s: State, step: Step)
    requires StoreInvariant.Inv(c, s) && Hopeless(s) && step.Judge? && Enabled(c, s, step)
    ensures Hopeless(Do(c, s, step)) && Unmoved(s, Do(c, s, step))
  {
    hide Reconcilable, NextAction, NextEnabled;
  }

  lemma HopelessMeddle(honest: bool, c: Config, s: State, step: Step)
    requires StoreInvariant.Inv(c, s) && Hopeless(s) && step.Meddle? && Fair(honest, s, step)
    ensures Hopeless(Do(c, s, step)) && Unmoved(s, Do(c, s, step))
  {
    hide Reconcilable, NextAction, NextEnabled;
  }

  lemma HopelessEnter(c: Config, s: State, step: Step)
    requires NoMiss(c, s) && Hopeless(s) && s.call.None? && step.Enter?
    ensures Hopeless(EnterCall(c, s, step)) && Unmoved(s, EnterCall(c, s, step))
  {
    hide Completable, Bound, StartupIsIdle;
  }

  lemma HopelessStep(honest: bool, c: Config, s: State, step: Step)
    requires NoMiss(c, s) && StoreInvariant.Inv(c, s) && Hopeless(s)
    requires Enabled(c, s, step) && Fair(honest, s, step)
    ensures Hopeless(Do(c, s, step)) && Unmoved(s, Do(c, s, step))
  {
    if step.Judge? {
      HopelessJudge(c, s, step);
    } else if step.Meddle? {
      HopelessMeddle(honest, c, s, step);
    } else {
      hide NextEnabled, NextAction, SettleEnabled, SettleAction, TidyTask, TidyAction, EnterCall, Fair, StoreInvariant.Inv, Completable, Bound;
      if step.Next? {
        HopelessNext(c, s);
      } else if step.Settle? {
        HopelessSettle(c, s);
      } else if step.Tidy? {
        HopelessTidy(c, s);
      } else if step.Enter? {
        HopelessEnter(c, s, step);
      }
    }
  }

  /** A hopeless key stays hopeless: whatever retries, crashes, start-up passes and clock advances
      follow, its record is never completed, nothing is returned and nothing is invoked. */
  lemma {:induction false} HopelessForever(honest: bool, c: Config, s: State, steps: seq<Step>)
    requires NoMiss(c, s) && StoreInvariant.Inv(c, s) && Hopeless(s)
    requires Runs(c, s, steps) && FairRun(honest, c, s, steps)
    ensures Hopeless(After(c, s, steps)) && Unmoved(s, After(c, s, steps))
    decreases |steps|
  {
    hide Hopeless, Fair, StoreInvariant.Inv, Do, Enabled;
    if steps != [] {
      StoreInvariant.StepKeeps(c, s, steps[0]);
      HopelessStep(honest, c, s, steps[0]);
      HopelessForever(honest, c, Do(c, s, steps[0]), steps[1..]);
    }
  }

  // ----- an honest probe finds nothing where nothing was done -----

  /** No effect stands and the record is undecided. */
  predicate Effectless(s: State) {
    && s.d.record.Some? && s.d.record.value.state != Completed && s.h.effects <= 0
    && (s.call.Some? ==> s.call.value.pc.Probe?)
  }

  lemma EffectlessStep(c: Config, s: State, step: Step)
    requires NoMiss(c, s) && Effectless(s) && Enabled(c, s, step) && Fair(true, s, step)
    ensures Effectless(Do(c, s, step)) && Unmoved(s, Do(c, s, step))
  {
    hide SettleReceipt, TidyTask, Decide, NextAction;
  }

  lemma {:induction false} EffectlessForever(c: Config, s: State, steps: seq<Step>)
    requires NoMiss(c, s) && Effectless(s) && Runs(c, s, steps) && FairRun(true, c, s, steps)
    ensures Effectless(After(c, s, steps)) && Unmoved(s, After(c, s, steps))
    decreases |steps|
  {
    hide Effectless, Fair, Do, Enabled;
    if steps != [] {
      EffectlessStep(c, s, steps[0]);
      EffectlessForever(c, Do(c, s, steps[0]), steps[1..]);
    }
  }
}
