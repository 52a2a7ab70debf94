/** The retry of a key whose outcome is undecided: once the caller's probe has found the effect, when
    the record can be completed. */
module ProbedRetry {
  import opened Options
  import opened Outcomes
  import opened EffectMachine
  import StoreInvariant

  /** Tasks that `reconcile_success` accepts. */
  predicate Reconcilable(t: Task, opId: OpId, rid: ReceiptId) {
    || (t.state == Succeeded && t.resultRef == Some(opId) && t.receiptId == Some(rid))
    || (t.state == Failed && t.error == Some(OutcomeUnknownCode) && t.receiptId == Some(rid))
  }

  /** What the caller of a retry could check in the stores. */
  predicate CanComplete(d: Durable, r: Record)
    requires r.receiptId in d.receipts && r.opId in d.tasks
  {
    && d.receipts[r.receiptId].receipt.state in {AppliedUnvalidated, AppliedValidated, Unknown}
    && Reconcilable(d.tasks[r.opId], r.opId, r.receiptId)
  }

  predicate ReceiptCompletes(d: Durable, d': Durable, r: Record)
    requires r.receiptId in d.receipts
  {
    var env := d.receipts[r.receiptId];
    && r.receiptId in d'.receipts && d'.receipts == d.receipts[r.receiptId := d'.receipts[r.receiptId]]
    && d'.receipts[r.receiptId].revision > env.revision
    && d'.receipts[r.receiptId].receipt ==
       if env.receipt.state == AppliedValidated then env.receipt else Receipt(r.opId, AppliedValidated, true, Some(r.opId), None)
  }

  predicate TaskCompletes(d: Durable, d': Durable, opId: OpId, receiptId: ReceiptId, now: int)
    requires opId in d.tasks
  {
    var t := d.tasks[opId];
    && opId in d'.tasks && d'.tasks == d.tasks[opId := d'.tasks[opId]]
    && if t.state == Succeeded then d'.tasks[opId] == t
       else
         && d'.tasks[opId] == Task(Succeeded, d'.tasks[opId].updatedAt, Some(receiptId), None, Some(opId), t.cancelRequested)
         && d'.tasks[opId].updatedAt > t.updatedAt && d'.tasks[opId].updatedAt >= now
  }

  /** The stores after the retry: the receipt validated, unless it was, the task succeeded, unless it had,
      and the record completed, each with the evidence of this operation; and nothing else is different. */
  predicate Completes(d: Durable, d': Durable, r: Record, v: Value, now: int)
    requires r.receiptId in d.receipts && r.opId in d.tasks
  {
    && ReceiptCompletes(d, d', r) && TaskCompletes(d, d', r.opId, r.receiptId, now) && d'.results == d.results
    && d'.record == Some(r.(state := Completed, updatedAt := now, result := Some(PersistedForm(v))))
  }

  /** Once the probe has found the effect and its result is saved, the retry completes the record
      (three writes in a row succeed) exactly when the receipt and the operation task allow it. */
  lemma ProbeCompletesIff(c: Config, s: State, v: Value)
    requires StoreInvariant.Inv(c, s) && c.keyed && s.call.Some? && s.call.value.pc == ProbeReceipt(v)
    ensures
      var r := s.d.record.value;
      && s.d.record.Some? && r.receiptId in s.d.receipts && r.opId in s.d.tasks
      && (Runs(c, s, [Next, Next, Next]) <==> CanComplete(s.d, r))
      && (Runs(c, s, [Next, Next, Next]) ==>
            var s' := After(c, s, [Next, Next, Next]);
            && Completes(s.d, s'.d, r, v, s.now)
            && s'.call.None? && s'.h.returned == s.h.returned + [PersistedForm(v)])
  {
    var r := s.d.record.value;
    ReceiptHalf(c, s, v);
    if NextEnabled(c, s) {
      var s1 := NextAction(c, s);
      TaskHalf(c, s1, v);
      if NextEnabled(c, s1) {
        var s2 := NextAction(c, s1);
        RecordHalf(c, s2, v);
        ThreeNexts(c, s, s1, s2);
      } else {
        TwoNexts(c, s, s1);
      }
    } else {
      assert !Enabled(c, s, Next);
    }
  }

  lemma ThreeNexts(c: Config, s: State, s1: State, s2: State)
    requires NextEnabled(c, s) && s1 == NextAction(c, s)
    requires NextEnabled(c, s1) && s2 == NextAction(c, s1) && NextEnabled(c, s2)
    ensures Runs(c, s, [Next, Next, Next]) && After(c, s, [Next, Next, Next]) == NextAction(c, s2)
  {
    hide NextEnabled, NextAction;
    assert [Next, Next, Next][1..] == [Next, Next] && [Next, Next][1..] == [Next] && [Next][1..] == [];
    assert Do(c, s, Next) == s1 && Do(c, s1, Next) == s2;
    assert Runs(c, s2, [Next]) && After(c, s2, [Next]) == NextAction(c, s2);
    assert Runs(c, s1, [Next, Next]);
  }

  lemma TwoNexts(c: Config, s: State, s1: State)
    requires NextEnabled(c, s) && s1 == NextAction(c, s) && !NextEnabled(c, s1)
    ensures !Runs(c, s, [Next, Next, Next])
  {
    hide NextEnabled, NextAction;
    assert [Next, Next, Next][1..] == [Next, Next];
    assert Do(c, s, Next) == s1 && !Enabled(c, s1, Next);
    assert !Runs(c, s1, [Next, Next]);
  }

  lemma ReceiptHalf(c: Config, s: State, v: Value)
    requires StoreInvariant.Inv(c, s) && c.keyed && s.call.Some? && s.call.value.pc == ProbeReceipt(v)
    ensures
      var r := s.d.record.value;
      && s.d.record.Some? && r.receiptId in s.d.receipts && r.opId in s.d.tasks
      && s.call.value.opId == r.opId && s.call.value.receiptId == r.receiptId
      && (NextEnabled(c, s) <==> s.d.receipts[r.receiptId].receipt.state in {AppliedUnvalidated, AppliedValidated, Unknown})
      && (NextEnabled(c, s) ==>
            var s1 := NextAction(c, s);
            s1.d.record == s.d.record && s1.d.tasks == s.d.tasks && s1.d.results == s.d.results && s1.now == s.now
            && s1.d.receipts.Keys == s.d.receipts.Keys && s1.d.receipts[r.receiptId].receipt.state == AppliedValidated
            && ReceiptCompletes(s.d, s1.d, r)
            && s1.call == Some(s.call.value.(pc := ProbeTask(v))) && s1.startup == s.startup && s1.h == s.h)
  {
  }

  lemma TaskHalf(c: Config, s: State, v: Value)
    requires s.call.Some? && s.call.value.pc == ProbeTask(v) && s.call.value.opId in s.d.tasks
    ensures NextEnabled(c, s) <==> Reconcilable(s.d.tasks[s.call.value.opId], s.call.value.opId, s.call.value.receiptId)
    ensures NextEnabled(c, s) ==>
      var s1 := NextAction(c, s);
      && s1.d == s.d.(tasks := s1.d.tasks) && s1.now == s.now && s1.call == Some(s.call.value.(pc := ProbeCommit(v))) && s1.h == s.h
      && TaskCompletes(s.d, s1.d, s.call.value.opId, s.call.value.receiptId, s.now)
  {
  }

  lemma RecordHalf(c: Config, s: State, v: Value)
    requires s.call.Some? && s.call.value.pc == ProbeCommit(v) && s.d.record.Some?
    ensures NextEnabled(c, s)
    ensures
      NextAction(c, s).d ==
      s.d.(record := Some(s.d.record.value.(state := Completed, updatedAt := s.now, result := Some(PersistedForm(v)))))
    ensures NextAction(c, s).call.None? && NextAction(c, s).h.returned == s.h.returned + [PersistedForm(v)]
  {
  }
}
