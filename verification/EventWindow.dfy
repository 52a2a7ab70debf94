/** The bounded event window: a least-recently-used table of short deques that answers like an
    unbounded event log. */
module EventWindow {

  const MAX_TRACKED_KEYS := 200

  // ----- deques against the whole log of a key -----

  /** `deque(maxlen=threshold).append(now)`. */
  function Append(events: seq<real>, now: real, threshold: nat): seq<real> {
    if threshold == 0 then []
    else if |events| >= threshold then events[1..] + [now]
    else events + [now]
  }

  ghost predicate Ascending(log: seq<real>) {
    forall i, j :: 0 <= i < j < |log| ==> log[i] <= log[j]
  }

  /** How many events of a log lie at or after the cutoff. */
  function CountSince(log: seq<real>, cutoff: real): nat {
    if log == [] then 0
    else CountSince(log[..|log| - 1], cutoff) + if log[|log| - 1] >= cutoff then 1 else 0
  }

  function Min(a: nat, b: nat): nat {
    if a < b then a else b
  }

  /** From `k` on the log holds what lies at or after the cutoff, but at most `threshold` events. */
  ghost predicate Recent(log: seq<real>, k: int, cutoff: real, threshold: nat) {
    && 0 <= k <= |log| && |log| - k <= threshold
    && (forall i :: k <= i < |log| ==> log[i] >= cutoff)
    && (k > 0 && |log| - k < threshold ==> log[k - 1] < cutoff)
  }

  ghost predicate Tail(events: seq<real>, log: seq<real>, cutoff: real, threshold: nat) {
    Recent(log, |log| - |events|, cutoff, threshold) && events == log[|log| - |events|..]
  }

  lemma {:induction false} CountAll(log: seq<real>, cutoff: real, k: nat)
    requires k <= |log|
    requires forall i :: 0 <= i < k ==> log[i] < cutoff
    requires forall i :: k <= i < |log| ==> log[i] >= cutoff
    ensures CountSince(log, cutoff) == |log| - k
  {
    if log != [] {
      CountAll(log[..|log| - 1], cutoff, if k == |log| then k - 1 else k);
    }
  }

  lemma {:induction false} CountAtLeast(log: seq<real>, cutoff: real, k: nat)
    requires k <= |log|
    requires forall i :: k <= i < |log| ==> log[i] >= cutoff
    ensures CountSince(log, cutoff) >= |log| - k
  {
    if k < |log| {
      CountAtLeast(log[..|log| - 1], cutoff, k);
    }
  }

  /** The length of the tail is the count in the window, up to the threshold. */
  lemma TailCounts(events: seq<real>, log: seq<real>, cutoff: real, threshold: nat)
    requires Ascending(log) && Tail(events, log, cutoff, threshold)
    ensures |events| == Min(threshold, CountSince(log, cutoff))
  {
    var k := |log| - |events|;
    if k > 0 && |events| == threshold {
      CountAtLeast(log, cutoff, k);
    } else {
      CountAll(log, cutoff, k);
    }
  }

  /** Where the deque starts after an append. */
  lemma AppendIs(log: seq<real>, k: nat, now: real, threshold: nat)
    requires k <= |log| && |log| - k <= threshold
    ensures
      var next := Append(log[k..], now, threshold);
      next == (log + [now])[|log| + 1 - |next|..] && |next| == Min(threshold, |log| - k + 1)
  {
    if 0 < |log| - k == threshold {
      assert log[k..][1..] == log[k + 1..];
    }
  }

  /** Appending an event and dropping what lies before the new cutoff keeps the tail exact. */
  lemma RecentStep(log: seq<real>, k: nat, cutoff: real, threshold: nat, now: real, later: real, m: nat)
    requires Recent(log, k, cutoff, threshold) && Ascending(log + [now]) && cutoff <= later
    requires |log| + 1 - Min(threshold, |log| - k + 1) <= m <= |log| + 1
    requires forall i :: |log| + 1 - Min(threshold, |log| - k + 1) <= i < m ==> (log + [now])[i] < later
    requires m < |log| + 1 ==> (log + [now])[m] >= later
    ensures Recent(log + [now], m, later, threshold)
  {
  }

  lemma TailStep(events: seq<real>, log: seq<real>, cutoff: real, threshold: nat, now: real, later: real, drop: nat)
    requires Tail(events, log, cutoff, threshold) && Ascending(log + [now]) && cutoff <= later
    requires drop <= |Append(events, now, threshold)|
    requires forall i :: 0 <= i < drop ==> Append(events, now, threshold)[i] < later
    requires drop < |Append(events, now, threshold)| ==> Append(events, now, threshold)[drop] >= later
    ensures Tail(Append(events, now, threshold)[drop..], log + [now], later, threshold)
  {
    var all, next, k := log + [now], Append(events, now, threshold), |log| - |events|;
    assert k <= |log| && |log| - k <= threshold;
    AppendIs(log, k, now, threshold);
    hide Append, Ascending, Recent;
    var first := |all| - |next|;
    forall i | first <= i < first + drop
      ensures all[i] < later
    {
      assert next[i - first] == all[i];
    }
    RecentStep(log, k, cutoff, threshold, now, later, first + drop);
    assert next[drop..] == all[first + drop..];
  }

  // ----- the order of the keys -----

  /** The distinct keys observed since the last observation of `key`. */
  function Others(trace: seq<string>, key: string): set<string> {
    if trace == [] || trace[|trace| - 1] == key then {}
    else Others(trace[..|trace| - 1], key) + {trace[|trace| - 1]}
  }

  /** Keys are distinct, and a later key was observed after the last observation of an earlier one. */
  ghost predicate Recency(trace: seq<string>, order: seq<string>) {
    order == [] ||
    (order[0] !in order[1..] && (forall k :: k in order[1..] ==> k in Others(trace, order[0])) && Recency(trace, order[1..]))
  }

  function Remove(order: seq<string>, key: string): seq<string> {
    if order == [] then []
    else if order[0] == key then order[1..]
    else [order[0]] + Remove(order[1..], key)
  }

  lemma {:induction false} RemoveKeeps(trace: seq<string>, order: seq<string>, key: string)
    requires Recency(trace, order)
    ensures Recency(trace, Remove(order, key))
    ensures forall k :: k in Remove(order, key) <==> k in order && k != key
    ensures |Remove(order, key)| == |order| - if key in order then 1 else 0
  {
    hide Others;
    if order != [] {
      assert order == [order[0]] + order[1..];
      if order[0] != key {
        RemoveKeeps(trace, order[1..], key);
        assert Remove(order, key)[1..] == Remove(order[1..], key);
      }
    }
  }

  lemma RemoveFirst(order: seq<string>)
    requires order != []
    ensures Remove(order, order[0]) == order[1..]
  {
  }

  lemma {:induction false} TouchKeeps(trace: seq<string>, order: seq<string>, key: string)
    requires Recency(trace, order) && key !in order
    ensures Recency(trace + [key], order + [key])
  {
    if order == [] {
      assert (order + [key])[1..] == [];
    } else {
      var t := trace + [key];
      assert t[..|t| - 1] == trace && order[0] in order;
      assert Others(t, order[0]) == Others(trace, order[0]) + {key};
      TouchKeeps(trace, order[1..], key);
      assert (order + [key])[1..] == order[1..] + [key];
    }
  }

  lemma {:induction false} Elements(trace: seq<string>, order: seq<string>, s: set<string>)
    requires Recency(trace, order) && forall k :: k in order ==> k in s
    ensures |order| <= |s|
  {
    if order != [] {
      assert order[0] in s;
      Elements(trace, order[1..], s - {order[0]});
    }
  }

  /** What an eviction means: at least 200 other keys were observed since. */
  lemma EvictedIsStale(trace: seq<string>, order: seq<string>)
    requires Recency(trace, order) && |order| > MAX_TRACKED_KEYS
    ensures |Others(trace, order[0])| >= MAX_TRACKED_KEYS
  {
    Elements(trace, order[1..], Others(trace, order[0]));
  }

  // ----- the class -----

  /** A deque against the log of its key. */
  ghost predicate Tracks(events: seq<real>, log: seq<real>, clock: real, window: real, threshold: nat) {
    && log != [] && Ascending(log) && log[|log| - 1] <= clock
    && Tail(events, log, log[|log| - 1] - window, threshold)
  }

  lemma EmptyTail(cutoff: real, threshold: nat)
    ensures Tail([], [], cutoff, threshold)
  {
  }

  /** One observation of a key, whose log may be empty so far. */
  lemma PruneIsExact(events: seq<real>, log: seq<real>, clock: real, window: real, threshold: nat, now: real, drop: nat)
    requires log == [] ==> events == []
    requires log != [] ==> Tracks(events, log, clock, window, threshold) && clock <= now
    requires drop <= |Append(events, now, threshold)|
    requires forall i :: 0 <= i < drop ==> Append(events, now, threshold)[i] < now - window
    requires drop < |Append(events, now, threshold)| ==> Append(events, now, threshold)[drop] >= now - window
    ensures
      var left := Append(events, now, threshold)[drop..];
      && Tracks(left, log + [now], now, window, threshold)
      && |left| == Min(threshold, CountSince(log + [now], now - window))
  {
    hide Append, Tail, CountSince;
    var cutoff := if log == [] then now - window else log[|log| - 1] - window;
    if log == [] {
      EmptyTail(cutoff, threshold);
    }
    assert Ascending(log + [now]);
    hide Ascending;
    TailStep(events, log, cutoff, threshold, now, now - window, drop);
    TailCounts(Append(events, now, threshold)[drop..], log + [now], now - window, threshold);
  }

  lemma TracksLater(events: seq<real>, log: seq<real>, clock: real, later: real, window: real, threshold: nat)
    requires Tracks(events, log, clock, window, threshold) && clock <= later
    ensures Tracks(events, log, later, window, threshold)
  {
  }

  /** The append and the loop that drops events before the cutoff. */
  method Prune(before: seq<real>, now: real, cutoff: real, threshold: nat) returns (events: seq<real>, ghost drop: nat)
    requires |before| <= threshold
    ensures |events| <= threshold
    ensures drop <= |Append(before, now, threshold)| && events == Append(before, now, threshold)[drop..]
    ensures forall i :: 0 <= i < drop ==> Append(before, now, threshold)[i] < cutoff
    ensures events == [] || events[0] >= cutoff
  {
    events := Append(before, now, threshold);
    drop := 0;
    while events != [] && events[0] < cutoff
      invariant drop <= |Append(before, now, threshold)| && events == Append(before, now, threshold)[drop..]
      invariant forall i :: 0 <= i < drop ==> Append(before, now, threshold)[i] < cutoff
    {
      events := events[1..];
      drop := drop + 1;
    }
  }

  type Table = map<string, seq<real>>

  /** The table holds the keys of the log in order of their last observation. */
  ghost predicate Keyed(trace: seq<string>, order: seq<string>, data: Table, log: Table) {
    Recency(trace, order) && (forall k :: k in order <==> k in data) && data.Keys == log.Keys
  }

  /** The deques are short, and they are the ends of the logs. */
  ghost predicate Exact(data: Table, log: Table, steady: bool, clock: real, window: real, threshold: nat) {
    && (forall k :: k in data ==> |data[k]| <= threshold)
    && (steady ==> forall k :: k in data && k in log ==> Tracks(data[k], log[k], clock, window, threshold))
  }

  lemma ForgetKey(trace: seq<string>, order: seq<string>, data: Table, log: Table, key: string)
    requires Keyed(trace, order, data, log)
    ensures Keyed(trace, Remove(order, key), data - {key}, log - {key})
  {
    hide Recency, Remove;
    RemoveKeeps(trace, order, key);
  }

  lemma ForgetEvents(data: Table, log: Table, steady: bool, clock: real, window: real, threshold: nat, key: string)
    requires Exact(data, log, steady, clock, window, threshold)
    ensures Exact(data - {key}, log - {key}, steady, clock, window, threshold)
  {
    hide Tracks;
  }

  lemma TouchKey(trace: seq<string>, order: seq<string>, data: Table, log: Table, key: string, events: seq<real>, all: seq<real>)
    requires Keyed(trace, order, data, log)
    ensures Keyed(trace + [key], Remove(order, key) + [key], data[key := events], log[key := all])
  {
    hide Recency, Remove;
    RemoveKeeps(trace, order, key);
    TouchKeeps(trace, Remove(order, key), key);
  }

  lemma TouchEvents(data: Table, log: Table, steady: bool, clock: real, window: real, threshold: nat,
                    key: string, events: seq<real>, all: seq<real>, now: real, still: bool)
    requires Exact(data, log, steady, clock, window, threshold) && |events| <= threshold
    requires still ==> steady && (data == map[] || clock <= now) && Tracks(events, all, now, window, threshold)
    ensures Exact(data[key := events], log[key := all], still, now, window, threshold)
  {
    if still {
      forall k | k in data && k in log
        ensures Tracks(data[k], log[k], now, window, threshold)
      {
        TracksLater(data[k], log[k], clock, now, window, threshold);
      }
    }
    hide Tracks;
  }

  function Entry(table: Table, key: string): seq<real> {
    if key in table then table[key] else []
  }

  /** One observation of a key in a table. */
  lemma ObserveIsExact(data: Table, log: Table, clock: real, window: real, threshold: nat, key: string, now: real, drop: nat)
    requires Exact(data, log, true, clock, window, threshold) && data.Keys == log.Keys && (data == map[] || clock <= now)
    requires drop <= |Append(Entry(data, key), now, threshold)|
    requires forall i :: 0 <= i < drop ==> Append(Entry(data, key), now, threshold)[i] < now - window
    requires drop < |Append(Entry(data, key), now, threshold)| ==> Append(Entry(data, key), now, threshold)[drop] >= now - window
    ensures
      var left := Append(Entry(data, key), now, threshold)[drop..];
      && Tracks(left, Entry(log, key) + [now], now, window, threshold)
      && |left| == Min(threshold, CountSince(Entry(log, key) + [now], now - window))
  {
    hide Append, CountSince;
    PruneIsExact(Entry(data, key), Entry(log, key), clock, window, threshold, now, drop);
  }

  /** `_BoundedEventWindow`.  The fields `order` and `data` are the ordered dictionary of deques.  The
      ghost fields are the unbounded log: `log[k]` holds every event of `k` since its last reset or
      eviction, `trace` every observed key, `steady` whether all observations so far used the window
      `window` and a clock that did not go back. */
  class BoundedEventWindow {
    const threshold: nat
    var order: seq<string>
    var data: Table
    ghost const window: real
    ghost var log: Table
    ghost var trace: seq<string>
    ghost var clock: real
    ghost var steady: bool

    ghost predicate Consistent()
      reads this
    {
      Keyed(trace, order, data, log) && Exact(data, log, steady, clock, window, threshold)
    }

    ghost predicate Valid()
      reads this
    {
      Consistent() && |order| <= MAX_TRACKED_KEYS
    }

    /** The events of a key since its last reset or eviction. */
    ghost function Logged(key: string): seq<real>
      reads this
    {
      Entry(log, key)
    }

    constructor (threshold: nat, ghost window: real)
      ensures Valid() && this.threshold == threshold && this.window == window
      ensures log == map[] && trace == [] && steady
    {
      this.threshold, this.window := threshold, window;
      order, data, log, trace, clock, steady := [], map[], map[], [], 0.0, true;
    }

    /** Evicts the key that was observed longest ago while there are too many; `newest` stays. */
    method Evict(newest: string)
      requires Consistent() && order != [] && order[|order| - 1] == newest
      modifies this
      ensures Valid() && newest in log && trace == old(trace) && clock == old(clock) && steady == old(steady)
      ensures forall k :: k in log ==> k in old(log) && log[k] == old(log)[k]
      ensures forall k :: k in old(log) && k !in log ==> |Others(trace, k)| >= MAX_TRACKED_KEYS
    {
      hide Others, Recency, Exact, Remove;
      while |order| > MAX_TRACKED_KEYS
        invariant Consistent() && order != [] && order[|order| - 1] == newest
        invariant trace == old(trace) && clock == old(clock) && steady == old(steady)
        invariant forall k :: k in log ==> k in old(log) && log[k] == old(log)[k]
        invariant forall k :: k in old(log) && k !in log ==> |Others(trace, k)| >= MAX_TRACKED_KEYS
      {
        EvictedIsStale(trace, order);
        var oldest := order[0];
        ForgetKey(trace, order, data, log, oldest);
        ForgetEvents(data, log, steady, clock, window, threshold, oldest);
        RemoveFirst(order);
        hide Keyed;
        data := data - {oldest};
        log := log - {oldest};
        order := order[1..];
      }
    }

    /** Appends the event and drops what the window has left behind. */
    method Record(key: string, now: real, windowSeconds: real) returns (count: nat)
      requires Consistent()
      modifies this
      ensures Consistent() && order != [] && order[|order| - 1] == key
      ensures trace == old(trace) + [key] && clock == now && log == old(log)[key := old(Logged(key)) + [now]]
      ensures steady == (old(steady) && windowSeconds == window && (old(data) == map[] || now >= old(clock)))
      ensures steady ==> count == Min(threshold, CountSince(log[key], now - windowSeconds))
      ensures count <= threshold
    {
      hide Recency, Append, CountSince, Remove, Tracks;
      var before := Entry(data, key);
      ghost var past := Logged(key);
      var events, drop := Prune(before, now, now - windowSeconds, threshold);
      count := |events|;
      ghost var still := steady && windowSeconds == window && (data == map[] || now >= clock);
      if still {
        ObserveIsExact(data, log, clock, window, threshold, key, now, drop);
      }
      TouchKey(trace, order, data, log, key, events, past + [now]);
      TouchEvents(data, log, steady, clock, window, threshold, key, events, past + [now], now, still);
      hide Keyed, Exact;
      data := data[key := events];
      log := log[key := past + [now]];
      clock, steady := now, still;
      order := Remove(order, key) + [key];
      trace := trace + [key];
    }

    /** Records one event.  While the clock does not go back and the window stays the same, the answer
        is the number of events of the key in the window since its last reset or eviction, up to the
        threshold; a key is evicted only after 200 other keys were observed since its last event. */
    method Observe(key: string, now: real, windowSeconds: real) returns (count: nat)
      requires Valid()
      modifies this
      ensures Valid() && key in log && log[key] == old(Logged(key)) + [now]
      ensures forall k :: k in log && k != key ==> k in old(log) && log[k] == old(log)[k]
      ensures forall k :: k in old(log) && k !in log ==> |Others(trace, k)| >= MAX_TRACKED_KEYS
      ensures trace == old(trace) + [key] && clock == now
      ensures steady == (old(steady) && windowSeconds == window && (old(data) == map[] || now >= old(clock)))
      ensures steady ==> count == Min(threshold, CountSince(log[key], now - windowSeconds))
      ensures count <= threshold
    {
      hide Keyed, Exact, Others, CountSince, Min;
      count := Record(key, now, windowSeconds);
      Evict(key);
    }

    /** Forgets the key and nothing else. */
    method Reset(key: string)
      requires Valid()
      modifies this
      ensures Valid() && log == old(log) - {key} && trace == old(trace) && clock == old(clock) && steady == old(steady)
    {
      hide Recency, Exact, Remove;
      ForgetKey(trace, order, data, log, key);
      ForgetEvents(data, log, steady, clock, window, threshold, key);
      RemoveKeeps(trace, order, key);
      order := Remove(order, key);
      data := data - {key};
      log := log - {key};
    }
  }
}
