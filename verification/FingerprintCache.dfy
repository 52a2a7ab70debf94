/** The workspace fingerprint cache as a step machine: any number of actors read, prime and write
    trees in any interleaving.

    `fingerprint` and `token` are what Git and the file system give for a tree.  An actor that does
    not hold the lock may see a tree while it changes, so the fingerprint it computes is arbitrary;
    it never stores one. */
module FingerprintCache {
  import opened Options

  type Tree = nat
  type ActorId = nat

  datatype Entry = Entry(fingerprint: int, token: int)

  /** `locked` says whether writers, persisting readers and primers hold the workspace lock. */
  datatype World = World(fingerprint: Tree -> int, token: Tree -> int, locked: bool)

  /** Where an actor stands inside `read_fingerprint` or `prime_fingerprint`. */
  datatype Pc =
    | Idle
    | Looked(workspace: string, persist: bool, existing: Option<Entry>)
    | Missed(workspace: string, persist: bool)
    | Cleared(workspace: string, persist: bool)
    | Computed(workspace: string, persist: bool, fingerprint: int)
    | Sampled(workspace: string, fingerprint: int, token: int)

  /** A cache hit: what it returned, and the tree when its validity token was sampled. */
  datatype Hit = Hit(result: int, tree: Tree)

  datatype State = State(
    trees: map<string, Tree>,
    holder: map<string, ActorId>,
    cache: map<string, Entry>,
    pcs: map<ActorId, Pc>,
    hits: seq<Hit>)

  datatype Event =
    | Acquire(actor: ActorId, workspace: string)
    | Release(actor: ActorId, workspace: string)
    | WriteTree(actor: ActorId, workspace: string, tree: Tree)
    | Read(actor: ActorId, workspace: string, persist: bool)
    | Prime(actor: ActorId, workspace: string)
    | Check(actor: ActorId)
    | Clear(actor: ActorId)
    | Compute(actor: ActorId, result: int)
    | Sample(actor: ActorId)
    | Store(actor: ActorId)
    | Invalidate(workspace: string)

  const Start := State(map[], map[], map[], map[], [])

  function TreeOf(s: State, workspace: string): Tree {
    if workspace in s.trees then s.trees[workspace] else 0
  }

  function PcOf(s: State, actor: ActorId): Pc {
    if actor in s.pcs then s.pcs[actor] else Idle
  }

  predicate Holds(s: State, actor: ActorId, workspace: string) {
    workspace in s.holder && s.holder[workspace] == actor
  }

  predicate Enabled(w: World, s: State, e: Event) {
    match e
    case Acquire(a, x) => x !in s.holder && PcOf(s, a).Idle?
    case Release(a, x) => Holds(s, a, x) && PcOf(s, a).Idle?
    case WriteTree(a, x, _) => PcOf(s, a).Idle? && (w.locked ==> Holds(s, a, x))
    case Read(a, x, persist) => PcOf(s, a).Idle? && (w.locked && persist ==> Holds(s, a, x))
    case Prime(a, x) => PcOf(s, a).Idle? && (w.locked ==> Holds(s, a, x))
    case Check(a) => PcOf(s, a).Looked?
    case Clear(a) => PcOf(s, a).Missed?
    case Compute(a, v) =>
      PcOf(s, a).Cleared? && (PcOf(s, a).persist ==> v == w.fingerprint(TreeOf(s, PcOf(s, a).workspace)))
    case Sample(a) => PcOf(s, a).Computed?
    case Store(a) => PcOf(s, a).Sampled?
    case Invalidate(_) => true
  }

  function Move(s: State, a: ActorId, pc: Pc): State {
    s.(pcs := s.pcs[a := pc])
  }

  function Lookup(s: State, workspace: string): Option<Entry> {
    if workspace in s.cache then Some(s.cache[workspace]) else None
  }

  function Do(w: World, s: State, e: Event): State
    requires Enabled(w, s, e)
  {
    match e
    case Acquire(a, x) => s.(holder := s.holder[x := a])
    case Release(a, x) => s.(holder := s.holder - {x})
    case WriteTree(_, x, t) => s.(trees := s.trees[x := t])
    case Read(a, x, persist) => Move(s, a, Looked(x, persist, Lookup(s, x)))
    case Prime(a, x) => Move(s, a, Cleared(x, true))
    case Check(a) =>
      var pc := PcOf(s, a);
      var tree := TreeOf(s, pc.workspace);
      if pc.existing.Some? && w.token(tree) == pc.existing.value.token then
        Move(s, a, Idle).(hits := s.hits + [Hit(pc.existing.value.fingerprint, tree)])
      else Move(s, a, Missed(pc.workspace, pc.persist))
    case Clear(a) =>
      var pc := PcOf(s, a);
      Move(s, a, Cleared(pc.workspace, pc.persist)).(cache := if pc.persist then s.cache - {pc.workspace} else s.cache)
    case Compute(a, v) => Move(s, a, Computed(PcOf(s, a).workspace, PcOf(s, a).persist, v))
    case Sample(a) =>
      var pc := PcOf(s, a);
      if pc.persist then Move(s, a, Sampled(pc.workspace, pc.fingerprint, w.token(TreeOf(s, pc.workspace)))) else Move(s, a, Idle)
    case Store(a) =>
      var pc := PcOf(s, a);
      Move(s, a, Idle).(cache := s.cache[pc.workspace := Entry(pc.fingerprint, pc.token)])
    case Invalidate(x) => s.(cache := s.cache - {x})
  }

  /** The events can happen in this order. */
  predicate Runs(w: World, s: State, events: seq<Event>)
    decreases |events|
  {
    events == [] || (Enabled(w, s, events[0]) && Runs(w, Do(w, s, events[0]), events[1..]))
  }

  function After(w: World, s: State, events: seq<Event>): State
    requires Runs(w, s, events)
    decreases |events|
  {
    if events == [] then s else After(w, Do(w, s, events[0]), events[1..])
  }

  // ----- the invariant -----

  /** The pair describes one tree. */
  ghost predicate OfOneTree(w: World, e: Entry) {
    exists t :: e == Entry(w.fingerprint(t), w.token(t))
  }

  ghost predicate PcGood(w: World, s: State, a: ActorId, pc: Pc) {
    match pc
    case Idle => true
    case Looked(x, persist, existing) => (persist ==> Holds(s, a, x)) && (existing.Some? ==> OfOneTree(w, existing.value))
    case Missed(x, persist) => persist ==> Holds(s, a, x)
    case Cleared(x, persist) => persist ==> Holds(s, a, x)
    case Computed(x, persist, v) => persist ==> Holds(s, a, x) && v == w.fingerprint(TreeOf(s, x))
    case Sampled(x, v, t) => Holds(s, a, x) && v == w.fingerprint(TreeOf(s, x)) && t == w.token(TreeOf(s, x))
  }

  ghost predicate Inv(w: World, s: State) {
    && (forall x :: x in s.cache ==> OfOneTree(w, s.cache[x]))
    && (forall a :: a in s.pcs ==> PcGood(w, s, a, s.pcs[a]))
  }

  /** Trees with the same token have the same fingerprint. */
  ghost predicate Separates(w: World) {
    forall t, u :: w.token(t) == w.token(u) ==> w.fingerprint(t) == w.fingerprint(u)
  }

  /** Every hit returned the fingerprint of the tree whose token it sampled. */
  ghost predicate HitsExact(w: World, s: State) {
    forall i :: 0 <= i < |s.hits| ==> s.hits[i].result == w.fingerprint(s.hits[i].tree)
  }

  lemma StepKeeps(w: World, s: State, e: Event)
    requires w.locked && Inv(w, s) && Enabled(w, s, e)
    ensures Inv(w, Do(w, s, e))
  {
    hide OfOneTree;
    match e
    case Acquire(_, _) =>
    case Release(_, _) =>
    case WriteTree(_, _, _) =>
    case Invalidate(_) =>
    case _ => MoveKeeps(w, s, e);
  }

  /** The steps inside a read leave the lock and the trees alone. */
  lemma MoveKeeps(w: World, s: State, e: Event)
    requires w.locked && Inv(w, s) && Enabled(w, s, e)
    requires !e.Acquire? && !e.Release? && !e.WriteTree? && !e.Invalidate?
    ensures Inv(w, Do(w, s, e))
  {
    hide OfOneTree;
    var s', a := Do(w, s, e), e.actor;
    if e.Store? {
      OneTree(w, TreeOf(s, PcOf(s, a).workspace));
    }
    OthersKeep(w, s, s', a);
  }

  lemma OthersKeep(w: World, s: State, s': State, a: ActorId)
    requires Inv(w, s) && s'.holder == s.holder && s'.trees == s.trees
    requires a in s'.pcs && s'.pcs == s.pcs[a := s'.pcs[a]] && PcGood(w, s', a, s'.pcs[a])
    requires forall x :: x in s'.cache ==> (x in s.cache && s'.cache[x] == s.cache[x]) || OfOneTree(w, s'.cache[x])
    ensures Inv(w, s')
  {
    hide OfOneTree;
    forall b | b in s'.pcs && b != a
      ensures PcGood(w, s', b, s'.pcs[b])
    {
      assert PcGood(w, s, b, s.pcs[b]) && s'.pcs[b] == s.pcs[b];
    }
  }

  lemma OneTree(w: World, t: Tree)
    ensures OfOneTree(w, Entry(w.fingerprint(t), w.token(t)))
  {
  }

  lemma HitIsExact(w: World, s: State, e: Event)
    requires Separates(w) && Inv(w, s) && Enabled(w, s, e) && HitsExact(w, s)
    ensures HitsExact(w, Do(w, s, e))
  {
    hide PcGood;
    if e.Check? && PcOf(s, e.actor).existing.Some? {
      LookedIsGood(w, s, e.actor);
      var entry := PcOf(s, e.actor).existing.value;
      var t :| entry == Entry(w.fingerprint(t), w.token(t));
    }
  }

  lemma LookedIsGood(w: World, s: State, a: ActorId)
    requires Inv(w, s) && PcOf(s, a).Looked? && PcOf(s, a).existing.Some?
    ensures OfOneTree(w, PcOf(s, a).existing.value)
  {
    hide OfOneTree;
    assert PcGood(w, s, a, s.pcs[a]);
  }

  lemma {:induction false} RunKeeps(w: World, s: State, events: seq<Event>)
    requires w.locked && Separates(w) && Inv(w, s) && HitsExact(w, s) && Runs(w, s, events)
    ensures HitsExact(w, After(w, s, events))
    decreases |events|
  {
    hide Inv, HitsExact, Separates, Do, Enabled;
    if events != [] {
      StepKeeps(w, s, events[0]);
      HitIsExact(w, s, events[0]);
      RunKeeps(w, Do(w, s, events[0]), events[1..]);
    }
  }

  // ----- both conditions are needed -----

  ghost predicate Reach(w: World, s: State) {
    exists events :: Runs(w, Start, events) && After(w, Start, events) == s
  }

  lemma {:induction false} RunsSnoc(w: World, s: State, events: seq<Event>, e: Event)
    requires Runs(w, s, events) && Enabled(w, After(w, s, events), e)
    ensures Runs(w, s, events + [e]) && After(w, s, events + [e]) == Do(w, After(w, s, events), e)
    decreases |events|
  {
    hide Do, Enabled;
    if events == [] {
      assert ([] + [e])[1..] == [];
    } else {
      assert (events + [e])[1..] == events[1..] + [e];
      RunsSnoc(w, Do(w, s, events[0]), events[1..], e);
    }
  }

  lemma ReachStep(w: World, s: State, e: Event)
    requires Reach(w, s) && Enabled(w, s, e)
    ensures Reach(w, Do(w, s, e))
  {
    hide Do, Enabled;
    var events :| Runs(w, Start, events) && After(w, Start, events) == s;
    RunsSnoc(w, Start, events, e);
  }

  /** One workspace "x" that actor 0 has locked. */
  function Stage(t: Tree, cache: map<string, Entry>, pc: Pc): State {
    State(map["x" := t], map["x" := 0], cache, map[0 := pc], [])
  }

  /** Actor 0 has computed the fingerprint of `t` and not yet sampled the token. */
  lemma ReachComputed(w: World, t: Tree)
    ensures Reach(w, Stage(t, map[], Computed("x", true, w.fingerprint(t))))
  {
    assert Reach(w, Start) by {
      assert Runs(w, Start, []) && After(w, Start, []) == Start;
    }
    hide Reach;
    ReachStep(w, Start, Acquire(0, "x"));
    var s1 := Start.(holder := map["x" := 0]);
    ReachStep(w, s1, WriteTree(0, "x", t));
    var s2 := s1.(trees := map["x" := t]);
    ReachStep(w, s2, Prime(0, "x"));
    ReachStep(w, Stage(t, map[], Cleared("x", true)), Compute(0, w.fingerprint(t)));
  }

  /** From there actor 0 stores its fingerprint with the token of the present tree. */
  lemma ReachStored(w: World, t: Tree, v: int)
    requires Reach(w, Stage(t, map[], Computed("x", true, v)))
    ensures Reach(w, Stage(t, map["x" := Entry(v, w.token(t))], Idle))
  {
    hide Reach;
    var s1, s2 := Stage(t, map[], Computed("x", true, v)), Stage(t, map[], Sampled("x", v, w.token(t)));
    ReachStep(w, s1, Sample(0));
    assert Do(w, s1, Sample(0)) == s2;
    ReachStep(w, s2, Store(0));
    assert Do(w, s2, Store(0)) == Stage(t, map["x" := Entry(v, w.token(t))], Idle);
  }

  /** An entry whose token belongs to the present tree is returned, whatever its fingerprint is. */
  lemma ReachHit(w: World, t: Tree, e: Entry)
    requires Reach(w, Stage(t, map["x" := e], Idle)) && e.token == w.token(t)
    ensures exists s :: Reach(w, s) && s.hits == [Hit(e.fingerprint, t)]
  {
    hide Reach;
    var s := Stage(t, map["x" := e], Idle);
    ReachStep(w, s, Read(0, "x", false));
    var s1 := Stage(t, map["x" := e], Looked("x", false, Some(e)));
    assert Do(w, s, Read(0, "x", false)) == s1;
    ReachStep(w, s1, Check(0));
    assert Do(w, s1, Check(0)).hits == [Hit(e.fingerprint, t)];
  }

  lemma WrongHit(w: World, t: Tree, e: Entry)
    requires Reach(w, Stage(t, map["x" := e], Idle)) && e.token == w.token(t) && e.fingerprint != w.fingerprint(t)
    ensures exists events :: Runs(w, Start, events) && !HitsExact(w, After(w, Start, events))
  {
    hide Stage, Runs, After;
    ReachHit(w, t, e);
    var s :| Reach(w, s) && s.hits == [Hit(e.fingerprint, t)];
    assert !HitsExact(w, s) by {
      assert s.hits[0].result != w.fingerprint(s.hits[0].tree);
    }
  }

  /** With the lock held as promised, every hit of every run is exact if and only if the validity
      token separates trees with different fingerprints. */
  lemma HitsExactIffSeparates(w: World)
    requires w.locked
    ensures Separates(w) <==> forall events :: Runs(w, Start, events) ==> HitsExact(w, After(w, Start, events))
  {
    if Separates(w) {
      forall events | Runs(w, Start, events)
        ensures HitsExact(w, After(w, Start, events))
      {
        RunKeeps(w, Start, events);
      }
    } else {
      hide Reach, HitsExact, Runs, After;
      var t, u :| w.token(t) == w.token(u) && w.fingerprint(t) != w.fingerprint(u);
      var e := Entry(w.fingerprint(t), w.token(t));
      ReachComputed(w, t);
      ReachStored(w, t, w.fingerprint(t));
      ReachStep(w, Stage(t, map["x" := e], Idle), WriteTree(0, "x", u));
      assert Do(w, Stage(t, map["x" := e], Idle), WriteTree(0, "x", u)) == Stage(u, map["x" := e], Idle);
      WrongHit(w, u, e);
    }
  }

  /** Without the lock, a tree written between computing the fingerprint and sampling the token leaves
      an entry that describes no tree, and a later hit returns it. */
  lemma LockIsNeeded(w: World, t: Tree, u: Tree)
    requires !w.locked && w.fingerprint(t) != w.fingerprint(u)
    ensures exists events :: Runs(w, Start, events) && !HitsExact(w, After(w, Start, events))
  {
    hide Reach, HitsExact, Runs, After;
    var pc := Computed("x", true, w.fingerprint(t));
    ReachComputed(w, t);
    ReachStep(w, Stage(t, map[], pc), WriteTree(1, "x", u));
    assert Do(w, Stage(t, map[], pc), WriteTree(1, "x", u)) == Stage(u, map[], pc);
    ReachStored(w, u, w.fingerprint(t));
    WrongHit(w, u, Entry(w.fingerprint(t), w.token(u)));
  }

  // ----- one call as a run of the machine -----

  /** The steps of a read or a prime from the point where the entry is out of the way. */
  function StoreEvents(a: ActorId, persist: bool, result: int): seq<Event> {
    [Compute(a, result), Sample(a)] + if persist then [Store(a)] else []
  }

  function ReadEvents(a: ActorId, x: string, persist: bool, hit: bool, result: int): seq<Event> {
    [Read(a, x, persist), Check(a)] + if hit then [] else [Clear(a)] + StoreEvents(a, persist, result)
  }

  lemma MoveTwice(s: State, a: ActorId, one: Pc, two: Pc)
    ensures Move(Move(s, a, one), a, two) == Move(s, a, two) && PcOf(Move(s, a, one), a) == one
  {
    assert s.pcs[a := one][a := two] == s.pcs[a := two];
  }

  lemma RunOne(w: World, s: State, e: Event, s': State, rest: seq<Event>)
    requires Enabled(w, s, e) && Do(w, s, e) == s' && Runs(w, s', rest)
    ensures Runs(w, s, [e] + rest) && After(w, s, [e] + rest) == After(w, s', rest)
  {
    hide Do, Enabled;
    assert ([e] + rest)[1..] == rest;
  }

  lemma RunNone(w: World, s: State)
    ensures Runs(w, s, []) && After(w, s, []) == s
  {
  }

  /** The state after the entry of `x` was made the pair of its tree, if at all. */
  function Stored(w: World, s: State, a: ActorId, x: string, persist: bool): State {
    var tree := TreeOf(s, x);
    Move(s, a, Idle).(cache := if persist then s.cache[x := Entry(w.fingerprint(tree), w.token(tree))] else s.cache)
  }

  lemma StoreIsRun(w: World, s: State, a: ActorId, x: string, persist: bool)
    requires PcOf(s, a) == Cleared(x, persist)
    ensures
      var events := StoreEvents(a, persist, w.fingerprint(TreeOf(s, x)));
      Runs(w, s, events) && After(w, s, events) == Stored(w, s, a, x, persist)
  {
    var tree := TreeOf(s, x);
    var v, t := w.fingerprint(tree), w.token(tree);
    var s1, s2 := Move(s, a, Computed(x, persist, v)), Move(s, a, if persist then Sampled(x, v, t) else Idle);
    MoveTwice(s, a, Computed(x, persist, v), s2.pcs[a]);
    MoveTwice(s, a, Sampled(x, v, t), Idle);
    RunNone(w, Stored(w, s, a, x, persist));
    hide Runs, After;
    if persist {
      RunOne(w, s2, Store(a), Stored(w, s, a, x, persist), []);
      assert [Store(a)] + [] == [Store(a)];
    }
    RunOne(w, s1, Sample(a), s2, if persist then [Store(a)] else []);
    RunOne(w, s, Compute(a, v), s1, [Sample(a)] + if persist then [Store(a)] else []);
    hide Do, Enabled, Move;
    assert StoreEvents(a, persist, v) == [Compute(a, v)] + ([Sample(a)] + if persist then [Store(a)] else []);
  }

  /** The state after the entry of `x` was dropped by a caller that persists. */
  function Dropped(s: State, a: ActorId, x: string, persist: bool): State {
    Move(s, a, Cleared(x, persist)).(cache := if persist then s.cache - {x} else s.cache)
  }

  /** `read_fingerprint` without interference, from any state: a hit when the entry's token is that of the
      tree, and nothing is stored; otherwise a caller that persists first drops the entry and in the end
      leaves the pair of the tree. */
  lemma ReadIsRun(w: World, s: State, a: ActorId, x: string, persist: bool)
    requires PcOf(s, a).Idle? && (w.locked && persist ==> Holds(s, a, x))
    ensures
      var tree := TreeOf(s, x);
      var hit := x in s.cache && s.cache[x].token == w.token(tree);
      var events := ReadEvents(a, x, persist, hit, w.fingerprint(tree));
      && Runs(w, s, events)
      && After(w, s, events) == s.(
           pcs := s.pcs[a := Idle],
           hits := s.hits + if hit then [Hit(s.cache[x].fingerprint, tree)] else [],
           cache := if hit || !persist then s.cache else s.cache[x := Entry(w.fingerprint(tree), w.token(tree))])
  {
    var tree := TreeOf(s, x);
    var hit := x in s.cache && s.cache[x].token == w.token(tree);
    var s1 := Move(s, a, Looked(x, persist, Lookup(s, x)));
    hide Runs, After;
    if hit {
      HitIsRun(w, s, a, x, persist, s1);
      assert [Read(a, x, persist), Check(a)] + [] == [Read(a, x, persist), Check(a)];
    } else {
      MissIsRun(w, s, a, x, persist, s1);
      assert s.hits + [] == s.hits;
    }
  }

  lemma HitIsRun(w: World, s: State, a: ActorId, x: string, persist: bool, s1: State)
    requires PcOf(s, a).Idle? && (w.locked && persist ==> Holds(s, a, x)) && s1 == Move(s, a, Looked(x, persist, Lookup(s, x)))
    requires x in s.cache && s.cache[x].token == w.token(TreeOf(s, x))
    ensures
      var events, end := [Read(a, x, persist), Check(a)], Move(s, a, Idle).(hits := s.hits + [Hit(s.cache[x].fingerprint, TreeOf(s, x))]);
      Runs(w, s, events) && After(w, s, events) == end
  {
    var end := Move(s, a, Idle).(hits := s.hits + [Hit(s.cache[x].fingerprint, TreeOf(s, x))]);
    MoveTwice(s, a, Looked(x, persist, Lookup(s, x)), Idle);
    RunNone(w, end);
    hide Runs, After;
    RunOne(w, s1, Check(a), end, []);
    RunOne(w, s, Read(a, x, persist), s1, [Check(a)]);
    assert [Read(a, x, persist), Check(a)] == [Read(a, x, persist)] + [Check(a)] && [Check(a)] + [] == [Check(a)];
  }

  lemma MissIsRun(w: World, s: State, a: ActorId, x: string, persist: bool, s1: State)
    requires PcOf(s, a).Idle? && (w.locked && persist ==> Holds(s, a, x)) && s1 == Move(s, a, Looked(x, persist, Lookup(s, x)))
    requires x !in s.cache || s.cache[x].token != w.token(TreeOf(s, x))
    ensures
      var events := ReadEvents(a, x, persist, false, w.fingerprint(TreeOf(s, x)));
      Runs(w, s, events) && After(w, s, events) == Stored(w, s, a, x, persist)
  {
    var s2, s3 := Move(s, a, Missed(x, persist)), Dropped(s, a, x, persist);
    var rest := StoreEvents(a, persist, w.fingerprint(TreeOf(s, x)));
    MoveTwice(s, a, Looked(x, persist, Lookup(s, x)), Missed(x, persist));
    MoveTwice(s, a, Missed(x, persist), Cleared(x, persist));
    MoveTwice(s, a, Cleared(x, persist), Idle);
    DroppedFirst(w, s, a, x, persist);
    StoreIsRun(w, s3, a, x, persist);
    hide Runs, After, StoreEvents, Stored;
    RunOne(w, s2, Clear(a), s3, rest);
    RunOne(w, s1, Check(a), s2, [Clear(a)] + rest);
    RunOne(w, s, Read(a, x, persist), s1, [Check(a)] + ([Clear(a)] + rest));
    hide Do, Enabled, Move, Dropped;
    assert [Read(a, x, persist), Check(a)] + ([Clear(a)] + rest) == [Read(a, x, persist)] + ([Check(a)] + ([Clear(a)] + rest));
  }

  /** Dropping the entry first makes no difference to what is stored. */
  lemma DroppedFirst(w: World, s: State, a: ActorId, x: string, persist: bool)
    ensures Stored(w, Dropped(s, a, x, persist), a, x, persist) == Stored(w, s, a, x, persist)
  {
    MoveTwice(s, a, Cleared(x, persist), Idle);
    var e := Entry(w.fingerprint(TreeOf(s, x)), w.token(TreeOf(s, x)));
    assert (s.cache - {x})[x := e] == s.cache[x := e];
  }

  /** `prime_fingerprint` without interference: it looks at no entry and leaves the pair of the tree. */
  lemma PrimeIsRun(w: World, s: State, a: ActorId, x: string)
    requires PcOf(s, a).Idle? && (w.locked ==> Holds(s, a, x))
    ensures
      var tree := TreeOf(s, x);
      var events := [Prime(a, x)] + StoreEvents(a, true, w.fingerprint(tree));
      && Runs(w, s, events)
      && After(w, s, events) == s.(pcs := s.pcs[a := Idle], cache := s.cache[x := Entry(w.fingerprint(tree), w.token(tree))])
  {
    var s1 := Move(s, a, Cleared(x, true));
    StoreIsRun(w, s1, a, x, true);
    MoveTwice(s, a, Cleared(x, true), Idle);
    hide Runs, After, StoreEvents;
    RunOne(w, s, Prime(a, x), s1, StoreEvents(a, true, w.fingerprint(TreeOf(s, x))));
  }

  // ----- one call under the lock -----

  /** `FingerprintCache`: the dictionary behind the machine's `cache`. */
  class Cache {
    var data: map<string, Entry>

    constructor ()
      ensures data == map[]
    {
      data := map[];
    }

    method Set(workspace: string, entry: Entry)
      modifies this
      ensures data == old(data)[workspace := entry]
    {
      data := data[workspace := entry];
    }

    method Invalidate(workspace: string)
      modifies this
      ensures data == old(data) - {workspace}
    {
      data := data - {workspace};
    }
  }

  ghost predicate Sound(w: World, data: map<string, Entry>) {
    forall x :: x in data ==> OfOneTree(w, data[x])
  }

  /** `read_fingerprint` while the tree stays as it is: the answer is the fingerprint of the tree,
      cached or not, and what a persisting caller leaves behind describes that tree. */
  method ReadFingerprint(w: World, cache: Cache?, workspace: string, tree: Tree, persist: bool) returns (result: int, hit: bool)
    requires Separates(w) && (cache != null ==> Sound(w, cache.data))
    modifies cache
    ensures result == w.fingerprint(tree)
    ensures hit <==> cache != null && workspace in old(cache.data) && old(cache.data)[workspace].token == w.token(tree)
    ensures cache != null ==> Sound(w, cache.data)
    ensures cache != null ==>
      cache.data == if hit || !persist then old(cache.data) else old(cache.data)[workspace := Entry(w.fingerprint(tree), w.token(tree))]
  {
    OneTree(w, tree);
    if cache != null && workspace in cache.data && w.token(tree) == cache.data[workspace].token {
      ghost var t :| cache.data[workspace] == Entry(w.fingerprint(t), w.token(t));
      return cache.data[workspace].fingerprint, true;
    }
    hide OfOneTree;
    if cache != null && persist {
      cache.Invalidate(workspace);
    }
    result, hit := w.fingerprint(tree), false;
    if cache != null && persist {
      cache.Set(workspace, Entry(result, w.token(tree)));
      assert cache.data == old(cache.data)[workspace := Entry(result, w.token(tree))];
    }
  }

  /** `prime_fingerprint`: always computes, always stores. */
  method PrimeFingerprint(w: World, cache: Cache?, workspace: string, tree: Tree) returns (result: int)
    requires cache != null ==> Sound(w, cache.data)
    modifies cache
    ensures result == w.fingerprint(tree)
    ensures cache != null ==>
      Sound(w, cache.data) && cache.data == old(cache.data)[workspace := Entry(w.fingerprint(tree), w.token(tree))]
  {
    OneTree(w, tree);
    hide OfOneTree;
    result := w.fingerprint(tree);
    if cache != null {
      cache.Set(workspace, Entry(result, w.token(tree)));
    }
  }
}
