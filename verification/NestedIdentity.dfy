/** Nested identities: discovered candidates are grouped, every group is routed, and only then are
    leases acquired and bound.

    Target resolution, routing and the lease provider are foreign: `World` holds them as functions
    whose failure is `None`.  Timestamps are numbers. */
module NestedIdentity {
  import opened Options
  import opened Ordering

  datatype Access = Write | ReadOnly

  datatype Candidate = Candidate(kind: string, digest: string, access: Access, depth: nat, location: string)

  datatype Key = Key(kind: string, digest: string)

  datatype Group = Group(candidate: Candidate, locations: seq<string>)

  // ----- grouping -----

  function KeyOf(c: Candidate): Key {
    Key(c.kind, c.digest)
  }

  function Members(cs: seq<Candidate>, key: Key): seq<Candidate> {
    if cs == [] then []
    else Members(cs[..|cs| - 1], key) + if KeyOf(cs[|cs| - 1]) == key then [cs[|cs| - 1]] else []
  }

  lemma {:induction false} MembersIs(cs: seq<Candidate>, key: Key, c: Candidate)
    ensures c in Members(cs, key) <==> c in cs && KeyOf(c) == key
  {
    if cs != [] {
      MembersIs(cs[..|cs| - 1], key, c);
      assert cs == cs[..|cs| - 1] + [cs[|cs| - 1]];
    }
  }

  function Rank(c: Candidate): nat {
    if c.access == Write then 0 else 1
  }

  /** The order in which a representative is preferred: write access, then depth, then location. */
  predicate Preferred(a: Candidate, b: Candidate) {
    Rank(a) < Rank(b) || (Rank(a) == Rank(b) && (a.depth < b.depth || (a.depth == b.depth && Below(a.location, b.location))))
  }

  lemma PreferredOrder(a: Candidate, b: Candidate, c: Candidate)
    ensures Preferred(a, b) || Preferred(b, a)
    ensures Preferred(a, b) && Preferred(b, c) ==> Preferred(a, c)
  {
    BelowTotal(a.location, b.location);
    if Preferred(a, b) && Preferred(b, c) && a.depth == b.depth == c.depth && Rank(a) == Rank(b) == Rank(c) {
      BelowTransitive(a.location, b.location, c.location);
    }
  }

  /** `min` over the members: the first of the most preferred ones. */
  function Representative(members: seq<Candidate>): (r: Candidate)
    requires members != []
    ensures r in members
  {
    if |members| == 1 then members[0]
    else
      var best := Representative(members[..|members| - 1]);
      if Preferred(best, members[|members| - 1]) then best else members[|members| - 1]
  }

  lemma {:induction false} RepresentativeIsBest(members: seq<Candidate>)
    requires members != []
    ensures forall c :: c in members ==> Preferred(Representative(members), c)
  {
    hide Preferred;
    var last := members[|members| - 1];
    PreferredOrder(last, last, last);
    if |members| > 1 {
      var init := members[..|members| - 1];
      RepresentativeIsBest(init);
      var best := Representative(init);
      assert members == init + [last];
      forall c | c in members
        ensures Preferred(Representative(members), c)
      {
        PreferredOrder(best, last, c);
        PreferredOrder(last, best, c);
      }
    }
  }

  function Locations(members: seq<Candidate>): seq<string> {
    Once(Sort(seq(|members|, i requires 0 <= i < |members| => members[i].location)))
  }

  // ----- the keys in order -----

  predicate KeyBelow(a: Key, b: Key) {
    if a.kind == b.kind then Below(a.digest, b.digest) else Below(a.kind, b.kind)
  }

  lemma KeyBelowOrder(a: Key, b: Key, c: Key)
    ensures KeyBelow(a, b) || KeyBelow(b, a)
    ensures KeyBelow(a, b) && KeyBelow(b, a) ==> a == b
    ensures KeyBelow(a, b) && KeyBelow(b, c) ==> KeyBelow(a, c)
  {
    BelowTotal(a.digest, b.digest);
    BelowTotal(a.kind, b.kind);
    BelowTotal(b.kind, c.kind);
    if KeyBelow(a, b) && KeyBelow(b, c) {
      if a.kind == b.kind == c.kind {
        BelowTransitive(a.digest, b.digest, c.digest);
      } else if a.kind != b.kind && b.kind != c.kind {
        BelowTransitive(a.kind, b.kind, c.kind);
      }
    }
  }

  function InsertKey(k: Key, keys: seq<Key>): seq<Key> {
    if keys == [] then [k]
    else if k == keys[0] then keys
    else if KeyBelow(k, keys[0]) then [k] + keys
    else [keys[0]] + InsertKey(k, keys[1..])
  }

  /** `sorted(grouped)`. */
  function SortedKeys(cs: seq<Candidate>): seq<Key> {
    if cs == [] then [] else InsertKey(KeyOf(cs[|cs| - 1]), SortedKeys(cs[..|cs| - 1]))
  }

  /** Each key once, in order. */
  ghost predicate Ordered(keys: seq<Key>) {
    keys == [] || (Ordered(keys[1..]) && forall k :: k in keys[1..] ==> k != keys[0] && KeyBelow(keys[0], k))
  }

  lemma {:induction false} InsertKeyKeeps(k: Key, keys: seq<Key>)
    requires Ordered(keys)
    ensures Ordered(InsertKey(k, keys)) && forall x :: x in InsertKey(k, keys) <==> x == k || x in keys
  {
    hide KeyBelow;
    if keys != [] && k != keys[0] {
      assert keys == [keys[0]] + keys[1..];
      KeyBelowOrder(k, keys[0], k);
      if KeyBelow(k, keys[0]) {
        assert ([k] + keys)[1..] == keys;
        forall x | x in keys
          ensures x != k && KeyBelow(k, x)
        {
          KeyBelowOrder(k, keys[0], x);
          KeyBelowOrder(k, x, keys[0]);
        }
      } else {
        InsertKeyKeeps(k, keys[1..]);
        assert InsertKey(k, keys)[1..] == InsertKey(k, keys[1..]);
      }
    } else if keys == [] {
      assert [k][1..] == [];
    }
  }

  lemma {:induction false} SortedKeysIs(cs: seq<Candidate>)
    ensures Ordered(SortedKeys(cs)) && forall k :: k in SortedKeys(cs) <==> Members(cs, k) != []
  {
    if cs != [] {
      SortedKeysIs(cs[..|cs| - 1]);
      InsertKeyKeeps(KeyOf(cs[|cs| - 1]), SortedKeys(cs[..|cs| - 1]));
    }
  }

  /** The group of a key: a member that no other member is preferred to, so a writer whenever there is
      one, and the locations of all members, each once and in order. */
  ghost predicate IsGroup(cs: seq<Candidate>, key: Key, g: Group) {
    && g.candidate in cs && KeyOf(g.candidate) == key
    && (forall c :: c in cs && KeyOf(c) == key ==> Preferred(g.candidate, c) && (c.access == Write ==> g.candidate.access == Write))
    && (forall x :: x in g.locations <==> exists c :: c in cs && KeyOf(c) == key && c.location == x)
    && Ascending(g.locations) && (forall i, j :: 0 <= i < j < |g.locations| ==> g.locations[i] != g.locations[j])
  }

  lemma GroupIsGroup(cs: seq<Candidate>, key: Key)
    requires Members(cs, key) != []
    ensures IsGroup(cs, key, Group(Representative(Members(cs, key)), Locations(Members(cs, key))))
  {
    var members := Members(cs, key);
    RepresentativeIsBest(members);
    LocationsAre(members);
    hide Representative, Locations, Ascending;
    forall c
      ensures c in members <==> c in cs && KeyOf(c) == key
    {
      MembersIs(cs, key, c);
    }
    hide Members;
  }

  lemma LocationsAre(members: seq<Candidate>)
    ensures forall x :: x in Locations(members) <==> exists c :: c in members && c.location == x
    ensures Ascending(Locations(members))
    ensures forall i, j :: 0 <= i < j < |Locations(members)| ==> Locations(members)[i] != Locations(members)[j]
  {
    var all := seq(|members|, i requires 0 <= i < |members| => members[i].location);
    SortIsSorted(all);
    OnceKeeps(Sort(all));
    forall x
      ensures x in Locations(members) <==> exists c :: c in members && c.location == x
    {
      assert x in Sort(all) <==> x in multiset(Sort(all));
      assert x in all <==> x in multiset(all);
      if c :| c in members && c.location == x {
        var i :| 0 <= i < |members| && members[i] == c;
        assert all[i] == x;
      }
    }
  }

  /** One group per key, keys in order. */
  ghost predicate Grouped(cs: seq<Candidate>, groups: seq<Group>) {
    var keys := SortedKeys(cs);
    && Ordered(keys) && |groups| == |keys|
    && (forall k :: k in keys <==> exists c :: c in cs && KeyOf(c) == k)
    && (forall i :: 0 <= i < |keys| ==> IsGroup(cs, keys[i], groups[i]))
  }

  /** `_candidate_groups`: the loop that fills the dictionary and the loop over its sorted keys. */
  method CandidateGroups(cs: seq<Candidate>) returns (groups: seq<Group>)
    ensures Grouped(cs, groups)
  {
    hide Representative, Locations, IsGroup, SortedKeys, Ordered;
    var grouped: map<Key, seq<Candidate>> := map[];
    var i := 0;
    while i < |cs|
      invariant 0 <= i <= |cs|
      invariant forall k :: k in grouped <==> Members(cs[..i], k) != []
      invariant forall k :: k in grouped ==> grouped[k] == Members(cs[..i], k)
    {
      var key := KeyOf(cs[i]);
      assert cs[..i + 1][..i] == cs[..i];
      grouped := grouped[key := (if key in grouped then grouped[key] else []) + [cs[i]]];
      i := i + 1;
    }
    assert cs[..i] == cs;
    var keys := SortedKeys(cs);
    SortedKeysIs(cs);
    groups := [];
    i := 0;
    while i < |keys|
      invariant 0 <= i <= |keys| && |groups| == i
      invariant forall k :: 0 <= k < i ==> IsGroup(cs, keys[k], groups[k])
    {
      var members := grouped[keys[i]];
      GroupIsGroup(cs, keys[i]);
      groups := groups + [Group(Representative(members), Locations(members))];
      i := i + 1;
    }
    forall k
      ensures k in keys <==> exists c :: c in cs && KeyOf(c) == k
    {
      KeyHasMember(cs, k);
    }
  }

  lemma KeyHasMember(cs: seq<Candidate>, k: Key)
    ensures Members(cs, k) != [] <==> exists c :: c in cs && KeyOf(c) == k
  {
    if Members(cs, k) != [] {
      var c := Members(cs, k)[0];
      MembersIs(cs, k, c);
    }
    if c :| c in cs && KeyOf(c) == k {
      MembersIs(cs, k, c);
    }
  }

  // ----- routing and leases -----

  datatype Target = Target(targetKind: string, targetId: string, kind: string, access: Access, digest: string, provider: string, repository: Option<string>)

  datatype Status = Bound | AnonymousRead | Denied

  datatype Decision = Decision(status: Status, profile: Option<string>, capabilities: seq<string>)

  datatype LeaseState = Active | Expired | Revoked | Released

  /** `endpoint` is the endpoint digest in the provider's metadata, when there is one. */
  datatype Lease = Lease(
    leaseId: string, targetKind: string, targetId: string, provider: string, profile: string, repository: Option<string>,
    config: string, policy: string, state: LeaseState, issued: int, expires: int, endpoint: Option<string>)

  datatype CapabilityRequest = CapabilityRequest(leaseId: string, capabilities: seq<string>)

  datatype Receipt = Receipt(targetKind: string, targetId: string, digest: string, status: Status, leaseId: Option<string>, capabilities: seq<string>, locations: seq<string>)

  datatype Request = Request(
    primaryLeases: seq<Lease>, primaryRequests: seq<CapabilityRequest>, config: string, policy: string,
    approvals: map<string, string>, intents: map<string, string>)

  datatype World = World(
    resolve: Candidate -> Option<Target>,
    route: (Target, Option<string>, Option<string>) -> Decision,
    provider: bool,
    acquire: (Target, Decision) -> Option<Lease>,
    now: int)

  datatype Failure = ScopeMismatch | PolicyViolation | CredentialRevoked | CredentialExpired | LeaseUnavailable

  datatype Resolved = Resolved(target: Target, decision: Decision, locations: seq<string>)

  function Evidence(table: map<string, string>, id: string): Option<string> {
    if id in table then Some(table[id]) else None
  }

  /** The table's entry for this target, if it has one. */
  predicate IsEvidence(table: map<string, string>, id: string, evidence: Option<string>) {
    (evidence.Some? <==> id in table) && (evidence.Some? ==> table[id] == evidence.value)
  }

  lemma EvidenceIs(table: map<string, string>, id: string)
    ensures IsEvidence(table, id, Evidence(table, id))
  {
  }

  /** What resolving and routing one group gives. */
  ghost predicate IsRouted(w: World, r: Request, g: Group, d: Resolved) {
    && w.resolve(g.candidate) == Some(d.target)
    && d.target.kind == g.candidate.kind && d.target.access == g.candidate.access && d.target.digest == g.candidate.digest
    && (exists approval, intent ::
          && IsEvidence(r.approvals, d.target.targetId, approval) && IsEvidence(r.intents, d.target.targetId, intent)
          && d.decision == w.route(d.target, approval, intent))
    && d.locations == g.locations
  }

  /** Every group resolved to a target of its own and was routed. */
  ghost predicate Routed(w: World, r: Request, groups: seq<Group>, ds: seq<Resolved>) {
    && |ds| == |groups|
    && (forall i :: 0 <= i < |ds| ==> IsRouted(w, r, groups[i], ds[i]))
    && (forall i, j :: 0 <= i < j < |ds| ==> ds[i].target.targetId != ds[j].target.targetId)
  }

  /** Nothing was denied and every approval or intent names a discovered target. */
  ghost predicate Admitted(r: Request, ds: seq<Resolved>) {
    && (forall i :: 0 <= i < |ds| ==> ds[i].decision.status != Denied)
    && (forall id :: id in r.approvals || id in r.intents ==> exists i :: 0 <= i < |ds| && ds[i].target.targetId == id)
  }

  /** The group resolves to a target that matches its candidate. */
  predicate Resolves(w: World, g: Group) {
    var t := w.resolve(g.candidate);
    t.Some? && t.value.kind == g.candidate.kind && t.value.access == g.candidate.access && t.value.digest == g.candidate.digest
  }

  /** Every group does, and no two to the same target. */
  ghost predicate Routable(w: World, groups: seq<Group>) {
    && (forall i :: 0 <= i < |groups| ==> Resolves(w, groups[i]))
    && (forall i, j :: 0 <= i < j < |groups| && Resolves(w, groups[i]) && Resolves(w, groups[j]) ==>
          w.resolve(groups[i].candidate).value.targetId != w.resolve(groups[j].candidate).value.targetId)
  }

  /** The first loop of `prepare`: it succeeds exactly on routable groups. */
  method RouteGroups(w: World, r: Request, groups: seq<Group>) returns (ds: seq<Resolved>, failure: Option<Failure>)
    ensures failure == if Routable(w, groups) then None else Some(ScopeMismatch)
    ensures failure.None? ==> Routed(w, r, groups, ds)
  {
    hide Evidence, IsEvidence;
    ds := [];
    var ids: set<string> := {};
    var i := 0;
    while i < |groups|
      invariant 0 <= i <= |groups| && Routed(w, r, groups[..i], ds)
      invariant forall id :: id in ids <==> exists k :: 0 <= k < |ds| && ds[k].target.targetId == id
      invariant forall k :: 0 <= k < i ==> Resolves(w, groups[k]) && w.resolve(groups[k].candidate).value == ds[k].target
    {
      var c := groups[i].candidate;
      if !Resolves(w, groups[i]) {
        return ds, Some(ScopeMismatch);
      }
      var target := w.resolve(c).value;
      if target.targetId in ids {
        return ds, Some(ScopeMismatch);
      }
      var decision := w.route(target, Evidence(r.approvals, target.targetId), Evidence(r.intents, target.targetId));
      EvidenceIs(r.approvals, target.targetId);
      EvidenceIs(r.intents, target.targetId);
      assert IsRouted(w, r, groups[i], Resolved(target, decision, groups[i].locations));
      ids := ids + {target.targetId};
      ds := ds + [Resolved(target, decision, groups[i].locations)];
      i := i + 1;
    }
    assert groups[..i] == groups;
    failure := None;
  }

  /** The checks between routing and the first lease. */
  method Admit(r: Request, ds: seq<Resolved>) returns (admitted: bool)
    ensures admitted <==> Admitted(r, ds)
  {
    var ids := set i | 0 <= i < |ds| :: ds[i].target.targetId;
    var unknown := (r.approvals.Keys + r.intents.Keys) - ids;
    if unknown != {} {
      var id :| id in unknown;
      assert !exists i :: 0 <= i < |ds| && ds[i].target.targetId == id;
      return false;
    }
    forall id | id in r.approvals || id in r.intents
      ensures exists i :: 0 <= i < |ds| && ds[i].target.targetId == id
    {
      assert id !in unknown;
    }
    var i := 0;
    while i < |ds|
      invariant 0 <= i <= |ds| && forall k :: 0 <= k < i ==> ds[k].decision.status != Denied
    {
      if ds[i].decision.status == Denied {
        return false;
      }
      i := i + 1;
    }
    admitted := true;
  }

  /** A lease that is active now and scoped to exactly this target and profile. */
  predicate Scoped(w: World, r: Request, d: Resolved, l: Lease) {
    && l.state == Active && l.issued <= w.now < l.expires
    && l.targetKind == d.target.targetKind && l.targetId == d.target.targetId && l.provider == d.target.provider
    && d.decision.profile == Some(l.profile)
    && (d.target.repository.Some? ==> l.repository == d.target.repository)
    && l.config == r.config && l.policy == r.policy
    && l.endpoint == Some(d.target.digest)
  }

  datatype Validated = Valid(lease: Lease) | Invalid(failure: Failure)

  /** `_validate_child_lease`: the lease with its endpoint evidence filled in, or a refusal. */
  function ValidateChildLease(w: World, r: Request, d: Resolved, l: Lease): (v: Validated)
    ensures v.Valid? <==> Scoped(w, r, d, l.(endpoint := Some(d.target.digest))) && l.endpoint in {None, Some(d.target.digest)}
    ensures v.Valid? ==> v.lease == l.(endpoint := Some(d.target.digest))
    ensures v.Invalid? ==>
      && (v.failure == CredentialRevoked <==> l.state in {Revoked, Released})
      && (v.failure == CredentialExpired <==> l.state == Expired || (l.state == Active && l.expires <= w.now))
      && v.failure in {CredentialRevoked, CredentialExpired, ScopeMismatch}
  {
    var t := d.target;
    if l.state == Revoked || l.state == Released then Invalid(CredentialRevoked)
    else if l.state == Expired || l.expires <= w.now then Invalid(CredentialExpired)
    else if l.issued > w.now then Invalid(ScopeMismatch)
    else if l.targetKind != t.targetKind || l.targetId != t.targetId || l.provider != t.provider || d.decision.profile != Some(l.profile)
            || (t.repository.Some? && l.repository != t.repository) || l.config != r.config || l.policy != r.policy then Invalid(ScopeMismatch)
    else if l.endpoint !in {None, Some(t.digest)} then Invalid(ScopeMismatch)
    else if l.endpoint == None then Valid(l.(endpoint := Some(t.digest)))
    else Valid(l)
  }

  // ----- acquiring -----

  /** The groups that need a lease, in order. */
  function Credentialed(ds: seq<Resolved>): seq<Resolved> {
    if ds == [] then []
    else Credentialed(ds[..|ds| - 1]) + if ds[|ds| - 1].decision.status == AnonymousRead then [] else [ds[|ds| - 1]]
  }

  function LeaseIds(leases: seq<Lease>): (ids: seq<string>)
    ensures |ids| == |leases| && forall i :: 0 <= i < |ids| ==> ids[i] == leases[i].leaseId
  {
    seq(|leases|, i requires 0 <= i < |leases| => leases[i].leaseId)
  }

  function RequestIds(requests: seq<CapabilityRequest>): (ids: seq<string>)
    ensures |ids| == |requests| && forall i :: 0 <= i < |ids| ==> ids[i] == requests[i].leaseId
  {
    seq(|requests|, i requires 0 <= i < |requests| => requests[i].leaseId)
  }

  ghost predicate Distinct<T>(s: seq<T>) {
    forall i, j :: 0 <= i < j < |s| ==> s[i] != s[j]
  }

  function KeyOfLease(l: Lease): (string, string) {
    (l.targetKind, l.targetId)
  }

  /** The children: one lease and one capability request per credentialed group, each lease scoped to
      its group, under a new lease id and for a new target. */
  ghost predicate Children(w: World, r: Request, cds: seq<Resolved>, leases: seq<Lease>, requests: seq<CapabilityRequest>) {
    && |leases| == |requests| == |cds|
    && (forall k :: 0 <= k < |cds| ==> Scoped(w, r, cds[k], leases[k]))
    && (forall k :: 0 <= k < |cds| ==> requests[k] == CapabilityRequest(leases[k].leaseId, cds[k].decision.capabilities))
    && (forall i, j :: 0 <= i < j < |cds| ==> leases[i].leaseId != leases[j].leaseId && KeyOfLease(leases[i]) != KeyOfLease(leases[j]))
    && (forall i, k :: 0 <= i < |r.primaryLeases| && 0 <= k < |cds| ==>
          r.primaryLeases[i].leaseId != leases[k].leaseId && KeyOfLease(r.primaryLeases[i]) != KeyOfLease(leases[k]))
  }

  function ReceiptFor(d: Resolved, leaseId: Option<string>): Receipt {
    Receipt(d.target.targetKind, d.target.targetId, d.target.digest, d.decision.status, leaseId,
            if leaseId.None? then [] else d.decision.capabilities, d.locations)
  }

  /** The receipt tells of this group: its target and digest, how it was routed, where it was found, and
      its lease with the capabilities granted, if it has one. */
  predicate TellsOf(receipt: Receipt, d: Resolved, lease: Option<Lease>) {
    && receipt.targetKind == d.target.targetKind && receipt.targetId == d.target.targetId && receipt.digest == d.target.digest
    && receipt.status == d.decision.status && receipt.locations == d.locations
    && match lease
       case None => receipt.leaseId == None && receipt.capabilities == []
       case Some(l) => receipt.leaseId == Some(l.leaseId) && receipt.capabilities == d.decision.capabilities
  }

  /** One receipt per group, with the lease of the group if it has one. */
  ghost predicate Receipted(ds: seq<Resolved>, leases: seq<Lease>, receipts: seq<Receipt>) {
    && |receipts| == |ds| && |leases| == |Credentialed(ds)|
    && forall i :: 0 <= i < |ds| ==>
         && |Credentialed(ds[..i])| <= |leases|
         && if ds[i].decision.status == AnonymousRead then TellsOf(receipts[i], ds[i], None)
            else
              && |Credentialed(ds[..i])| < |leases|
              && TellsOf(receipts[i], ds[i], Some(leases[|Credentialed(ds[..i])|]))
  }

  lemma ReceiptTells(d: Resolved, lease: Option<Lease>)
    ensures TellsOf(ReceiptFor(d, if lease.Some? then Some(lease.value.leaseId) else None), d, lease)
  {
  }

  lemma ReceiptedSnoc(ds: seq<Resolved>, leases: seq<Lease>, receipts: seq<Receipt>, d: Resolved, more: seq<Lease>)
    requires Receipted(ds, leases, receipts)
    requires |more| == if d.decision.status == AnonymousRead then 0 else 1
    ensures Receipted(ds + [d], leases + more, receipts + [ReceiptFor(d, if more == [] then None else Some(more[0].leaseId))])
  {
    ReceiptTells(d, if more == [] then None else Some(more[0]));
    hide ReceiptFor, Credentialed, TellsOf;
    CredentialedSnoc(ds, d);
    var all := ds + [d];
    assert forall i :: 0 <= i < |ds| ==> all[..i] == ds[..i];
    assert all[..|ds|] == ds;
  }

  /** The provider is asked for a lease of this group. */
  predicate Asks(w: World, d: Resolved) {
    d.decision.profile.Some? && w.provider
  }

  /** What the provider hands out for this group. */
  function Given(w: World, d: Resolved): seq<Lease> {
    if !Asks(w, d) then []
    else match w.acquire(d.target, d.decision)
         case None => []
         case Some(lease) => [lease]
  }

  /** What it hands out for a list of groups. */
  function Held(w: World, cds: seq<Resolved>): seq<Lease> {
    if cds == [] then [] else Held(w, cds[..|cds| - 1]) + Given(w, cds[|cds| - 1])
  }

  /** The lease of a group as far as the group alone decides. */
  function Grant(w: World, r: Request, d: Resolved): Validated {
    if !Asks(w, d) then Invalid(ScopeMismatch)
    else match w.acquire(d.target, d.decision)
         case None => Invalid(LeaseUnavailable)
         case Some(lease) => ValidateChildLease(w, r, d, lease)
  }

  /** Same lease id or same target. */
  predicate Collides(l: Lease, other: Lease) {
    l.leaseId == other.leaseId || KeyOfLease(l) == KeyOfLease(other)
  }

  /** The group gets a lease that collides with no primary lease and with none of the earlier groups. */
  ghost predicate Granted(w: World, r: Request, earlier: seq<Resolved>, d: Resolved) {
    && Grant(w, r, d).Valid?
    && (forall i :: 0 <= i < |r.primaryLeases| ==> !Collides(Grant(w, r, d).lease, r.primaryLeases[i]))
    && (forall i :: 0 <= i < |earlier| && Grant(w, r, earlier[i]).Valid? ==> !Collides(Grant(w, r, d).lease, Grant(w, r, earlier[i]).lease))
  }

  /** The first `n` groups are granted. */
  ghost predicate GrantedTo(w: World, r: Request, cds: seq<Resolved>, n: nat)
    requires n <= |cds|
  {
    forall k :: 0 <= k < n ==> Granted(w, r, cds[..k], cds[k])
  }

  /** Why a group is not granted: nobody can be asked, no lease is given, the lease is invalid, or it
      collides. */
  function Refusal(w: World, r: Request, d: Resolved): (failure: Failure)
    ensures d.decision.profile.None? || !w.provider ==> failure == ScopeMismatch
    ensures d.decision.profile.Some? && w.provider ==>
      var given := w.acquire(d.target, d.decision);
      && (failure == LeaseUnavailable <==> given.None?)
      && (failure == CredentialRevoked <==> given.Some? && given.value.state in {Revoked, Released})
      && (failure == CredentialExpired <==>
            given.Some? && (given.value.state == Expired || (given.value.state == Active && given.value.expires <= w.now)))
  {
    if Grant(w, r, d).Invalid? then Grant(w, r, d).failure else ScopeMismatch
  }

  function IdsOf(ls: seq<Lease>): set<string> {
    set k | 0 <= k < |ls| :: ls[k].leaseId
  }

  function KeysOf(ls: seq<Lease>): set<(string, string)> {
    set k | 0 <= k < |ls| :: KeyOfLease(ls[k])
  }

  lemma SetsSnoc(ls: seq<Lease>, l: Lease)
    ensures IdsOf(ls + [l]) == IdsOf(ls) + {l.leaseId} && KeysOf(ls + [l]) == KeysOf(ls) + {KeyOfLease(l)}
  {
    hide KeyOfLease;
    assert (ls + [l])[|ls|] == l;
    forall k | 0 <= k < |ls|
      ensures (ls + [l])[k] == ls[k]
    {
    }
    forall id | id in IdsOf(ls) + {l.leaseId}
      ensures id in IdsOf(ls + [l])
    {
      if id in IdsOf(ls) {
        var k :| 0 <= k < |ls| && ls[k].leaseId == id;
        assert (ls + [l])[k].leaseId == id;
      }
    }
    forall key | key in KeysOf(ls) + {KeyOfLease(l)}
      ensures key in KeysOf(ls + [l])
    {
      if key in KeysOf(ls) {
        var k :| 0 <= k < |ls| && KeyOfLease(ls[k]) == key;
        assert KeyOfLease((ls + [l])[k]) == key;
      }
    }
  }

  lemma CollidesIff(ls: seq<Lease>, l: Lease)
    ensures l.leaseId in IdsOf(ls) || KeyOfLease(l) in KeysOf(ls) <==> exists k :: 0 <= k < |ls| && Collides(l, ls[k])
  {
    hide KeyOfLease;
    if l.leaseId in IdsOf(ls) {
      var k :| 0 <= k < |ls| && ls[k].leaseId == l.leaseId;
      assert Collides(l, ls[k]);
    }
    if KeyOfLease(l) in KeysOf(ls) {
      var k :| 0 <= k < |ls| && KeyOfLease(ls[k]) == KeyOfLease(l);
      assert Collides(l, ls[k]);
    }
  }

  /** The leases of these groups, in order. */
  ghost predicate AreGrants(w: World, r: Request, cds: seq<Resolved>, leases: seq<Lease>) {
    |leases| == |cds| && forall k :: 0 <= k < |cds| ==> Grant(w, r, cds[k]) == Valid(leases[k])
  }

  /** The ids and targets taken so far decide whether the next group is granted. */
  lemma GrantedIff(w: World, r: Request, cds: seq<Resolved>, leases: seq<Lease>, d: Resolved)
    requires AreGrants(w, r, cds, leases)
    ensures
      var ids, keys := IdsOf(r.primaryLeases) + IdsOf(leases), KeysOf(r.primaryLeases) + KeysOf(leases);
      var g := Grant(w, r, d);
      Granted(w, r, cds, d) <==> g.Valid? && g.lease.leaseId !in ids && KeyOfLease(g.lease) !in keys
  {
    hide KeyOfLease, IdsOf, KeysOf, Collides, Grant;
    var g := Grant(w, r, d);
    if g.Valid? {
      CollidesIff(r.primaryLeases, g.lease);
      CollidesIff(leases, g.lease);
      if k :| 0 <= k < |leases| && Collides(g.lease, leases[k]) {
        assert Grant(w, r, cds[k]).Valid?;
      }
    }
  }

  lemma GrantIsScoped(w: World, r: Request, d: Resolved)
    ensures Grant(w, r, d).Valid? ==> Scoped(w, r, d, Grant(w, r, d).lease) && |Given(w, d)| == 1
  {
    hide Scoped;
    if Grant(w, r, d).Valid? {
      var lease := w.acquire(d.target, d.decision).value;
      ScopedFilled(w, r, d, lease);
    }
  }

  lemma ScopedFilled(w: World, r: Request, d: Resolved, lease: Lease)
    requires ValidateChildLease(w, r, d, lease).Valid?
    ensures Scoped(w, r, d, ValidateChildLease(w, r, d, lease).lease)
  {
  }

  /** What the last loop has composed for the groups done so far. */
  ghost predicate Composed(w: World, r: Request, done: seq<Resolved>, leases: seq<Lease>, requests: seq<CapabilityRequest>, receipts: seq<Receipt>,
                           held: seq<Lease>) {
    var cds := Credentialed(done);
    && Children(w, r, cds, leases, requests) && Receipted(done, leases, receipts)
    && AreGrants(w, r, cds, leases) && GrantedTo(w, r, cds, |cds|) && held == Held(w, cds)
  }

  lemma ComposeAnonymous(w: World, r: Request, done: seq<Resolved>, leases: seq<Lease>, requests: seq<CapabilityRequest>, receipts: seq<Receipt>,
                         held: seq<Lease>, d: Resolved)
    requires Composed(w, r, done, leases, requests, receipts, held) && d.decision.status == AnonymousRead
    ensures Composed(w, r, done + [d], leases, requests, receipts + [ReceiptFor(d, None)], held)
  {
    hide Children, Receipted, AreGrants, GrantedTo, Held, Credentialed, ReceiptFor;
    CredentialedSnoc(done, d);
    ReceiptedSnoc(done, leases, receipts, d, []);
    assert leases + [] == leases;
  }

  lemma ChildrenSnoc(w: World, r: Request, cds: seq<Resolved>, leases: seq<Lease>, requests: seq<CapabilityRequest>, d: Resolved, l: Lease)
    requires Children(w, r, cds, leases, requests) && AreGrants(w, r, cds, leases)
    requires Granted(w, r, cds, d) && Grant(w, r, d) == Valid(l) && Scoped(w, r, d, l)
    ensures Children(w, r, cds + [d], leases + [l], requests + [CapabilityRequest(l.leaseId, d.decision.capabilities)])
  {
    hide Scoped, KeyOfLease, Grant;
  }

  lemma GrantsSnoc(w: World, r: Request, cds: seq<Resolved>, leases: seq<Lease>, d: Resolved, l: Lease)
    requires AreGrants(w, r, cds, leases) && GrantedTo(w, r, cds, |cds|) && Granted(w, r, cds, d) && Grant(w, r, d) == Valid(l)
    ensures AreGrants(w, r, cds + [d], leases + [l]) && GrantedTo(w, r, cds + [d], |cds| + 1)
    ensures Held(w, cds + [d]) == Held(w, cds) + Given(w, d)
  {
    hide Granted, Grant, Given;
    var all := cds + [d];
    assert all[..|cds|] == cds;
    forall k | 0 <= k < |cds| + 1
      ensures Granted(w, r, all[..k], all[k])
    {
      if k < |cds| {
        assert all[..k] == cds[..k] && all[k] == cds[k];
      }
    }
  }

  lemma ComposeLease(w: World, r: Request, done: seq<Resolved>, leases: seq<Lease>, requests: seq<CapabilityRequest>, receipts: seq<Receipt>,
                     held: seq<Lease>, d: Resolved, l: Lease)
    requires Composed(w, r, done, leases, requests, receipts, held) && d.decision.status != AnonymousRead
    requires Granted(w, r, Credentialed(done), d) && Grant(w, r, d) == Valid(l)
    ensures Composed(w, r, done + [d], leases + [l], requests + [CapabilityRequest(l.leaseId, d.decision.capabilities)],
                     receipts + [ReceiptFor(d, Some(l.leaseId))], held + Given(w, d))
  {
    hide Children, Receipted, AreGrants, GrantedTo, Held, Credentialed, ReceiptFor, Scoped, Granted, Grant, Given;
    CredentialedSnoc(done, d);
    GrantIsScoped(w, r, d);
    ChildrenSnoc(w, r, Credentialed(done), leases, requests, d, l);
    GrantsSnoc(w, r, Credentialed(done), leases, d, l);
    ReceiptedSnoc(done, leases, receipts, d, [l]);
  }

  /** Where the last loop stopped: everything before is granted, the group there is not. */
  ghost predicate StoppedAt(w: World, r: Request, cds: seq<Resolved>, stop: nat, asked: nat, held: seq<Lease>, failure: Option<Failure>) {
    && stop <= |cds| && GrantedTo(w, r, cds, stop)
    && (stop == |cds| ==> failure.None? && asked == |cds| && held == Held(w, cds))
    && (stop < |cds| ==>
          && !Granted(w, r, cds[..stop], cds[stop]) && failure == Some(Refusal(w, r, cds[stop]))
          && asked == stop + (if Asks(w, cds[stop]) then 1 else 0) && held == Held(w, cds[..stop + 1]))
  }

  /** The last loop of `prepare`: it goes on until the first credentialed group that is not granted.
      `asked` counts the leases asked for, `held` are those the provider handed out. */
  method AcquireLeases(w: World, r: Request, ds: seq<Resolved>)
    returns (leases: seq<Lease>, requests: seq<CapabilityRequest>, receipts: seq<Receipt>,
             stop: nat, asked: nat, held: seq<Lease>, failure: Option<Failure>)
    ensures StoppedAt(w, r, Credentialed(ds), stop, asked, held, failure)
    ensures failure.None? ==> Children(w, r, Credentialed(ds), leases, requests) && Receipted(ds, leases, receipts)
  {
    hide Scoped, KeyOfLease, ReceiptFor, Children, Receipted, Credentialed, AreGrants, GrantedTo, Granted, Grant, Given, Held, IdsOf, KeysOf, Composed, Refusal, StoppedAt, Asks;
    leases, requests, receipts, stop, asked, held := [], [], [], 0, 0, [];
    var ids, keys := IdsOf(r.primaryLeases), KeysOf(r.primaryLeases);
    NothingComposed(w, r);
    assert ds[..0] == [];
    var i := 0;
    while i < |ds|
      invariant 0 <= i <= |ds| && asked == stop == |Credentialed(ds[..i])|
      invariant Composed(w, r, ds[..i], leases, requests, receipts, held)
      invariant ids == IdsOf(r.primaryLeases) + IdsOf(leases) && keys == KeysOf(r.primaryLeases) + KeysOf(leases)
    {
      var d := ds[i];
      ghost var done := ds[..i];
      assert ds[..i + 1] == done + [d];
      CredentialedSnoc(done, d);
      i := i + 1;
      if d.decision.status == AnonymousRead {
        ComposeAnonymous(w, r, done, leases, requests, receipts, held, d);
        receipts := receipts + [ReceiptFor(d, None)];
        continue;
      }
      NextGranted(w, r, done, leases, requests, receipts, held, d);
      CredentialedPrefix(ds, i);
      var v := Grant(w, r, d);
      if v.Invalid? || v.lease.leaseId in ids || KeyOfLease(v.lease) in keys {
        StopsHere(w, r, ds, i, asked, held);
        return leases, requests, receipts, stop, asked + (if Asks(w, d) then 1 else 0), held + Given(w, d), Some(Refusal(w, r, d));
      }
      ComposeLease(w, r, done, leases, requests, receipts, held, d, v.lease);
      SetsSnoc(leases, v.lease);
      ids, keys := ids + {v.lease.leaseId}, keys + {KeyOfLease(v.lease)};
      leases := leases + [v.lease];
      requests := requests + [CapabilityRequest(v.lease.leaseId, d.decision.capabilities)];
      receipts := receipts + [ReceiptFor(d, Some(v.lease.leaseId))];
      asked, stop, held := asked + 1, stop + 1, held + Given(w, d);
    }
    assert ds[..i] == ds;
    failure := None;
    StopsAtEnd(w, r, ds, leases, requests, receipts, held);
  }

  lemma NothingComposed(w: World, r: Request)
    ensures Credentialed([]) == [] && Composed(w, r, [], [], [], [], [])
    ensures IdsOf([]) == {} && KeysOf([]) == {}
  {
  }

  lemma NextGranted(w: World, r: Request, done: seq<Resolved>, leases: seq<Lease>, requests: seq<CapabilityRequest>, receipts: seq<Receipt>,
                    held: seq<Lease>, d: Resolved)
    requires Composed(w, r, done, leases, requests, receipts, held)
    ensures
      var ids, keys := IdsOf(r.primaryLeases) + IdsOf(leases), KeysOf(r.primaryLeases) + KeysOf(leases);
      var g := Grant(w, r, d);
      Granted(w, r, Credentialed(done), d) <==> g.Valid? && g.lease.leaseId !in ids && KeyOfLease(g.lease) !in keys
    ensures GrantedTo(w, r, Credentialed(done), |Credentialed(done)|) && held == Held(w, Credentialed(done))
  {
    hide Granted, Grant, IdsOf, KeysOf, KeyOfLease, Children, Receipted, Held, Credentialed, AreGrants, GrantedTo;
    GrantedIff(w, r, Credentialed(done), leases, d);
  }

  lemma StopsHere(w: World, r: Request, ds: seq<Resolved>, i: nat, asked: nat, held: seq<Lease>)
    requires 0 < i <= |ds| && ds[i - 1].decision.status != AnonymousRead
    requires
      var cds := Credentialed(ds[..i - 1]);
      && asked == |cds| && held == Held(w, cds) && GrantedTo(w, r, cds, |cds|) && !Granted(w, r, cds, ds[i - 1])
    ensures
      var d := ds[i - 1];
      StoppedAt(w, r, Credentialed(ds), asked, asked + (if Asks(w, d) then 1 else 0), held + Given(w, d), Some(Refusal(w, r, d)))
  {
    hide Granted, Given, Asks, Refusal, Credentialed;
    var cds, all, d := Credentialed(ds[..i - 1]), Credentialed(ds), ds[i - 1];
    assert ds[..i] == ds[..i - 1] + [d];
    CredentialedSnoc(ds[..i - 1], d);
    CredentialedPrefix(ds, i);
    assert cds + [d] == all[..|cds| + 1] && (cds + [d])[..|cds|] == cds;
    assert all[|cds|] == (cds + [d])[|cds|] == d;
    assert all[..|cds|] == all[..|cds| + 1][..|cds|];
    forall k | 0 <= k < |cds|
      ensures Granted(w, r, all[..k], all[k])
    {
      assert all[..k] == all[..|cds|][..k] == cds[..k] && all[k] == cds[k];
    }
  }

  lemma StopsAtEnd(w: World, r: Request, ds: seq<Resolved>, leases: seq<Lease>, requests: seq<CapabilityRequest>, receipts: seq<Receipt>, held: seq<Lease>)
    requires Composed(w, r, ds, leases, requests, receipts, held)
    ensures var n := |Credentialed(ds)|; StoppedAt(w, r, Credentialed(ds), n, n, held, None)
    ensures Children(w, r, Credentialed(ds), leases, requests) && Receipted(ds, leases, receipts)
  {
    hide Children, Receipted, Granted, Credentialed, Held;
  }

  lemma CredentialedSnoc(ds: seq<Resolved>, d: Resolved)
    ensures Credentialed(ds + [d]) == if d.decision.status == AnonymousRead then Credentialed(ds) else Credentialed(ds) + [d]
  {
    assert (ds + [d])[..|ds|] == ds;
  }

  lemma {:induction false} CredentialedPrefix(ds: seq<Resolved>, k: nat)
    requires k <= |ds|
    ensures Credentialed(ds[..k]) <= Credentialed(ds)
    decreases |ds|
  {
    if k == |ds| {
      assert ds[..k] == ds;
    } else {
      CredentialedPrefix(ds[..|ds| - 1], k);
      assert ds[..|ds| - 1][..k] == ds[..k];
    }
  }

  // ----- the whole preparation -----

  datatype Outcome = Prepared(leases: seq<Lease>, requests: seq<CapabilityRequest>, receipts: seq<Receipt>) | Refused(failure: Failure)

  /** What the request's own validation guarantees: each primary lease has exactly one capability
      request. */
  ghost predicate Covered(r: Request) {
    && Distinct(RequestIds(r.primaryRequests))
    && forall id :: id in RequestIds(r.primaryRequests) <==> id in LeaseIds(r.primaryLeases)
  }

  /** Every condition on the way to binding holds. */
  ghost predicate Preparable(w: World, r: Request, groups: seq<Group>, ds: seq<Resolved>) {
    Routable(w, groups) && Admitted(r, ds) && GrantedTo(w, r, Credentialed(ds), |Credentialed(ds)|)
  }

  /** `prepare`: it succeeds exactly when every group was routed, none denied, every approval or intent
      names a discovered target, and every credentialed group is granted; then the primary leases and
      the children are bound, with a receipt for every group.  Before that nothing is asked for.  When
      it refuses, leases the provider has handed out stay held. */
  method Prepare(w: World, r: Request, candidates: seq<Candidate>)
    returns (outcome: Outcome, stop: nat, asked: nat, held: seq<Lease>, groups: seq<Group>, ds: seq<Resolved>)
    ensures Grouped(candidates, groups)
    ensures Routable(w, groups) ==> Routed(w, r, groups, ds)
    ensures outcome.Prepared? <==> Preparable(w, r, groups, ds)
    ensures outcome.Prepared? ==>
      && |outcome.leases| >= |r.primaryLeases| && |outcome.requests| >= |r.primaryRequests|
      && outcome.leases[..|r.primaryLeases|] == r.primaryLeases && outcome.requests[..|r.primaryRequests|] == r.primaryRequests
      && Children(w, r, Credentialed(ds), outcome.leases[|r.primaryLeases|..], outcome.requests[|r.primaryRequests|..])
      && Receipted(ds, outcome.leases[|r.primaryLeases|..], outcome.receipts) && |outcome.receipts| == |groups|
    ensures !Routable(w, groups) ==> outcome == Refused(ScopeMismatch) && asked == 0 && held == []
    ensures Routable(w, groups) && !Admitted(r, ds) ==> outcome == Refused(PolicyViolation) && asked == 0 && held == []
    ensures Routable(w, groups) && Admitted(r, ds) ==>
      StoppedAt(w, r, Credentialed(ds), stop, asked, held, if outcome.Refused? then Some(outcome.failure) else None)
    ensures outcome.Refused? && held != [] <==>
      Routable(w, groups) && Admitted(r, ds) && Retains(w, r, Credentialed(ds))
  {
    hide Grouped, Routed, Routable, Admitted, Children, Receipted, StoppedAt, Retains;
    groups := CandidateGroups(candidates);
    var failure;
    ds, failure := RouteGroups(w, r, groups);
    if failure.Some? {
      return Refused(failure.value), 0, 0, [], groups, ds;
    }
    var admitted := Admit(r, ds);
    if !admitted {
      return Refused(PolicyViolation), 0, 0, [], groups, ds;
    }
    var leases, requests, receipts, at, n, given, failed := AcquireLeases(w, r, ds);
    stop, asked, held := at, n, given;
    StoppedMeans(w, r, Credentialed(ds), at, n, given, failed);
    RetainsIff(w, r, Credentialed(ds), at, n, given, failed);
    if failed.Some? {
      return Refused(failed.value), at, n, given, groups, ds;
    }
    Counts(w, r, groups, ds, leases, requests, receipts);
    outcome := Prepared(r.primaryLeases + leases, r.primaryRequests + requests, receipts);
    assert outcome.leases[|r.primaryLeases|..] == leases && outcome.requests[|r.primaryRequests|..] == requests;
    assert outcome.leases[..|r.primaryLeases|] == r.primaryLeases && outcome.requests[..|r.primaryRequests|] == r.primaryRequests;
  }

  lemma StoppedMeans(w: World, r: Request, cds: seq<Resolved>, stop: nat, asked: nat, held: seq<Lease>, failure: Option<Failure>)
    requires StoppedAt(w, r, cds, stop, asked, held, failure)
    ensures failure.None? <==> GrantedTo(w, r, cds, |cds|)
  {
    hide Granted, Held, Asks, Refusal;
  }

  // ----- leases held after a refusal -----

  lemma {:induction false} HeldGrows(w: World, cds: seq<Resolved>)
    requires cds != []
    ensures Given(w, cds[0]) <= Held(w, cds)
    decreases |cds|
  {
    hide Given;
    if |cds| == 1 {
      assert cds[..0] == [];
    } else {
      HeldGrows(w, cds[..|cds| - 1]);
      assert cds[..|cds| - 1][0] == cds[0];
    }
  }

  /** The provider handed out a lease for the first credentialed group, and not every group is granted. */
  ghost predicate Retains(w: World, r: Request, cds: seq<Resolved>) {
    cds != [] && Given(w, cds[0]) != [] && !GrantedTo(w, r, cds, |cds|)
  }

  /** The last loop holds a lease exactly when the provider handed one out for the first credentialed
      group; so a refusal retains leases exactly when it did and a later check, of that group or of a
      later one, failed. */
  lemma RetainsIff(w: World, r: Request, cds: seq<Resolved>, stop: nat, asked: nat, held: seq<Lease>, failure: Option<Failure>)
    requires StoppedAt(w, r, cds, stop, asked, held, failure)
    ensures held != [] <==> cds != [] && Given(w, cds[0]) != []
    ensures asked > 0 <==> cds != [] && Asks(w, cds[0])
    ensures failure.Some? && held != [] <==> Retains(w, r, cds)
  {
    StoppedMeans(w, r, cds, stop, asked, held, failure);
    if cds != [] {
      if stop > 0 {
        assert Granted(w, r, cds[..0], cds[0]);
        GrantIsScoped(w, r, cds[0]);
      }
      var asking := if stop == |cds| then cds else cds[..stop + 1];
      assert asking != [] && asking[0] == cds[0] && held == Held(w, asking);
      HeldGrows(w, asking);
      if stop == 0 {
        assert asking == [cds[0]] && asking[..0] == [];
      }
    }
    hide Granted, Grant, Given;
  }

  // ----- a retained lease -----

  /** Every candidate resolves to a target of its own, is bound to one profile, and gets an active
      lease, always under the same id. */
  function OneLeaseWorld(): World {
    World(
      (c: Candidate) => Some(Target("repository", c.kind, c.kind, c.access, c.digest, "provider", None)),
      (t: Target, a: Option<string>, i: Option<string>) => Decision(Bound, Some("profile"), ["contents:write"]),
      true,
      (t: Target, d: Decision) => Some(Lease("lease", "repository", t.targetId, "provider", "profile", None, "config", "policy", Active, 0, 10, None)),
      5)
  }

  /** One primary lease, covered by its capability request, and no approvals or intents. */
  function OnePrimary(): (r: Request)
    ensures Covered(r)
  {
    var l := Lease("primary", "repository", "root", "provider", "profile", None, "config", "policy", Active, 0, 10, None);
    var r := Request([l], [CapabilityRequest("primary", ["contents:write"])], "config", "policy", map[], map[]);
    assert RequestIds(r.primaryRequests) == ["primary"] == LeaseIds(r.primaryLeases);
    r
  }

  /** Something written through LFS and a written submodule. */
  function TwoCandidates(lfs: string, submodule: string): seq<Candidate> {
    [Candidate("lfs", lfs, Write, 0, ".lfsconfig"), Candidate("submodule", submodule, Write, 0, ".gitmodules")]
  }

  lemma TwoGroups(lfs: string, submodule: string, groups: seq<Group>)
    requires Grouped(TwoCandidates(lfs, submodule), groups)
    ensures
      var cs := TwoCandidates(lfs, submodule);
      |groups| == 2 && groups[0].candidate == cs[0] && groups[1].candidate == cs[1]
  {
    var cs, ka, kb := TwoCandidates(lfs, submodule), Key("lfs", lfs), Key("submodule", submodule);
    assert cs[..1] == [cs[0]] && [cs[0]][..0] == [];
    assert SortedKeys([cs[0]]) == [ka];
    assert SortedKeys(cs) == InsertKey(kb, [ka]) && [ka][1..] == [];
    assert !KeyBelow(kb, ka);
    assert InsertKey(kb, []) == [kb];
    assert InsertKey(kb, [ka]) == [ka] + InsertKey(kb, [ka][1..]);
    assert SortedKeys(cs) == [ka, kb];
    hide SortedKeys, InsertKey, KeyBelow;
    assert IsGroup(cs, ka, groups[0]) && IsGroup(cs, kb, groups[1]);
  }

  /** Two candidates, two groups, two distinct targets, whatever their digests: the first lease is
      granted, the second collides with it, and the preparation is refused with the first lease held. */
  lemma {:induction false} SecondGroupRefused(lfs: string, submodule: string, groups: seq<Group>, ds: seq<Resolved>)
    requires Grouped(TwoCandidates(lfs, submodule), groups) && Routed(OneLeaseWorld(), OnePrimary(), groups, ds)
    ensures Routable(OneLeaseWorld(), groups) && Admitted(OnePrimary(), ds)
    ensures Granted(OneLeaseWorld(), OnePrimary(), [], Credentialed(ds)[0]) && Retains(OneLeaseWorld(), OnePrimary(), Credentialed(ds))
  {
    TwoGroups(lfs, submodule, groups);
    hide Grouped, Routed, Granted, Retains, Routable, Admitted, OneLeaseWorld, OnePrimary;
    TwoRouted(TwoCandidates(lfs, submodule), groups, ds);
    SecondCollides(ds);
  }

  /** What routing makes of the two. */
  ghost predicate TwoTargets(ds: seq<Resolved>) {
    && |ds| == 2
    && (forall i :: 0 <= i < 2 ==>
          && ds[i].target.targetKind == "repository" && ds[i].target.provider == "provider" && ds[i].target.repository.None?
          && ds[i].decision == Decision(Bound, Some("profile"), ["contents:write"]))
    && ds[0].target.targetId == "lfs" && ds[1].target.targetId == "submodule"
  }

  lemma {:induction false} TwoRouted(cs: seq<Candidate>, groups: seq<Group>, ds: seq<Resolved>)
    requires Routed(OneLeaseWorld(), OnePrimary(), groups, ds)
    requires |cs| == |groups| == 2 && groups[0].candidate == cs[0] && groups[1].candidate == cs[1]
    requires cs[0].kind == "lfs" && cs[1].kind == "submodule"
    ensures Routable(OneLeaseWorld(), groups) && Admitted(OnePrimary(), ds) && TwoTargets(ds)
  {
    assert IsRouted(OneLeaseWorld(), OnePrimary(), groups[0], ds[0]) && IsRouted(OneLeaseWorld(), OnePrimary(), groups[1], ds[1]);
  }

  lemma {:induction false} SecondCollides(ds: seq<Resolved>)
    requires TwoTargets(ds)
    ensures Credentialed(ds) == ds && Granted(OneLeaseWorld(), OnePrimary(), [], ds[0]) && Retains(OneLeaseWorld(), OnePrimary(), ds)
  {
    var w, r := OneLeaseWorld(), OnePrimary();
    assert ds[..1] == [ds[0]] && [ds[0]][..0] == [] && ds == [ds[0]] + [ds[1]];
    assert Credentialed([ds[0]]) == [ds[0]] && Credentialed(ds) == ds;
    FirstIsGranted(ds);
    assert !Granted(w, r, ds[..1], ds[1]) by {
      assert Collides(Grant(w, r, ds[1]).lease, Grant(w, r, ds[..1][0]).lease);
    }
  }

  lemma {:induction false} FirstIsGranted(ds: seq<Resolved>)
    requires TwoTargets(ds)
    ensures Granted(OneLeaseWorld(), OnePrimary(), [], ds[0])
  {
    assert "lease" != "primary" && "lfs" != "root";
  }

  lemma Counts(w: World, r: Request, groups: seq<Group>, ds: seq<Resolved>, leases: seq<Lease>, requests: seq<CapabilityRequest>, receipts: seq<Receipt>)
    requires Routed(w, r, groups, ds) && Children(w, r, Credentialed(ds), leases, requests) && Receipted(ds, leases, receipts)
    ensures |receipts| == |groups| && |leases| == |Credentialed(ds)|
  {
  }

  /** With distinct primary lease ids, all bound leases have distinct ids and there is exactly one
      capability request for each of them. */
  lemma LeasesAndRequestsCorrespond(w: World, r: Request, cds: seq<Resolved>, leases: seq<Lease>, requests: seq<CapabilityRequest>)
    requires Covered(r) && Distinct(LeaseIds(r.primaryLeases)) && Children(w, r, cds, leases, requests)
    ensures Distinct(LeaseIds(r.primaryLeases + leases)) && Distinct(RequestIds(r.primaryRequests + requests))
    ensures forall id :: id in LeaseIds(r.primaryLeases + leases) <==> id in RequestIds(r.primaryRequests + requests)
    ensures |r.primaryLeases + leases| == |r.primaryRequests + requests|
  {
    hide Scoped, KeyOfLease;
    var a, b, c, d := LeaseIds(r.primaryLeases), RequestIds(r.primaryRequests), LeaseIds(leases), RequestIds(requests);
    assert c == d;
    assert LeaseIds(r.primaryLeases + leases) == a + c && RequestIds(r.primaryRequests + requests) == b + d;
    DistinctAppend(a, c);
    DistinctAppend(b, d);
    SameLength(a, b);
  }

  lemma DistinctAppend(a: seq<string>, b: seq<string>)
    requires Distinct(a) && Distinct(b) && forall x :: x in a ==> x !in b
    ensures Distinct(a + b)
  {
    forall i, j | 0 <= i < j < |a + b|
      ensures (a + b)[i] != (a + b)[j]
    {
      assert i < |a| ==> (a + b)[i] in a;
      assert j >= |a| ==> (a + b)[j] in b;
    }
  }

  /** Two lists without repetition and with the same elements have the same length. */
  lemma SameLength(a: seq<string>, b: seq<string>)
    requires Distinct(a) && Distinct(b) && forall x :: x in a <==> x in b
    ensures |a| == |b|
  {
    DistinctSize(a);
    DistinctSize(b);
    assert (set x | x in a) == (set x | x in b);
  }

  lemma {:induction false} DistinctSize(a: seq<string>)
    requires Distinct(a)
    ensures |set x | x in a| == |a|
  {
    if a != [] {
      var init, last := a[..|a| - 1], a[|a| - 1];
      DistinctSize(init);
      assert a == init + [last];
      assert (set x | x in a) == (set x | x in init) + {last};
    }
  }
}
