/** How selected test files are scheduled: a serial lane and reviewed parallel shards that together
    hold every file exactly once. */
module TestShards {
  import opened Options
  import opened TestSelection

  /** `index` is absent when the group is a single shard. */
  datatype Shard = Shard(group: string, index: Option<nat>, files: seq<string>)

  datatype Plan = Plan(serial: seq<string>, shards: seq<Shard>)

  function Sum(sizes: seq<int>): int {
    if sizes == [] then 0 else sizes[0] + Sum(sizes[1..])
  }

  function Sizes(g: Group): seq<int> {
    if g.shardSizes == [] then [|g.testFiles|] else g.shardSizes
  }

  predicate AllPositive(sizes: seq<int>) {
    forall i :: 0 <= i < |sizes| ==> sizes[i] > 0
  }

  /** `_validated_parallel_shard_sizes` accepts the group. */
  predicate ValidSizes(g: Group) {
    && (g.shardSizes == [] || g.parallel)
    && AllPositive(Sizes(g)) && Sum(Sizes(g)) == |g.testFiles|
  }

  predicate ShardsValid(groups: seq<Group>) {
    forall i :: 0 <= i < |groups| && groups[i].parallel ==> ValidSizes(groups[i])
  }

  /** Every parallel group has files and positive sizes that add up to them, if it has sizes at all. */
  lemma ShardsValidIff(groups: seq<Group>)
    ensures
      ShardsValid(groups) <==>
      forall i :: 0 <= i < |groups| && groups[i].parallel ==>
        if groups[i].shardSizes == [] then groups[i].testFiles != []
        else Sum(groups[i].shardSizes) == |groups[i].testFiles| && forall k :: 0 <= k < |groups[i].shardSizes| ==> groups[i].shardSizes[k] > 0
  {
    forall g: Group
      ensures g.shardSizes == [] ==> Sizes(g) == [|g.testFiles|] && Sum(Sizes(g)) == |g.testFiles|
    {
      assert [|g.testFiles|][1..] == [];
    }
    hide Sum;
  }

  /** The files of the parallel (or of the serial) groups, in manifest order. */
  function Files(groups: seq<Group>, parallel: bool): seq<string> {
    if groups == [] then [] else Lane(groups[0], parallel) + Files(groups[1..], parallel)
  }

  function Lane(g: Group, parallel: bool): seq<string> {
    if g.parallel == parallel then g.testFiles else []
  }

  function Keep(files: seq<string>, selected: set<string>): seq<string> {
    if files == [] then [] else KeepOne(files[0], selected) + Keep(files[1..], selected)
  }

  function KeepOne(file: string, selected: set<string>): seq<string> {
    if file in selected then [file] else []
  }

  function Joined(shards: seq<Shard>): seq<string> {
    if shards == [] then [] else shards[0].files + Joined(shards[1..])
  }

  // ----- appending -----

  lemma {:induction false} KeepAppend(a: seq<string>, b: seq<string>, selected: set<string>)
    ensures Keep(a + b, selected) == Keep(a, selected) + Keep(b, selected)
  {
    hide KeepOne;
    if a == [] {
      assert a + b == b;
    } else {
      assert (a + b)[1..] == a[1..] + b;
      KeepAppend(a[1..], b, selected);
    }
  }

  lemma {:induction false} JoinedSnoc(shards: seq<Shard>, shard: Shard)
    ensures Joined(shards + [shard]) == Joined(shards) + shard.files
    decreases |shards|
  {
    if shards == [] {
      assert ([] + [shard])[1..] == [];
    } else {
      assert (shards + [shard])[1..] == shards[1..] + [shard];
      JoinedSnoc(shards[1..], shard);
    }
  }

  lemma {:induction false} FilesSnoc(groups: seq<Group>, g: Group, parallel: bool)
    ensures Files(groups + [g], parallel) == Files(groups, parallel) + Lane(g, parallel)
    decreases |groups|
  {
    hide Lane;
    if groups == [] {
      assert ([] + [g])[1..] == [];
    } else {
      assert (groups + [g])[1..] == groups[1..] + [g];
      FilesSnoc(groups[1..], g, parallel);
    }
  }

  lemma {:induction false} SumSplit(sizes: seq<int>, k: nat)
    requires k <= |sizes| && AllPositive(sizes)
    ensures 0 <= Sum(sizes[..k]) <= Sum(sizes)
    ensures k < |sizes| ==> Sum(sizes[..k + 1]) == Sum(sizes[..k]) + sizes[k] <= Sum(sizes)
    decreases k
  {
    SumPositive(sizes);
    if k > 0 {
      SumSplit(sizes[1..], k - 1);
      assert sizes[..k][1..] == sizes[1..][..k - 1];
      if k < |sizes| {
        assert sizes[..k + 1][1..] == sizes[1..][..k];
      }
    } else if sizes != [] {
      assert sizes[..1][1..] == [];
      SumPositive(sizes[1..]);
    }
  }

  lemma {:induction false} SumPositive(sizes: seq<int>)
    requires AllPositive(sizes)
    ensures Sum(sizes) >= 0
  {
    if sizes != [] {
      SumPositive(sizes[1..]);
    }
  }

  lemma {:induction false} KeepCount(files: seq<string>, selected: set<string>, x: string)
    ensures multiset(Keep(files, selected))[x] == if x in selected then multiset(files)[x] else 0
  {
    if files != [] {
      KeepCount(files[1..], selected, x);
      assert files == [files[0]] + files[1..];
    }
  }

  // ----- the shards -----

  /** The shard holds what is selected of one stretch of the group: of the whole group when it is one
      shard, otherwise of the `number`-th reviewed size behind the sizes before it. */
  predicate IsCut(g: Group, selected: set<string>, shard: Shard, number: nat) {
    && shard.group == g.name && shard.files != []
    && if |g.shardSizes| <= 1 then number == 1 && shard.index.None? && shard.files == Keep(g.testFiles, selected)
       else
         && shard.index == Some(number) && 1 <= number <= |g.shardSizes|
         && var from, to := Sum(g.shardSizes[..number - 1]), Sum(g.shardSizes[..number]);
            0 <= from <= to <= |g.testFiles| && shard.files == Keep(g.testFiles[from..to], selected)
  }

  /** The shards are cuts of the group, in the order of their numbers. */
  ghost predicate AreCuts(g: Group, selected: set<string>, shards: seq<Shard>, last: nat) {
    exists numbers: seq<nat> :: AreNumbered(g, selected, shards, last, numbers)
  }

  predicate AreNumbered(g: Group, selected: set<string>, shards: seq<Shard>, last: nat, numbers: seq<nat>) {
    && |numbers| == |shards| && (forall i :: 0 <= i < |shards| ==> IsCut(g, selected, shards[i], numbers[i]) && numbers[i] <= last)
    && (forall i, j :: 0 <= i < j < |numbers| ==> numbers[i] < numbers[j])
  }

  lemma CutsSnoc(g: Group, selected: set<string>, shards: seq<Shard>, last: nat, shard: Shard, number: nat)
    requires AreCuts(g, selected, shards, last) && IsCut(g, selected, shard, number) && last < number
    ensures AreCuts(g, selected, shards + [shard], number)
  {
    hide IsCut;
    var numbers: seq<nat> :| AreNumbered(g, selected, shards, last, numbers);
    assert AreNumbered(g, selected, shards + [shard], number, numbers + [number]);
  }

  lemma NoCuts(g: Group, selected: set<string>)
    ensures AreCuts(g, selected, [], 0)
  {
    hide IsCut;
    assert AreNumbered(g, selected, [], 0, []);
  }

  lemma CutsLater(g: Group, selected: set<string>, shards: seq<Shard>, last: nat, later: nat)
    requires AreCuts(g, selected, shards, last) && last <= later
    ensures AreCuts(g, selected, shards, later)
  {
    hide IsCut;
    var numbers: seq<nat> :| AreNumbered(g, selected, shards, last, numbers);
    assert AreNumbered(g, selected, shards, later, numbers);
  }

  /** One more cut, at the sizes of the group. */
  lemma CutHere(g: Group, selected: set<string>, k: nat, files: seq<string>)
    requires ValidSizes(g) && k < |Sizes(g)| && files != []
    requires 0 <= Sum(Sizes(g)[..k]) <= Sum(Sizes(g)[..k + 1]) <= |g.testFiles|
    requires files == Keep(g.testFiles[Sum(Sizes(g)[..k])..Sum(Sizes(g)[..k + 1])], selected)
    ensures IsCut(g, selected, Shard(g.name, if |Sizes(g)| == 1 then None else Some(k + 1), files), k + 1)
  {
    if |Sizes(g)| == 1 {
      assert Sizes(g)[..0] == [] && Sizes(g)[..1] == Sizes(g);
      assert g.testFiles[0..|g.testFiles|] == g.testFiles;
    }
    hide Keep, AllPositive;
  }

  /** The inner loop of `parallel_shards`: one group cut at its reviewed sizes. */
  method GroupShards(g: Group, selected: set<string>) returns (shards: seq<Shard>)
    requires ValidSizes(g)
    ensures Joined(shards) == Keep(g.testFiles, selected)
    ensures AreCuts(g, selected, shards, |g.shardSizes| + 1)
    ensures forall i :: 0 <= i < |shards| ==> shards[i].files != [] && shards[i].group == g.name
  {
    hide Sum, Keep, Joined, IsCut, AreCuts;
    NoCuts(g, selected);
    var sizes := Sizes(g);
    shards := [];
    var offset, i := 0, 0;
    assert sizes[..0] == [] && g.testFiles[..0] == [];
    Empties(selected);
    while i < |sizes|
      invariant 0 <= i <= |sizes| && offset == Sum(sizes[..i]) && 0 <= offset <= |g.testFiles|
      invariant Joined(shards) == Keep(g.testFiles[..offset], selected)
      invariant forall k :: 0 <= k < |shards| ==> shards[k].files != [] && shards[k].group == g.name
      invariant AreCuts(g, selected, shards, i)
    {
      SumSplit(sizes, i);
      CutsLater(g, selected, shards, i, i + 1);
      var slice := g.testFiles[offset..offset + sizes[i]];
      assert g.testFiles[..offset + sizes[i]] == g.testFiles[..offset] + slice;
      KeepAppend(g.testFiles[..offset], slice, selected);
      offset := offset + sizes[i];
      var files := Keep(slice, selected);
      i := i + 1;
      if files == [] {
        continue;
      }
      var shard := Shard(g.name, if |sizes| == 1 then None else Some(i), files);
      JoinedSnoc(shards, shard);
      CutHere(g, selected, i - 1, files);
      CutsSnoc(g, selected, shards, i - 1, shard, i);
      shards := shards + [shard];
    }
    CutsLater(g, selected, shards, i, |g.shardSizes| + 1);
    assert sizes[..i] == sizes && g.testFiles[..offset] == g.testFiles;
  }

  lemma Empties(selected: set<string>)
    ensures Sum([]) == 0 && Keep([], selected) == [] && Joined([]) == []
  {
  }

  lemma {:induction false} JoinedAppend(a: seq<Shard>, b: seq<Shard>)
    ensures Joined(a + b) == Joined(a) + Joined(b)
  {
    if a == [] {
      assert a + b == b;
    } else {
      assert (a + b)[1..] == a[1..] + b;
      JoinedAppend(a[1..], b);
    }
  }

  /** The shard is a cut of some parallel group of the manifest. */
  ghost predicate CutOfSome(m: Manifest, selected: set<string>, shard: Shard) {
    exists k, number :: 0 <= k < |m.groups| && m.groups[k].parallel && IsCut(m.groups[k], selected, shard, number)
  }

  lemma CutsOfSome(m: Manifest, selected: set<string>, k: nat, shards: seq<Shard>, last: nat)
    requires k < |m.groups| && m.groups[k].parallel && AreCuts(m.groups[k], selected, shards, last)
    ensures forall i :: 0 <= i < |shards| ==> CutOfSome(m, selected, shards[i])
  {
    hide IsCut;
  }

  /** `parallel_shards`: the shards hold exactly the selected files of the parallel groups, in
      manifest order; refused when a size list is invalid or a selected file has no parallel owner. */
  method ParallelShards(m: Manifest, files: seq<string>) returns (r: Option<seq<Shard>>)
    ensures r.Some? <==> ShardsValid(m.groups) && forall f :: f in files ==> f in Files(m.groups, true)
    ensures r.Some? ==> Joined(r.value) == Keep(Files(m.groups, true), Elements(files))
    ensures r.Some? ==> forall i :: 0 <= i < |r.value| ==> r.value[i].files != [] && CutOfSome(m, Elements(files), r.value[i])
  {
    hide ValidSizes, Files, Keep, Joined, CutOfSome, AreCuts;
    var selected := Elements(files);
    var shards: seq<Shard> := [];
    var i := 0;
    NoGroups(selected);
    assert m.groups[..0] == [];
    while i < |m.groups|
      invariant 0 <= i <= |m.groups|
      invariant forall k :: 0 <= k < i && m.groups[k].parallel ==> ValidSizes(m.groups[k])
      invariant Joined(shards) == Keep(Files(m.groups[..i], true), selected)
      invariant forall k :: 0 <= k < |shards| ==> shards[k].files != [] && CutOfSome(m, selected, shards[k])
    {
      var g := m.groups[i];
      assert m.groups[..i + 1] == m.groups[..i] + [g];
      FilesSnoc(m.groups[..i], g, true);
      if g.parallel {
        if !ValidSizes(g) {
          return None;
        }
        var more := GroupShards(g, selected);
        KeepAppend(Files(m.groups[..i], true), g.testFiles, selected);
        JoinedAppend(shards, more);
        CutsOfSome(m, selected, i, more, |g.shardSizes| + 1);
        shards := shards + more;
      } else {
        assert Files(m.groups[..i], true) + [] == Files(m.groups[..i], true);
      }
      i := i + 1;
    }
    assert m.groups[..i] == m.groups;
    var unassigned := selected - Elements(Joined(shards));
    AssignedIs(Files(m.groups, true), selected);
    if unassigned != {} {
      var f :| f in unassigned;
      assert f in files && f !in Files(m.groups, true);
      return None;
    }
    forall f | f in files
      ensures f in Files(m.groups, true)
    {
      assert f in selected && f !in unassigned;
    }
    r := Some(shards);
  }

  lemma NoGroups(selected: set<string>)
    ensures Files([], true) == [] && Keep([], selected) == [] && Joined([]) == []
  {
  }

  lemma AssignedIs(files: seq<string>, selected: set<string>)
    ensures forall f :: f in Keep(files, selected) <==> f in files && f in selected
  {
    forall f
      ensures f in Keep(files, selected) <==> f in files && f in selected
    {
      KeepCount(files, selected, f);
    }
  }

  // ----- the lanes -----

  ghost predicate NoRepeats(files: seq<string>) {
    forall f :: multiset(files)[f] <= 1
  }

  /** The scheduling of `_run_in_lanes` and of `load_lane_plan`. */
  method PlanLanes(m: Manifest, files: seq<string>) returns (r: Option<Plan>)
    ensures
      r.Some? <==>
      ShardsValid(m.groups) && forall f :: f in files ==> f in Files(m.groups, false) || f in Files(m.groups, true)
    ensures r.Some? ==> r.value.serial == Keep(files, Elements(Files(m.groups, false)))
    ensures r.Some? ==>
      Joined(r.value.shards) == Keep(Files(m.groups, true), Elements(files) - Elements(Files(m.groups, false)))
    ensures r.Some? && NoRepeats(files) ==>
      (multiset(r.value.serial + Joined(r.value.shards)) == multiset(files) <==>
       forall f :: f in files && f !in Files(m.groups, false) ==> multiset(Files(m.groups, true))[f] == 1)
  {
    hide Files, Keep, Joined, ShardsValid;
    var owned := Elements(Files(m.groups, false));
    var serial := Keep(files, owned);
    var others := Elements(files) - owned;
    var parallel := Keep(files, others);
    AssignedIs(files, others);
    var shards := ParallelShards(m, parallel);
    assert Elements(parallel) == others;
    if shards.None? {
      return None;
    }
    r := Some(Plan(serial, shards.value));
    LanesPartitionIff(m, files, r.value);
  }

  /** The lanes hold every file exactly once if and only if every file outside the serial lane has
      exactly one parallel owner. */
  lemma LanesPartitionIff(m: Manifest, files: seq<string>, plan: Plan)
    requires plan.serial == Keep(files, Elements(Files(m.groups, false)))
    requires Joined(plan.shards) == Keep(Files(m.groups, true), Elements(files) - Elements(Files(m.groups, false)))
    ensures NoRepeats(files) ==>
      (multiset(plan.serial + Joined(plan.shards)) == multiset(files) <==>
       forall f :: f in files && f !in Files(m.groups, false) ==> multiset(Files(m.groups, true))[f] == 1)
  {
    hide Files, Keep, Joined;
    var serial, others := Elements(Files(m.groups, false)), Elements(files) - Elements(Files(m.groups, false));
    var all := plan.serial + Joined(plan.shards);
    forall x
      ensures multiset(all)[x] ==
              (if x in serial then multiset(files)[x] else 0) + (if x in others then multiset(Files(m.groups, true))[x] else 0)
    {
      KeepCount(files, serial, x);
      KeepCount(Files(m.groups, true), others, x);
    }
    if NoRepeats(files) {
      if forall f :: f in files && f !in Files(m.groups, false) ==> multiset(Files(m.groups, true))[f] == 1 {
        assert forall x :: multiset(all)[x] == multiset(files)[x];
      }
      if multiset(all) == multiset(files) {
        forall f | f in files && f !in Files(m.groups, false)
          ensures multiset(Files(m.groups, true))[f] == 1
        {
          assert multiset(all)[f] == 1;
        }
      }
    }
  }

  // ----- completeness of the manifest -----

  /** `check_completeness` reports nothing: `disk` are the test files on disk, `using` those that
      reference the shared fixtures. */
  ghost predicate Complete(m: Manifest, disk: set<string>, using: set<string>) {
    && Elements(m.consumers) == using && Elements(m.consumers) <= disk
    && (forall f :: multiset(Files(m.groups, true))[f] + multiset(Files(m.groups, false))[f] <= 1)
    && Owned(m.groups) == disk
    && Elements(m.safetyBundle) <= Owned(m.groups)
    && (forall p :: p in m.coverage ==> Elements(m.coverage[p]) <= disk)
  }

  /** A lane holds the files of its groups, as often as they list them. */
  lemma {:induction false} FilesAre(groups: seq<Group>, parallel: bool, f: string)
    ensures f in Files(groups, parallel) <==> exists i :: 0 <= i < |groups| && groups[i].parallel == parallel && f in groups[i].testFiles
  {
    if groups != [] {
      FilesAre(groups[1..], parallel, f);
      if i :| 0 <= i < |groups| && groups[i].parallel == parallel && f in groups[i].testFiles {
        assert i > 0 ==> groups[1..][i - 1] == groups[i];
      }
      if i :| 0 <= i < |groups[1..]| && groups[1..][i].parallel == parallel && f in groups[1..][i].testFiles {
        assert groups[i + 1] == groups[1..][i];
      }
    }
  }

  lemma {:induction false} OwnedFiles(groups: seq<Group>)
    ensures Owned(groups) == Elements(Files(groups, true)) + Elements(Files(groups, false))
  {
    if groups != [] {
      OwnedFiles(groups[1..]);
    }
  }

  /** A complete manifest and valid sizes: any list of distinct files is scheduled exactly once each,
      unless one of them is not owned by any group, and then nothing is scheduled. */
  lemma CompleteSchedules(m: Manifest, disk: set<string>, using: set<string>, files: seq<string>)
    requires Complete(m, disk, using) && NoRepeats(files)
    ensures (forall f :: f in files ==> f in Files(m.groups, false) || f in Files(m.groups, true)) <==> Elements(files) <= disk
    ensures Elements(files) <= disk ==>
      forall f :: f in files && f !in Files(m.groups, false) ==> multiset(Files(m.groups, true))[f] == 1
  {
    hide Files;
    OwnedFiles(m.groups);
    assert forall f :: f in files <==> f in Elements(files);
  }

  /** Every selection of a complete manifest whose consumer table names existing tests lies inside the
      scheduled suite, so with the two results above each selected file runs exactly once. */
  lemma SelectionIsScheduled(hits: Matcher, m: Manifest, disk: set<string>, using: set<string>, changed: seq<string>)
    requires Complete(m, disk, using) && forall p :: p in m.direct ==> Elements(m.direct[p]) <= disk
    ensures Selected(hits, m, changed).files <= disk
    ensures Selected(hits, m, changed).wide ==> Selected(hits, m, changed).files == disk
  {
    hide Files, Owned, IsPackageModule, MatchesAny;
    assert Everything(m) == disk;
    assert MapsIntoSuite(hits, m);
    hide MapsIntoSuite, Affected, Elements, Everything;
    forall f | f in Reach(hits, m, changed)
      ensures f in disk
    {
      ReachIs(hits, m, changed, f);
      var p :| p in changed && Affected(hits, m, p).Some? && f in Affected(hits, m, p).value;
      AffectedInSuite(hits, m, p);
    }
  }

  /** `_run_in_lanes` on a selection: given a complete manifest, existing consumers and valid sizes,
      the serial lane and the shards together are a permutation of the selected files. */
  method ScheduleSelection(hits: Matcher, m: Manifest, ghost disk: set<string>, ghost using: set<string>, ghost changed: seq<string>, files: seq<string>)
    returns (plan: Plan)
    requires Complete(m, disk, using) && forall p :: p in m.direct ==> Elements(m.direct[p]) <= disk
    requires ShardsValid(m.groups)
    requires NoRepeats(files) && Elements(files) == Selected(hits, m, changed).files
    ensures multiset(plan.serial + Joined(plan.shards)) == multiset(files)
    ensures forall f :: f in plan.serial ==> f in Files(m.groups, false)
    ensures forall f :: f in Joined(plan.shards) ==> f in Files(m.groups, true) && f !in Files(m.groups, false)
  {
    hide Files, Keep, Joined, Selected, ShardsValid;
    SelectionIsScheduled(hits, m, disk, using, changed);
    CompleteSchedules(m, disk, using, files);
    hide Complete;
    var r := PlanLanes(m, files);
    plan := r.value;
    AssignedIs(files, Elements(Files(m.groups, false)));
    AssignedIs(Files(m.groups, true), Elements(files) - Elements(Files(m.groups, false)));
  }
}
