/** Which test files a change selects: precise where the blast radius is known, everything where it
    is not.

    The result is a set of files; the program sorts it.  Glob tests go through a matcher that is the
    compiled expression of module `Glob`. */
module TestSelection {
  import opened Options
  import opened Glob

  const CONFTEST_PATH := "tests/conftest.py"
  const ALWAYS_WIDE := ["pyproject.toml", "uv.lock"]
  const PACKAGE_PREFIX := "src/repoforge/"

  datatype Group = Group(name: string, parallel: bool, sourceGlobs: seq<string>, testFiles: seq<string>, shardSizes: seq<int>)

  /** `direct` is the reviewed table of additional consumers. */
  datatype Manifest = Manifest(
    groups: seq<Group>,
    safetyBundle: seq<string>,
    consumers: seq<string>,
    coverage: map<string, seq<string>>,
    direct: map<string, seq<string>>)

  datatype Selection = Selection(files: set<string>, wide: bool)

  /** `re.match` of a compiled glob. */
  type Matcher = (string, string) -> bool

  ghost predicate IsMatcher(hits: Matcher) {
    forall glob, path :: hits(glob, path) <==> Accepts(Parts(glob), path)
  }

  function Elements(s: seq<string>): set<string> {
    set x | x in s
  }

  predicate MatchesAny(hits: Matcher, path: string, globs: seq<string>) {
    exists i :: 0 <= i < |globs| && hits(globs[i], path)
  }

  /** The files of all groups. */
  function Owned(groups: seq<Group>): set<string> {
    if groups == [] then {} else Elements(groups[0].testFiles) + Owned(groups[1..])
  }

  /** The whole suite. */
  function Everything(m: Manifest): set<string> {
    Owned(m.groups) + Elements(m.safetyBundle) + Elements(m.consumers)
  }

  // ----- what one changed path selects; `None` when its blast radius is unknown -----

  predicate IsPackageModule(path: string) {
    PACKAGE_PREFIX <= path && |path| >= 3 && path[|path| - 3..] == ".py"
  }

  function Lookup(table: map<string, seq<string>>, path: string): set<string> {
    if path in table then Elements(table[path]) else {}
  }

  /** The groups whose globs match. */
  function Matching(hits: Matcher, groups: seq<Group>, path: string): seq<Group> {
    if groups == [] then []
    else (if MatchesAny(hits, path, groups[0].sourceGlobs) then [groups[0]] else []) + Matching(hits, groups[1..], path)
  }

  /** The groups that name the path exactly. */
  function Naming(groups: seq<Group>, path: string): seq<Group> {
    if groups == [] then []
    else (if path in groups[0].sourceGlobs then [groups[0]] else []) + Naming(groups[1..], path)
  }

  /** `_exact_reviewed_group_owner`. */
  function ExactOwner(m: Manifest, path: string): Option<Group> {
    var owners := Naming(m.groups, path);
    if |owners| == 1 then Some(owners[0]) else None
  }

  function ByGlobs(hits: Matcher, m: Manifest, path: string): Option<set<string>> {
    var matching := Matching(hits, m.groups, path);
    if matching == [] then None else Some(Owned(matching))
  }

  function ByCoverage(hits: Matcher, m: Manifest, path: string): Option<set<string>> {
    if path in Owned(m.groups) then Some({path})
    else if IsPackageModule(path) then
      if path !in m.coverage && (path !in m.direct || m.direct[path] == []) then
        match ExactOwner(m, path)
        case None => None
        case Some(group) => Some(Elements(group.testFiles))
      else Some(Lookup(m.coverage, path) + Lookup(m.direct, path))
    else ByGlobs(hits, m, path)
  }

  function Affected(hits: Matcher, m: Manifest, path: string): Option<set<string>> {
    if path == CONFTEST_PATH then Some(Elements(m.consumers))
    else if MatchesAny(hits, path, ALWAYS_WIDE) then None
    else if m.coverage != map[] then ByCoverage(hits, m, path)
    else ByGlobs(hits, m, path)
  }

  // ----- the selection -----

  /** Some changed path has an unknown blast radius or affects the build itself. */
  predicate Escalates(hits: Matcher, m: Manifest, changed: seq<string>) {
    exists i :: 0 <= i < |changed| && Affected(hits, m, changed[i]).None?
  }

  /** The files a list of changed paths is known to affect. */
  ghost function Reach(hits: Matcher, m: Manifest, changed: seq<string>): set<string> {
    set i, f | 0 <= i < |changed| && Affected(hits, m, changed[i]).Some? && f in Affected(hits, m, changed[i]).value :: f
  }

  ghost function Selected(hits: Matcher, m: Manifest, changed: seq<string>): Selection {
    if Escalates(hits, m, changed) then Selection(Everything(m), true)
    else Selection(Elements(m.safetyBundle) + Reach(hits, m, changed), false)
  }

  // ----- the loops -----

  lemma {:induction false} OwnedIs(groups: seq<Group>, file: string)
    ensures file in Owned(groups) <==> exists i :: 0 <= i < |groups| && file in groups[i].testFiles
  {
    if groups != [] {
      OwnedIs(groups[1..], file);
      assert groups == [groups[0]] + groups[1..];
      if exists i :: 0 <= i < |groups| && file in groups[i].testFiles {
        var i :| 0 <= i < |groups| && file in groups[i].testFiles;
        assert i > 0 ==> groups[1..][i - 1] == groups[i];
      }
    }
  }

  lemma {:induction false} OwnedMatching(hits: Matcher, groups: seq<Group>, path: string, file: string)
    ensures file in Owned(Matching(hits, groups, path)) <==>
            exists i :: 0 <= i < |groups| && MatchesAny(hits, path, groups[i].sourceGlobs) && file in groups[i].testFiles
    ensures Matching(hits, groups, path) == [] <==> forall i :: 0 <= i < |groups| ==> !MatchesAny(hits, path, groups[i].sourceGlobs)
  {
    hide MatchesAny;
    if groups != [] {
      var rest := Matching(hits, groups[1..], path);
      OwnedMatching(hits, groups[1..], path, file);
      assert groups == [groups[0]] + groups[1..];
      assert MatchesAny(hits, path, groups[0].sourceGlobs) ==> ([groups[0]] + rest)[1..] == rest;
      assert [] + rest == rest;
      forall i | 0 < i < |groups|
        ensures groups[1..][i - 1] == groups[i]
      {
      }
      if exists i :: 0 <= i < |groups| && MatchesAny(hits, path, groups[i].sourceGlobs) && file in groups[i].testFiles {
        var i :| 0 <= i < |groups| && MatchesAny(hits, path, groups[i].sourceGlobs) && file in groups[i].testFiles;
        assert i > 0 ==> groups[1..][i - 1] == groups[i];
      }
    }
  }

  function Known(hits: Matcher, m: Manifest, viaCoverage: bool, path: string): Option<set<string>> {
    if viaCoverage then ByCoverage(hits, m, path) else ByGlobs(hits, m, path)
  }

  /** What the paths select together. */
  function Gather(hits: Matcher, m: Manifest, viaCoverage: bool, paths: seq<string>): set<string> {
    if paths == [] then {}
    else
      var last := Known(hits, m, viaCoverage, paths[|paths| - 1]);
      Gather(hits, m, viaCoverage, paths[..|paths| - 1]) + if last.Some? then last.value else {}
  }

  function Finish(hits: Matcher, m: Manifest, viaCoverage: bool, paths: seq<string>, conftestChanged: bool): Selection {
    if exists i :: 0 <= i < |paths| && Known(hits, m, viaCoverage, paths[i]).None? then Selection(Everything(m), true)
    else
      Selection(Elements(m.safetyBundle) + Gather(hits, m, viaCoverage, paths) +
                (if conftestChanged then Elements(m.consumers) else {}), false)
  }

  /** The inner loop over the groups: the files of every group that matches the path. */
  method MatchGroups(hits: Matcher, m: Manifest, path: string) returns (matched: bool, files: set<string>)
    ensures matched == ByGlobs(hits, m, path).Some?
    ensures files == if matched then ByGlobs(hits, m, path).value else {}
  {
    hide MatchesAny;
    matched, files := false, {};
    var i := 0;
    while i < |m.groups|
      invariant 0 <= i <= |m.groups|
      invariant matched <==> exists k :: 0 <= k < i && MatchesAny(hits, path, m.groups[k].sourceGlobs)
      invariant forall f :: f in files <==>
        exists k :: 0 <= k < i && MatchesAny(hits, path, m.groups[k].sourceGlobs) && f in m.groups[k].testFiles
    {
      if MatchesAny(hits, path, m.groups[i].sourceGlobs) {
        matched := true;
        files := files + Elements(m.groups[i].testFiles);
      }
      i := i + 1;
    }
    OwnedMatching(hits, m.groups, path, "");
    forall f
      ensures f in files <==> f in Owned(Matching(hits, m.groups, path))
    {
      OwnedMatching(hits, m.groups, path, f);
    }
  }

  /** `_select_via_coverage`. */
  method SelectViaCoverage(hits: Matcher, m: Manifest, paths: seq<string>, conftestChanged: bool) returns (s: Selection)
    ensures s == Finish(hits, m, true, paths, conftestChanged)
  {
    hide Owned, ByGlobs, IsPackageModule, ExactOwner, Everything;
    var files := Elements(m.safetyBundle);
    var reviewed := Owned(m.groups);
    var unmapped := [];
    var i := 0;
    while i < |paths|
      invariant 0 <= i <= |paths|
      invariant files == Elements(m.safetyBundle) + Gather(hits, m, true, paths[..i])
      invariant unmapped == [] <==> forall k :: 0 <= k < i ==> Known(hits, m, true, paths[k]).Some?
    {
      var path := paths[i];
      assert paths[..i + 1][..i] == paths[..i];
      if path in reviewed {
        files := files + {path};
      } else if IsPackageModule(path) {
        var direct := if path in m.direct then m.direct[path] else [];
        if path !in m.coverage && direct == [] {
          var owner := ExactOwner(m, path);
          if owner.None? {
            unmapped := unmapped + [path];
          } else {
            files := files + Elements(owner.value.testFiles);
          }
        } else {
          files := files + Lookup(m.coverage, path) + Elements(direct);
        }
      } else {
        var matched, found := MatchGroups(hits, m, path);
        files := files + found;
        if !matched {
          unmapped := unmapped + [path];
        }
      }
      i := i + 1;
    }
    assert paths[..i] == paths;
    if unmapped != [] {
      return Selection(Everything(m), true);
    }
    if conftestChanged {
      files := files + Elements(m.consumers);
    }
    s := Selection(files, false);
  }

  /** The manifest is read from a table, so the names of its groups are distinct. */
  ghost predicate DistinctNames(m: Manifest) {
    forall i, j :: 0 <= i < j < |m.groups| ==> m.groups[i].name != m.groups[j].name
  }

  /** `group_by_name`: the first group of that name. */
  function GroupByName(groups: seq<Group>, name: string): (g: Group)
    requires exists i :: 0 <= i < |groups| && groups[i].name == name
    ensures g in groups && g.name == name
  {
    if groups[0].name == name then groups[0] else GroupByName(groups[1..], name)
  }

  /** The names a pass over the paths collects. */
  ghost predicate Named(hits: Matcher, m: Manifest, paths: seq<string>, name: string) {
    exists p, k :: p in paths && 0 <= k < |m.groups| && m.groups[k].name == name && MatchesAny(hits, p, m.groups[k].sourceGlobs)
  }

  lemma {:induction false} GatherIs(hits: Matcher, m: Manifest, viaCoverage: bool, paths: seq<string>, f: string)
    ensures f in Gather(hits, m, viaCoverage, paths) <==>
            exists p :: p in paths && Known(hits, m, viaCoverage, p).Some? && f in Known(hits, m, viaCoverage, p).value
  {
    hide Known;
    if paths != [] {
      var init, last := paths[..|paths| - 1], paths[|paths| - 1];
      GatherIs(hits, m, viaCoverage, init, f);
      assert paths == init + [last];
    }
  }

  lemma GroupIsUnique(m: Manifest, i: nat)
    requires DistinctNames(m) && i < |m.groups|
    ensures GroupByName(m.groups, m.groups[i].name) == m.groups[i]
  {
  }

  /** With distinct names, the groups collected by name own exactly what the paths select. */
  lemma NamedOwn(hits: Matcher, m: Manifest, paths: seq<string>, f: string)
    requires DistinctNames(m)
    ensures f in Gather(hits, m, false, paths) <==>
            exists i :: 0 <= i < |m.groups| && Named(hits, m, paths, m.groups[i].name) && f in m.groups[i].testFiles
  {
    hide MatchesAny;
    GatherIs(hits, m, false, paths, f);
    if f in Gather(hits, m, false, paths) {
      var p :| p in paths && Known(hits, m, false, p).Some? && f in Known(hits, m, false, p).value;
      OwnedMatching(hits, m.groups, p, f);
    }
    if i :| 0 <= i < |m.groups| && Named(hits, m, paths, m.groups[i].name) && f in m.groups[i].testFiles {
      var p, k :| p in paths && 0 <= k < |m.groups| && m.groups[k].name == m.groups[i].name && MatchesAny(hits, p, m.groups[k].sourceGlobs);
      assert k == i;
      OwnedMatching(hits, m.groups, p, f);
    }
  }

  /** The names of the groups that match one path. */
  method MatchNames(hits: Matcher, m: Manifest, path: string) returns (matched: bool, names: set<string>)
    ensures matched == ByGlobs(hits, m, path).Some?
    ensures forall name :: name in names <==> Named(hits, m, [path], name)
  {
    hide MatchesAny;
    matched, names := false, {};
    var i := 0;
    while i < |m.groups|
      invariant 0 <= i <= |m.groups|
      invariant matched <==> exists k :: 0 <= k < i && MatchesAny(hits, path, m.groups[k].sourceGlobs)
      invariant forall name :: name in names <==>
        exists k :: 0 <= k < i && m.groups[k].name == name && MatchesAny(hits, path, m.groups[k].sourceGlobs)
    {
      if MatchesAny(hits, path, m.groups[i].sourceGlobs) {
        matched := true;
        names := names + {m.groups[i].name};
      }
      i := i + 1;
    }
    OwnedMatching(hits, m.groups, path, "");
    assert path in [path];
  }

  /** `_select_via_groups`. */
  method SelectViaGroups(hits: Matcher, m: Manifest, paths: seq<string>, conftestChanged: bool) returns (s: Selection)
    requires DistinctNames(m)
    ensures s == Finish(hits, m, false, paths, conftestChanged)
  {
    hide MatchesAny, ByGlobs, Everything, Gather;
    var names: set<string>, unmapped: seq<string> := {}, [];
    var i := 0;
    while i < |paths|
      invariant 0 <= i <= |paths|
      invariant forall name :: name in names <==> Named(hits, m, paths[..i], name)
      invariant unmapped == [] <==> forall k :: 0 <= k < i ==> Known(hits, m, false, paths[k]).Some?
    {
      var matched, found := MatchNames(hits, m, paths[i]);
      NamedSnoc(hits, m, paths[..i], paths[i]);
      assert paths[..i + 1] == paths[..i] + [paths[i]];
      hide Named;
      names := names + found;
      if !matched {
        unmapped := unmapped + [paths[i]];
      }
      i := i + 1;
    }
    assert paths[..i] == paths;
    if unmapped != [] {
      return Selection(Everything(m), true);
    }
    hide Named, Known;
    var files := Elements(m.safetyBundle);
    var g := 0;
    while g < |m.groups|
      invariant 0 <= g <= |m.groups|
      invariant forall f :: f in files <==>
        f in m.safetyBundle || exists k :: 0 <= k < g && Named(hits, m, paths, m.groups[k].name) && f in m.groups[k].testFiles
    {
      if m.groups[g].name in names {
        GroupIsUnique(m, g);
        files := files + Elements(GroupByName(m.groups, m.groups[g].name).testFiles);
      }
      g := g + 1;
    }
    forall f
      ensures f in files <==> f in Elements(m.safetyBundle) + Gather(hits, m, false, paths)
    {
      NamedOwn(hits, m, paths, f);
    }
    if conftestChanged {
      files := files + Elements(m.consumers);
    }
    s := Selection(files, false);
  }

  lemma NamedSnoc(hits: Matcher, m: Manifest, paths: seq<string>, path: string)
    ensures forall name :: Named(hits, m, paths + [path], name) <==> Named(hits, m, paths, name) || Named(hits, m, [path], name)
  {
    hide MatchesAny;
    forall name
      ensures Named(hits, m, paths + [path], name) <==> Named(hits, m, paths, name) || Named(hits, m, [path], name)
    {
      assert path in [path] && path in paths + [path];
      if Named(hits, m, paths + [path], name) {
        var p, k :| p in paths + [path] && 0 <= k < |m.groups| && m.groups[k].name == name && MatchesAny(hits, p, m.groups[k].sourceGlobs);
        assert p in paths || p in [path];
      }
      if Named(hits, m, paths, name) {
        var p, k :| p in paths && 0 <= k < |m.groups| && m.groups[k].name == name && MatchesAny(hits, p, m.groups[k].sourceGlobs);
        assert p in paths + [path];
      }
      if Named(hits, m, [path], name) {
        var p, k :| p in [path] && 0 <= k < |m.groups| && m.groups[k].name == name && MatchesAny(hits, p, m.groups[k].sourceGlobs);
        assert p == path;
      }
    }
  }

  // ----- the selection as a whole -----

  lemma WideIsUnknown(hits: Matcher, m: Manifest, path: string)
    requires path != CONFTEST_PATH && MatchesAny(hits, path, ALWAYS_WIDE)
    ensures Affected(hits, m, path).None?
  {
    hide MatchesAny;
  }

  /** `select_affected_tests`. */
  method SelectAffectedTests(hits: Matcher, m: Manifest, changed: seq<string>) returns (s: Selection)
    requires DistinctNames(m)
    ensures s == Selected(hits, m, changed)
  {
    hide MatchesAny, Finish, Everything, Affected;
    if changed == [] {
      return Selection(Elements(m.safetyBundle), false);
    }
    var remaining: seq<string> := [];
    var i := 0;
    while i < |changed|
      invariant 0 <= i <= |changed|
      invariant forall p :: p in remaining <==> p in changed[..i] && p != CONFTEST_PATH
    {
      if changed[i] != CONFTEST_PATH {
        remaining := remaining + [changed[i]];
      }
      i := i + 1;
    }
    assert changed[..i] == changed;
    i := 0;
    while i < |remaining|
      invariant 0 <= i <= |remaining|
      invariant forall k :: 0 <= k < i ==> !MatchesAny(hits, remaining[k], ALWAYS_WIDE)
    {
      if MatchesAny(hits, remaining[i], ALWAYS_WIDE) {
        assert remaining[i] in remaining;
        assert remaining[i] in changed && remaining[i] != CONFTEST_PATH;
        WideIsUnknown(hits, m, remaining[i]);
        return Selection(Everything(m), true);
      }
      i := i + 1;
    }
    ReachSplits(hits, m, changed, remaining, m.coverage != map[]);
    hide Selected;
    if m.coverage != map[] {
      s := SelectViaCoverage(hits, m, remaining, CONFTEST_PATH in changed);
    } else {
      s := SelectViaGroups(hits, m, remaining, CONFTEST_PATH in changed);
    }
  }

  lemma ReachSplits(hits: Matcher, m: Manifest, changed: seq<string>, rest: seq<string>, viaCoverage: bool)
    requires forall p :: p in rest <==> p in changed && p != CONFTEST_PATH
    requires forall p :: p in rest ==> !MatchesAny(hits, p, ALWAYS_WIDE)
    requires viaCoverage == (m.coverage != map[])
    ensures Selected(hits, m, changed) == Finish(hits, m, viaCoverage, rest, CONFTEST_PATH in changed)
  {
    hide Known, MatchesAny, Everything, Elements;
    forall p | p in rest
      ensures Affected(hits, m, p) == Known(hits, m, viaCoverage, p)
    {
      KnownIs(hits, m, p);
    }
    assert Affected(hits, m, CONFTEST_PATH) == Some(Elements(m.consumers));
    hide Affected;
    var bad := exists i :: 0 <= i < |rest| && Known(hits, m, viaCoverage, rest[i]).None?;
    assert Escalates(hits, m, changed) <==> bad by {
      if bad {
        var i :| 0 <= i < |rest| && Known(hits, m, viaCoverage, rest[i]).None?;
        assert rest[i] in changed;
      }
      if Escalates(hits, m, changed) {
        var i :| 0 <= i < |changed| && Affected(hits, m, changed[i]).None?;
        assert changed[i] in rest;
      }
    }
    if !bad {
      forall f
        ensures f in Reach(hits, m, changed) <==>
                f in Gather(hits, m, viaCoverage, rest) || (CONFTEST_PATH in changed && f in Elements(m.consumers))
      {
        GatherIs(hits, m, viaCoverage, rest, f);
        ReachIs(hits, m, changed, f);
      }
    }
  }

  lemma KnownIs(hits: Matcher, m: Manifest, path: string)
    requires path != CONFTEST_PATH && !MatchesAny(hits, path, ALWAYS_WIDE)
    ensures Affected(hits, m, path) == Known(hits, m, m.coverage != map[], path)
  {
    hide MatchesAny, ByCoverage, ByGlobs;
  }

  lemma ReachIs(hits: Matcher, m: Manifest, changed: seq<string>, f: string)
    ensures f in Reach(hits, m, changed) <==>
            exists p :: p in changed && Affected(hits, m, p).Some? && f in Affected(hits, m, p).value
  {
    hide Affected;
    if exists p :: p in changed && Affected(hits, m, p).Some? && f in Affected(hits, m, p).value {
      var p :| p in changed && Affected(hits, m, p).Some? && f in Affected(hits, m, p).value;
      var i :| 0 <= i < |changed| && changed[i] == p;
      assert Affected(hits, m, changed[i]).Some? && f in Affected(hits, m, changed[i]).value;
    }
  }

  // ----- what the selection promises -----

  /** Only which paths changed matters, not their order or repetition. */
  lemma OrderIsIrrelevant(hits: Matcher, m: Manifest, a: seq<string>, b: seq<string>)
    requires forall p :: p in a <==> p in b
    ensures Selected(hits, m, a) == Selected(hits, m, b)
  {
    hide Affected, Everything;
    EscalatesIs(hits, m, a);
    EscalatesIs(hits, m, b);
    forall f
      ensures f in Reach(hits, m, a) <==> f in Reach(hits, m, b)
    {
      ReachIs(hits, m, a, f);
      ReachIs(hits, m, b, f);
    }
  }

  lemma EscalatesIs(hits: Matcher, m: Manifest, changed: seq<string>)
    ensures Escalates(hits, m, changed) <==> exists p :: p in changed && Affected(hits, m, p).None?
  {
    hide Affected;
    if p :| p in changed && Affected(hits, m, p).None? {
      var i :| 0 <= i < |changed| && changed[i] == p;
      assert Affected(hits, m, changed[i]).None?;
    }
  }

  /** Fail-closed: the whole suite is selected exactly when some path is always-wide or has no known
      blast radius; otherwise every path's known blast radius and the safety bundle are included. */
  lemma FailsClosed(hits: Matcher, m: Manifest, changed: seq<string>)
    ensures
      var s := Selected(hits, m, changed);
      && (s.wide <==> exists p :: p in changed && Affected(hits, m, p).None?)
      && (s.wide ==> s.files == Everything(m))
      && (!s.wide ==> forall p :: p in changed ==> Affected(hits, m, p).value <= s.files)
      && Elements(m.safetyBundle) <= s.files
  {
    hide Affected, Elements;
    EscalatesIs(hits, m, changed);
    if !Escalates(hits, m, changed) {
      forall p, f | p in changed && f in Affected(hits, m, p).value
        ensures f in Reach(hits, m, changed)
      {
        ReachIs(hits, m, changed, f);
      }
    }
  }

  /** The build files, as their compiled globs accept them. */
  predicate IsBuildFile(path: string) {
    path == "pyproject.toml" || path == "pyproject.toml" + "\n" || path == "uv.lock" || path == "uv.lock" + "\n"
  }

  /** Some group has a glob that accepts the path. */
  ghost predicate SomeGlob(m: Manifest, path: string) {
    exists k :: 0 <= k < |m.groups| && Covers(m.groups[k], path)
  }

  ghost predicate Covers(group: Group, path: string) {
    exists g :: g in group.sourceGlobs && Accepts(Parts(g), path)
  }

  /** The path is a test file of some group. */
  predicate IsTest(m: Manifest, path: string) {
    exists k :: 0 <= k < |m.groups| && path in m.groups[k].testFiles
  }

  /** A Python file inside the package. */
  ghost predicate InPackage(path: string) {
    exists name :: path == "src/repoforge/" + name + ".py"
  }

  /** Neither the coverage map nor the reviewed table says who uses the module. */
  predicate Uncharted(m: Manifest, path: string) {
    path !in m.coverage && (path !in m.direct || m.direct[path] == [])
  }

  predicate Names(group: Group, path: string) {
    path in group.sourceGlobs
  }

  /** The one group that names the path itself, not by a pattern. */
  predicate OnlyNamedBy(groups: seq<Group>, path: string, k: int) {
    && 0 <= k < |groups| && Names(groups[k], path)
    && forall j :: 0 <= j < |groups| && Names(groups[j], path) ==> j == k
  }

  /** No rule of the manifest says what the path affects. */
  ghost predicate Unmapped(m: Manifest, path: string) {
    if m.coverage == map[] then !SomeGlob(m, path)
    else
      && !IsTest(m, path)
      && if InPackage(path) then Uncharted(m, path) && !exists k :: OnlyNamedBy(m.groups, path, k)
         else !SomeGlob(m, path)
  }

  /** The path affects the test file, by the rules of the manifest. */
  ghost predicate Brings(m: Manifest, path: string, file: string) {
    if path == "tests/conftest.py" then file in m.consumers
    else if m.coverage != map[] && IsTest(m, path) then file == path
    else if m.coverage != map[] && InPackage(path) then
      if Uncharted(m, path) then exists k :: OnlyNamedBy(m.groups, path, k) && file in m.groups[k].testFiles
      else (path in m.coverage && file in m.coverage[path]) || (path in m.direct && file in m.direct[path])
    else exists k :: 0 <= k < |m.groups| && Covers(m.groups[k], path) && file in m.groups[k].testFiles
  }

  lemma PackageModuleIff(path: string)
    ensures IsPackageModule(path) <==> InPackage(path)
  {
    if IsPackageModule(path) {
      assert path[13] == '/';
      assert |path| >= 17;
      assert path == "src/repoforge/" + path[14..|path| - 3] + ".py";
    }
    if name :| path == "src/repoforge/" + name + ".py" {
      assert path[|path| - 3..] == ".py" && path[..14] == PACKAGE_PREFIX;
    }
  }

  lemma {:induction false} NamingNone(groups: seq<Group>, path: string)
    ensures Naming(groups, path) == [] <==> forall k :: 0 <= k < |groups| ==> !Names(groups[k], path)
  {
    if groups != [] {
      NamingNone(groups[1..], path);
      assert forall k :: 0 < k < |groups| ==> groups[k] == groups[1..][k - 1];
    }
  }

  lemma OnlyNamedTail(groups: seq<Group>, path: string, k: int)
    requires groups != []
    ensures OnlyNamedBy(groups, path, k) <==>
      if Names(groups[0], path) then k == 0 && forall j :: 0 <= j < |groups[1..]| ==> !Names(groups[1..][j], path)
      else OnlyNamedBy(groups[1..], path, k - 1)
  {
    hide Names;
    assert forall j :: 0 < j < |groups| ==> groups[j] == groups[1..][j - 1];
  }

  lemma {:induction false} NamingOne(groups: seq<Group>, path: string)
    ensures |Naming(groups, path)| == 1 <==> exists k :: OnlyNamedBy(groups, path, k)
    ensures forall k :: OnlyNamedBy(groups, path, k) ==> |Naming(groups, path)| == 1 && Naming(groups, path)[0] == groups[k]
  {
    if groups != [] {
      NamingOne(groups[1..], path);
      NamingNone(groups[1..], path);
      assert Naming(groups, path) == (if Names(groups[0], path) then [groups[0]] else []) + Naming(groups[1..], path);
      hide Naming, OnlyNamedBy, Names;
      OnlyNamedTail(groups, path, 0);
      forall k | OnlyNamedBy(groups, path, k)
        ensures |Naming(groups, path)| == 1 && Naming(groups, path)[0] == groups[k]
      {
        OnlyNamedTail(groups, path, k);
        KeyInRange(groups, path, k);
        assert k > 0 ==> groups[k] == groups[1..][k - 1];
      }
      if |Naming(groups, path)| == 1 && !Names(groups[0], path) {
        var k :| OnlyNamedBy(groups[1..], path, k);
        OnlyNamedTail(groups, path, k + 1);
      }
    }
  }

  lemma KeyInRange(groups: seq<Group>, path: string, k: int)
    requires OnlyNamedBy(groups, path, k)
    ensures 0 <= k < |groups| && Names(groups[k], path)
  {
  }

  lemma BuildFileIff(hits: Matcher, path: string)
    requires IsMatcher(hits)
    ensures MatchesAny(hits, path, ALWAYS_WIDE) <==> IsBuildFile(path)
  {
    assert IsLiteral(ALWAYS_WIDE[0]) && IsLiteral(ALWAYS_WIDE[1]);
    OneLiteral(hits, ALWAYS_WIDE[0], path);
    OneLiteral(hits, ALWAYS_WIDE[1], path);
    assert |ALWAYS_WIDE| == 2;
    hide IsMatcher, IsLiteral;
  }

  lemma OneLiteral(hits: Matcher, glob: string, path: string)
    requires IsMatcher(hits) && IsLiteral(glob)
    ensures hits(glob, path) <==> path == glob || path == glob + "\n"
  {
    LiteralAcceptsItself(glob, path);
    hide Accepts, Parts;
  }

  lemma CoversIff(hits: Matcher, group: Group, path: string)
    requires IsMatcher(hits)
    ensures MatchesAny(hits, path, group.sourceGlobs) <==> Covers(group, path)
  {
    hide Accepts, Parts;
    if g :| g in group.sourceGlobs && Accepts(Parts(g), path) {
      var i :| 0 <= i < |group.sourceGlobs| && group.sourceGlobs[i] == g;
      assert hits(group.sourceGlobs[i], path);
    }
  }

  lemma GlobsIff(hits: Matcher, m: Manifest, path: string, file: string)
    requires IsMatcher(hits)
    ensures ByGlobs(hits, m, path).Some? <==> SomeGlob(m, path)
    ensures ByGlobs(hits, m, path).Some? ==>
      (file in ByGlobs(hits, m, path).value <==> exists k :: 0 <= k < |m.groups| && Covers(m.groups[k], path) && file in m.groups[k].testFiles)
  {
    OwnedMatching(hits, m.groups, path, file);
    forall k | 0 <= k < |m.groups|
      ensures MatchesAny(hits, path, m.groups[k].sourceGlobs) <==> Covers(m.groups[k], path)
    {
      CoversIff(hits, m.groups[k], path);
    }
    hide Covers, MatchesAny, Matching, Owned, IsMatcher;
  }

  /** With a coverage map. */
  lemma CoverageIff(hits: Matcher, m: Manifest, path: string, file: string)
    requires IsMatcher(hits) && m.coverage != map[] && path != CONFTEST_PATH
    ensures ByCoverage(hits, m, path).None? <==> Unmapped(m, path)
    ensures ByCoverage(hits, m, path).Some? ==> (file in ByCoverage(hits, m, path).value <==> Brings(m, path, file))
  {
    GlobsIff(hits, m, path, file);
    OwnedIs(m.groups, path);
    PackageModuleIff(path);
    NamingOne(m.groups, path);
    hide IsMatcher, ByGlobs, Owned, IsPackageModule, InPackage, Naming, SomeGlob, OnlyNamedBy, Covers;
  }

  /** What one changed path affects, by the rules of the manifest. */
  lemma AffectedIs(hits: Matcher, m: Manifest, path: string, file: string)
    requires IsMatcher(hits)
    ensures Affected(hits, m, path).None? <==> path != "tests/conftest.py" && (IsBuildFile(path) || Unmapped(m, path))
    ensures Affected(hits, m, path).Some? ==> (file in Affected(hits, m, path).value <==> Brings(m, path, file))
  {
    BuildFileIff(hits, path);
    GlobsIff(hits, m, path, file);
    if m.coverage != map[] && path != CONFTEST_PATH {
      CoverageIff(hits, m, path, file);
    }
    hide MatchesAny, IsBuildFile, SomeGlob, IsMatcher, ByGlobs, ByCoverage, IsTest, InPackage, Covers;
  }

  /** Fail-closed, in terms of the manifest: the whole suite is selected exactly when some changed path is
      a build file or unmapped; `tests/conftest.py` alone never widens. */
  lemma WholeSuiteIff(hits: Matcher, m: Manifest, changed: seq<string>)
    requires IsMatcher(hits)
    ensures
      Selected(hits, m, changed).wide <==>
      exists p :: p in changed && p != "tests/conftest.py" && (IsBuildFile(p) || Unmapped(m, p))
    ensures Selected(hits, m, changed).wide ==>
      forall f :: f in Selected(hits, m, changed).files <==> IsTest(m, f) || f in m.safetyBundle || f in m.consumers
  {
    FailsClosed(hits, m, changed);
    forall p
      ensures Affected(hits, m, p).None? <==> p != "tests/conftest.py" && (IsBuildFile(p) || Unmapped(m, p))
    {
      AffectedIs(hits, m, p, "");
    }
    hide Affected, Unmapped, IsMatcher, IsBuildFile, Selected;
    forall f
      ensures f in Owned(m.groups) <==> IsTest(m, f)
    {
      OwnedIs(m.groups, f);
    }
  }

  /** A narrow selection holds the safety bundle and what some changed path brings, and nothing else. */
  lemma NarrowSelectionIs(hits: Matcher, m: Manifest, changed: seq<string>)
    requires IsMatcher(hits) && !Selected(hits, m, changed).wide
    ensures forall f ::
      f in Selected(hits, m, changed).files <==> f in m.safetyBundle || exists p :: p in changed && Brings(m, p, f)
  {
    EscalatesIs(hits, m, changed);
    forall f
      ensures f in Selected(hits, m, changed).files <==> f in m.safetyBundle || exists p :: p in changed && Brings(m, p, f)
    {
      ReachIs(hits, m, changed, f);
      forall p | p in changed
        ensures Affected(hits, m, p).Some? && (f in Affected(hits, m, p).value <==> Brings(m, p, f))
      {
        AffectedIs(hits, m, p, f);
      }
      hide Affected, Brings, IsMatcher, Reach;
    }
  }

  /** Every test that the coverage map or the consumer table can select belongs to the suite. */
  ghost predicate MapsIntoSuite(hits: Matcher, m: Manifest) {
    m.coverage == map[] ||
    forall p :: (p in m.coverage || p in m.direct) && IsPackageModule(p) && p !in Owned(m.groups) && !MatchesAny(hits, p, ALWAYS_WIDE) ==>
      Lookup(m.coverage, p) + Lookup(m.direct, p) <= Everything(m)
  }

  lemma {:induction false} NamingOwned(groups: seq<Group>, path: string)
    ensures forall i :: 0 <= i < |Naming(groups, path)| ==> Elements(Naming(groups, path)[i].testFiles) <= Owned(groups)
  {
    hide Elements;
    if groups != [] {
      NamingOwned(groups[1..], path);
    }
  }

  lemma AffectedInSuite(hits: Matcher, m: Manifest, p: string)
    requires MapsIntoSuite(hits, m) && Affected(hits, m, p).Some?
    ensures Affected(hits, m, p).value <= Everything(m)
  {
    hide MatchesAny, IsPackageModule, Elements, Naming, Matching;
    NamingOwned(m.groups, p);
    if Affected(hits, m, p) == ByGlobs(hits, m, p) {
      forall f | f in Owned(Matching(hits, m.groups, p))
        ensures f in Owned(m.groups)
      {
        OwnedMatching(hits, m.groups, p, f);
        OwnedIs(m.groups, f);
      }
    }
  }

  /** Under that condition adding changed paths never removes a selected file. */
  lemma SelectionIsMonotone(hits: Matcher, m: Manifest, a: seq<string>, b: seq<string>)
    requires MapsIntoSuite(hits, m) && forall p :: p in a ==> p in b
    ensures Selected(hits, m, a).files <= Selected(hits, m, b).files
  {
    hide Affected, MapsIntoSuite, Elements;
    EscalatesIs(hits, m, a);
    EscalatesIs(hits, m, b);
    forall f | f in Reach(hits, m, a) && !Escalates(hits, m, a)
      ensures f in Reach(hits, m, b) && f in Everything(m)
    {
      ReachIs(hits, m, a, f);
      ReachIs(hits, m, b, f);
      var p :| p in a && Affected(hits, m, p).Some? && f in Affected(hits, m, p).value;
      AffectedInSuite(hits, m, p);
    }
  }

  lemma WidePath(hits: Matcher)
    requires IsMatcher(hits)
    ensures MatchesAny(hits, "uv.lock", ALWAYS_WIDE)
  {
    LiteralAcceptsItself("uv.lock", "uv.lock");
    assert hits(ALWAYS_WIDE[1], "uv.lock");
  }

  /** The condition is exact: selection is monotone if and only if it holds. */
  lemma MonotoneIff(hits: Matcher, m: Manifest)
    requires IsMatcher(hits)
    ensures
      MapsIntoSuite(hits, m) <==>
      forall a, b :: (forall p :: p in a ==> p in b) ==> Selected(hits, m, a).files <= Selected(hits, m, b).files
  {
    if MapsIntoSuite(hits, m) {
      forall a: seq<string>, b: seq<string> | forall p :: p in a ==> p in b
        ensures Selected(hits, m, a).files <= Selected(hits, m, b).files
      {
        SelectionIsMonotone(hits, m, a, b);
      }
    } else {
      EscapesSuite(hits, m);
    }
  }

  /** A file outside the suite is dropped when an always-wide path joins the change. */
  lemma EscapesSuite(hits: Matcher, m: Manifest)
    requires IsMatcher(hits) && !MapsIntoSuite(hits, m)
    ensures exists a, b :: (forall p :: p in a ==> p in b) && !(Selected(hits, m, a).files <= Selected(hits, m, b).files)
  {
    hide IsMatcher, MatchesAny, IsPackageModule, Owned, Lookup, Everything;
    var p :| (p in m.coverage || p in m.direct) && IsPackageModule(p) && p !in Owned(m.groups) && !MatchesAny(hits, p, ALWAYS_WIDE)
      && !(Lookup(m.coverage, p) + Lookup(m.direct, p) <= Everything(m));
    var f :| f in Lookup(m.coverage, p) + Lookup(m.direct, p) && f !in Everything(m);
    CoveredPath(hits, m, p, f);
    WidePath(hits);
    assert "uv.lock" != CONFTEST_PATH;
    assert Affected(hits, m, "uv.lock").None?;
    hide MapsIntoSuite, Affected;
    Dropped(hits, m, p, f);
  }

  lemma CoveredPath(hits: Matcher, m: Manifest, p: string, f: string)
    requires m.coverage != map[] && IsPackageModule(p) && p !in Owned(m.groups) && !MatchesAny(hits, p, ALWAYS_WIDE)
    requires f in Lookup(m.coverage, p) + Lookup(m.direct, p)
    ensures Affected(hits, m, p) == Some(Lookup(m.coverage, p) + Lookup(m.direct, p))
  {
    PackageIsNotConftest(p);
    hide MatchesAny, IsPackageModule, Owned;
  }

  lemma Dropped(hits: Matcher, m: Manifest, p: string, f: string)
    requires Affected(hits, m, p).Some? && f in Affected(hits, m, p).value && f !in Everything(m)
    requires Affected(hits, m, "uv.lock").None?
    ensures exists a, b :: (forall x :: x in a ==> x in b) && !(Selected(hits, m, a).files <= Selected(hits, m, b).files)
  {
    hide Affected, Everything;
    var a, b := [p], [p, "uv.lock"];
    EscalatesIs(hits, m, a);
    EscalatesIs(hits, m, b);
    ReachIs(hits, m, a, f);
    assert "uv.lock" in b && p in a;
    assert f in Selected(hits, m, a).files && f !in Selected(hits, m, b).files;
    assert forall x :: x in a ==> x in b;
  }

  lemma PackageIsNotConftest(p: string)
    requires IsPackageModule(p)
    ensures p != CONFTEST_PATH
  {
    assert p[0] == 's';
  }
}
