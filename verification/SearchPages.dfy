/** Resumable search: one page after another under count, byte and deadline limits shows exactly
    what one unbounded search finds.

    The clock is `late`: whether the deadline of the page has passed when path `i` is reached.  A
    cursor is the position it encodes (the codec is in module `Cursors`). */
module SearchPages {
  import opened Options
  import opened Ordering
  import opened SearchMatches

  datatype Position = Position(path: nat, item: nat)

  datatype Reason = SearchDeadlineExceeded | ResultCountLimit | ResultTransportBudget

  /** `omitted` counts the matches left in the path where the page stopped, `scanned` the paths
      searched up to there. */
  datatype Page = Page(matches: seq<Match>, next: Option<Position>, omitted: nat, reason: Option<Reason>, scanned: nat)

  datatype Failure = InvalidArguments | InvalidPosition | TransportBudgetExceeded | DeadlineExceeded

  datatype Outcome = Emitted(page: Page) | Refused(failure: Failure)

  datatype Limits = Limits(maxResults: int, budget: int, late: nat -> bool)

  predicate ValidLimits(l: Limits) {
    1 <= l.maxResults <= 200 && 1 <= l.budget <= 120_000
  }

  predicate ValidPosition(n: nat, p: Position) {
    p.path <= n && (p.path == n ==> p.item == 0)
  }

  // ----- the candidate paths and everything they match -----

  function Filter(w: World, paths: seq<string>): seq<string> {
    if paths == [] then [] else (if w.globbed(paths[0]) then [paths[0]] else []) + Filter(w, paths[1..])
  }

  /** The paths a page scans: each once, in order, restricted to the glob. */
  function Candidates(w: World, paths: seq<string>): seq<string> {
    Filter(w, Once(Sort(paths)))
  }

  lemma {:induction false} FilterCounts(w: World, paths: seq<string>, x: string)
    ensures multiset(Filter(w, paths))[x] == if w.globbed(x) then multiset(paths)[x] else 0
    ensures x in Filter(w, paths) <==> x in paths && w.globbed(x)
  {
    if paths != [] {
      FilterCounts(w, paths[1..], x);
      assert paths == [paths[0]] + paths[1..];
    }
  }

  lemma {:induction false} FilterKeeps(w: World, paths: seq<string>)
    requires Ascending(paths)
    ensures Ascending(Filter(w, paths))
  {
    if paths != [] {
      hide Below;
      FilterKeeps(w, paths[1..]);
      var rest := Filter(w, paths[1..]);
      forall j | 0 <= j < |rest|
        ensures Below(paths[0], rest[j])
      {
        FilterCounts(w, paths[1..], rest[j]);
        assert rest[j] in paths[1..];
      }
    }
  }

  /** The one-shot search goes over the listed paths that the glob accepts, as often as they are listed;
      a page goes over each of them once.  Both go in code-point order. */
  lemma {:induction false} CandidatesAre(w: World, paths: seq<string>)
    ensures
      var all, once := Filter(w, Sort(paths)), Candidates(w, paths);
      && Ascending(all) && (forall x :: multiset(all)[x] == if w.globbed(x) then multiset(paths)[x] else 0)
      && Ascending(once) && (forall x :: x in once <==> x in paths && w.globbed(x))
      && (forall i, j :: 0 <= i < j < |once| ==> once[i] != once[j])
  {
    SortIsSorted(paths);
    OnceKeeps(Sort(paths));
    FilterKeeps(w, Sort(paths));
    FilterKeeps(w, Once(Sort(paths)));
    forall x
      ensures multiset(Filter(w, Sort(paths)))[x] == if w.globbed(x) then multiset(paths)[x] else 0
    {
      FilterCounts(w, Sort(paths), x);
    }
    forall x
      ensures x in Candidates(w, paths) <==> x in Once(Sort(paths)) && w.globbed(x)
      ensures multiset(Candidates(w, paths))[x] <= multiset(Once(Sort(paths)))[x]
    {
      FilterCounts(w, Once(Sort(paths)), x);
    }
    hide Filter, Sort, Once, Below, Ascending;
    var once := Candidates(w, paths);
    SameElements(Sort(paths), paths);
    SingleElements(Once(Sort(paths)));
    forall i, j | 0 <= i < j < |once|
      ensures once[i] != once[j]
    {
      if once[i] == once[j] {
        TwiceIn(once, i, j);
      }
    }
  }

  lemma SameElements(a: seq<string>, b: seq<string>)
    requires multiset(a) == multiset(b)
    ensures forall x :: x in a <==> x in b
  {
    forall x
      ensures x in a <==> x in b
    {
      assert x in a <==> x in multiset(a);
      assert x in b <==> x in multiset(b);
    }
  }

  lemma {:induction false} SingleElements(s: seq<string>)
    requires forall i, j :: 0 <= i < j < |s| ==> s[i] != s[j]
    ensures forall x :: multiset(s)[x] <= 1
  {
    if s != [] {
      SingleElements(s[1..]);
      assert s == [s[0]] + s[1..];
      assert s[0] !in s[1..];
    }
  }

  lemma TwiceIn(s: seq<string>, i: nat, j: nat)
    requires i < j < |s| && s[i] == s[j]
    ensures multiset(s)[s[i]] >= 2
  {
    assert s == s[..j] + s[j..];
    assert s[i] == s[..j][i] && s[j] == s[j..][0];
    assert s[i] in multiset(s[..j]) && s[i] in multiset(s[j..]);
  }

  function Row(w: World, q: Query, path: string): seq<Match>
    requires ValidQuery(q)
  {
    View(true, PathMatches(w, q, path))
  }

  /** What is shown from position (`i`, `m`) on. */
  function Rest(w: World, q: Query, cs: seq<string>, i: nat, m: nat): seq<Match>
    requires ValidQuery(q)
    decreases |cs| - i
  {
    if i >= |cs| then []
    else (if m <= |Row(w, q, cs[i])| then Row(w, q, cs[i])[m..] else []) + Rest(w, q, cs, i + 1, 0)
  }

  function RestAt(w: World, q: Query, cs: seq<string>, p: Option<Position>): seq<Match>
    requires ValidQuery(q)
  {
    if p.None? then [] else Rest(w, q, cs, p.value.path, p.value.item)
  }

  function Bytes(w: World, ms: seq<Match>): nat {
    if ms == [] then 0 else w.size(ms[0]) + Bytes(w, ms[1..])
  }

  // ----- one page -----

  function Prepend(ms: seq<Match>, rest: Outcome): Outcome {
    if rest.Refused? then rest else Emitted(rest.page.(matches := ms + rest.page.matches))
  }

  function Stop(i: nat, m: nat, omitted: nat, reason: Reason, scanned: nat): Outcome {
    Emitted(Page([], Some(Position(i, m)), omitted, Some(reason), scanned))
  }

  /** The rest of a page that has `count` matches of `used` bytes and reaches path `i`. */
  function ScanPaths(w: World, q: Query, cs: seq<string>, l: Limits, i: nat, m: nat, count: nat, used: nat): Outcome
    requires ValidQuery(q)
    decreases |cs| - i, 1, 0
  {
    if i >= |cs| then Emitted(Page([], None, 0, None, i))
    else if l.late(i) then Stop(i, m, 0, SearchDeadlineExceeded, i)
    else ScanItems(w, q, cs, l, i, m, count, used)
  }

  function ScanItems(w: World, q: Query, cs: seq<string>, l: Limits, i: nat, m: nat, count: nat, used: nat): Outcome
    requires ValidQuery(q) && i < |cs|
    decreases |cs| - i, 0, |Row(w, q, cs[i])| - m
  {
    var row := Row(w, q, cs[i]);
    if m >= |row| then ScanPaths(w, q, cs, l, i + 1, 0, count, used)
    else
      var bytes := w.size(row[m]);
      if count == 0 && bytes > l.budget then Refused(TransportBudgetExceeded)
      else if count >= l.maxResults then Stop(i, m, |row| - m, ResultCountLimit, i + 1)
      else if count > 0 && used + bytes > l.budget then Stop(i, m, |row| - m, ResultTransportBudget, i + 1)
      else Prepend([row[m]], ScanItems(w, q, cs, l, i, m + 1, count + 1, used + bytes))
  }

  function PageAt(w: World, q: Query, paths: seq<string>, l: Limits, p: Position): Outcome {
    if !ValidQuery(q) || !ValidLimits(l) then Refused(InvalidArguments)
    else if !ValidPosition(|Candidates(w, paths)|, p) then Refused(InvalidPosition)
    else ScanPaths(w, q, Candidates(w, paths), l, p.path, p.item, 0, 0)
  }

  lemma PrependTwice(a: seq<Match>, b: seq<Match>, rest: Outcome)
    ensures Prepend(a, Prepend(b, rest)) == Prepend(a + b, rest)
  {
    if rest.Emitted? {
      assert a + (b + rest.page.matches) == (a + b) + rest.page.matches;
    }
  }

  lemma PrependNone(rest: Outcome)
    ensures Prepend([], rest) == rest
  {
  }

  datatype Progress = Stopped(outcome: Outcome) | Finished(selected: seq<Match>, used: nat)

  /** The inner loop of `search_page`: the matches of one path. */
  method TakeRow(w: World, q: Query, cs: seq<string>, l: Limits, i: nat, start: nat, row: seq<Match>, taken: seq<Match>, bytesTaken: nat)
    returns (r: Progress)
    requires ValidQuery(q) && i < |cs| && row == Row(w, q, cs[i])
    ensures
      var whole := Prepend(taken, ScanItems(w, q, cs, l, i, start, |taken|, bytesTaken));
      match r
      case Stopped(outcome) => whole == outcome
      case Finished(selected, used) => whole == Prepend(selected, ScanPaths(w, q, cs, l, i + 1, 0, |selected|, used))
  {
    hide Row, Prepend, Stop, ScanItems, ScanPaths;
    var selected: seq<Match>, used: nat, m: nat := taken, bytesTaken, start;
    ghost var whole := Prepend(taken, ScanItems(w, q, cs, l, i, start, |taken|, bytesTaken));
    while m < |row|
      invariant whole == Prepend(selected, ScanItems(w, q, cs, l, i, m, |selected|, used))
    {
      var item := row[m];
      var bytes := w.size(item);
      ItemsStep(w, q, cs, l, i, m, |selected|, used);
      if selected == [] && bytes > l.budget {
        PrependNone(Refused(TransportBudgetExceeded));
        return Stopped(Refused(TransportBudgetExceeded));
      }
      if |selected| >= l.maxResults {
        PrependStop(selected, i, m, |row| - m, ResultCountLimit, i + 1);
        return Stopped(Emitted(Page(selected, Some(Position(i, m)), |row| - m, Some(ResultCountLimit), i + 1)));
      }
      if selected != [] && used + bytes > l.budget {
        PrependStop(selected, i, m, |row| - m, ResultTransportBudget, i + 1);
        return Stopped(Emitted(Page(selected, Some(Position(i, m)), |row| - m, Some(ResultTransportBudget), i + 1)));
      }
      PrependTwice(selected, [item], ScanItems(w, q, cs, l, i, m + 1, |selected| + 1, used + bytes));
      selected := selected + [item];
      used := used + bytes;
      m := m + 1;
    }
    ItemsEnd(w, q, cs, l, i, m, |selected|, used);
    r := Finished(selected, used);
  }

  lemma ItemsEnd(w: World, q: Query, cs: seq<string>, l: Limits, i: nat, m: nat, count: nat, used: nat)
    requires ValidQuery(q) && i < |cs| && m >= |Row(w, q, cs[i])|
    ensures ScanItems(w, q, cs, l, i, m, count, used) == ScanPaths(w, q, cs, l, i + 1, 0, count, used)
  {
    hide Row, ScanPaths;
  }

  /** `search_page`: the loop over paths. */
  method SearchPage(w: World, q: Query, paths: seq<string>, l: Limits, p: Position) returns (outcome: Outcome)
    ensures outcome == PageAt(w, q, paths, l, p)
  {
    hide Row, Prepend, Stop, ScanItems;
    if !ValidQuery(q) || !ValidLimits(l) {
      return Refused(InvalidArguments);
    }
    var cs := Candidates(w, paths);
    if !ValidPosition(|cs|, p) {
      return Refused(InvalidPosition);
    }
    ghost var whole := ScanPaths(w, q, cs, l, p.path, p.item, 0, 0);
    assert whole == PageAt(w, q, paths, l, p);
    PrependNone(whole);
    hide PageAt, Candidates, ValidPosition;
    var selected: seq<Match>, used: nat := [], 0;
    var i: nat, m: nat := p.path, p.item;
    while i < |cs|
      invariant i <= |cs|
      invariant whole == Prepend(selected, ScanPaths(w, q, cs, l, i, m, |selected|, used))
    {
      if l.late(i) {
        PrependStop(selected, i, m, 0, SearchDeadlineExceeded, i);
        return Emitted(Page(selected, Some(Position(i, m)), 0, Some(SearchDeadlineExceeded), i));
      }
      var row := SearchPathMatches(w, q, cs[i], true);
      RowIs(w, q, cs[i]);
      var progress := TakeRow(w, q, cs, l, i, m, row, selected, used);
      if progress.Stopped? {
        return progress.outcome;
      }
      selected, used := progress.selected, progress.used;
      i, m := i + 1, 0;
    }
    PrependDone(selected, i);
    outcome := Emitted(Page(selected, None, 0, None, i));
  }

  lemma ItemsStep(w: World, q: Query, cs: seq<string>, l: Limits, i: nat, m: nat, count: nat, used: nat)
    requires ValidQuery(q) && i < |cs| && m < |Row(w, q, cs[i])|
    ensures
      var row := Row(w, q, cs[i]);
      var bytes := w.size(row[m]);
      ScanItems(w, q, cs, l, i, m, count, used) ==
        if count == 0 && bytes > l.budget then Refused(TransportBudgetExceeded)
        else if count >= l.maxResults then Stop(i, m, |row| - m, ResultCountLimit, i + 1)
        else if count > 0 && used + bytes > l.budget then Stop(i, m, |row| - m, ResultTransportBudget, i + 1)
        else Prepend([row[m]], ScanItems(w, q, cs, l, i, m + 1, count + 1, used + bytes))
  {
    hide Row, Prepend, Stop, ScanPaths;
  }

  lemma RowIs(w: World, q: Query, path: string)
    requires ValidQuery(q)
    ensures Row(w, q, path) == View(true, PathMatches(w, q, path))
  {
  }

  lemma PrependStop(ms: seq<Match>, i: nat, m: nat, omitted: nat, reason: Reason, scanned: nat)
    ensures Prepend(ms, Stop(i, m, omitted, reason, scanned)) == Emitted(Page(ms, Some(Position(i, m)), omitted, Some(reason), scanned))
  {
  }

  lemma PrependDone(ms: seq<Match>, i: nat)
    ensures Prepend(ms, Emitted(Page([], None, 0, None, i))) == Emitted(Page(ms, None, 0, None, i))
  {
  }

  // ----- what a page shows -----

  predicate Before(p: Position, q: Position) {
    p.path < q.path || (p.path == q.path && p.item < q.item)
  }

  /** The promise of the rest of a page that reaches (`i`, `m`) with `count` matches of `used` bytes. */
  ghost predicate Good(w: World, q: Query, cs: seq<string>, l: Limits, from: nat, i: nat, m: nat, count: nat, used: nat, page: Page)
    requires ValidQuery(q)
  {
    && page.matches + RestAt(w, q, cs, page.next) == Rest(w, q, cs, i, m)
    && count + |page.matches| <= l.maxResults && used + Bytes(w, page.matches) <= l.budget
    && (page.next.Some? <==> page.reason.Some?)
    && (page.next.None? ==> page.scanned == |cs| && page.omitted == 0)
    && (page.next.Some? ==>
          var n := page.next.value;
          && n.path < |cs| && (n == Position(i, m) || Before(Position(i, m), n))
          && (n == Position(i, m) || n.path > i || page.matches != [])
          && (n == Position(i, m) && count == 0 ==> page.reason == Some(SearchDeadlineExceeded) && l.late(i))
          && (page.reason == Some(SearchDeadlineExceeded) ==> page.scanned == n.path && page.omitted == 0)
          && (page.reason != Some(SearchDeadlineExceeded) ==>
                page.scanned == n.path + 1 && n.item < |Row(w, q, cs[n.path])| && page.omitted == |Row(w, q, cs[n.path])| - n.item))
    && Justified(w, q, cs, l, from, i, m, count, used, page)
  }

  /** The rest of a page stops where it says: the deadline had passed at the path of its cursor; or the
      page holds as many matches as it may; or the next match would break the byte budget and the count
      would not.  The deadline had passed at no other path on the way, starting with path `from`. */
  ghost predicate Justified(w: World, q: Query, cs: seq<string>, l: Limits, from: nat, i: nat, m: nat, count: nat, used: nat, page: Page)
    requires ValidQuery(q)
  {
    match page.reason
    case None => InTime(l, from, |cs|)
    case Some(reason) =>
      page.next.Some? && page.next.value.path < |cs| &&
      var n := page.next.value;
      match reason
      case SearchDeadlineExceeded =>
        from <= n.path && l.late(n.path) && InTime(l, from, n.path) && n.item == (if n.path == i then m else 0)
      case ResultCountLimit => count + |page.matches| == l.maxResults && InTime(l, from, n.path + 1)
      case ResultTransportBudget =>
        && count + |page.matches| < l.maxResults && InTime(l, from, n.path + 1)
        && n.item < |Row(w, q, cs[n.path])| && used + Bytes(w, page.matches) + w.size(Row(w, q, cs[n.path])[n.item]) > l.budget
  }

  predicate InTime(l: Limits, from: nat, end: nat) {
    forall k :: from <= k < end ==> !l.late(k)
  }

  /** A refusal is about the first match there is to show. */
  ghost predicate GoodRefusal(w: World, q: Query, cs: seq<string>, l: Limits, i: nat, m: nat, count: nat)
    requires ValidQuery(q)
  {
    count == 0 && Rest(w, q, cs, i, m) != [] && w.size(Rest(w, q, cs, i, m)[0]) > l.budget
  }

  lemma StopIsGood(w: World, q: Query, cs: seq<string>, l: Limits, from: nat, i: nat, m: nat, count: nat, used: nat, page: Page)
    requires ValidQuery(q) && i < |cs| && count <= l.maxResults && used <= l.budget
    requires page.matches == [] && page.next == Some(Position(i, m)) && page.reason.Some?
    requires
      if page.reason == Some(SearchDeadlineExceeded) then from == i && l.late(i) && page.scanned == i && page.omitted == 0
      else
        && from == i + 1 && count > 0 && page.scanned == i + 1 && m < |Row(w, q, cs[i])| && page.omitted == |Row(w, q, cs[i])| - m
        && (if count == l.maxResults then page.reason == Some(ResultCountLimit)
            else page.reason == Some(ResultTransportBudget) && used + w.size(Row(w, q, cs[i])[m]) > l.budget)
    ensures Good(w, q, cs, l, from, i, m, count, used, page)
  {
    hide Row;
  }

  /** Taking one match and going on. */
  lemma TakeIsGood(w: World, q: Query, cs: seq<string>, l: Limits, i: nat, m: nat, count: nat, used: nat, page: Page)
    requires ValidQuery(q) && i < |cs| && m < |Row(w, q, cs[i])|
    requires Good(w, q, cs, l, i + 1, i, m + 1, count + 1, used + w.size(Row(w, q, cs[i])[m]), page)
    ensures Good(w, q, cs, l, i + 1, i, m, count, used, page.(matches := [Row(w, q, cs[i])[m]] + page.matches))
  {
    hide Row;
    var row := Row(w, q, cs[i]);
    var more := [row[m]] + page.matches;
    RestTake(w, q, cs, i, m);
    assert more[1..] == page.matches;
    assert [row[m]] + (page.matches + RestAt(w, q, cs, page.next)) == more + RestAt(w, q, cs, page.next);
    hide Rest, RestAt;
  }

  lemma RestTake(w: World, q: Query, cs: seq<string>, i: nat, m: nat)
    requires ValidQuery(q) && i < |cs| && m < |Row(w, q, cs[i])|
    ensures Rest(w, q, cs, i, m) == [Row(w, q, cs[i])[m]] + Rest(w, q, cs, i, m + 1)
  {
    hide Row;
    var row := Row(w, q, cs[i]);
    assert row[m..] == [row[m]] + row[m + 1..];
  }

  lemma RestSkip(w: World, q: Query, cs: seq<string>, i: nat, m: nat)
    requires ValidQuery(q) && i < |cs| && m >= |Row(w, q, cs[i])|
    ensures Rest(w, q, cs, i, m) == Rest(w, q, cs, i + 1, 0)
  {
    hide Row;
  }

  lemma SkipIsGood(w: World, q: Query, cs: seq<string>, l: Limits, i: nat, m: nat, count: nat, used: nat, page: Page)
    requires ValidQuery(q) && i < |cs| && m >= |Row(w, q, cs[i])|
    requires Good(w, q, cs, l, i + 1, i + 1, 0, count, used, page)
    ensures Good(w, q, cs, l, i + 1, i, m, count, used, page)
  {
    RestSkip(w, q, cs, i, m);
    hide Row, Rest, RestAt;
  }

  /** A path that is entered in time. */
  lemma EnteredInTime(w: World, q: Query, cs: seq<string>, l: Limits, i: nat, m: nat, count: nat, used: nat, page: Page)
    requires ValidQuery(q) && !l.late(i) && Good(w, q, cs, l, i + 1, i, m, count, used, page)
    ensures Good(w, q, cs, l, i, i, m, count, used, page)
  {
    hide Row, Rest, RestAt, Bytes;
  }

  lemma {:induction false} PathsFacts(w: World, q: Query, cs: seq<string>, l: Limits, i: nat, m: nat, count: nat, used: nat)
    requires ValidQuery(q) && ValidLimits(l) && count <= l.maxResults && used <= l.budget && i <= |cs|
    requires count == 0 ==> used == 0
    ensures
      match ScanPaths(w, q, cs, l, i, m, count, used)
      case Refused(f) => f == TransportBudgetExceeded && GoodRefusal(w, q, cs, l, i, m, count)
      case Emitted(page) => Good(w, q, cs, l, i, i, m, count, used, page)
    decreases |cs| - i, 1, 0
  {
    hide Good, GoodRefusal, Row;
    if i < |cs| {
      if l.late(i) {
        StopIsGood(w, q, cs, l, i, i, m, count, used, Stop(i, m, 0, SearchDeadlineExceeded, i).page);
      } else {
        ItemsFacts(w, q, cs, l, i, m, count, used);
        var outcome := ScanItems(w, q, cs, l, i, m, count, used);
        if outcome.Emitted? {
          EnteredInTime(w, q, cs, l, i, m, count, used, outcome.page);
        }
      }
    } else {
      NothingIsGood(w, q, cs, l, i, m, count, used);
    }
  }

  lemma NothingIsGood(w: World, q: Query, cs: seq<string>, l: Limits, i: nat, m: nat, count: nat, used: nat)
    requires ValidQuery(q) && i == |cs| && count <= l.maxResults && used <= l.budget
    ensures Good(w, q, cs, l, i, i, m, count, used, Page([], None, 0, None, i))
  {
  }

  lemma {:induction false} ItemsFacts(w: World, q: Query, cs: seq<string>, l: Limits, i: nat, m: nat, count: nat, used: nat)
    requires ValidQuery(q) && ValidLimits(l) && count <= l.maxResults && used <= l.budget && i < |cs|
    requires count == 0 ==> used == 0
    ensures
      match ScanItems(w, q, cs, l, i, m, count, used)
      case Refused(f) => f == TransportBudgetExceeded && GoodRefusal(w, q, cs, l, i, m, count)
      case Emitted(page) => Good(w, q, cs, l, i + 1, i, m, count, used, page)
    decreases |cs| - i, 0, |Row(w, q, cs[i])| - m
  {
    hide Good, Row, ScanPaths, Rest;
    var row := Row(w, q, cs[i]);
    var outcome := ScanItems(w, q, cs, l, i, m, count, used);
    if m >= |row| {
      PathsFacts(w, q, cs, l, i + 1, 0, count, used);
      RestSkip(w, q, cs, i, m);
      if outcome.Emitted? {
        SkipIsGood(w, q, cs, l, i, m, count, used, outcome.page);
      }
    } else {
      RestTake(w, q, cs, i, m);
      var bytes := w.size(row[m]);
      if (count == 0 && bytes > l.budget) {
      } else if count >= l.maxResults || (count > 0 && used + bytes > l.budget) {
        StopIsGood(w, q, cs, l, i + 1, i, m, count, used, outcome.page);
      } else {
        ItemsFacts(w, q, cs, l, i, m + 1, count + 1, used + bytes);
        var rest := ScanItems(w, q, cs, l, i, m + 1, count + 1, used + bytes);
        if rest.Emitted? {
          TakeIsGood(w, q, cs, l, i, m, count, used, rest.page);
        }
      }
    }
  }

  /** One page shows exactly what lies between its cursor and the next one, within both limits; the
      next cursor is strictly further on unless the deadline had passed before the first path. */
  lemma PageIsExact(w: World, q: Query, paths: seq<string>, l: Limits, p: Position)
    requires ValidQuery(q) && PageAt(w, q, paths, l, p).Emitted?
    ensures
      var cs, page := Candidates(w, paths), PageAt(w, q, paths, l, p).page;
      && page.matches + RestAt(w, q, cs, page.next) == Rest(w, q, cs, p.path, p.item)
      && |page.matches| <= l.maxResults && Bytes(w, page.matches) <= l.budget
      && (page.next.Some? ==>
            && ValidPosition(|cs|, page.next.value)
            && (page.next.value == p || Before(p, page.next.value))
            && (page.next.value == p ==> page.reason == Some(SearchDeadlineExceeded) && l.late(p.path))
            && (page.next.value == p || page.matches != [] || page.next.value.path > p.path))
  {
    hide Row, Rest, ScanPaths, Candidates;
    PathsFacts(w, q, Candidates(w, paths), l, p.path, p.item, 0, 0);
  }

  /** Why a page stops where it does, and what it says about it. */
  lemma PageStopsWhere(w: World, q: Query, paths: seq<string>, l: Limits, p: Position)
    requires ValidQuery(q) && PageAt(w, q, paths, l, p).Emitted?
    ensures
      var cs, page := Candidates(w, paths), PageAt(w, q, paths, l, p).page;
      match page.reason
      case None => page.next.None? && page.omitted == 0 && page.scanned == |cs| && InTime(l, p.path, |cs|)
      case Some(reason) =>
        && page.next.Some? && page.next.value.path < |cs|
        && var n := page.next.value;
           match reason
           case SearchDeadlineExceeded =>
             && l.late(n.path) && InTime(l, p.path, n.path) && n.item == (if n.path == p.path then p.item else 0)
             && page.omitted == 0 && page.scanned == n.path
           case ResultCountLimit =>
             && |page.matches| == l.maxResults && InTime(l, p.path, n.path + 1)
             && page.omitted == |Row(w, q, cs[n.path])| - n.item > 0 && page.scanned == n.path + 1
           case ResultTransportBudget =>
             && |page.matches| < l.maxResults && InTime(l, p.path, n.path + 1)
             && page.omitted == |Row(w, q, cs[n.path])| - n.item > 0 && page.scanned == n.path + 1
             && Bytes(w, page.matches) + w.size(Row(w, q, cs[n.path])[n.item]) > l.budget
  {
    hide Row, Rest, ScanPaths, Candidates, InTime;
    PathsFacts(w, q, Candidates(w, paths), l, p.path, p.item, 0, 0);
  }

  function FirstItem(p: Position, k: nat): nat {
    if k == p.path then p.item else 0
  }

  /** Path `n` holds the first match to show, it is reached in time, and it is larger than the budget. */
  ghost predicate TooLargeAt(w: World, q: Query, cs: seq<string>, l: Limits, p: Position, n: nat)
    requires ValidQuery(q)
  {
    && p.path <= n < |cs| && InTime(l, p.path, n + 1)
    && (forall k :: p.path <= k < n ==> FirstItem(p, k) >= |Row(w, q, cs[k])|)
    && FirstItem(p, n) < |Row(w, q, cs[n])| && w.size(Row(w, q, cs[n])[FirstItem(p, n)]) > l.budget
  }

  ghost predicate TooLarge(w: World, q: Query, cs: seq<string>, l: Limits, p: Position)
    requires ValidQuery(q)
  {
    exists n: nat :: TooLargeAt(w, q, cs, l, p, n)
  }

  lemma {:induction false} RefusedFrom(w: World, q: Query, cs: seq<string>, l: Limits, p: Position)
    requires ValidQuery(q) && ValidLimits(l) && p.path <= |cs|
    ensures ScanPaths(w, q, cs, l, p.path, p.item, 0, 0).Refused? <==> TooLarge(w, q, cs, l, p)
    decreases |cs| - p.path
  {
    hide Row, ScanItems;
    if p.path < |cs| && !l.late(p.path) {
      ScanItemsIs(w, q, cs, l, p);
      if p.item >= |Row(w, q, cs[p.path])| {
        RefusedFrom(w, q, cs, l, Position(p.path + 1, 0));
        LargerLater(w, q, cs, l, p);
      } else if w.size(Row(w, q, cs[p.path])[p.item]) > l.budget {
        assert TooLargeAt(w, q, cs, l, p, p.path);
      }
    }
  }

  /** Only the first match of a page can refuse it. */
  lemma ScanItemsIs(w: World, q: Query, cs: seq<string>, l: Limits, p: Position)
    requires ValidQuery(q) && ValidLimits(l) && p.path < |cs|
    ensures
      var row, outcome := Row(w, q, cs[p.path]), ScanItems(w, q, cs, l, p.path, p.item, 0, 0);
      if p.item >= |row| then outcome == ScanPaths(w, q, cs, l, p.path + 1, 0, 0, 0)
      else outcome.Refused? <==> w.size(row[p.item]) > l.budget
  {
    hide Row, ScanPaths;
    var row := Row(w, q, cs[p.path]);
    if p.item < |row| && w.size(row[p.item]) <= l.budget {
      ItemsFacts(w, q, cs, l, p.path, p.item + 1, 1, w.size(row[p.item]));
    }
  }

  lemma LargerLater(w: World, q: Query, cs: seq<string>, l: Limits, p: Position)
    requires ValidQuery(q) && p.path < |cs| && !l.late(p.path) && p.item >= |Row(w, q, cs[p.path])|
    ensures TooLarge(w, q, cs, l, p) <==> TooLarge(w, q, cs, l, Position(p.path + 1, 0))
  {
    hide Row;
    var next := Position(p.path + 1, 0);
    forall n: nat
      ensures TooLargeAt(w, q, cs, l, p, n) <==> TooLargeAt(w, q, cs, l, next, n)
    {
      if TooLargeAt(w, q, cs, l, next, n) {
        forall k | p.path <= k < n
          ensures FirstItem(p, k) >= |Row(w, q, cs[k])|
        {
          assert k > p.path ==> FirstItem(next, k) >= |Row(w, q, cs[k])|;
        }
      }
    }
  }

  /** Every refusal of a page: arguments out of their bounds, a cursor outside the candidates, or a first
      match larger than the whole byte budget that is reached in time. */
  lemma PageRefusedIff(w: World, q: Query, paths: seq<string>, l: Limits, p: Position)
    ensures
      var n, outcome := |Candidates(w, paths)|, PageAt(w, q, paths, l, p);
      var valid :=
        && q.text != "" && '\0' !in q.text && 0 <= q.context <= 5
        && 1 <= l.maxResults <= 200 && 1 <= l.budget <= 120_000;
      var inside := p.path < n || (p.path == n && p.item == 0);
      && (outcome == Refused(InvalidArguments) <==> !valid)
      && (outcome == Refused(InvalidPosition) <==> valid && !inside)
      && (valid && inside ==>
            if TooLarge(w, q, Candidates(w, paths), l, p) then outcome == Refused(TransportBudgetExceeded) else outcome.Emitted?)
  {
    hide Row, ScanPaths, Candidates, TooLarge;
    if ValidQuery(q) && ValidLimits(l) && ValidPosition(|Candidates(w, paths)|, p) {
      PathsFacts(w, q, Candidates(w, paths), l, p.path, p.item, 0, 0);
      RefusedFrom(w, q, Candidates(w, paths), l, p);
    }
  }

  // ----- following the cursors -----

  /** After some pages: what they showed, where the next one starts, and how many of them returned
      the cursor they were given. */
  datatype Walk = Walked(shown: seq<Match>, cursor: Option<Position>, stalls: nat) | Failed(failure: Failure)

  /** `n` pages from `p` on, page `k` under `limits(k)`; fewer when the results end. */
  function Follow(w: World, q: Query, paths: seq<string>, limits: nat -> Limits, k: nat, n: nat, p: Position): Walk
    decreases n
  {
    if n == 0 then Walked([], Some(p), 0)
    else
      match PageAt(w, q, paths, limits(k), p)
      case Refused(failure) => Failed(failure)
      case Emitted(page) =>
        if page.next.None? then Walked(page.matches, None, 0)
        else
          match Follow(w, q, paths, limits, k + 1, n - 1, page.next.value)
          case Failed(failure) => Failed(failure)
          case Walked(shown, cursor, stalls) =>
            Walked(page.matches + shown, cursor, stalls + if page.next.value == p then 1 else 0)
  }

  function Left(w: World, q: Query, cs: seq<string>, p: Position): int
    requires ValidQuery(q)
  {
    |Rest(w, q, cs, p.path, p.item)| + |cs| - p.path
  }

  /** Over any number of pages under any mix of stops nothing is lost, repeated or reordered, and
      every page that does not return its own cursor makes progress on what is left. */
  lemma {:induction false} WalkIsExact(w: World, q: Query, paths: seq<string>, limits: nat -> Limits, k: nat, n: nat, p: Position)
    requires ValidQuery(q) && ValidPosition(|Candidates(w, paths)|, p)
    requires Follow(w, q, paths, limits, k, n, p).Walked?
    ensures
      var cs, walk := Candidates(w, paths), Follow(w, q, paths, limits, k, n, p);
      && walk.shown + RestAt(w, q, cs, walk.cursor) == Rest(w, q, cs, p.path, p.item)
      && (walk.cursor.Some? ==>
            && ValidPosition(|cs|, walk.cursor.value)
            && n <= Left(w, q, cs, p) - Left(w, q, cs, walk.cursor.value) + walk.stalls)
    decreases n
  {
    hide Rest, Candidates, PageAt, ValidPosition;
    if n > 0 {
      var cs, page := Candidates(w, paths), PageAt(w, q, paths, limits(k), p).page;
      PageIsExact(w, q, paths, limits(k), p);
      if page.next.Some? {
        var next := page.next.value;
        WalkIsExact(w, q, paths, limits, k + 1, n - 1, next);
        var walk := Follow(w, q, paths, limits, k + 1, n - 1, next);
        assert page.matches + (walk.shown + RestAt(w, q, cs, walk.cursor)) == (page.matches + walk.shown) + RestAt(w, q, cs, walk.cursor);
      }
    }
  }

  // ----- the one-shot search -----

  /** Everything found in the given paths, in their order, context lines in full. */
  function Found(w: World, q: Query, paths: seq<string>): seq<Match>
    requires ValidQuery(q)
  {
    if paths == [] then [] else PathMatches(w, q, paths[0]) + Found(w, q, paths[1..])
  }

  lemma {:induction false} FoundSnoc(w: World, q: Query, paths: seq<string>, path: string)
    requires ValidQuery(q)
    ensures Found(w, q, paths + [path]) == Found(w, q, paths) + PathMatches(w, q, path)
    decreases |paths|
  {
    hide PathMatches;
    if paths == [] {
      assert ([] + [path])[1..] == [];
    } else {
      assert (paths + [path])[1..] == paths[1..] + [path];
      FoundSnoc(w, q, paths[1..], path);
    }
  }

  /** `search_files`: all matches at once, or a refusal when the deadline passes on the way. */
  method SearchFiles(w: World, q: Query, paths: seq<string>, late: nat -> bool) returns (matches: seq<Match>, failure: Option<Failure>)
    ensures !ValidQuery(q) <==> failure == Some(InvalidArguments)
    ensures ValidQuery(q) ==>
      (failure == Some(DeadlineExceeded) <==> exists i :: 0 <= i < |Filter(w, Sort(paths))| && late(i))
    ensures failure in {None, Some(InvalidArguments), Some(DeadlineExceeded)}
    ensures failure.None? ==> ValidQuery(q) && matches == Found(w, q, Filter(w, Sort(paths)))
  {
    hide Filter, Sort, PathMatches, View, ValidQuery;
    matches := [];
    if !ValidQuery(q) {
      return matches, Some(InvalidArguments);
    }
    var cs := Filter(w, Sort(paths));
    var i := 0;
    while i < |cs|
      invariant 0 <= i <= |cs| && matches == Found(w, q, cs[..i])
      invariant forall k :: 0 <= k < i ==> !late(k)
    {
      hide Found;
      if late(i) {
        return matches, Some(DeadlineExceeded);
      }
      assert cs[..i + 1] == cs[..i] + [cs[i]];
      FoundSnoc(w, q, cs[..i], cs[i]);
      var here := SearchPathMatches(w, q, cs[i], false);
      ViewRaw(PathMatches(w, q, cs[i]));
      matches := matches + here;
      i := i + 1;
    }
    assert cs[..i] == cs;
    failure := None;
  }

  lemma ViewRaw(ms: seq<Match>)
    ensures View(false, ms) == ms
  {
  }

  lemma {:induction false} RestIsFound(w: World, q: Query, cs: seq<string>, i: nat)
    requires ValidQuery(q) && i <= |cs|
    ensures Rest(w, q, cs, i, 0) == View(true, Found(w, q, cs[i..]))
    decreases |cs| - i
  {
    hide PathMatches, View;
    if i < |cs| {
      RestIsFound(w, q, cs, i + 1);
      assert cs[i..][1..] == cs[i + 1..];
      ViewAppend(true, PathMatches(w, q, cs[i]), Found(w, q, cs[i + 1..]));
      assert Row(w, q, cs[i])[0..] == Row(w, q, cs[i]);
    } else {
      NothingFound(w, q);
    }
  }

  lemma NothingFound(w: World, q: Query)
    requires ValidQuery(q)
    ensures View(true, Found(w, q, [])) == []
  {
  }

  /** No path that is listed twice matches anything. */
  ghost predicate RepeatsAreEmpty(w: World, q: Query, s: seq<string>)
    requires ValidQuery(q)
  {
    forall x :: multiset(s)[x] > 1 && w.globbed(x) ==> PathMatches(w, q, x) == []
  }

  lemma FilterHead(w: World, q: Query, s: seq<string>)
    requires ValidQuery(q) && s != []
    ensures Found(w, q, Filter(w, s)) == (if w.globbed(s[0]) then PathMatches(w, q, s[0]) else []) + Found(w, q, Filter(w, s[1..]))
  {
    hide PathMatches;
    if w.globbed(s[0]) {
      assert Filter(w, s)[1..] == Filter(w, s[1..]);
    } else {
      assert Filter(w, s) == Filter(w, s[1..]);
    }
  }

  /** Listing each path once loses matches exactly when a path listed twice has some. */
  lemma {:induction false} OnceFinds(w: World, q: Query, s: seq<string>)
    requires ValidQuery(q) && Ascending(s)
    ensures |Found(w, q, Filter(w, Once(s)))| <= |Found(w, q, Filter(w, s))|
    ensures RepeatsAreEmpty(w, q, s) ==> Found(w, q, Filter(w, Once(s))) == Found(w, q, Filter(w, s))
    ensures |Found(w, q, Filter(w, Once(s)))| == |Found(w, q, Filter(w, s))| ==> RepeatsAreEmpty(w, q, s)
  {
    hide PathMatches, Found, Filter, RepeatsAreEmpty;
    if |s| >= 2 {
      var rest := s[1..];
      OnceFinds(w, q, rest);
      FilterHead(w, q, s);
      RepeatsStep(w, q, s);
      if s[0] != s[1] {
        FilterHead(w, q, Once(s));
        assert Once(s)[1..] == Once(rest);
      }
    } else {
      assert forall x :: multiset(s)[x] <= 1;
      RepeatsNone(w, q, s);
    }
  }

  lemma RepeatsNone(w: World, q: Query, s: seq<string>)
    requires ValidQuery(q) && forall x :: multiset(s)[x] <= 1
    ensures RepeatsAreEmpty(w, q, s)
  {
    hide PathMatches;
  }

  /** A sorted list repeats its head or what its rest repeats. */
  lemma RepeatsStep(w: World, q: Query, s: seq<string>)
    requires ValidQuery(q) && Ascending(s) && |s| >= 2
    ensures RepeatsAreEmpty(w, q, s) <==>
            RepeatsAreEmpty(w, q, s[1..]) && (s[0] == s[1] && w.globbed(s[0]) ==> PathMatches(w, q, s[0]) == [])
  {
    hide PathMatches, Below;
    var rest := s[1..];
    assert s == [s[0]] + rest && rest[0] == s[1];
    if s[0] != s[1] {
      OnceHead(s);
      assert multiset(rest)[s[0]] == 0;
    } else {
      assert s[0] in multiset(rest);
      assert multiset(s)[s[0]] > 1;
    }
  }

  lemma OnceHead(s: seq<string>)
    requires |s| >= 2 && Ascending(s) && s[0] != s[1]
    ensures s[0] !in s[1..]
  {
    if s[0] in s[1..] {
      var j :| 1 <= j < |s| && s[j] == s[0];
      assert j > 1 && Below(s[0], s[1]) && Below(s[1], s[j]);
      BelowTotal(s[0], s[1]);
    }
  }

  /** A chain of pages that reaches its end has shown exactly what the one-shot search finds over
      each path once, context lines cut for showing. */
  lemma ChainIsSearch(w: World, q: Query, paths: seq<string>, limits: nat -> Limits, n: nat)
    requires ValidQuery(q)
    requires Follow(w, q, paths, limits, 0, n, Position(0, 0)).Walked? && Follow(w, q, paths, limits, 0, n, Position(0, 0)).cursor.None?
    ensures Follow(w, q, paths, limits, 0, n, Position(0, 0)).shown == View(true, Found(w, q, Candidates(w, paths)))
  {
    hide Rest, Follow, View, Candidates, Found;
    var cs := Candidates(w, paths);
    WalkIsExact(w, q, paths, limits, 0, n, Position(0, 0));
    RestIsFound(w, q, cs, 0);
    assert cs[0..] == cs;
  }

  /** It equals the one-shot result exactly when no path listed twice has a match and no context line
      of a match is longer than 4000 characters. */
  lemma ChainEqualsOneShotIff(w: World, q: Query, paths: seq<string>, limits: nat -> Limits, n: nat)
    requires ValidQuery(q)
    requires Follow(w, q, paths, limits, 0, n, Position(0, 0)).Walked? && Follow(w, q, paths, limits, 0, n, Position(0, 0)).cursor.None?
    ensures
      var oneShot := Found(w, q, Filter(w, Sort(paths)));
      Follow(w, q, paths, limits, 0, n, Position(0, 0)).shown == oneShot <==>
        RepeatsAreEmpty(w, q, paths) && forall i :: 0 <= i < |oneShot| ==> ContextFits(oneShot[i])
  {
    ChainIsSearch(w, q, paths, limits, n);
    hide Follow, Found, Filter, Sort, PathMatches, ContextFits;
    SortIsSorted(paths);
    OnceFinds(w, q, Sort(paths));
    ShownAllIs(Found(w, q, Filter(w, Sort(paths))));
  }
}
