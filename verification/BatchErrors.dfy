/** How often a chain of batch-read pages reports an unreadable request: once, or twice when it lies in
    a tail of unreadable requests behind a page that did not use up its budget. */
module BatchErrors {
  import opened Options
  import opened Transport
  import opened BatchRead
  import opened Rendering

  /** Every request from `i` on is unreadable. */
  ghost predicate AllUnreadable(requests: seq<Request>, loader: Loader, i: nat) {
    forall j :: i <= j < |requests| ==> !Readable(requests, loader, j)
  }

  /** The page reports `e` although it lies at or after the page's own cursor. */
  predicate Overlaps(page: Page, e: nat) {
    e in page.errors && page.next.Some? && page.next.value.index <= e
  }

  /** Everything from the page's cursor on is unreadable, and bytes of the budget are left. */
  ghost predicate TailBehind(requests: seq<Request>, loader: Loader, page: Page, budget: int) {
    page.next.Some? && AllUnreadable(requests, loader, page.next.value.index) && ContentCost(page.files) < budget
  }

  lemma {:induction false} AfterUnreadable(requests: seq<Request>, loader: Loader, remaining: nat, i: nat, offset: nat, next: Option<Position>)
    requires ValidRequests(requests) && i < |requests| && !Readable(requests, loader, i)
    requires ReadFrom(requests, loader, remaining, i, offset, next).Emitted?
    ensures ReadFrom(requests, loader, remaining, i + 1, 0, next).Emitted?
    ensures
      var rest := ReadFrom(requests, loader, remaining, i + 1, 0, next).page;
      ReadFrom(requests, loader, remaining, i, offset, next).page == Page(rest.files, [i] + rest.errors, rest.next)
  {
    hide ReadOne, Readable;
    assert [] + ReadFrom(requests, loader, remaining, i + 1, 0, next).page.files ==
           ReadFrom(requests, loader, remaining, i + 1, 0, next).page.files;
  }

  /** The chunk of a readable request, what is left after it, and the cursor behind it. */
  predicate Chunk(requests: seq<Request>, loader: Loader, remaining: nat, i: nat, offset: nat, file: FileResult, left: nat, next: Option<Position>)
    requires ValidRequests(requests) && Readable(requests, loader, i)
  {
    && ReadOne(requests, loader, remaining, i, offset) == Read(file)
    && remaining == left + Cost(file.content) && next == NextAfter(requests, i, offset, file)
  }

  lemma {:induction false} PageStops(requests: seq<Request>, loader: Loader, remaining: nat, i: nat, offset: nat, next: Option<Position>,
                                     file: FileResult, left: nat, next': Option<Position>)
    requires ValidRequests(requests) && Readable(requests, loader, i)
    requires Chunk(requests, loader, remaining, i, offset, file, left, next') && (file.truncated || left == 0)
    ensures ReadFrom(requests, loader, remaining, i, offset, next) == Emitted(Page([file], [], next'))
    ensures ContentCost([file]) == Cost(file.content)
  {
    hide ReadOne, Cost, NextAfter;
    CostOne(file);
  }

  lemma {:induction false} PageGoesOn(requests: seq<Request>, loader: Loader, remaining: nat, i: nat, offset: nat, next: Option<Position>,
                                      file: FileResult, left: nat, next': Option<Position>)
    requires ValidRequests(requests) && Readable(requests, loader, i)
    requires Chunk(requests, loader, remaining, i, offset, file, left, next') && !file.truncated && left > 0
    ensures
      ReadFrom(requests, loader, remaining, i, offset, next) == Prepend([file], [], ReadFrom(requests, loader, left, i + 1, 0, next'))
  {
    hide ReadOne, Cost, NextAfter, Prepend;
  }

  /** The chunk of a page that was emitted. */
  lemma {:induction false} FirstChunk(requests: seq<Request>, loader: Loader, remaining: nat, i: nat, offset: nat, next: Option<Position>)
    returns (file: FileResult, left: nat, next': Option<Position>)
    requires ValidRequests(requests) && Readable(requests, loader, i)
    requires ReadFrom(requests, loader, remaining, i, offset, next).Emitted?
    ensures Chunk(requests, loader, remaining, i, offset, file, left, next') && ChunkOf(requests, loader, i, offset, file)
    ensures next'.Some? ==> next'.value.index < |requests|
    ensures !file.truncated ==> Carried(requests, loader, next', i + 1, 0) && next' == (if i + 1 < |requests| then Some(Position(i + 1, 0)) else None)
    ensures file.truncated ==> next'.Some? && next'.value.index == i
  {
    ReadOneFacts(requests, loader, remaining, i, offset);
    hide ReadOne, Cost, ChunkOf, Readable;
    file := ReadOne(requests, loader, remaining, i, offset).file;
    left, next' := remaining - Cost(file.content), NextAfter(requests, i, offset, file);
  }

  lemma {:induction false} PrependOne(file: FileResult, rest: Outcome)
    ensures Prepend([file], [], rest).Emitted? <==> rest.Emitted?
    ensures rest.Emitted? ==> Prepend([file], [], rest) == Emitted(Page([file] + rest.page.files, rest.page.errors, rest.page.next))
  {
    if rest.Emitted? {
      assert [] + rest.page.errors == rest.page.errors;
    }
  }

  lemma {:induction false} CostOne(file: FileResult)
    ensures ContentCost([file]) == Cost(file.content)
  {
    hide Cost;
    assert [file][1..] == [];
  }

  lemma CostCons(file: FileResult, rest: seq<FileResult>)
    ensures ContentCost([file] + rest) == Cost(file.content) + ContentCost(rest)
    ensures ContentCost([]) == 0
  {
    hide Cost;
    assert ([file] + rest)[1..] == rest;
  }

  lemma {:induction false} TailFrom(requests: seq<Request>, loader: Loader, remaining: nat, i: nat, offset: nat, next: Option<Position>)
    requires ValidRequests(requests) && i <= |requests| && remaining > 0
    requires next.Some? ==> next.value.index < |requests|
    requires Carried(requests, loader, next, i, offset)
    requires ReadFrom(requests, loader, remaining, i, offset, next).Emitted?
    ensures
      var page := ReadFrom(requests, loader, remaining, i, offset, next).page;
      && (page.next.Some? && page.next == next ==> AllUnreadable(requests, loader, i) && page.files == [])
      && ((exists e :: Overlaps(page, e)) ==> TailBehind(requests, loader, page, remaining))
    decreases |requests| - i
  {
    hide ReadFrom, ReadOne, Cost, ContentCost, Readable, Text, Delivers, Reports, InRange;
    if i == |requests| {
      AtTheEnd(requests, loader, remaining, offset, next);
    } else if !Readable(requests, loader, i) {
      AfterUnreadable(requests, loader, remaining, i, offset, next);
      PageFacts(requests, loader, remaining, i + 1, 0, next);
      TailFrom(requests, loader, remaining, i + 1, 0, next);
      TailAfterUnreadable(requests, loader, ReadFrom(requests, loader, remaining, i + 1, 0, next).page, remaining, i, next);
    } else {
      var file, left, next' := FirstChunk(requests, loader, remaining, i, offset, next);
      if file.truncated || left == 0 {
        PageStops(requests, loader, remaining, i, offset, next, file, left, next');
      } else {
        var rest := ReadFrom(requests, loader, left, i + 1, 0, next');
        PageGoesOn(requests, loader, remaining, i, offset, next, file, left, next');
        PrependOne(file, rest);
        PageFacts(requests, loader, left, i + 1, 0, next');
        TailFrom(requests, loader, left, i + 1, 0, next');
        TailAfterReadable(requests, loader, rest.page, left, file);
      }
    }
  }

  lemma {:induction false} AtTheEnd(requests: seq<Request>, loader: Loader, remaining: nat, offset: nat, next: Option<Position>)
    requires ValidRequests(requests)
    ensures ReadFrom(requests, loader, remaining, |requests|, offset, next) == Emitted(Page([], [], next))
  {
  }

  lemma TailAfterUnreadable(requests: seq<Request>, loader: Loader, rest: Page, remaining: nat, i: nat, next: Option<Position>)
    requires remaining > 0 && i < |requests| && !Readable(requests, loader, i)
    requires next.Some? ==> next.value.index <= i && forall j :: next.value.index <= j < i ==> !Readable(requests, loader, j)
    requires rest.next.Some? && rest.next == next ==> AllUnreadable(requests, loader, i + 1) && rest.files == []
    requires rest.next.Some? && rest.next != next ==> rest.next.value.index > i
    requires (exists e :: Overlaps(rest, e)) ==> TailBehind(requests, loader, rest, remaining)
    ensures
      var page := Page(rest.files, [i] + rest.errors, rest.next);
      && (page.next.Some? && page.next == next ==> AllUnreadable(requests, loader, i) && page.files == [])
      && ((exists e :: Overlaps(page, e)) ==> TailBehind(requests, loader, page, remaining))
  {
    hide Readable;
    var page := Page(rest.files, [i] + rest.errors, rest.next);
    if e :| Overlaps(page, e) {
      if e != i {
        assert Overlaps(rest, e);
      }
    }
  }

  lemma TailAfterReadable(requests: seq<Request>, loader: Loader, rest: Page, left: nat, file: FileResult)
    requires (exists e :: Overlaps(rest, e)) ==> TailBehind(requests, loader, rest, left)
    ensures
      var page := Page([file] + rest.files, rest.errors, rest.next);
      (exists e :: Overlaps(page, e)) ==> TailBehind(requests, loader, page, left + Cost(file.content))
  {
    hide Readable, Cost;
    var page := Page([file] + rest.files, rest.errors, rest.next);
    assert page.files[1..] == rest.files;
    if e :| Overlaps(page, e) {
      assert Overlaps(rest, e);
    }
  }

  /** The other direction: behind bytes left over, the loop runs to the end and reports the whole tail. */
  lemma {:induction false} TailIsReported(requests: seq<Request>, loader: Loader, remaining: nat, i: nat, offset: nat, next: Option<Position>, e: nat)
    requires ValidRequests(requests) && i <= e < |requests| && remaining > 0
    requires next.Some? ==> next.value.index < |requests|
    requires Carried(requests, loader, next, i, offset)
    requires ReadFrom(requests, loader, remaining, i, offset, next).Emitted?
    requires TailBehind(requests, loader, ReadFrom(requests, loader, remaining, i, offset, next).page, remaining)
    requires ReadFrom(requests, loader, remaining, i, offset, next).page.next.value.index <= e
    ensures e in ReadFrom(requests, loader, remaining, i, offset, next).page.errors
    decreases |requests| - i
  {
    hide ReadFrom, ReadOne, Cost, ContentCost, Readable, Text, Prepend;
    if !Readable(requests, loader, i) {
      AfterUnreadable(requests, loader, remaining, i, offset, next);
      if i < e {
        TailIsReported(requests, loader, remaining, i + 1, 0, next, e);
      }
    } else {
      var file, left, next' := FirstChunk(requests, loader, remaining, i, offset, next);
      if file.truncated || left == 0 {
        PageStops(requests, loader, remaining, i, offset, next, file, left, next');
      } else {
        var rest := ReadFrom(requests, loader, left, i + 1, 0, next');
        PageGoesOn(requests, loader, remaining, i, offset, next, file, left, next');
        PrependOne(file, rest);
        CostCons(file, rest.page.files);
        TailIsReported(requests, loader, left, i + 1, 0, next', e);
      }
    }
  }

  /** A page reports something at or after its own cursor if and only if everything from there on is
      unreadable and the page did not use up its budget; and then it reports all of it. */
  lemma {:induction false} OverlapsIff(requests: seq<Request>, loader: Loader, budget: int, p: Position)
    requires ValidRequests(requests) && ReadPage(requests, loader, budget, p).Emitted?
    ensures
      var page := ReadPage(requests, loader, budget, p).page;
      && ((exists e :: Overlaps(page, e)) <==> TailBehind(requests, loader, page, budget))
      && (TailBehind(requests, loader, page, budget) ==>
            forall e :: page.next.value.index <= e < |requests| ==> e in page.errors)
  {
    hide ReadFrom, Readable, ContentCost;
    PageIsExact(requests, loader, budget, p);
    TailFrom(requests, loader, budget, p.index, p.offset, None);
    var page := ReadPage(requests, loader, budget, p).page;
    if TailBehind(requests, loader, page, budget) {
      forall e | page.next.value.index <= e < |requests|
        ensures e in page.errors
      {
        TailIsReported(requests, loader, budget, p.index, p.offset, None, e);
      }
      assert Overlaps(page, page.next.value.index);
    }
  }

  // ----- how often a chain reports an error -----

  lemma {:induction false} ErrorsOnce(requests: seq<Request>, loader: Loader, remaining: nat, i: nat, offset: nat, next: Option<Position>, e: nat)
    requires ValidRequests(requests) && i <= |requests|
    requires ReadFrom(requests, loader, remaining, i, offset, next).Emitted?
    ensures
      var errors := ReadFrom(requests, loader, remaining, i, offset, next).page.errors;
      multiset(errors)[e] <= if i <= e then 1 else 0
    decreases |requests| - i
  {
    hide ReadFrom, ReadOne, Cost, ContentCost, Readable, Text, Prepend;
    if i == |requests| {
      AtTheEnd(requests, loader, remaining, offset, next);
    } else if !Readable(requests, loader, i) {
      AfterUnreadable(requests, loader, remaining, i, offset, next);
      ErrorsOnce(requests, loader, remaining, i + 1, 0, next, e);
    } else {
      var file, left, next' := FirstChunk(requests, loader, remaining, i, offset, next);
      if file.truncated || left == 0 {
        PageStops(requests, loader, remaining, i, offset, next, file, left, next');
      } else {
        PageGoesOn(requests, loader, remaining, i, offset, next, file, left, next');
        PrependOne(file, ReadFrom(requests, loader, left, i + 1, 0, next'));
        ErrorsOnce(requests, loader, left, i + 1, 0, next', e);
      }
    }
  }

  /** What one page reports of request `e`. */
  lemma {:induction false} PageReports(requests: seq<Request>, loader: Loader, budget: int, p: Position, e: nat)
    requires ValidRequests(requests) && ReadPage(requests, loader, budget, p).Emitted?
    ensures
      var page := ReadPage(requests, loader, budget, p).page;
      multiset(page.errors)[e] ==
      if e < p.index || e >= |requests| || Readable(requests, loader, e) then 0
      else if page.next.None? || e < page.next.value.index || TailBehind(requests, loader, page, budget) then 1
      else 0
  {
    hide ReadFrom, Readable, TailBehind;
    PageIsExact(requests, loader, budget, p);
    OverlapsIff(requests, loader, budget, p);
    ErrorsOnce(requests, loader, budget, p.index, p.offset, None, e);
    var page := ReadPage(requests, loader, budget, p).page;
    assert e in page.errors <==> multiset(page.errors)[e] > 0;
    if e in page.errors && page.next.Some? && page.next.value.index <= e {
      assert Overlaps(page, e);
    }
  }

  /** A page of the chain has the tail that holds `e` behind it, with bytes left over. */
  ghost predicate Repeated(requests: seq<Request>, loader: Loader, budgets: nat -> int, k: nat, pages: seq<Page>, e: nat)
    decreases |pages|
  {
    pages != [] &&
      ((TailBehind(requests, loader, pages[0], budgets(k)) && pages[0].next.value.index <= e) ||
       Repeated(requests, loader, budgets, k + 1, pages[1..], e))
  }

  ghost function Times(requests: seq<Request>, loader: Loader, budgets: nat -> int, k: nat, pages: seq<Page>, e: nat): nat {
    if e >= |requests| || Readable(requests, loader, e) then 0
    else if Repeated(requests, loader, budgets, k, pages, e) then 2
    else 1
  }

  /** Behind a page with such a tail there is exactly one more page, and it repeats the tail. */
  lemma {:induction false} ChainReports(requests: seq<Request>, loader: Loader, budgets: nat -> int, k: nat, p: Position, e: nat)
    requires ValidRequests(requests) && InRange(requests, loader, p)
    requires Follow(requests, loader, budgets, k, p).Complete?
    ensures
      var pages := Follow(requests, loader, budgets, k, p).pages;
      && multiset(AllErrors(pages))[e] == (if e < p.index then 0 else Times(requests, loader, budgets, k, pages, e))
      && (e < p.index ==> !Repeated(requests, loader, budgets, k, pages, e))
    decreases |requests| - p.index, |Text(requests, loader, p.index)| - p.offset
  {
    hide Text, ReadPage, Readable, TailBehind;
    var page := ReadPage(requests, loader, budgets(k), p).page;
    var pages := Follow(requests, loader, budgets, k, p).pages;
    PageReports(requests, loader, budgets(k), p, e);
    PageIsExact(requests, loader, budgets(k), p);
    if page.next.None? {
      assert pages == [page] && pages[1..] == [] && AllErrors(pages) == page.errors + AllErrors(pages[1..]);
      assert page.errors + [] == page.errors;
      NoTail(requests, loader, page, budgets(k));
      assert !Repeated(requests, loader, budgets, k + 1, pages[1..], e);
    } else {
      var q := page.next.value;
      ChainReports(requests, loader, budgets, k + 1, q, e);
      var rest := Follow(requests, loader, budgets, k + 1, q).pages;
      assert pages == [page] + rest && pages[1..] == rest;
      assert multiset(AllErrors(pages))[e] == multiset(page.errors)[e] + multiset(AllErrors(rest))[e];
      if TailBehind(requests, loader, page, budgets(k)) {
        LastReports(requests, loader, budgets, k, page, e);
      }
    }
  }

  lemma NoTail(requests: seq<Request>, loader: Loader, page: Page, budget: int)
    requires page.next.None?
    ensures !TailBehind(requests, loader, page, budget)
  {
  }

  /** From a cursor with only unreadable requests behind it there is one page. */
  lemma {:induction false} LastReports(requests: seq<Request>, loader: Loader, budgets: nat -> int, k: nat, page: Page, e: nat)
    requires ValidRequests(requests) && TailBehind(requests, loader, page, budgets(k)) && InRange(requests, loader, page.next.value)
    requires Follow(requests, loader, budgets, k + 1, page.next.value).Complete?
    ensures !Repeated(requests, loader, budgets, k + 1, Follow(requests, loader, budgets, k + 1, page.next.value).pages, e)
    ensures page.next.value.index <= e < |requests| ==> !Readable(requests, loader, e)
  {
    hide Text, Readable;
    var q := page.next.value;
    ReadUnreadable(requests, loader, budgets(k + 1), q.index, q.offset);
    hide ReadFrom;
    var pages := Follow(requests, loader, budgets, k + 1, q).pages;
    assert |pages| == 1 && pages[0].next.None? && pages[1..] == [];
  }

  function Indices(i: nat, n: nat): seq<nat>
    decreases n - i
  {
    if i >= n then [] else [i] + Indices(i + 1, n)
  }

  lemma {:induction false} ReadUnreadable(requests: seq<Request>, loader: Loader, remaining: nat, i: nat, offset: nat)
    requires ValidRequests(requests) && i <= |requests| && AllUnreadable(requests, loader, i)
    ensures ReadFrom(requests, loader, remaining, i, offset, None) == Emitted(Page([], Indices(i, |requests|), None))
    decreases |requests| - i
  {
    hide ReadOne, Readable;
    if i < |requests| {
      ReadUnreadable(requests, loader, remaining, i + 1, 0);
    }
  }

  /** A complete chain reports every unreadable request exactly once, except for those in a tail that
      some page has behind it with bytes left over: these exactly twice.  Nothing else is reported. */
  lemma {:induction false} ErrorsInChain(requests: seq<Request>, loader: Loader, budgets: nat -> int, e: nat)
    requires ValidRequests(requests) && Follow(requests, loader, budgets, 0, Position(0, 0)).Complete?
    ensures
      var pages := Follow(requests, loader, budgets, 0, Position(0, 0)).pages;
      multiset(AllErrors(pages))[e] == Times(requests, loader, budgets, 0, pages, e)
  {
    hide Follow, Text;
    ChainReports(requests, loader, budgets, 0, Position(0, 0), e);
  }

  // ----- both cases happen -----

  /** A readable request before one unreadable last one: with bytes left over the error is reported with a
      cursor to itself; with the budget used up exactly it is left to the next page. */
  lemma {:induction false} LastUnreadable(requests: seq<Request>, loader: Loader, budget: int, i: nat) returns (page: Page)
    requires ValidRequests(requests) && |requests| == i + 2 && Readable(requests, loader, i) && !Readable(requests, loader, i + 1)
    requires 1 <= budget <= MAX_BUDGET && Cost(Text(requests, loader, i)) <= budget
    ensures ReadPage(requests, loader, budget, Position(i, 0)) == Emitted(page) && page.next == Some(Position(i + 1, 0))
    ensures page.errors == if Cost(Text(requests, loader, i)) < budget then [i + 1] else []
    ensures TailBehind(requests, loader, page, budget) <==> Cost(Text(requests, loader, i)) < budget
  {
    var file, left := WholeText(requests, loader, budget, i);
    page := Page([file], if left == 0 then [] else [i + 1], Some(Position(i + 1, 0)));
    FromReadable(requests, loader, budget, i, file, left);
    PageFrom(requests, loader, budget, i);
    hide *;
    TailIs(requests, loader, page, budget, i);
  }

  lemma {:induction false} PageFrom(requests: seq<Request>, loader: Loader, budget: int, i: nat)
    requires ValidRequests(requests) && 1 <= budget <= MAX_BUDGET && i <= |requests|
    ensures ReadPage(requests, loader, budget, Position(i, 0)) == ReadFrom(requests, loader, budget, i, 0, None)
  {
    hide ReadFrom;
  }

  lemma TailIs(requests: seq<Request>, loader: Loader, page: Page, budget: int, i: nat)
    requires |requests| == i + 2 && !Readable(requests, loader, i + 1) && page.next == Some(Position(i + 1, 0))
    ensures TailBehind(requests, loader, page, budget) <==> ContentCost(page.files) < budget
  {
    hide Readable, ContentCost;
  }

  lemma {:induction false} FromReadable(requests: seq<Request>, loader: Loader, budget: nat, i: nat, file: FileResult, left: nat)
    requires ValidRequests(requests) && |requests| == i + 2 && Readable(requests, loader, i) && !Readable(requests, loader, i + 1)
    requires Chunk(requests, loader, budget, i, 0, file, left, Some(Position(i + 1, 0))) && !file.truncated
    ensures ReadFrom(requests, loader, budget, i, 0, None) ==
            Emitted(Page([file], if left == 0 then [] else [i + 1], Some(Position(i + 1, 0))))
  {
    hide Cost, Readable, ContentCost, ReadFrom, Prepend, Chunk, ValidRequests;
    var next := Some(Position(i + 1, 0));
    if left == 0 {
      PageStops(requests, loader, budget, i, 0, None, file, left, next);
    } else {
      PageGoesOn(requests, loader, budget, i, 0, None, file, left, next);
      OneUnreadable(requests, loader, left, i + 1, next);
      PrependOne(file, ReadFrom(requests, loader, left, i + 1, 0, next));
      assert [file] + [] == [file];
    }
  }

  lemma {:induction false} WholeText(requests: seq<Request>, loader: Loader, budget: nat, i: nat) returns (file: FileResult, left: nat)
    requires ValidRequests(requests) && |requests| == i + 2 && Readable(requests, loader, i) && Cost(Text(requests, loader, i)) <= budget
    ensures Chunk(requests, loader, budget, i, 0, file, left, Some(Position(i + 1, 0))) && !file.truncated
    ensures left == budget - Cost(Text(requests, loader, i)) && Cost(file.content) == Cost(Text(requests, loader, i))
    ensures ContentCost([file]) == Cost(Text(requests, loader, i))
  {
    file := ReadsWhole(requests, loader, budget, i);
    left := budget - Cost(Text(requests, loader, i));
    hide *;
    CostOne(file);
    ChunkIs(requests, loader, budget, i, file, left);
  }

  lemma {:induction false} ChunkIs(requests: seq<Request>, loader: Loader, budget: nat, i: nat, file: FileResult, left: nat)
    requires ValidRequests(requests) && |requests| == i + 2 && Readable(requests, loader, i)
    requires ReadOne(requests, loader, budget, i, 0) == Read(file) && !file.truncated && budget == left + Cost(file.content)
    ensures Chunk(requests, loader, budget, i, 0, file, left, Some(Position(i + 1, 0)))
  {
    hide ReadOne, Cost, Readable, ValidRequests;
  }

  lemma {:induction false} ReadsWhole(requests: seq<Request>, loader: Loader, budget: nat, i: nat) returns (file: FileResult)
    requires ValidRequests(requests) && Readable(requests, loader, i) && Cost(Text(requests, loader, i)) <= budget
    ensures ReadOne(requests, loader, budget, i, 0) == Read(file) && file.content == Text(requests, loader, i) && !file.truncated
  {
    var text := Text(requests, loader, i);
    WholeFits(text, budget);
    hide Text, Cost, Fit, LineBounds, Spans, Selected, Readable, ValidRequests;
    file := ResultFor(requests, loader, i, 0, |text|);
  }

  lemma WholeFits(text: string, budget: nat)
    requires Cost(text) <= budget
    ensures Fit(text[0..], budget) == |text| && text[0..0 + |text|] == text
  {
    assert text[0..] == text && text[..|text|] == text;
    FitIsLongest(text, budget, |text|);
  }

  lemma {:induction false} OneUnreadable(requests: seq<Request>, loader: Loader, left: nat, i: nat, next: Option<Position>)
    requires ValidRequests(requests) && |requests| == i + 1 && !Readable(requests, loader, i)
    ensures ReadFrom(requests, loader, left, i, 0, next) == Emitted(Page([], [i], next))
  {
    hide Readable, ReadOne;
    AtTheEnd(requests, loader, left, 0, next);
  }

  /** Such requests exist: one line of one character costs four bytes, numbered. */
  lemma SomeTailIsRepeated()
    ensures
      var requests := [Request("a", 1, 1), Request("b", 1, 1)];
      var loader := (path: string) => if path == "a" then Lines(["x"]) else Unreadable;
      && ValidRequests(requests) && Readable(requests, loader, 0) && !Readable(requests, loader, 1)
      && Cost(Text(requests, loader, 0)) == 4
  {
    var requests := [Request("a", 1, 1), Request("b", 1, 1)];
    var loader := (path: string) => if path == "a" then Lines(["x"]) else Unreadable;
    assert Selected(["x"], requests[0]) == ["x"] && ["x"][1..] == [];
    assert Decimal(1) == ['1'];
    assert Text(requests, loader, 0) == "1: x";
    FourBytes();
  }

  lemma FourBytes()
    ensures Cost("1: x") == 4
  {
    assert "1: x"[..3] == "1: " && "1: "[..2] == "1:" && "1:"[..1] == "1" && "1"[..0] == "";
  }
}
