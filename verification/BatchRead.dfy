/** Resumable batch reads: one page after another under byte budgets delivers exactly the
    rendered content of every request, with no gap and no duplication.

    A loader is a function from paths to what a load gives, so it is stable across pages; loads
    that raise, binary data and invalid UTF-8 are all `Unreadable`.  A cursor is the position it
    encodes (the codec is in module `Cursors`). */
module BatchRead {
  import opened Options
  import opened Transport
  import opened Rendering

  const MAX_FILES := 20
  const MAX_LINES_PER_REQUEST := 2001
  const MAX_BUDGET := 120_000

  datatype Loaded = Unreadable | Lines(lines: seq<string>)

  type Loader = string -> Loaded

  datatype Position = Position(index: nat, offset: nat)

  datatype Reason = ResultTransportBudget | SourceLimit

  datatype FileResult = FileResult(
    index: nat,
    content: string,
    totalLines: nat,
    startLine: int,
    endLine: int,
    truncated: bool,
    reason: Option<Reason>,
    omitted: Option<(int, int)>)

  /** `errors` holds the indices of the requests reported as unreadable. */
  datatype Page = Page(files: seq<FileResult>, errors: seq<nat>, next: Option<Position>)

  datatype Failure = InvalidRequests | InvalidBudget | InvalidPosition | BeyondContent | TransportBudgetExceeded

  datatype Outcome = Emitted(page: Page) | Refused(failure: Failure)

  predicate ValidRequests(requests: seq<Request>) {
    && 1 <= |requests| <= MAX_FILES
    && forall i :: 0 <= i < |requests| ==>
         var r := requests[i];
         r.path != "" && 1 <= r.startLine <= r.endLine && r.endLine - r.startLine + 1 <= MAX_LINES_PER_REQUEST
  }

  // ----- one page -----

  predicate Readable(requests: seq<Request>, loader: Loader, i: nat) {
    i < |requests| && loader(requests[i].path).Lines?
  }

  /** The whole logical content of a request; empty when there is none. */
  function Text(requests: seq<Request>, loader: Loader, i: nat): string
    requires ValidRequests(requests)
  {
    if Readable(requests, loader, i) then
      Rendered(Selected(loader(requests[i].path).lines, requests[i]), requests[i].startLine)
    else ""
  }

  function ResultFor(requests: seq<Request>, loader: Loader, i: nat, offset: nat, end: nat): FileResult
    requires ValidRequests(requests) && Readable(requests, loader, i) && offset <= end <= |Text(requests, loader, i)|
  {
    var r, lines, text := requests[i], loader(requests[i].path).lines, Text(requests, loader, i);
    var truncated := end < |text|;
    var bounds := LineBounds(Spans(Selected(lines, r), r.startLine, 0), offset, end, r, truncated);
    FileResult(i, text[offset..end], |lines|, bounds.0, bounds.1, truncated,
               if truncated then Some(ResultTransportBudget) else if r.endLine > |lines| then Some(SourceLimit) else None,
               bounds.2)
  }

  function Prepend(files: seq<FileResult>, errors: seq<nat>, rest: Outcome): Outcome {
    match rest
    case Refused(_) => rest
    case Emitted(p) => Emitted(Page(files + p.files, errors + p.errors, p.next))
  }

  datatype Attempt = Failed(failure: Failure) | Read(file: FileResult)

  /** The part of request `i` from `offset` on that fits into `remaining` bytes. */
  function ReadOne(requests: seq<Request>, loader: Loader, remaining: nat, i: nat, offset: nat): (r: Attempt)
    requires ValidRequests(requests) && Readable(requests, loader, i)
    ensures r.Read? ==> Cost(r.file.content) <= remaining
  {
    var text := Text(requests, loader, i);
    if offset > |text| then Failed(BeyondContent)
    else
      var fit := Fit(text[offset..], remaining);
      if offset < |text| && fit == 0 then Failed(TransportBudgetExceeded)
      else
        assert text[offset..offset + fit] == text[offset..][..fit];
        Read(ResultFor(requests, loader, i, offset, offset + fit))
  }

  /** The cursor after a success at request `i`. */
  function NextAfter(requests: seq<Request>, i: nat, offset: nat, file: FileResult): Option<Position> {
    if file.truncated then Some(Position(i, offset + |file.content|))
    else if i + 1 < |requests| then Some(Position(i + 1, 0)) else None
  }

  /** The page that starts at request `i`, character `offset`, with `remaining` bytes left; `next` is
      the cursor of the last success so far. */
  function ReadFrom(requests: seq<Request>, loader: Loader, remaining: nat, i: nat, offset: nat, next: Option<Position>): Outcome
    requires ValidRequests(requests) && i <= |requests|
    decreases |requests| - i
  {
    if i == |requests| then Emitted(Page([], [], next))
    else if !Readable(requests, loader, i) then Prepend([], [i], ReadFrom(requests, loader, remaining, i + 1, 0, next))
    else
      match ReadOne(requests, loader, remaining, i, offset)
      case Failed(failure) => Refused(failure)
      case Read(file) =>
        var left := remaining - Cost(file.content);
        var next' := NextAfter(requests, i, offset, file);
        if file.truncated || left == 0 then Emitted(Page([file], [], next'))
        else Prepend([file], [], ReadFrom(requests, loader, left, i + 1, 0, next'))
  }

  function ReadPage(requests: seq<Request>, loader: Loader, budget: int, p: Position): Outcome {
    if !ValidRequests(requests) then Refused(InvalidRequests)
    else if !(1 <= budget <= MAX_BUDGET) then Refused(InvalidBudget)
    else if p.index > |requests| then Refused(InvalidPosition)
    else ReadFrom(requests, loader, budget, p.index, p.offset, None)
  }

  lemma PrependTwice(f1: seq<FileResult>, e1: seq<nat>, f2: seq<FileResult>, e2: seq<nat>, rest: Outcome)
    ensures Prepend(f1, e1, Prepend(f2, e2, rest)) == Prepend(f1 + f2, e1 + e2, rest)
  {
    if rest.Emitted? {
      assert f1 + (f2 + rest.page.files) == (f1 + f2) + rest.page.files;
      assert e1 + (e2 + rest.page.errors) == (e1 + e2) + rest.page.errors;
    }
  }

  /** The page built so far, continued at request `i`, character `offset`. */
  function Resume(files: seq<FileResult>, errors: seq<nat>, requests: seq<Request>, loader: Loader, remaining: nat, i: nat, offset: nat, next: Option<Position>): Outcome
    requires ValidRequests(requests) && i <= |requests|
  {
    Prepend(files, errors, ReadFrom(requests, loader, remaining, i, offset, next))
  }

  lemma ResumeUnreadable(files: seq<FileResult>, errors: seq<nat>, requests: seq<Request>, loader: Loader, remaining: nat, i: nat, offset: nat, next: Option<Position>)
    requires ValidRequests(requests) && i < |requests| && !Readable(requests, loader, i)
    ensures Resume(files, errors, requests, loader, remaining, i, offset, next) ==
            Resume(files, errors + [i], requests, loader, remaining, i + 1, 0, next)
  {
    hide Text;
    PrependTwice(files, errors, [], [i], ReadFrom(requests, loader, remaining, i + 1, 0, next));
    assert files + [] == files;
  }

  lemma ResumeStops(files: seq<FileResult>, errors: seq<nat>, requests: seq<Request>, loader: Loader, remaining: nat, i: nat, offset: nat, next: Option<Position>)
    requires ValidRequests(requests) && Readable(requests, loader, i)
    ensures
      var whole := Resume(files, errors, requests, loader, remaining, i, offset, next);
      match ReadOne(requests, loader, remaining, i, offset)
      case Failed(failure) => whole == Refused(failure)
      case Read(file) =>
        file.truncated || remaining == Cost(file.content) ==>
          whole == Emitted(Page(files + [file], errors, NextAfter(requests, i, offset, file)))
  {
    hide ReadOne, Cost;
    assert errors + [] == errors;
  }

  lemma ResumeContinues(files: seq<FileResult>, errors: seq<nat>, requests: seq<Request>, loader: Loader, remaining: nat, i: nat, offset: nat, next: Option<Position>,
                        file: FileResult, left: nat, next': Option<Position>)
    requires ValidRequests(requests) && Readable(requests, loader, i)
    requires ReadOne(requests, loader, remaining, i, offset) == Read(file) && !file.truncated
    requires left == remaining - Cost(file.content) > 0 && next' == NextAfter(requests, i, offset, file)
    ensures Resume(files, errors, requests, loader, remaining, i, offset, next) ==
            Resume(files + [file], errors, requests, loader, left, i + 1, 0, next')
  {
    hide ReadOne, Cost, NextAfter;
    assert errors + [] == errors;
    PrependTwice(files, errors, [file], [], ReadFrom(requests, loader, left, i + 1, 0, next'));
  }

  /** One turn of the loop in `execute_batch_read` for a request that loaded. */
  method ReadRequest(requests: seq<Request>, loader: Loader, remaining: nat, index: nat, offset: nat) returns (attempt: Attempt)
    requires ValidRequests(requests) && Readable(requests, loader, index)
    ensures attempt == ReadOne(requests, loader, remaining, index, offset)
  {
    hide Selected, Rendered, Spans, LineBounds, Cost, Fit;
    var request, loaded := requests[index], loader(requests[index].path);
    assert 1 <= request.startLine <= request.endLine;
    var text, total, spans := Render(loaded.lines, request);
    if offset > |text| {
      return Failed(BeyondContent);
    }
    var pending := text[offset..];
    var chunk := PrefixWithinTransportBudget(pending, remaining);
    if pending != "" && chunk == "" {
      return Failed(TransportBudgetExceeded);
    }
    var end := offset + |chunk|;
    var truncated := end < |text|;
    var bounds := LineBounds(spans, offset, end, request, truncated);
    var reason :=
      if truncated then Some(ResultTransportBudget) else if request.endLine > total then Some(SourceLimit) else None;
    assert chunk == text[offset..end];
    attempt := Read(FileResult(index, chunk, total, bounds.0, bounds.1, truncated, reason, bounds.2));
  }

  /** `execute_batch_read`: the loop over the requests under one byte budget. */
  method ExecuteBatchRead(requests: seq<Request>, loader: Loader, budget: int, p: Position) returns (outcome: Outcome)
    ensures outcome == ReadPage(requests, loader, budget, p)
  {
    if !ValidRequests(requests) {
      return Refused(InvalidRequests);
    }
    if !(1 <= budget <= MAX_BUDGET) {
      return Refused(InvalidBudget);
    }
    if p.index > |requests| {
      return Refused(InvalidPosition);
    }
    hide ReadOne, Cost, ValidRequests, Text, Readable, NextAfter;
    var remaining: nat := budget;
    var files: seq<FileResult>, errors: seq<nat> := [], [];
    var index: nat, offset: nat := p.index, p.offset;
    var next: Option<Position> := None;
    while index < |requests|
      invariant index <= |requests| && remaining <= budget
      invariant ReadPage(requests, loader, budget, p) == Resume(files, errors, requests, loader, remaining, index, offset, next)
    {
      hide ReadPage, Resume, ReadFrom;
      var loaded := loader(requests[index].path);
      if loaded.Unreadable? {
        ResumeUnreadable(files, errors, requests, loader, remaining, index, offset, next);
        errors := errors + [index];
        index, offset := index + 1, 0;
        continue;
      }
      var attempt := ReadRequest(requests, loader, remaining, index, offset);
      if attempt.Failed? {
        ResumeStops(files, errors, requests, loader, remaining, index, offset, next);
        return Refused(attempt.failure);
      }
      var next' := NextAfter(requests, index, offset, attempt.file);
      var left := remaining - Cost(attempt.file.content);
      if attempt.file.truncated || left == 0 {
        ResumeStops(files, errors, requests, loader, remaining, index, offset, next);
        return Emitted(Page(files + [attempt.file], errors, next'));
      }
      ResumeContinues(files, errors, requests, loader, remaining, index, offset, next, attempt.file, left, next');
      files, remaining, next := files + [attempt.file], left, next';
      index, offset := index + 1, 0;
    }
    assert files + [] == files && errors + [] == errors;
    outcome := Emitted(Page(files, errors, next));
  }

  // ----- what one page delivers -----

  /** What a list of results delivers for request `j`. */
  function Collect(files: seq<FileResult>, j: nat): string {
    if files == [] then ""
    else (if files[0].index == j then files[0].content else "") + Collect(files[1..], j)
  }

  lemma {:induction false} CollectAppend(a: seq<FileResult>, b: seq<FileResult>, j: nat)
    ensures Collect(a + b, j) == Collect(a, j) + Collect(b, j)
  {
    if a == [] {
      assert a + b == b;
    } else {
      assert (a + b)[1..] == a[1..] + b;
      CollectAppend(a[1..], b, j);
    }
  }

  function ContentCost(files: seq<FileResult>): nat {
    if files == [] then 0 else Cost(files[0].content) + ContentCost(files[1..])
  }

  /** The characters of request `j` from one position up to the next one. */
  function Between(text: string, j: nat, p: Position, q: Option<Position>): string {
    var from := if j < p.index then |text| else if j == p.index then p.offset else 0;
    var upto := if q.None? || j < q.value.index then |text| else if j == q.value.index then q.value.offset else 0;
    if from <= upto <= |text| then text[from..upto] else ""
  }

  /** A cursor left by the last success: everything since was unreadable. */
  ghost predicate Carried(requests: seq<Request>, loader: Loader, next: Option<Position>, i: nat, offset: nat) {
    next.Some? ==>
      && next.value.index <= i && next.value.offset == 0 && offset == 0
      && forall j :: next.value.index <= j < i ==> !Readable(requests, loader, j)
  }

  predicate Before(p: Position, q: Position) {
    p.index < q.index || (p.index == q.index && p.offset < q.offset)
  }

  /** A position a cursor of this request can hold. */
  predicate InRange(requests: seq<Request>, loader: Loader, p: Position)
    requires ValidRequests(requests)
  {
    p.index <= |requests| && p.offset <= |Text(requests, loader, p.index)|
  }

  /** The page that starts at `p` and leaves `page.next` delivers exactly the text between them. */
  ghost predicate Delivers(requests: seq<Request>, loader: Loader, page: Page, p: Position)
    requires ValidRequests(requests)
  {
    forall j: nat :: Collect(page.files, j) == Between(Text(requests, loader, j), j, p, page.next)
  }

  /** Exactly the unreadable requests are reported, and none is passed over. */
  ghost predicate Reports(requests: seq<Request>, loader: Loader, page: Page, i: nat) {
    && (forall e :: e in page.errors ==> i <= e < |requests| && !Readable(requests, loader, e))
    && (forall e :: i <= e < |requests| && !Readable(requests, loader, e) ==>
          e in page.errors || (page.next.Some? && page.next.value.index <= e))
  }

  ghost predicate Advances(requests: seq<Request>, loader: Loader, page: Page, p: Position, carried: Option<Position>)
    requires ValidRequests(requests)
  {
    page.next.Some? ==>
      && page.next.value.index < |requests| && InRange(requests, loader, page.next.value)
      && (page.next == carried || Before(p, page.next.value))
  }

  lemma {:induction false} PageFacts(requests: seq<Request>, loader: Loader, remaining: nat, i: nat, offset: nat, next: Option<Position>)
    requires ValidRequests(requests) && i <= |requests|
    requires next.Some? ==> next.value.index < |requests|
    requires Carried(requests, loader, next, i, offset)
    requires ReadFrom(requests, loader, remaining, i, offset, next).Emitted?
    ensures
      var page := ReadFrom(requests, loader, remaining, i, offset, next).page;
      && Good(requests, loader, page, i, offset, next)
      && ContentCost(page.files) <= remaining
    decreases |requests| - i
  {
    hide ReadOne, Cost, Good, ChunkOf;
    var page := ReadFrom(requests, loader, remaining, i, offset, next).page;
    if i == |requests| {
      LastPage(requests, loader, i, offset, next);
    } else if !Readable(requests, loader, i) {
      PageFacts(requests, loader, remaining, i + 1, 0, next);
      var rest := ReadFrom(requests, loader, remaining, i + 1, 0, next).page;
      assert [] + rest.files == rest.files;
      PassUnreadable(requests, loader, rest, i, offset, next);
    } else {
      ReadOneFacts(requests, loader, remaining, i, offset);
      var file := ReadOne(requests, loader, remaining, i, offset).file;
      var left, next' := remaining - Cost(file.content), NextAfter(requests, i, offset, file);
      if file.truncated || left == 0 {
        StopAfter(requests, loader, i, offset, file, next);
      } else {
        PageFacts(requests, loader, left, i + 1, 0, next');
        var rest := ReadFrom(requests, loader, left, i + 1, 0, next').page;
        assert [] + rest.errors == rest.errors && ([file] + rest.files)[1..] == rest.files;
        PassReadable(requests, loader, rest, i, offset, file, next);
      }
    }
  }

  /** A chunk is the text from `offset` on, up to the longest prefix that fits. */
  ghost predicate ChunkOf(requests: seq<Request>, loader: Loader, i: nat, offset: nat, file: FileResult)
    requires ValidRequests(requests)
  {
    var text, end := Text(requests, loader, i), offset + |file.content|;
    && Readable(requests, loader, i)
    && file.index == i && end <= |text| && file.content == text[offset..end]
    && file.truncated == (end < |text|) && (file.truncated ==> file.content != "")
  }

  lemma ReadOneFacts(requests: seq<Request>, loader: Loader, remaining: nat, i: nat, offset: nat)
    requires ValidRequests(requests) && Readable(requests, loader, i)
    ensures var r := ReadOne(requests, loader, remaining, i, offset); r.Read? ==> ChunkOf(requests, loader, i, offset, r.file)
  {
    hide Text, Cost, FitFrom, LineBounds, Spans, Selected;
  }

  lemma LastPage(requests: seq<Request>, loader: Loader, i: nat, offset: nat, next: Option<Position>)
    requires ValidRequests(requests) && i == |requests|
    requires next.Some? ==> next.value.index < |requests|
    requires Carried(requests, loader, next, i, offset)
    ensures Good(requests, loader, Page([], [], next), i, offset, next)
  {
    hide Rendered, Selected;
  }

  /** What a page that starts at request `i`, character `offset` promises. */
  ghost predicate Good(requests: seq<Request>, loader: Loader, page: Page, i: nat, offset: nat, carried: Option<Position>)
    requires ValidRequests(requests)
  {
    && Delivers(requests, loader, page, Position(i, offset))
    && Reports(requests, loader, page, i)
    && Advances(requests, loader, page, Position(i, offset), carried)
  }

  lemma PassUnreadable(requests: seq<Request>, loader: Loader, rest: Page, i: nat, offset: nat, next: Option<Position>)
    requires ValidRequests(requests) && i < |requests| && !Readable(requests, loader, i)
    requires next.Some? ==> next.value.index < |requests|
    requires Carried(requests, loader, next, i, offset)
    requires Good(requests, loader, rest, i + 1, 0, next)
    ensures Good(requests, loader, Page(rest.files, [i] + rest.errors, rest.next), i, offset, next)
  {
    hide Rendered, Selected;
    var page := Page(rest.files, [i] + rest.errors, rest.next);
    forall j: nat
      ensures Collect(page.files, j) == Between(Text(requests, loader, j), j, Position(i, offset), page.next)
    {
      assert Collect(rest.files, j) == Between(Text(requests, loader, j), j, Position(i + 1, 0), rest.next);
    }
  }

  lemma StopAfter(requests: seq<Request>, loader: Loader, i: nat, offset: nat, file: FileResult, carried: Option<Position>)
    requires ValidRequests(requests) && ChunkOf(requests, loader, i, offset, file)
    ensures Good(requests, loader, Page([file], [], NextAfter(requests, i, offset, file)), i, offset, carried)
  {
    hide Rendered, Selected;
    var page := Page([file], [], NextAfter(requests, i, offset, file));
    forall j: nat
      ensures Collect(page.files, j) == Between(Text(requests, loader, j), j, Position(i, offset), page.next)
    {
      assert page.files[1..] == [];
    }
  }

  lemma PassReadable(requests: seq<Request>, loader: Loader, rest: Page, i: nat, offset: nat, file: FileResult, carried: Option<Position>)
    requires ValidRequests(requests) && ChunkOf(requests, loader, i, offset, file) && !file.truncated
    requires Good(requests, loader, rest, i + 1, 0, NextAfter(requests, i, offset, file))
    ensures Good(requests, loader, Page([file] + rest.files, rest.errors, rest.next), i, offset, carried)
  {
    hide Text, Delivers;
    PassDelivers(requests, loader, rest, i, offset, file);
  }

  lemma PassDelivers(requests: seq<Request>, loader: Loader, rest: Page, i: nat, offset: nat, file: FileResult)
    requires ValidRequests(requests) && ChunkOf(requests, loader, i, offset, file) && !file.truncated
    requires Delivers(requests, loader, rest, Position(i + 1, 0))
    requires rest.next.Some? ==> rest.next.value.index > i
    ensures Delivers(requests, loader, Page([file] + rest.files, rest.errors, rest.next), Position(i, offset))
  {
    hide Text, Readable;
    var files := [file] + rest.files;
    assert files[1..] == rest.files;
    forall j: nat
      ensures Collect(files, j) == Between(Text(requests, loader, j), j, Position(i, offset), rest.next)
    {
      assert Collect(rest.files, j) == Between(Text(requests, loader, j), j, Position(i + 1, 0), rest.next);
      hide Delivers;
    }
  }

  // ----- when a page is refused -----

  lemma {:induction false} RefusedFrom(requests: seq<Request>, loader: Loader, remaining: nat, i: nat, offset: nat, next: Option<Position>)
    requires ValidRequests(requests) && InRange(requests, loader, Position(i, offset)) && remaining > 0
    ensures
      var text := Text(requests, loader, i);
      var outcome := ReadFrom(requests, loader, remaining, i, offset, next);
      if offset < |text| && remaining < CharCost(text[offset]) then outcome == Refused(TransportBudgetExceeded)
      else outcome.Emitted?
    decreases |requests| - i
  {
    hide CharCost, Cost, Fit, ResultFor, Rendered;
    if i < |requests| && !Readable(requests, loader, i) {
      RefusedFrom(requests, loader, remaining, i + 1, 0, next);
    } else if i < |requests| {
      var text := Text(requests, loader, i);
      if offset < |text| {
        FitNothing(text[offset..], remaining);
      }
      var r := ReadOne(requests, loader, remaining, i, offset);
      if r.Read? && !r.file.truncated && Cost(r.file.content) < remaining {
        RefusedFrom(requests, loader, remaining - Cost(r.file.content), i + 1, 0, NextAfter(requests, i, offset, r.file));
      }
    }
  }

  /** Exactly one thing refuses a page that starts inside the content: its very first character is
      more expensive than the whole budget.  A budget of six bytes rules that out. */
  lemma PageRefusedIff(requests: seq<Request>, loader: Loader, budget: int, p: Position)
    requires ValidRequests(requests) && 1 <= budget <= MAX_BUDGET && InRange(requests, loader, p)
    ensures
      var text := Text(requests, loader, p.index);
      && (ReadPage(requests, loader, budget, p).Refused? <==> p.offset < |text| && budget < CharCost(text[p.offset]))
      && (ReadPage(requests, loader, budget, p).Refused? ==> ReadPage(requests, loader, budget, p).failure == TransportBudgetExceeded)
      && (budget >= 6 ==> ReadPage(requests, loader, budget, p).Emitted?)
  {
    hide Text, ReadFrom, CharCost;
    RefusedFrom(requests, loader, budget, p.index, p.offset, None);
  }

  /** One page: it delivers exactly the text between the two cursors, stays within the budget,
      reports the unreadable requests it passes, and its cursor is strictly further on. */
  lemma PageIsExact(requests: seq<Request>, loader: Loader, budget: int, p: Position)
    requires ValidRequests(requests) && ReadPage(requests, loader, budget, p).Emitted?
    ensures
      var page := ReadPage(requests, loader, budget, p).page;
      && (forall j: nat :: Collect(page.files, j) == Between(Text(requests, loader, j), j, p, page.next))
      && Reports(requests, loader, page, p.index)
      && ContentCost(page.files) <= budget
      && (page.next.Some? ==> page.next.value.index < |requests| && InRange(requests, loader, page.next.value) && Before(p, page.next.value))
  {
    hide Text, ReadFrom, ContentCost;
    PageFacts(requests, loader, budget, p.index, p.offset, None);
  }

  // ----- following the cursors -----

  datatype Chain = Complete(pages: seq<Page>) | Broken(failure: Failure)

  /** The pages read by following the cursors from `p`, page `k` under budget `budgets(k)`. */
  function Follow(requests: seq<Request>, loader: Loader, budgets: nat -> int, k: nat, p: Position): Chain
    requires ValidRequests(requests) && InRange(requests, loader, p)
    decreases |requests| - p.index, |Text(requests, loader, p.index)| - p.offset
  {
    match ReadPage(requests, loader, budgets(k), p)
    case Refused(failure) => Broken(failure)
    case Emitted(page) =>
      if page.next.None? then Complete([page])
      else
        PageIsExact(requests, loader, budgets(k), p);
        match Follow(requests, loader, budgets, k + 1, page.next.value)
        case Broken(failure) => Broken(failure)
        case Complete(rest) => Complete([page] + rest)
  }

  function AllFiles(pages: seq<Page>): seq<FileResult> {
    if pages == [] then [] else pages[0].files + AllFiles(pages[1..])
  }

  function AllErrors(pages: seq<Page>): seq<nat> {
    if pages == [] then [] else pages[0].errors + AllErrors(pages[1..])
  }

  lemma BetweenJoins(text: string, j: nat, p: Position, q: Position)
    requires Before(p, q) && (j == p.index ==> p.offset <= |text|) && (j == q.index ==> q.offset <= |text|)
    ensures Between(text, j, p, Some(q)) + Between(text, j, q, None) == Between(text, j, p, None)
  {
  }

  /** The pages deliver everything from `p` on. */
  ghost predicate DeliverAll(requests: seq<Request>, loader: Loader, pages: seq<Page>, p: Position)
    requires ValidRequests(requests)
  {
    forall j: nat :: Collect(AllFiles(pages), j) == Between(Text(requests, loader, j), j, p, None)
  }

  /** The pages report exactly unreadable requests, and all of them from `i` on. */
  ghost predicate ReportAll(requests: seq<Request>, loader: Loader, pages: seq<Page>, i: nat) {
    && (forall e :: e in AllErrors(pages) ==> e < |requests| && !Readable(requests, loader, e))
    && (forall e :: i <= e < |requests| && !Readable(requests, loader, e) ==> e in AllErrors(pages))
  }

  ghost predicate WithinAll(budgets: nat -> int, k: nat, pages: seq<Page>) {
    forall m :: 0 <= m < |pages| ==> ContentCost(pages[m].files) <= budgets(k + m)
  }

  lemma DeliverCons(requests: seq<Request>, loader: Loader, page: Page, rest: seq<Page>, p: Position)
    requires ValidRequests(requests) && InRange(requests, loader, p) && Delivers(requests, loader, page, p)
    requires match page.next
      case None => rest == []
      case Some(q) => InRange(requests, loader, q) && Before(p, q) && DeliverAll(requests, loader, rest, q)
    ensures DeliverAll(requests, loader, [page] + rest, p)
  {
    hide Text, Collect, Between;
    assert ([page] + rest)[1..] == rest;
    forall j: nat
      ensures Collect(AllFiles([page] + rest), j) == Between(Text(requests, loader, j), j, p, None)
    {
      if page.next.Some? {
        CollectAppend(page.files, AllFiles(rest), j);
        BetweenJoins(Text(requests, loader, j), j, p, page.next.value);
      } else {
        assert page.files + [] == page.files;
      }
    }
  }

  lemma ReportCons(requests: seq<Request>, loader: Loader, page: Page, rest: seq<Page>, i: nat)
    requires Reports(requests, loader, page, i)
    requires match page.next
      case None => rest == []
      case Some(q) => ReportAll(requests, loader, rest, q.index)
    ensures ReportAll(requests, loader, [page] + rest, i)
  {
    hide Readable;
    assert ([page] + rest)[1..] == rest;
    assert AllErrors([page] + rest) == page.errors + AllErrors(rest);
  }

  lemma WithinCons(budgets: nat -> int, k: nat, page: Page, rest: seq<Page>)
    requires ContentCost(page.files) <= budgets(k) && WithinAll(budgets, k + 1, rest)
    ensures WithinAll(budgets, k, [page] + rest)
  {
    hide ContentCost;
    var pages := [page] + rest;
    forall m | 0 <= m < |pages|
      ensures ContentCost(pages[m].files) <= budgets(k + m)
    {
      assert m > 0 ==> pages[m] == rest[m - 1] && budgets(k + m) == budgets(k + 1 + (m - 1));
    }
  }

  lemma {:induction false} ChainFrom(requests: seq<Request>, loader: Loader, budgets: nat -> int, k: nat, p: Position)
    requires ValidRequests(requests) && InRange(requests, loader, p)
    requires Follow(requests, loader, budgets, k, p).Complete?
    ensures
      var pages := Follow(requests, loader, budgets, k, p).pages;
      DeliverAll(requests, loader, pages, p) && ReportAll(requests, loader, pages, p.index) && WithinAll(budgets, k, pages)
    decreases |requests| - p.index, |Text(requests, loader, p.index)| - p.offset
  {
    hide Text, ReadPage, Reports, DeliverAll, ReportAll, WithinAll, ContentCost, AllFiles, AllErrors, Collect, Between;
    var page := ReadPage(requests, loader, budgets(k), p).page;
    PageIsExact(requests, loader, budgets(k), p);
    var rest: seq<Page> := [];
    if page.next.Some? {
      var q := page.next.value;
      ChainFrom(requests, loader, budgets, k + 1, q);
      rest := Follow(requests, loader, budgets, k + 1, q).pages;
    } else {
      NoPages(budgets, k + 1);
    }
    assert Follow(requests, loader, budgets, k, p).pages == [page] + rest;
    DeliverCons(requests, loader, page, rest, p);
    ReportCons(requests, loader, page, rest, p.index);
    WithinCons(budgets, k, page, rest);
  }

  lemma NoPages(budgets: nat -> int, k: nat)
    ensures WithinAll(budgets, k, [])
  {
  }

  lemma {:induction false} ChainCompletes(requests: seq<Request>, loader: Loader, budgets: nat -> int, k: nat, p: Position)
    requires ValidRequests(requests) && InRange(requests, loader, p)
    requires forall m :: 6 <= budgets(m) <= MAX_BUDGET
    ensures Follow(requests, loader, budgets, k, p).Complete?
    decreases |requests| - p.index, |Text(requests, loader, p.index)| - p.offset
  {
    hide Text, ReadPage, Readable, Collect, Between, ContentCost;
    PageRefusedIff(requests, loader, budgets(k), p);
    PageIsExact(requests, loader, budgets(k), p);
    var page := ReadPage(requests, loader, budgets(k), p).page;
    if page.next.Some? {
      ChainCompletes(requests, loader, budgets, k + 1, page.next.value);
    }
  }

  /** The pages together hold the whole content of every request and report exactly the unreadable
      ones, each page within its own budget. */
  ghost predicate Exact(requests: seq<Request>, loader: Loader, budgets: nat -> int, pages: seq<Page>)
    requires ValidRequests(requests)
  {
    && (forall j: nat :: Collect(AllFiles(pages), j) == Text(requests, loader, j))
    && (forall e: nat :: e in AllErrors(pages) <==> e < |requests| && !Readable(requests, loader, e))
    && (forall m :: 0 <= m < |pages| ==> ContentCost(pages[m].files) <= budgets(m))
  }

  /** The refinement: whatever the budgets of the pages are, a chain that reaches its end is exact,
      and with budgets of at least six bytes every chain reaches its end. */
  lemma ChainIsExact(requests: seq<Request>, loader: Loader, budgets: nat -> int)
    requires ValidRequests(requests)
    ensures Follow(requests, loader, budgets, 0, Position(0, 0)).Complete? ==>
              Exact(requests, loader, budgets, Follow(requests, loader, budgets, 0, Position(0, 0)).pages)
    ensures (forall m :: 6 <= budgets(m) <= MAX_BUDGET) ==> Follow(requests, loader, budgets, 0, Position(0, 0)).Complete?
  {
    hide Text, Readable, Collect, Follow, ContentCost, AllErrors, AllFiles;
    if forall m :: 6 <= budgets(m) <= MAX_BUDGET {
      ChainCompletes(requests, loader, budgets, 0, Position(0, 0));
    }
    var chain := Follow(requests, loader, budgets, 0, Position(0, 0));
    if chain.Complete? {
      ChainFrom(requests, loader, budgets, 0, Position(0, 0));
      forall m | 0 <= m < |chain.pages|
        ensures ContentCost(chain.pages[m].files) <= budgets(m)
      {
        assert budgets(0 + m) == budgets(m);
      }
    }
  }

  // ----- line numbers across a page boundary -----

  /** The line range of a chunk: from the line that holds its first character to the line that holds
      its last one. */
  lemma ChunkLines(requests: seq<Request>, loader: Loader, i: nat, offset: nat, end: nat)
    requires ValidRequests(requests) && Readable(requests, loader, i) && offset < end <= |Text(requests, loader, i)|
    ensures
      var file, r := ResultFor(requests, loader, i, offset, end), requests[i];
      var selected := Selected(loader(r.path).lines, r);
      && 0 <= file.startLine - r.startLine < |selected| && 0 <= file.endLine - r.startLine < |selected|
      && |Partial(selected, file.startLine - r.startLine, r.startLine)| <= offset
           < |Partial(selected, file.startLine - r.startLine + 1, r.startLine)|
      && |Partial(selected, file.endLine - r.startLine, r.startLine)| < end
           <= |Partial(selected, file.endLine - r.startLine + 1, r.startLine)|
  {
    hide Rendered, Selected, Spans, Numbers, NumbersAfter, Partial;
    var r := requests[i];
    var selected := Selected(loader(r.path).lines, r);
    FirstTouched(selected, r.startLine, 0, offset, end);
    LastTouched(selected, r.startLine, 0, offset, end);
  }

  /** A result carries its part of the numbered lines, says which lines those are and which are left out,
      and why it is not the whole range: the budget, or the end of the file. */
  ghost predicate Means(requests: seq<Request>, loader: Loader, file: FileResult, offset: nat)
    requires ValidRequests(requests)
  {
    Readable(requests, loader, file.index) && offset + |file.content| <= |Text(requests, loader, file.index)| &&
    var r, lines, text := requests[file.index], loader(requests[file.index].path).lines, Text(requests, loader, file.index);
    var end := offset + |file.content|;
    && file.content == text[offset..end] && file.totalLines == |lines|
    && (file.truncated <==> end < |text|)
    && (file.reason == Some(ResultTransportBudget) <==> end < |text|)
    && (file.reason == Some(SourceLimit) <==> end == |text| && r.endLine > |lines|)
    && exists spans :: Numbered(lines, r, text, spans) && Locates((file.startLine, file.endLine, file.omitted), spans, lines, r, |text|, offset, end)
  }

  lemma {:induction false} ResultMeans(requests: seq<Request>, loader: Loader, i: nat, offset: nat, end: nat)
    requires ValidRequests(requests) && Readable(requests, loader, i) && offset <= end <= |Text(requests, loader, i)|
    ensures
      var file := ResultFor(requests, loader, i, offset, end);
      file.index == i && |file.content| == end - offset && Means(requests, loader, file, offset)
  {
    var r, lines, text := requests[i], loader(requests[i].path).lines, Text(requests, loader, i);
    var file := ResultFor(requests, loader, i, offset, end);
    var spans := Spans(Selected(lines, r), r.startLine, 0);
    RenderedIsNumbered(lines, r);
    ResultLocates(requests, loader, i, offset, end);
    hide Locates, Numbered, Rendered, Selected, Spans, LineBounds;
  }

  lemma {:induction false} ResultLocates(requests: seq<Request>, loader: Loader, i: nat, offset: nat, end: nat)
    requires ValidRequests(requests) && Readable(requests, loader, i) && offset <= end <= |Text(requests, loader, i)|
    ensures
      var r, lines, file := requests[i], loader(requests[i].path).lines, ResultFor(requests, loader, i, offset, end);
      Locates((file.startLine, file.endLine, file.omitted), Spans(Selected(lines, r), r.startLine, 0), lines, r,
              |Text(requests, loader, i)|, offset, end)
  {
    var r, lines := requests[i], loader(requests[i].path).lines;
    var file := ResultFor(requests, loader, i, offset, end);
    var bounds := LineBounds(Spans(Selected(lines, r), r.startLine, 0), offset, end, r, file.truncated);
    BoundsLocate(lines, r, offset, end);
    hide Rendered, Selected, Spans, LineBounds, LastLine;
  }

  lemma {:induction false} TextIsNumbered(requests: seq<Request>, loader: Loader, j: nat)
    requires ValidRequests(requests) && Readable(requests, loader, j)
    ensures exists spans :: Numbered(loader(requests[j].path).lines, requests[j], Text(requests, loader, j), spans)
  {
    var r, lines := requests[j], loader(requests[j].path).lines;
    RenderedIsNumbered(lines, r);
    hide Numbered, Rendered, Selected, Spans;
    assert Numbered(lines, r, Text(requests, loader, j), Spans(Selected(lines, r), r.startLine, 0));
  }

  /** The pages hold, for every readable request, its lines of the file, each behind its own number. */
  ghost predicate DeliverLines(requests: seq<Request>, loader: Loader, pages: seq<Page>)
    requires ValidRequests(requests)
  {
    forall j: nat ::
      if Readable(requests, loader, j) then
        exists spans :: Numbered(loader(requests[j].path).lines, requests[j], Collect(AllFiles(pages), j), spans)
      else Collect(AllFiles(pages), j) == ""
  }

  lemma {:induction false} ExactDelivers(requests: seq<Request>, loader: Loader, budgets: nat -> int, pages: seq<Page>)
    requires ValidRequests(requests) && Exact(requests, loader, budgets, pages)
    ensures DeliverLines(requests, loader, pages)
  {
    forall j: nat | Readable(requests, loader, j)
      ensures exists spans :: Numbered(loader(requests[j].path).lines, requests[j], Text(requests, loader, j), spans)
    {
      TextIsNumbered(requests, loader, j);
    }
    hide Numbered, Rendered, Selected, Spans, Collect, AllFiles, AllErrors, ContentCost;
  }

  /** Every chain that reaches its end has delivered the numbered lines of all its requests. */
  lemma {:induction false} ChainDeliversLines(requests: seq<Request>, loader: Loader, budgets: nat -> int)
    requires ValidRequests(requests) && Follow(requests, loader, budgets, 0, Position(0, 0)).Complete?
    ensures DeliverLines(requests, loader, Follow(requests, loader, budgets, 0, Position(0, 0)).pages)
  {
    hide DeliverLines, Exact, Follow;
    ChainIsExact(requests, loader, budgets);
    ExactDelivers(requests, loader, budgets, Follow(requests, loader, budgets, 0, Position(0, 0)).pages);
  }

  /** Across a truncated page boundary the resumed page starts on the line where the earlier page's
      omitted range starts: the line that holds the next character.  The omitted range ends with the
      last selected line. */
  lemma ResumeStartsWhereOmitted(requests: seq<Request>, loader: Loader, i: nat, offset: nat, end: nat, later: nat)
    requires ValidRequests(requests) && Readable(requests, loader, i)
    requires offset <= end < later <= |Text(requests, loader, i)|
    ensures
      var first, second := ResultFor(requests, loader, i, offset, end), ResultFor(requests, loader, i, end, later);
      var r := requests[i];
      var selected := Selected(loader(r.path).lines, r);
      && first.truncated && first.omitted == Some((second.startLine, r.startLine + |selected| - 1))
      && 0 <= second.startLine - r.startLine < |selected|
      && |Partial(selected, second.startLine - r.startLine, r.startLine)| <= end
           < |Partial(selected, second.startLine - r.startLine + 1, r.startLine)|
  {
    hide Rendered, Selected, Spans, LineBounds, Partial;
    var r := requests[i];
    BoundsResume(Selected(loader(r.path).lines, r), r, offset, end, later);
  }
}
