/** What one batch-read page holds and why it stops: a result for every readable request it passes, and no
    room for the next character. */
module BatchPages {
  import opened Options
  import opened Transport
  import opened Rendering
  import opened BatchRead
  import opened BatchErrors

  /** The cursor lies behind request `j`, or inside it. */
  predicate Passes(next: Option<Position>, j: nat) {
    next.None? || j < next.value.index || (j == next.value.index && next.value.offset > 0)
  }

  /** One result for every readable request that is passed, in order, each telling its own part. */
  ghost predicate Listed(requests: seq<Request>, loader: Loader, files: seq<FileResult>, p: Position, next: Option<Position>)
    requires ValidRequests(requests)
  {
    && (forall k :: 0 <= k < |files| ==>
          && files[k].index >= p.index && Passes(next, files[k].index)
          && Means(requests, loader, files[k], if files[k].index == p.index then p.offset else 0))
    && (forall k, l :: 0 <= k < l < |files| ==> files[k].index < files[l].index)
    && (forall j :: p.index <= j < |requests| && Readable(requests, loader, j) && Passes(next, j) ==> HasResult(files, j))
  }

  predicate HasResult(files: seq<FileResult>, j: nat) {
    exists k :: 0 <= k < |files| && files[k].index == j
  }

  /** The page could not go on: the next character does not fit; or, between two requests, the budget is
      used up exactly or nothing readable is left. */
  ghost predicate Full(requests: seq<Request>, loader: Loader, files: seq<FileResult>, budget: int, next: Option<Position>)
    requires ValidRequests(requests)
  {
    next.Some? ==>
      if next.value.offset > 0 then
        && next.value.offset < |Text(requests, loader, next.value.index)|
        && ContentCost(files) + CharCost(Text(requests, loader, next.value.index)[next.value.offset]) > budget
      else ContentCost(files) == budget || AllUnreadable(requests, loader, next.value.index)
  }

  lemma NothingListed(requests: seq<Request>, loader: Loader, budget: int, i: nat, offset: nat, next: Option<Position>)
    requires ValidRequests(requests) && i == |requests| && Carried(requests, loader, next, i, offset)
    ensures Listed(requests, loader, [], Position(i, offset), next) && Full(requests, loader, [], budget, next)
  {
    hide Readable, Text, Means;
  }

  lemma PassListed(requests: seq<Request>, loader: Loader, files: seq<FileResult>, i: nat, offset: nat, next: Option<Position>)
    requires ValidRequests(requests) && !Readable(requests, loader, i) && Listed(requests, loader, files, Position(i + 1, 0), next)
    ensures Listed(requests, loader, files, Position(i, offset), next)
  {
    hide Readable, Means, HasResult;
  }

  lemma ConsListed(requests: seq<Request>, loader: Loader, file: FileResult, files: seq<FileResult>, i: nat, offset: nat, next: Option<Position>)
    requires ValidRequests(requests) && file.index == i && Means(requests, loader, file, offset) && Passes(next, i)
    requires Listed(requests, loader, files, Position(i + 1, 0), next)
    ensures Listed(requests, loader, [file] + files, Position(i, offset), next)
  {
    hide Readable, Means, Passes;
    var all := [file] + files;
    forall j | i <= j < |requests| && Readable(requests, loader, j) && Passes(next, j)
      ensures HasResult(all, j)
    {
      if j == i {
        assert all[0].index == j;
      } else {
        assert HasResult(files, j);
        var k :| 0 <= k < |files| && files[k].index == j;
        assert all[k + 1].index == j;
      }
    }
  }

  lemma OneListed(requests: seq<Request>, loader: Loader, file: FileResult, i: nat, offset: nat, next: Option<Position>)
    requires ValidRequests(requests) && file.index == i && Means(requests, loader, file, offset) && Passes(next, i)
    requires next.Some? ==> next.value.index <= i + 1 && (next.value.index == i + 1 ==> next.value.offset == 0)
    requires next.None? ==> i + 1 == |requests|
    ensures Listed(requests, loader, [file], Position(i, offset), next)
  {
    hide Readable, Means;
    assert [file][0].index == i;
  }

  /** A chunk means what it should, and it ends at the end of the text or where the budget does. */
  lemma {:induction false} ChunkIsFull(requests: seq<Request>, loader: Loader, remaining: nat, i: nat, offset: nat, file: FileResult, left: nat, next: Option<Position>)
    requires ValidRequests(requests) && Readable(requests, loader, i) && Chunk(requests, loader, remaining, i, offset, file, left, next)
    ensures file.index == i && Means(requests, loader, file, offset)
    ensures file.truncated ==>
      && next == Some(Position(i, offset + |file.content|)) && 0 < offset + |file.content| < |Text(requests, loader, i)|
      && left < CharCost(Text(requests, loader, i)[offset + |file.content|])
    ensures !file.truncated ==> next == if i + 1 < |requests| then Some(Position(i + 1, 0)) else None
  {
    hide *;
    ChunkParts(requests, loader, remaining, i, offset, file, left, next);
    IsResult(requests, loader, remaining, i, offset, file);
    NextDoesNotFit(Text(requests, loader, i), offset, remaining);
  }

  lemma {:induction false} ChunkParts(requests: seq<Request>, loader: Loader, remaining: nat, i: nat, offset: nat, file: FileResult, left: nat, next: Option<Position>)
    requires ValidRequests(requests) && Readable(requests, loader, i) && Chunk(requests, loader, remaining, i, offset, file, left, next)
    ensures ReadOne(requests, loader, remaining, i, offset) == Read(file) && remaining == left + Cost(file.content)
    ensures next == if file.truncated then Some(Position(i, offset + |file.content|))
                    else if i + 1 < |requests| then Some(Position(i + 1, 0)) else None
  {
    hide ReadOne, Cost, Readable, ValidRequests;
  }

  lemma {:induction false} IsResult(requests: seq<Request>, loader: Loader, remaining: nat, i: nat, offset: nat, file: FileResult)
    requires ValidRequests(requests) && Readable(requests, loader, i) && ReadOne(requests, loader, remaining, i, offset) == Read(file)
    ensures offset <= |Text(requests, loader, i)|
    ensures
      var text := Text(requests, loader, i);
      var end := offset + Fit(text[offset..], remaining);
      && file.index == i && file.content == text[offset..end] && offset + |file.content| == end
      && (file.truncated <==> end < |text|) && (offset < |text| ==> offset < end)
      && Means(requests, loader, file, offset)
  {
    hide *;
    IsResultFor(requests, loader, remaining, i, offset, file);
    var end := offset + Fit(Text(requests, loader, i)[offset..], remaining);
    ResultMeans(requests, loader, i, offset, end);
    ResultParts(requests, loader, i, offset, end);
  }

  lemma {:induction false} IsResultFor(requests: seq<Request>, loader: Loader, remaining: nat, i: nat, offset: nat, file: FileResult)
    requires ValidRequests(requests) && Readable(requests, loader, i) && ReadOne(requests, loader, remaining, i, offset) == Read(file)
    ensures offset <= |Text(requests, loader, i)|
    ensures
      var text := Text(requests, loader, i);
      var fit := Fit(text[offset..], remaining);
      file == ResultFor(requests, loader, i, offset, offset + fit) && (offset < |text| ==> fit > 0)
  {
    hide Text, Fit, ResultFor, Cost, Readable, ValidRequests;
  }

  lemma {:induction false} ResultParts(requests: seq<Request>, loader: Loader, i: nat, offset: nat, end: nat)
    requires ValidRequests(requests) && Readable(requests, loader, i) && offset <= end <= |Text(requests, loader, i)|
    ensures
      var text, file := Text(requests, loader, i), ResultFor(requests, loader, i, offset, end);
      file.index == i && file.content == text[offset..end] && (file.truncated <==> end < |text|)
  {
    hide Text, LineBounds, Spans, Selected, Readable;
  }

  lemma NextDoesNotFit(text: string, offset: nat, budget: nat)
    requires offset <= |text|
    ensures
      var end := offset + Fit(text[offset..], budget);
      && end <= |text| && (end < |text| ==> budget < Cost(text[offset..end]) + CharCost(text[end]))
  {
    var pending, k := text[offset..], Fit(text[offset..], budget);
    if k < |pending| {
      assert pending[..k + 1][..|pending[..k + 1]| - 1] == pending[..k] == text[offset..offset + k];
      assert pending[k] == text[offset + k];
    }
    hide CharCost, FitFrom;
  }

  lemma {:induction false} FullFrom(requests: seq<Request>, loader: Loader, remaining: nat, i: nat, offset: nat, next: Option<Position>)
    requires ValidRequests(requests) && i <= |requests| && Carried(requests, loader, next, i, offset)
    requires ReadFrom(requests, loader, remaining, i, offset, next).Emitted?
    ensures
      var page := ReadFrom(requests, loader, remaining, i, offset, next).page;
      Listed(requests, loader, page.files, Position(i, offset), page.next) && Full(requests, loader, page.files, remaining, page.next)
    decreases |requests| - i
  {
    hide ReadFrom, ReadOne, Cost, ContentCost, Readable, Text, Prepend, Means;
    if i == |requests| {
      AtTheEnd(requests, loader, remaining, offset, next);
      NothingListed(requests, loader, remaining, i, offset, next);
    } else if !Readable(requests, loader, i) {
      AfterUnreadable(requests, loader, remaining, i, offset, next);
      FullFrom(requests, loader, remaining, i + 1, 0, next);
      PassListed(requests, loader, ReadFrom(requests, loader, remaining, i + 1, 0, next).page.files, i, offset,
                 ReadFrom(requests, loader, remaining, i + 1, 0, next).page.next);
    } else {
      var file, left, next' := FirstChunk(requests, loader, remaining, i, offset, next);
      ChunkIsFull(requests, loader, remaining, i, offset, file, left, next');
      if file.truncated || left == 0 {
        PageStops(requests, loader, remaining, i, offset, next, file, left, next');
        OneListed(requests, loader, file, i, offset, next');
      } else {
        var rest := ReadFrom(requests, loader, left, i + 1, 0, next');
        PageGoesOn(requests, loader, remaining, i, offset, next, file, left, next');
        PrependOne(file, rest);
        CostCons(file, rest.page.files);
        FullFrom(requests, loader, left, i + 1, 0, next');
        BehindFile(requests, loader, left, i, next');
        ConsListed(requests, loader, file, rest.page.files, i, offset, rest.page.next);
      }
    }
  }

  lemma {:induction false} BehindFile(requests: seq<Request>, loader: Loader, left: nat, i: nat, next: Option<Position>)
    requires ValidRequests(requests) && i < |requests| && Carried(requests, loader, next, i + 1, 0)
    requires next == if i + 1 < |requests| then Some(Position(i + 1, 0)) else None
    requires ReadFrom(requests, loader, left, i + 1, 0, next).Emitted?
    ensures Passes(ReadFrom(requests, loader, left, i + 1, 0, next).page.next, i)
  {
    hide ReadFrom, Text, Readable, Delivers, Reports, ContentCost, InRange;
    PageFacts(requests, loader, left, i + 1, 0, next);
  }

  /** One page holds one result for every readable request between its cursors, and it ends where nothing
      more fits or nothing readable is left. */
  lemma PageIsFull(requests: seq<Request>, loader: Loader, budget: int, p: Position)
    requires ValidRequests(requests) && ReadPage(requests, loader, budget, p).Emitted?
    ensures
      var page := ReadPage(requests, loader, budget, p).page;
      Listed(requests, loader, page.files, p, page.next) && Full(requests, loader, page.files, budget, page.next)
  {
    hide ReadFrom, Listed, Full;
    FullFrom(requests, loader, budget, p.index, p.offset, None);
  }

  // ----- every refusal -----

  /** Every refusal of a page: requests or a budget out of their bounds, a cursor outside the requests or
      behind the content of its own, or a first character larger than the whole budget. */
  lemma RefusedIff(requests: seq<Request>, loader: Loader, budget: int, p: Position)
    ensures
      var outcome := ReadPage(requests, loader, budget, p);
      var valid :=
        && 1 <= |requests| <= 20
        && forall i :: 0 <= i < |requests| ==>
             && requests[i].path != "" && 1 <= requests[i].startLine <= requests[i].endLine
             && requests[i].endLine - requests[i].startLine <= 2000;
      && (outcome == Refused(InvalidRequests) <==> !valid)
      && (outcome == Refused(InvalidBudget) <==> valid && !(1 <= budget <= 120_000))
      && (outcome == Refused(InvalidPosition) <==> valid && 1 <= budget <= 120_000 && p.index > |requests|)
      && (valid && 1 <= budget <= 120_000 && p.index <= |requests| ==>
            var text := Text(requests, loader, p.index);
            if Readable(requests, loader, p.index) && p.offset > |text| then outcome == Refused(BeyondContent)
            else if p.offset < |text| && budget < CharCost(text[p.offset]) then outcome == Refused(TransportBudgetExceeded)
            else outcome.Emitted?)
  {
    hide Text, ReadFrom, CharCost;
    if ValidRequests(requests) && 1 <= budget <= 120_000 && p.index <= |requests| {
      if InRange(requests, loader, p) {
        PageRefusedIff(requests, loader, budget, p);
      } else {
        BeyondRequest(requests, loader, budget, p);
      }
    }
  }

  lemma BeyondRequest(requests: seq<Request>, loader: Loader, budget: int, p: Position)
    requires ValidRequests(requests) && 1 <= budget <= 120_000 && p.index <= |requests| && !InRange(requests, loader, p)
    ensures
      if Readable(requests, loader, p.index) then ReadPage(requests, loader, budget, p) == Refused(BeyondContent)
      else ReadPage(requests, loader, budget, p).Emitted?
  {
    hide Rendered, Fit, ResultFor;
    if p.index < |requests| && !Readable(requests, loader, p.index) {
      RefusedFrom(requests, loader, budget, p.index + 1, 0, None);
    }
  }
}
