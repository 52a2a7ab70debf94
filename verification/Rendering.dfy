/** The numbered text of a line range of a file, and where each line sits in it. */
module Rendering {
  import opened Options
  import opened Transport

  datatype Request = Request(path: string, startLine: int, endLine: int)

  datatype Span = Span(start: nat, end: nat, number: int)

  function Digit(d: nat): char
    requires d < 10
  {
    ['0', '1', '2', '3', '4', '5', '6', '7', '8', '9'][d]
  }

  function Decimal(n: nat): (s: string)
    ensures s != "" && CharCost(s[0]) == 1
  {
    if n < 10 then [Digit(n)] else Decimal(n / 10) + [Digit(n % 10)]
  }

  function Selected(lines: seq<string>, r: Request): seq<string>
    requires 1 <= r.startLine <= r.endLine
  {
    var actualEnd := if r.endLine < |lines| then r.endLine else |lines|;
    if r.startLine - 1 <= actualEnd then lines[r.startLine - 1..actualEnd] else []
  }

  function Segment(line: string, number: nat, last: bool): (s: string)
    ensures s != "" && CharCost(s[0]) == 1
  {
    Decimal(number) + ": " + line + (if last then "" else "\n")
  }

  /** The numbered lines joined by newlines. */
  function Rendered(lines: seq<string>, number: nat): (s: string)
    ensures s == "" <==> lines == []
    ensures s != "" ==> CharCost(s[0]) == 1
  {
    if lines == [] then "" else Segment(lines[0], number, |lines| == 1) + Rendered(lines[1..], number + 1)
  }

  /** Where each numbered line sits in the rendered text. */
  function Spans(lines: seq<string>, number: nat, cursor: nat): seq<Span> {
    if lines == [] then []
    else
      var end := cursor + |Segment(lines[0], number, |lines| == 1)|;
      [Span(cursor, end, number)] + Spans(lines[1..], number + 1, end)
  }

  lemma {:induction false} PartialSnoc(lines: seq<string>, k: nat, number: nat)
    requires k < |lines|
    ensures Partial(lines, k + 1, number) == Partial(lines, k, number) + Segment(lines[k], number + k, k + 1 == |lines|)
    decreases k
  {
    hide Segment;
    if k > 0 {
      assert lines[1..][k - 1] == lines[k];
      PartialSnoc(lines[1..], k - 1, number + 1);
    }
  }

  lemma {:induction false} SpansSnoc(lines: seq<string>, k: nat, number: nat, cursor: nat)
    requires k < |lines|
    ensures
      PartialSpans(lines, k + 1, number, cursor) == PartialSpans(lines, k, number, cursor) +
        [Span(cursor + |Partial(lines, k, number)|, cursor + |Partial(lines, k + 1, number)|, number + k)]
    decreases k
  {
    hide Segment;
    if k > 0 {
      var end := cursor + |Segment(lines[0], number, |lines| == 1)|;
      assert lines[1..][k - 1] == lines[k];
      SpansSnoc(lines[1..], k - 1, number + 1, end);
    }
  }

  /** The first `k` segments of the whole rendering. */
  function Partial(lines: seq<string>, k: nat, number: nat): string
    requires k <= |lines|
  {
    if k == 0 then "" else Segment(lines[0], number, |lines| == 1) + Partial(lines[1..], k - 1, number + 1)
  }

  function PartialSpans(lines: seq<string>, k: nat, number: nat, cursor: nat): seq<Span>
    requires k <= |lines|
  {
    if k == 0 then []
    else
      var end := cursor + |Segment(lines[0], number, |lines| == 1)|;
      [Span(cursor, end, number)] + PartialSpans(lines[1..], k - 1, number + 1, end)
  }

  lemma PartialNone(lines: seq<string>, number: nat)
    ensures Partial(lines, 0, number) == "" && PartialSpans(lines, 0, number, 0) == []
  {
  }

  lemma {:induction false} PartialAll(lines: seq<string>, number: nat, cursor: nat)
    ensures Partial(lines, |lines|, number) == Rendered(lines, number)
    ensures PartialSpans(lines, |lines|, number, cursor) == Spans(lines, number, cursor)
  {
    hide Segment;
    if lines != [] {
      PartialAll(lines[1..], number + 1, cursor + |Segment(lines[0], number, |lines| == 1)|);
    }
  }

  // ----- what the text says about the file -----

  function DigitValue(c: char): int {
    c as int - '0' as int
  }

  /** The number that a string of digits denotes. */
  function NumberOf(digits: string): int {
    if digits == "" then 0 else 10 * NumberOf(digits[..|digits| - 1]) + DigitValue(digits[|digits| - 1])
  }

  /** The number in decimal, without leading zeros. */
  predicate IsDecimal(digits: string, n: int) {
    && digits != "" && (forall i :: 0 <= i < |digits| ==> '0' <= digits[i] <= '9')
    && (|digits| > 1 ==> digits[0] != '0') && NumberOf(digits) == n
  }

  lemma DigitIs(d: nat)
    requires d < 10
    ensures '0' <= Digit(d) <= '9' && DigitValue(Digit(d)) == d && (d > 0 ==> Digit(d) != '0')
  {
  }

  lemma DecimalSnoc(digits: string, n: int, d: nat)
    requires IsDecimal(digits, n) && digits[0] != '0' && d < 10
    ensures IsDecimal(digits + [Digit(d)], 10 * n + d)
  {
    DigitIs(d);
    hide Digit, DigitValue;
    assert (digits + [Digit(d)])[..|digits|] == digits;
  }

  lemma {:induction false} DecimalIs(n: nat)
    ensures IsDecimal(Decimal(n), n) && (n > 0 ==> Decimal(n)[0] != '0')
    decreases n
  {
    if n < 10 {
      DigitIs(n);
      hide Digit;
      assert [Digit(n)][..0] == "" && NumberOf([Digit(n)]) == 10 * NumberOf("") + DigitValue(Digit(n));
    } else {
      DecimalIs(n / 10);
      DecimalSnoc(Decimal(n / 10), n / 10, n % 10);
      hide IsDecimal, Digit;
    }
  }

  /** The last line of the file that the request covers. */
  function LastLine(lines: seq<string>, r: Request): int {
    if r.endLine < |lines| then r.endLine else |lines|
  }

  /** A line behind its number, ended by a newline unless it is the last one. */
  ghost predicate IsNumberedLine(segment: string, number: int, line: string, last: bool) {
    exists digits :: IsDecimal(digits, number) && segment == digits + ": " + line + (if last then "" else "\n")
  }

  /** The span holds line `number` of the file. */
  ghost predicate Holds(lines: seq<string>, r: Request, text: string, span: Span, number: int) {
    && span.number == number && r.startLine <= number <= LastLine(lines, r) && 1 <= number
    && span.start <= span.end <= |text|
    && IsNumberedLine(text[span.start..span.end], number, lines[number - 1], number == LastLine(lines, r))
  }

  /** One span for every requested line of the file, in order; they tile the text. */
  ghost predicate Numbered(lines: seq<string>, r: Request, text: string, spans: seq<Span>) {
    && |spans| == (if LastLine(lines, r) < r.startLine then 0 else LastLine(lines, r) - r.startLine + 1)
    && (forall k :: 0 <= k < |spans| ==> Holds(lines, r, text, spans[k], r.startLine + k))
    && (forall k :: 0 <= k < |spans| ==> spans[k].start == if k == 0 then 0 else spans[k - 1].end)
    && |text| == if spans == [] then 0 else spans[|spans| - 1].end
  }

  /** Span `k` of a list of lines placed at `cursor`. */
  lemma {:induction false} SpanAt(lines: seq<string>, number: nat, cursor: nat, k: nat)
    requires k < |lines|
    ensures
      var spans, text := Spans(lines, number, cursor), Rendered(lines, number);
      && |spans| == |lines| && spans[k].number == number + k
      && spans[k].start == (if k == 0 then cursor else spans[k - 1].end)
      && cursor <= spans[k].start <= spans[k].end <= cursor + |text|
      && text[spans[k].start - cursor..spans[k].end - cursor] == Segment(lines[k], number + k, k + 1 == |lines|)
      && (k + 1 == |lines| ==> spans[k].end == cursor + |text|)
  {
    hide Segment;
    var segment := Segment(lines[0], number, |lines| == 1);
    var end := cursor + |segment|;
    var tail := Spans(lines[1..], number + 1, end);
    assert Spans(lines, number, cursor) == [Span(cursor, end, number)] + tail;
    if k > 0 {
      SpanAt(lines[1..], number + 1, end, k - 1);
      var text, rest := Rendered(lines, number), Rendered(lines[1..], number + 1);
      assert lines[1..][k - 1] == lines[k];
      assert text[tail[k - 1].start - cursor..tail[k - 1].end - cursor] == rest[tail[k - 1].start - end..tail[k - 1].end - end];
    } else if |lines| > 1 {
      SpanAt(lines[1..], number + 1, end, 0);
    }
  }

  lemma SpanFromStart(lines: seq<string>, number: nat, k: nat)
    requires k < |lines|
    ensures
      var spans, text := Spans(lines, number, 0), Rendered(lines, number);
      && |spans| == |lines| && spans[k].number == number + k && spans[k].start == (if k == 0 then 0 else spans[k - 1].end)
      && spans[k].start <= spans[k].end <= |text| && (k + 1 == |lines| ==> spans[k].end == |text|)
      && IsNumberedLine(text[spans[k].start..spans[k].end], number + k, lines[k], k + 1 == |lines|)
  {
    hide *;
    var cursor: nat := 0;
    SpanAt(lines, number, cursor, k);
    SegmentIs(lines[k], number + k, k + 1 == |lines|);
    var spans, text := Spans(lines, number, cursor), Rendered(lines, number);
    assert text[spans[k].start - cursor..spans[k].end - cursor] == text[spans[k].start..spans[k].end];
  }

  lemma {:induction false} SpanCount(lines: seq<string>, number: nat, cursor: nat)
    ensures |Spans(lines, number, cursor)| == |lines|
  {
    hide Segment;
    if lines != [] {
      SpanCount(lines[1..], number + 1, cursor + |Segment(lines[0], number, |lines| == 1)|);
    }
  }

  lemma SegmentIs(line: string, number: nat, last: bool)
    ensures IsNumberedLine(Segment(line, number, last), number, line, last)
  {
    DecimalIs(number);
    hide Decimal, IsDecimal;
  }

  lemma SelectedCount(lines: seq<string>, r: Request)
    requires 1 <= r.startLine <= r.endLine
    ensures |Selected(lines, r)| == if LastLine(lines, r) < r.startLine then 0 else LastLine(lines, r) - r.startLine + 1
  {
  }

  lemma SelectedAt(lines: seq<string>, r: Request, k: nat)
    requires 1 <= r.startLine <= r.endLine && k < |Selected(lines, r)|
    ensures r.startLine + k <= LastLine(lines, r) <= |lines| && Selected(lines, r)[k] == lines[r.startLine + k - 1]
    ensures r.startLine + k == LastLine(lines, r) <==> k + 1 == |Selected(lines, r)|
  {
  }

  lemma HoldsAt(lines: seq<string>, r: Request, k: nat)
    requires 1 <= r.startLine <= r.endLine && k < |Selected(lines, r)|
    ensures
      var text, spans := Rendered(Selected(lines, r), r.startLine), Spans(Selected(lines, r), r.startLine, 0);
      k < |spans| && Holds(lines, r, text, spans[k], r.startLine + k) && Tiles(text, spans, k)
  {
    var selected := Selected(lines, r);
    SelectedAt(lines, r, k);
    SpanFromStart(selected, r.startLine, k);
    hide Selected, Rendered, Spans, IsNumberedLine, LastLine, CharCost;
  }

  predicate Tiles(text: string, spans: seq<Span>, k: nat)
    requires k < |spans|
  {
    spans[k].start == (if k == 0 then 0 else spans[k - 1].end) && (k + 1 == |spans| ==> spans[k].end == |text|)
  }

  lemma NumberedIf(lines: seq<string>, r: Request, text: string, spans: seq<Span>)
    requires |spans| == if LastLine(lines, r) < r.startLine then 0 else LastLine(lines, r) - r.startLine + 1
    requires forall k :: 0 <= k < |spans| ==> Holds(lines, r, text, spans[k], r.startLine + k) && Tiles(text, spans, k)
    requires spans == [] ==> text == ""
    ensures Numbered(lines, r, text, spans)
  {
    hide Holds, LastLine;
    assert spans != [] ==> Tiles(text, spans, |spans| - 1);
  }

  /** The text of a request and its spans number the lines of the file. */
  lemma RenderedIsNumbered(lines: seq<string>, r: Request)
    requires 1 <= r.startLine <= r.endLine
    ensures Numbered(lines, r, Rendered(Selected(lines, r), r.startLine), Spans(Selected(lines, r), r.startLine, 0))
  {
    hide *;
    var selected, cursor: nat := Selected(lines, r), 0;
    var text, spans := Rendered(selected, r.startLine), Spans(selected, r.startLine, cursor);
    SpanCount(selected, r.startLine, cursor);
    SelectedCount(lines, r);
    NoLines(r.startLine);
    forall k | 0 <= k < |spans|
      ensures Holds(lines, r, text, spans[k], r.startLine + k) && Tiles(text, spans, k)
    {
      HoldsAt(lines, r, k);
    }
    NumberedIf(lines, r, text, spans);
  }

  /** `_render` over the selected lines: the loop that builds the text and its spans. */
  method Render(lines: seq<string>, r: Request) returns (text: string, total: nat, spans: seq<Span>)
    requires 1 <= r.startLine <= r.endLine
    ensures text == Rendered(Selected(lines, r), r.startLine)
    ensures spans == Spans(Selected(lines, r), r.startLine, 0)
    ensures total == |lines| && Numbered(lines, r, text, spans)
  {
    RenderedIsNumbered(lines, r);
    var selected := Selected(lines, r);
    PartialNone(selected, r.startLine);
    hide *;
    ghost var origin: nat := 0;
    text, spans := "", [];
    var cursor, offset := 0, 0;
    while offset < |selected|
      invariant 0 <= offset <= |selected| && cursor == |text|
      invariant text == Partial(selected, offset, r.startLine)
      invariant spans == PartialSpans(selected, offset, r.startLine, origin)
    {
      PartialSnoc(selected, offset, r.startLine);
      SpansSnoc(selected, offset, r.startLine, origin);
      var segment := Segment(selected[offset], r.startLine + offset, offset + 1 == |selected|);
      text := text + segment;
      spans := spans + [Span(cursor, cursor + |segment|, r.startLine + offset)];
      cursor := cursor + |segment|;
      offset := offset + 1;
    }
    PartialAll(selected, r.startLine, origin);
    total := |lines|;
  }

  // ----- line bounds -----

  function Numbers(spans: seq<Span>, after: nat, before: nat): seq<int> {
    if spans == [] then []
    else (if spans[0].end > after && spans[0].start < before then [spans[0].number] else []) + Numbers(spans[1..], after, before)
  }

  function NumbersAfter(spans: seq<Span>, after: nat): seq<int> {
    if spans == [] then []
    else (if spans[0].end > after then [spans[0].number] else []) + NumbersAfter(spans[1..], after)
  }

  /** `_line_bounds`. */
  function LineBounds(spans: seq<Span>, startOffset: nat, endOffset: nat, r: Request, truncated: bool): (int, int, Option<(int, int)>) {
    var touched := Numbers(spans, startOffset, endOffset);
    var left := NumbersAfter(spans, endOffset);
    (if touched != [] then touched[0] else r.startLine,
     if touched != [] then touched[|touched| - 1] else r.startLine - 1,
     if truncated && left != [] && spans != [] then Some((left[0], spans[|spans| - 1].number)) else None)
  }

  lemma {:induction false} SpanIsPartial(lines: seq<string>, number: nat, cursor: nat, k: nat)
    requires k < |lines|
    ensures |Spans(lines, number, cursor)| == |lines|
    ensures Spans(lines, number, cursor)[k] == Span(cursor + |Partial(lines, k, number)|, cursor + |Partial(lines, k + 1, number)|, number + k)
  {
    hide Segment, CharCost;
    var end := cursor + |Segment(lines[0], number, |lines| == 1)|;
    assert Spans(lines, number, cursor) == [Span(cursor, end, number)] + Spans(lines[1..], number + 1, end);
    if k > 0 {
      SpanIsPartial(lines[1..], number + 1, end, k - 1);
    } else {
      SpanCount(lines[1..], number + 1, end);
      assert Partial(lines, 1, number) == Segment(lines[0], number, |lines| == 1) + Partial(lines[1..], 0, number + 1);
    }
  }

  /** The first line a page touches is the one that holds its first character. */
  lemma {:induction false} FirstTouched(lines: seq<string>, number: nat, cursor: nat, after: nat, before: nat)
    requires cursor <= after < before && after < cursor + |Rendered(lines, number)|
    ensures
      var spans := Spans(lines, number, cursor);
      && Numbers(spans, after, before) != [] && NumbersAfter(spans, after) != []
      && Numbers(spans, after, before)[0] == NumbersAfter(spans, after)[0]
      && number <= NumbersAfter(spans, after)[0] < number + |lines|
      && var k := NumbersAfter(spans, after)[0] - number;
         cursor + |Partial(lines, k, number)| <= after < cursor + |Partial(lines, k + 1, number)|
  {
    hide Segment;
    var segment := Segment(lines[0], number, |lines| == 1);
    var spans := Spans(lines, number, cursor);
    assert spans[1..] == Spans(lines[1..], number + 1, cursor + |segment|);
    if after < cursor + |segment| {
      assert Partial(lines, 1, number) == segment + Partial(lines[1..], 0, number + 1);
    } else {
      FirstTouched(lines[1..], number + 1, cursor + |segment|, after, before);
    }
  }

  /** Spans that start at or after `before` are not touched. */
  lemma {:induction false} NothingBeyond(lines: seq<string>, number: nat, cursor: nat, after: nat, before: nat)
    requires before <= cursor
    ensures Numbers(Spans(lines, number, cursor), after, before) == []
  {
    hide Segment;
    if lines != [] {
      var end := cursor + |Segment(lines[0], number, |lines| == 1)|;
      NothingBeyond(lines[1..], number + 1, end, after, before);
      assert Spans(lines, number, cursor)[1..] == Spans(lines[1..], number + 1, end);
    }
  }

  /** No span ends after the whole text. */
  lemma {:induction false} NothingLeft(lines: seq<string>, number: nat, cursor: nat, after: nat, before: nat)
    requires cursor + |Rendered(lines, number)| <= after
    ensures Numbers(Spans(lines, number, cursor), after, before) == [] && NumbersAfter(Spans(lines, number, cursor), after) == []
  {
    hide Segment, CharCost;
    if lines != [] {
      var end := cursor + |Segment(lines[0], number, |lines| == 1)|;
      NothingLeft(lines[1..], number + 1, end, after, before);
      assert Spans(lines, number, cursor)[1..] == Spans(lines[1..], number + 1, end);
    }
  }

  /** The last line a page touches is the one that holds its last character. */
  lemma {:induction false} LastTouched(lines: seq<string>, number: nat, cursor: nat, after: nat, before: nat)
    requires after < before && cursor < before <= cursor + |Rendered(lines, number)|
    ensures
      var touched := Numbers(Spans(lines, number, cursor), after, before);
      && touched != [] && number <= touched[|touched| - 1] < number + |lines|
      && var k := touched[|touched| - 1] - number;
         cursor + |Partial(lines, k, number)| < before <= cursor + |Partial(lines, k + 1, number)|
  {
    hide Segment;
    var segment := Segment(lines[0], number, |lines| == 1);
    var end := cursor + |segment|;
    assert Spans(lines, number, cursor)[1..] == Spans(lines[1..], number + 1, end);
    if before <= end {
      NothingBeyond(lines[1..], number + 1, end, after, before);
      assert Partial(lines, 1, number) == segment + Partial(lines[1..], 0, number + 1);
    } else {
      LastTouched(lines[1..], number + 1, end, after, before);
    }
  }

  lemma {:induction false} LastNumber(lines: seq<string>, number: nat, cursor: nat)
    requires lines != []
    ensures
      var spans := Spans(lines, number, cursor);
      spans != [] && spans[|spans| - 1].number == number + |lines| - 1
  {
    hide Segment;
    var end := cursor + |Segment(lines[0], number, |lines| == 1)|;
    assert Spans(lines, number, cursor) == [Span(cursor, end, number)] + Spans(lines[1..], number + 1, end);
    if |lines| > 1 {
      LastNumber(lines[1..], number + 1, end);
    }
  }

  /** The line bounds of a chunk that stops at `end` and of the one that resumes there. */
  lemma BoundsResume(lines: seq<string>, r: Request, offset: nat, end: nat, later: nat)
    requires r.startLine >= 0 && offset <= end < later <= |Rendered(lines, r.startLine)|
    ensures
      var spans := Spans(lines, r.startLine, 0);
      var first := LineBounds(spans, offset, end, r, true).2;
      var line := LineBounds(spans, end, later, r, later < |Rendered(lines, r.startLine)|).0;
      && first == Some((line, r.startLine + |lines| - 1))
      && 0 <= line - r.startLine < |lines|
      && |Partial(lines, line - r.startLine, r.startLine)| <= end < |Partial(lines, line - r.startLine + 1, r.startLine)|
  {
    hide Rendered, Spans, Numbers, NumbersAfter, Partial;
    FirstTouched(lines, r.startLine, 0, end, later);
    LastNumber(lines, r.startLine, 0);
  }

  /** Line bounds, by the spans: where the first and last characters lie, and from where to where lines
      are left out. */
  ghost predicate Locates(bounds: (int, int, Option<(int, int)>), spans: seq<Span>, lines: seq<string>, r: Request, length: nat, offset: nat, end: nat) {
    && (offset < end ==>
          exists a, b :: 0 <= a < |spans| && 0 <= b < |spans| && bounds.0 == r.startLine + a && bounds.1 == r.startLine + b
            && spans[a].start <= offset < spans[a].end && spans[b].start < end <= spans[b].end)
    && (offset == end == length ==> bounds.0 == r.startLine && bounds.1 == r.startLine - 1)
    && (end == length ==> bounds.2.None?)
    && (end < length ==>
          exists a :: 0 <= a < |spans| && bounds.2 == Some((r.startLine + a, LastLine(lines, r)))
            && spans[a].start <= end < spans[a].end)
  }

  /** What the touched lines and the lines left say, when `spans` number the lines from `number` on. */
  ghost predicate Touches(spans: seq<Span>, touched: seq<int>, number: int, offset: nat, end: nat) {
    touched != [] &&
    exists a, b :: 0 <= a < |spans| && 0 <= b < |spans| && touched[0] == number + a && touched[|touched| - 1] == number + b
      && spans[a].start <= offset < spans[a].end && spans[b].start < end <= spans[b].end
  }

  ghost predicate Leaves(spans: seq<Span>, left: seq<int>, number: int, end: nat) {
    left != [] && exists a :: 0 <= a < |spans| && left[0] == number + a && spans[a].start <= end < spans[a].end
  }

  lemma TouchedAre(lines: seq<string>, number: nat, offset: nat, end: nat)
    requires offset < end <= |Rendered(lines, number)|
    ensures
      var spans := Spans(lines, number, 0);
      Touches(spans, Numbers(spans, offset, end), number, offset, end)
  {
    hide Rendered, Spans, Numbers, NumbersAfter, Partial, CharCost;
    var cursor: nat := 0;
    var spans := Spans(lines, number, cursor);
    FirstTouched(lines, number, cursor, offset, end);
    LastTouched(lines, number, cursor, offset, end);
    var touched := Numbers(spans, offset, end);
    var a, b := touched[0] - number, touched[|touched| - 1] - number;
    SpanIsPartial(lines, number, cursor, a);
    SpanIsPartial(lines, number, cursor, b);
    assert spans[a].start <= offset < spans[a].end && spans[b].start < end <= spans[b].end;
  }

  lemma LeftAre(lines: seq<string>, number: nat, end: nat)
    requires end < |Rendered(lines, number)|
    ensures
      var spans := Spans(lines, number, 0);
      && Leaves(spans, NumbersAfter(spans, end), number, end)
      && spans != [] && spans[|spans| - 1].number == number + |lines| - 1
  {
    hide Rendered, Spans, Numbers, NumbersAfter, Partial, CharCost;
    var cursor: nat := 0;
    var spans := Spans(lines, number, cursor);
    FirstTouched(lines, number, cursor, end, |Rendered(lines, number)|);
    assert lines != [] by { NoLines(number); }
    LastNumber(lines, number, cursor);
    var a := NumbersAfter(spans, end)[0] - number;
    SpanIsPartial(lines, number, cursor, a);
    assert spans[a].start <= end < spans[a].end;
  }

  lemma NoLines(number: nat)
    ensures Rendered([], number) == ""
  {
  }

  lemma LocatesIf(spans: seq<Span>, lines: seq<string>, r: Request, length: nat, offset: nat, end: nat)
    requires offset <= end <= length
    requires offset < end ==> Touches(spans, Numbers(spans, offset, end), r.startLine, offset, end)
    requires offset == end == length ==> Numbers(spans, offset, end) == []
    requires end < length ==>
      Leaves(spans, NumbersAfter(spans, end), r.startLine, end) && spans[|spans| - 1].number == LastLine(lines, r)
    ensures Locates(LineBounds(spans, offset, end, r, end < length), spans, lines, r, length, offset, end)
  {
    hide Numbers, NumbersAfter, LastLine;
  }

  /** `_line_bounds` of a chunk of the text. */
  lemma BoundsLocate(lines: seq<string>, r: Request, offset: nat, end: nat)
    requires 1 <= r.startLine <= r.endLine && offset <= end <= |Rendered(Selected(lines, r), r.startLine)|
    ensures
      var spans, length := Spans(Selected(lines, r), r.startLine, 0), |Rendered(Selected(lines, r), r.startLine)|;
      Locates(LineBounds(spans, offset, end, r, end < length), spans, lines, r, length, offset, end)
  {
    var selected := Selected(lines, r);
    var cursor: nat := 0;
    var spans, length := Spans(selected, r.startLine, cursor), |Rendered(selected, r.startLine)|;
    SelectedCount(lines, r);
    NoLines(r.startLine);
    hide *;
    if offset < end {
      TouchedAre(selected, r.startLine, offset, end);
    } else if end == length {
      NothingLeft(selected, r.startLine, cursor, offset, end);
    }
    if end < length {
      LeftAre(selected, r.startLine, end);
      assert selected != [];
    }
    LocatesIf(spans, lines, r, length, offset, end);
  }
}
