/** What a search finds: the literal scan of one line and the matches of one
    path.

    The regular-expression scanner, the case-folded name test, the glob test and the JSON size of a
    match are foreign code; `World` holds them as functions, so they are stable across pages. */
module SearchMatches {
  import opened Options

  const MAX_VALUE := 4000

  datatype Mode = FileName | Literal | Regex

  datatype Match = Match(
    path: string,
    line: Option<nat>,
    column: Option<nat>,
    text: string,
    before: seq<string>,
    after: seq<string>,
    mode: Mode)

  datatype World = World(
    load: string -> Option<seq<string>>,
    named: (string, string) -> bool,
    finditer: (string, string) -> seq<(nat, string)>,
    globbed: string -> bool,
    size: Match -> nat)

  /** `context_lines` is between 0 and 5, the text non-empty and free of NUL. */
  datatype Query = Query(text: string, mode: Mode, context: int)

  predicate ValidQuery(q: Query) {
    q.text != "" && '\0' !in q.text && 0 <= q.context <= 5
  }

  // ----- literal occurrences in one line -----

  predicate Occurs(line: string, text: string, k: nat) {
    k + |text| <= |line| && line[k..k + |text|] == text
  }

  /** The first occurrence at or after `offset`; -1 when there is none. */
  function Find(line: string, text: string, offset: nat): (r: int)
    ensures r == -1 || (r >= offset && Occurs(line, text, r))
    ensures forall k :: offset <= k && (r == -1 || k < r) ==> !Occurs(line, text, k)
    decreases |line| - offset
  {
    if offset + |text| > |line| then -1
    else if line[offset..offset + |text|] == text then offset
    else Find(line, text, offset + 1)
  }

  /** Left to right, each scan continuing after the end of the last occurrence. */
  function Starts(line: string, text: string, offset: nat): seq<nat>
    requires text != ""
    decreases |line| - offset
  {
    var found := Find(line, text, offset);
    if found < 0 then [] else [found] + Starts(line, text, found + |text|)
  }

  /** Real occurrences from `offset` on that do not overlap. */
  ghost predicate Disjoint(line: string, text: string, offset: nat, starts: seq<nat>) {
    && (forall i :: 0 <= i < |starts| ==> offset <= starts[i] && Occurs(line, text, starts[i]))
    && (forall i, j :: 0 <= i < j < |starts| ==> starts[i] + |text| <= starts[j])
  }

  ghost predicate Covered(text: string, k: nat, starts: seq<nat>) {
    exists i :: 0 <= i < |starts| && starts[i] <= k < starts[i] + |text|
  }

  lemma {:induction false} StartsAreDisjoint(line: string, text: string, offset: nat)
    requires text != ""
    ensures Disjoint(line, text, offset, Starts(line, text, offset))
    decreases |line| - offset
  {
    var found := Find(line, text, offset);
    if found >= 0 {
      StartsAreDisjoint(line, text, found + |text|);
      ExtendDisjoint(line, text, offset, found, Starts(line, text, found + |text|));
    }
  }

  lemma {:induction false} StartsCover(line: string, text: string, offset: nat, k: nat)
    requires text != "" && offset <= k && Occurs(line, text, k)
    ensures Covered(text, k, Starts(line, text, offset))
    decreases |line| - offset
  {
    hide Covered;
    var found := Find(line, text, offset);
    if found + |text| <= k {
      StartsCover(line, text, found + |text|, k);
    }
    ExtendCovered(text, k, found, Starts(line, text, found + |text|));
  }

  /** Reported occurrences are real and do not overlap, and every occurrence overlaps a reported one
      that starts no later: exactly the leftmost non-overlapping occurrences. */
  lemma StartsAreLeftmost(line: string, text: string)
    requires text != ""
    ensures Disjoint(line, text, 0, Starts(line, text, 0))
    ensures forall k: nat :: Occurs(line, text, k) ==> Covered(text, k, Starts(line, text, 0))
  {
    hide Disjoint, Starts, Occurs, Covered;
    StartsAreDisjoint(line, text, 0);
    forall k: nat | Occurs(line, text, k)
      ensures Covered(text, k, Starts(line, text, 0))
    {
      StartsCover(line, text, 0, k);
    }
  }

  lemma ExtendDisjoint(line: string, text: string, offset: nat, found: nat, rest: seq<nat>)
    requires offset <= found && Occurs(line, text, found) && Disjoint(line, text, found + |text|, rest)
    ensures Disjoint(line, text, offset, [found] + rest)
  {
    hide Occurs;
  }

  lemma ExtendCovered(text: string, k: nat, found: nat, rest: seq<nat>)
    requires found <= k && (found + |text| <= k ==> Covered(text, k, rest))
    ensures Covered(text, k, [found] + rest)
  {
    if k < found + |text| {
      assert ([found] + rest)[0] == found;
    } else {
      var i :| 0 <= i < |rest| && rest[i] <= k < rest[i] + |text|;
      assert ([found] + rest)[i + 1] == rest[i];
    }
  }

  lemma StartsStep(line: string, text: string, offset: nat)
    requires text != ""
    ensures
      var found := Find(line, text, offset);
      && Starts(line, text, offset) == (if found < 0 then [] else [found] + Starts(line, text, found + |text|))
      && (found >= 0 ==> offset <= found && found + |text| <= |line|)
  {
    hide Find;
  }

  /** The scan loop of `_search_path_matches` over one line. */
  method FindAll(line: string, text: string) returns (starts: seq<nat>)
    requires text != ""
    ensures starts == Starts(line, text, 0)
  {
    hide Find, Starts, Occurs;
    starts := [];
    var offset := 0;
    while true
      invariant starts + Starts(line, text, offset) == Starts(line, text, 0)
      decreases |line| - offset
    {
      StartsStep(line, text, offset);
      var found := Find(line, text, offset);
      if found < 0 {
        break;
      }
      starts := starts + [found];
      offset := found + |text|;
    }
  }

  // ----- the matches of one path -----

  function Pairs(starts: seq<nat>, text: string): (r: seq<(nat, string)>)
    ensures |r| == |starts|
    ensures forall i :: 0 <= i < |r| ==> r[i] == (starts[i], text)
  {
    seq(|starts|, i requires 0 <= i < |starts| => (starts[i], text))
  }

  function Hits(w: World, q: Query, line: string): seq<(nat, string)>
    requires ValidQuery(q)
  {
    if q.mode == Regex then w.finditer(q.text, line) else Pairs(Starts(line, q.text, 0), q.text)
  }

  function Clip(value: string): string {
    if |value| > MAX_VALUE then value[..MAX_VALUE] else value
  }

  function ClipAll(values: seq<string>): (r: seq<string>)
    ensures |r| == |values|
    ensures forall i :: 0 <= i < |r| ==> r[i] == Clip(values[i])
  {
    seq(|values|, i requires 0 <= i < |values| => Clip(values[i]))
  }

  function ContextBefore(lines: seq<string>, k: nat, context: nat): seq<string>
    requires k < |lines|
  {
    lines[if k >= context then k - context else 0..k]
  }

  function ContextAfter(lines: seq<string>, k: nat, context: nat): seq<string>
    requires k < |lines|
  {
    lines[k + 1..if k + 1 + context <= |lines| then k + 1 + context else |lines|]
  }

  /** The match at one hit, with its context lines as they are. */
  function MatchAt(q: Query, path: string, lines: seq<string>, k: nat, hit: (nat, string)): Match
    requires ValidQuery(q) && k < |lines|
  {
    Match(path, Some(k + 1), Some(hit.0 + 1), Clip(hit.1), ContextBefore(lines, k, q.context), ContextAfter(lines, k, q.context), q.mode)
  }

  /** The matches of the hits from `h` on in line `k`; a hit with empty text is skipped. */
  function LineMatches(q: Query, path: string, lines: seq<string>, k: nat, hits: seq<(nat, string)>): seq<Match>
    requires ValidQuery(q) && k < |lines|
  {
    if hits == [] then []
    else (if hits[0].1 == "" then [] else [MatchAt(q, path, lines, k, hits[0])]) + LineMatches(q, path, lines, k, hits[1..])
  }

  function TextMatches(w: World, q: Query, path: string, lines: seq<string>, k: nat): seq<Match>
    requires ValidQuery(q) && k <= |lines|
    decreases |lines| - k
  {
    if k == |lines| then []
    else LineMatches(q, path, lines, k, Hits(w, q, lines[k])) + TextMatches(w, q, path, lines, k + 1)
  }

  /** Everything a search finds in one path, context lines in full. */
  function PathMatches(w: World, q: Query, path: string): seq<Match>
    requires ValidQuery(q)
  {
    if q.mode == FileName then
      if w.named(q.text, path) then [Match(path, None, None, path, [], [], FileName)] else []
    else
      match w.load(path)
      case None => []
      case Some(lines) => TextMatches(w, q, path, lines, 0)
  }

  /** A page shows a match with its context lines cut to 4000 characters. */
  function Shown(m: Match): Match {
    m.(before := ClipAll(m.before), after := ClipAll(m.after))
  }

  function ShownAll(ms: seq<Match>): (r: seq<Match>)
    ensures |r| == |ms|
    ensures forall i :: 0 <= i < |r| ==> r[i] == Shown(ms[i])
  {
    seq(|ms|, i requires 0 <= i < |ms| => Shown(ms[i]))
  }

  predicate ContextFits(m: Match) {
    && (forall i :: 0 <= i < |m.before| ==> |m.before[i]| <= MAX_VALUE)
    && (forall i :: 0 <= i < |m.after| ==> |m.after[i]| <= MAX_VALUE)
  }

  lemma ClipAllIs(values: seq<string>)
    ensures ClipAll(values) == values <==> forall i :: 0 <= i < |values| ==> |values[i]| <= MAX_VALUE
  {
    if forall i :: 0 <= i < |values| ==> |values[i]| <= MAX_VALUE {
      assert ClipAll(values) == values;
    } else {
      var i :| 0 <= i < |values| && |values[i]| > MAX_VALUE;
      assert |Clip(values[i])| == MAX_VALUE;
    }
  }

  /** Showing changes nothing exactly when every context line fits. */
  lemma ShownAllIs(ms: seq<Match>)
    ensures ShownAll(ms) == ms <==> forall i :: 0 <= i < |ms| ==> ContextFits(ms[i])
  {
    forall i | 0 <= i < |ms|
      ensures Shown(ms[i]) == ms[i] <==> ContextFits(ms[i])
    {
      ClipAllIs(ms[i].before);
      ClipAllIs(ms[i].after);
    }
    if forall i :: 0 <= i < |ms| ==> ContextFits(ms[i]) {
      assert ShownAll(ms) == ms;
    }
  }

  /** Matches as a page shows them, or as they are. */
  function View(shown: bool, ms: seq<Match>): seq<Match> {
    if shown then ShownAll(ms) else ms
  }

  lemma ViewAppend(shown: bool, a: seq<Match>, b: seq<Match>)
    ensures View(shown, a + b) == View(shown, a) + View(shown, b)
  {
  }

  lemma ViewOne(shown: bool, m: Match)
    ensures View(shown, []) == []
    ensures View(shown, [m]) == [if shown then Shown(m) else m]
  {
  }

  lemma {:induction false} LineMatchesSnoc(q: Query, path: string, lines: seq<string>, k: nat, hits: seq<(nat, string)>, hit: (nat, string))
    requires ValidQuery(q) && k < |lines|
    ensures LineMatches(q, path, lines, k, hits + [hit]) ==
            LineMatches(q, path, lines, k, hits) + (if hit.1 == "" then [] else [MatchAt(q, path, lines, k, hit)])
    decreases |hits|
  {
    hide MatchAt;
    if hits == [] {
      assert (hits + [hit])[1..] == [];
    } else {
      assert (hits + [hit])[1..] == hits[1..] + [hit];
      LineMatchesSnoc(q, path, lines, k, hits[1..], hit);
    }
  }

  /** The loop over the hits of one line; `shown` says whether context lines are cut. */
  method ScanLine(w: World, q: Query, path: string, lines: seq<string>, k: nat, shown: bool) returns (r: seq<Match>)
    requires ValidQuery(q) && k < |lines|
    ensures r == View(shown, LineMatches(q, path, lines, k, Hits(w, q, lines[k])))
  {
    hide Clip, ClipAll, ContextBefore, ContextAfter, LineMatches, View, Starts, Find, Occurs;
    var hits;
    if q.mode == Regex {
      hits := w.finditer(q.text, lines[k]);
    } else {
      var starts := FindAll(lines[k], q.text);
      hits := Pairs(starts, q.text);
    }
    assert hits == Hits(w, q, lines[k]);
    hide Hits;
    r := [];
    NoHits(q, path, lines, k, shown);
    var h := 0;
    while h < |hits|
      invariant 0 <= h <= |hits|
      invariant r == View(shown, LineMatches(q, path, lines, k, hits[..h]))
    {
      var hit := hits[h];
      assert hits[..h + 1] == hits[..h] + [hit];
      LineMatchesSnoc(q, path, lines, k, hits[..h], hit);
      assert LineMatches(q, path, lines, k, hits[..h]) + [] == LineMatches(q, path, lines, k, hits[..h]);
      if hit.1 != "" {
        var before, after := ContextBefore(lines, k, q.context), ContextAfter(lines, k, q.context);
        ViewAppend(shown, LineMatches(q, path, lines, k, hits[..h]), [MatchAt(q, path, lines, k, hit)]);
        ViewOne(shown, MatchAt(q, path, lines, k, hit));
        r := r + [Match(path, Some(k + 1), Some(hit.0 + 1), Clip(hit.1),
                        if shown then ClipAll(before) else before, if shown then ClipAll(after) else after, q.mode)];
      }
      h := h + 1;
    }
    assert hits[..h] == hits;
  }

  lemma NoHits(q: Query, path: string, lines: seq<string>, k: nat, shown: bool)
    requires ValidQuery(q) && k < |lines|
    ensures View(shown, LineMatches(q, path, lines, k, [])) == []
  {
  }

  /** `_search_path_matches` when `shown`; the body of the loop of `search_files` when not. */
  method SearchPathMatches(w: World, q: Query, path: string, shown: bool) returns (r: seq<Match>)
    requires ValidQuery(q)
    ensures r == View(shown, PathMatches(w, q, path))
  {
    hide LineMatches, Hits, View;
    if q.mode == FileName {
      var named := Match(path, None, None, path, [], [], FileName);
      ViewOne(shown, named);
      return if w.named(q.text, path) then [named] else [];
    }
    var loaded := w.load(path);
    r := [];
    ViewOne(shown, Match(path, None, None, path, [], [], FileName));
    if loaded.None? {
      return;
    }
    var lines := loaded.value;
    var k := 0;
    ghost var done: seq<Match> := [];
    while k < |lines|
      invariant 0 <= k <= |lines|
      invariant TextMatches(w, q, path, lines, 0) == done + TextMatches(w, q, path, lines, k)
      invariant r == View(shown, done)
    {
      var found := ScanLine(w, q, path, lines, k, shown);
      ghost var here := LineMatches(q, path, lines, k, Hits(w, q, lines[k]));
      ViewAppend(shown, done, here);
      assert done + (here + TextMatches(w, q, path, lines, k + 1)) == (done + here) + TextMatches(w, q, path, lines, k + 1);
      done := done + here;
      r := r + found;
      k := k + 1;
    }
    assert done + [] == done;
  }
}
