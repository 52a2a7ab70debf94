/** What the matches of one path say about the file: every line is searched, every occurrence is
    accounted for, and each match carries its own line, column and context. */
module SearchMeaning {
  import opened Options
  import opened SearchMatches

  /** A value cut to its first 4000 characters. */
  predicate IsCut(value: string, cut: string) {
    cut <= value && |cut| == if |value| > 4000 then 4000 else |value|
  }

  predicate Carries(shown: bool, value: string, carried: string) {
    if shown then IsCut(value, carried) else carried == value
  }

  /** Up to `context` lines on each side of line `n`, and as many as there are. */
  predicate IsContext(shown: bool, lines: seq<string>, n: nat, context: int, before: seq<string>, after: seq<string>)
    requires 1 <= n <= |lines|
  {
    && |before| == (if context < n - 1 then context else n - 1)
    && (forall i :: 0 <= i < |before| ==> Carries(shown, lines[n - 1 - |before| + i], before[i]))
    && |after| == (if context < |lines| - n then context else |lines| - n)
    && (forall i :: 0 <= i < |after| ==> Carries(shown, lines[n + i], after[i]))
  }

  /** The match tells of one hit on line `n`. */
  predicate Tells(shown: bool, q: Query, path: string, lines: seq<string>, n: nat, hit: (nat, string), m: Match) {
    && 1 <= n <= |lines| && m.path == path && m.mode == q.mode
    && m.line == Some(n) && m.column == Some(hit.0 + 1) && IsCut(hit.1, m.text)
    && IsContext(shown, lines, n, q.context, m.before, m.after)
  }

  function NonEmpty(hits: seq<(nat, string)>): seq<(nat, string)> {
    if hits == [] then [] else (if hits[0].1 == "" then [] else [hits[0]]) + NonEmpty(hits[1..])
  }

  /** The matches on one line, in order. */
  function OnLine(ms: seq<Match>, n: nat): seq<Match> {
    if ms == [] then [] else (if ms[0].line == Some(n) then [ms[0]] else []) + OnLine(ms[1..], n)
  }

  /** The matches tell of these hits, one after another. */
  predicate TellsAll(shown: bool, q: Query, path: string, lines: seq<string>, n: nat, hits: seq<(nat, string)>, ms: seq<Match>) {
    |ms| == |hits| && forall i :: 0 <= i < |ms| ==> Tells(shown, q, path, lines, n, hits[i], ms[i])
  }

  /** The matches lie on lines after `k`, in the order of the lines. */
  predicate LineByLine(ms: seq<Match>, k: nat, last: nat) {
    && (forall i :: 0 <= i < |ms| ==> ms[i].line.Some? && k < ms[i].line.value <= last)
    && (forall i, j :: 0 <= i < j < |ms| ==> ms[i].line.value <= ms[j].line.value)
  }

  // ----- one line -----

  lemma Told(shown: bool, q: Query, path: string, lines: seq<string>, k: nat, hit: (nat, string))
    requires ValidQuery(q) && k < |lines|
    ensures
      var m := MatchAt(q, path, lines, k, hit);
      Tells(shown, q, path, lines, k + 1, hit, if shown then Shown(m) else m)
  {
    var m := MatchAt(q, path, lines, k, hit);
    assert |m.before| == (if q.context < k then q.context else k);
  }

  lemma {:induction false} LineIsTold(shown: bool, q: Query, path: string, lines: seq<string>, k: nat, hits: seq<(nat, string)>)
    requires ValidQuery(q) && k < |lines|
    ensures TellsAll(shown, q, path, lines, k + 1, NonEmpty(hits), View(shown, LineMatches(q, path, lines, k, hits)))
    decreases |hits|
  {
    hide MatchAt, Tells, View;
    if hits == [] {
      ViewOne(shown, MatchAt(q, path, lines, k, (0, "")));
    } else {
      var m, rest := MatchAt(q, path, lines, k, hits[0]), LineMatches(q, path, lines, k, hits[1..]);
      LineIsTold(shown, q, path, lines, k, hits[1..]);
      if hits[0].1 != "" {
        Told(shown, q, path, lines, k, hits[0]);
        ViewOne(shown, m);
        ViewAppend(shown, [m], rest);
      } else {
        assert [] + rest == rest;
      }
    }
  }

  lemma {:induction false} OnLineAppend(a: seq<Match>, b: seq<Match>, n: nat)
    ensures OnLine(a + b, n) == OnLine(a, n) + OnLine(b, n)
    decreases |a|
  {
    if a == [] {
      assert a + b == b;
    } else {
      assert (a + b)[1..] == a[1..] + b;
      OnLineAppend(a[1..], b, n);
    }
  }

  lemma {:induction false} AllOnLine(ms: seq<Match>, at: nat, n: nat)
    requires forall i :: 0 <= i < |ms| ==> ms[i].line == Some(at)
    ensures OnLine(ms, n) == if n == at then ms else []
  {
    if ms != [] {
      AllOnLine(ms[1..], at, n);
    }
  }

  lemma {:induction false} NoneOnLine(ms: seq<Match>, n: nat)
    requires forall i :: 0 <= i < |ms| ==> ms[i].line.Some? && n < ms[i].line.value
    ensures OnLine(ms, n) == []
  {
    if ms != [] {
      NoneOnLine(ms[1..], n);
    }
  }

  // ----- the lines from `k` on -----

  /** Every line after `k` has been searched, in order. */
  ghost predicate Searched(shown: bool, w: World, q: Query, path: string, lines: seq<string>, k: nat, ms: seq<Match>)
    requires ValidQuery(q)
  {
    && LineByLine(ms, k, |lines|)
    && forall n :: k < n <= |lines| ==> TellsAll(shown, q, path, lines, n, NonEmpty(Hits(w, q, lines[n - 1])), OnLine(ms, n))
  }

  lemma SearchedCons(shown: bool, w: World, q: Query, path: string, lines: seq<string>, k: nat, here: seq<Match>, rest: seq<Match>)
    requires ValidQuery(q) && k < |lines| && Searched(shown, w, q, path, lines, k + 1, rest)
    requires TellsAll(shown, q, path, lines, k + 1, NonEmpty(Hits(w, q, lines[k])), here)
    ensures Searched(shown, w, q, path, lines, k, here + rest)
  {
    hide NonEmpty, Hits, OnLine, IsCut, IsContext;
    assert forall i :: 0 <= i < |here| ==> here[i].line == Some(k + 1);
    hide Tells;
    forall n | k < n <= |lines|
      ensures TellsAll(shown, q, path, lines, n, NonEmpty(Hits(w, q, lines[n - 1])), OnLine(here + rest, n))
    {
      OnLineAppend(here, rest, n);
      AllOnLine(here, k + 1, n);
      if n == k + 1 {
        NoneOnLine(rest, n);
        assert here + [] == here;
      } else {
        assert [] + OnLine(rest, n) == OnLine(rest, n);
      }
    }
  }

  lemma {:induction false} LinesAreSearched(shown: bool, w: World, q: Query, path: string, lines: seq<string>, k: nat)
    requires ValidQuery(q) && k <= |lines|
    ensures Searched(shown, w, q, path, lines, k, View(shown, TextMatches(w, q, path, lines, k)))
    decreases |lines| - k
  {
    hide View, Searched, TellsAll, LineMatches, Hits;
    if k == |lines| {
      NothingLeft(shown, w, q, path, lines);
      ViewOne(shown, Match("", None, None, "", [], [], Literal));
    } else {
      var hits := Hits(w, q, lines[k]);
      LinesAreSearched(shown, w, q, path, lines, k + 1);
      LineIsTold(shown, q, path, lines, k, hits);
      ViewAppend(shown, LineMatches(q, path, lines, k, hits), TextMatches(w, q, path, lines, k + 1));
      SearchedCons(shown, w, q, path, lines, k, View(shown, LineMatches(q, path, lines, k, hits)), View(shown, TextMatches(w, q, path, lines, k + 1)));
    }
  }

  lemma NothingLeft(shown: bool, w: World, q: Query, path: string, lines: seq<string>)
    requires ValidQuery(q)
    ensures Searched(shown, w, q, path, lines, |lines|, [])
  {
  }

  // ----- what a search of one path finds -----

  /** A regular-expression search finds, line by line, exactly the hits of the scanner that are not
      empty. */
  lemma RegexMatchesAre(shown: bool, w: World, q: Query, path: string)
    requires ValidQuery(q) && q.mode == Regex && w.load(path).Some?
    ensures
      var lines, ms := w.load(path).value, View(shown, PathMatches(w, q, path));
      && LineByLine(ms, 0, |lines|)
      && forall n :: 0 < n <= |lines| ==> TellsAll(shown, q, path, lines, n, NonEmpty(w.finditer(q.text, lines[n - 1])), OnLine(ms, n))
  {
    hide View, TextMatches, TellsAll, LineByLine, OnLine;
    var lines := w.load(path).value;
    LinesAreSearched(shown, w, q, path, lines, 0);
  }

  /** The match tells of an occurrence of the query on its line. */
  predicate AtOccurrence(shown: bool, q: Query, path: string, lines: seq<string>, m: Match) {
    && m.line.Some? && m.column.Some? && m.column.value > 0
    && Tells(shown, q, path, lines, m.line.value, (m.column.value - 1, q.text), m)
    && Occurs(lines[m.line.value - 1], q.text, m.column.value - 1)
  }

  /** The query occurs at position `k` of line `n`. */
  predicate OccursOn(q: Query, lines: seq<string>, n: nat, k: nat) {
    0 < n <= |lines| && Occurs(lines[n - 1], q.text, k)
  }

  /** The match covers position `k` of line `n`, starting no later. */
  predicate CoversAt(q: Query, m: Match, n: nat, k: nat) {
    m.line == Some(n) && m.column.Some? && m.column.value <= k + 1 < m.column.value + |q.text|
  }

  /** `m` ends before `later` starts. */
  predicate Precedes(q: Query, m: Match, later: Match) {
    && m.line.Some? && m.column.Some? && later.line.Some? && later.column.Some?
    && (m.line.value < later.line.value || (m.line == later.line && m.column.value + |q.text| <= later.column.value))
  }

  lemma {:induction false} LiteralHits(starts: seq<nat>, text: string)
    requires text != ""
    ensures NonEmpty(Pairs(starts, text)) == Pairs(starts, text)
  {
    if starts != [] {
      LiteralHits(starts[1..], text);
      assert Pairs(starts, text)[1..] == Pairs(starts[1..], text);
    }
  }

  /** Where a match stands among those of its line. */
  lemma {:induction false} InItsLine(ms: seq<Match>, n: nat, i: nat) returns (p: nat)
    requires i < |ms| && ms[i].line == Some(n)
    ensures p < |OnLine(ms, n)| && OnLine(ms, n)[p] == ms[i]
    decreases |ms|
  {
    if i == 0 {
      p := 0;
    } else {
      p := InItsLine(ms[1..], n, i - 1);
      p := if ms[0].line == Some(n) then p + 1 else p;
    }
  }

  lemma {:induction false} InOrder(ms: seq<Match>, n: nat, i: nat, j: nat) returns (p: nat, r: nat)
    requires i < j < |ms| && ms[i].line == Some(n) && ms[j].line == Some(n)
    ensures p < r < |OnLine(ms, n)| && OnLine(ms, n)[p] == ms[i] && OnLine(ms, n)[r] == ms[j]
    decreases |ms|
  {
    if i == 0 {
      r := InItsLine(ms[1..], n, j - 1);
      p, r := 0, r + 1;
    } else {
      p, r := InOrder(ms[1..], n, i - 1, j - 1);
      if ms[0].line == Some(n) {
        p, r := p + 1, r + 1;
      }
    }
  }

  lemma {:induction false} OnLineComes(ms: seq<Match>, n: nat, p: nat) returns (i: nat)
    requires p < |OnLine(ms, n)|
    ensures i < |ms| && ms[i] == OnLine(ms, n)[p]
    decreases |ms|
  {
    if ms[0].line == Some(n) {
      if p == 0 {
        i := 0;
      } else {
        i := OnLineComes(ms[1..], n, p - 1);
        i := i + 1;
      }
    } else {
      i := OnLineComes(ms[1..], n, p);
      i := i + 1;
    }
  }

  /** On one line, with the leftmost occurrences as its hits. */
  predicate LineTold(shown: bool, q: Query, path: string, lines: seq<string>, n: nat, ms: seq<Match>)
    requires ValidQuery(q) && 0 < n <= |lines|
  {
    TellsAll(shown, q, path, lines, n, Pairs(Starts(lines[n - 1], q.text, 0), q.text), ms)
  }

  /** A literal search finds, in the order of lines and columns, exactly the leftmost occurrences that do
      not overlap: every match is one, and every occurrence overlaps one that starts no later. */
  lemma LiteralMatchesAre(shown: bool, w: World, q: Query, path: string)
    requires ValidQuery(q) && q.mode == Literal && w.load(path).Some?
    ensures
      var lines, ms := w.load(path).value, View(shown, PathMatches(w, q, path));
      && (forall i :: 0 <= i < |ms| ==> AtOccurrence(shown, q, path, lines, ms[i]))
      && (forall i, j :: 0 <= i < j < |ms| ==> Precedes(q, ms[i], ms[j]))
      && (forall n, k :: OccursOn(q, lines, n, k) ==>
            exists i :: 0 <= i < |ms| && CoversAt(q, ms[i], n, k))
  {
    var lines, ms := w.load(path).value, View(shown, PathMatches(w, q, path));
    hide View, TextMatches, AtOccurrence, Precedes, CoversAt, OnLine;
    LinesAreSearched(shown, w, q, path, lines, 0);
    forall n | 0 < n <= |lines|
      ensures LineTold(shown, q, path, lines, n, OnLine(ms, n))
    {
      LiteralHits(Starts(lines[n - 1], q.text, 0), q.text);
    }
    hide TellsAll, Hits, NonEmpty, LineTold, Occurs;
    forall i | 0 <= i < |ms|
      ensures AtOccurrence(shown, q, path, lines, ms[i])
    {
      var n := ms[i].line.value;
      var p := InItsLine(ms, n, i);
      ToldAt(shown, q, path, lines, n, OnLine(ms, n), p);
    }
    forall i, j | 0 <= i < j < |ms|
      ensures Precedes(q, ms[i], ms[j])
    {
      ByLines(q, ms, i, j, lines, shown, path);
    }
    forall n, k | OccursOn(q, lines, n, k)
      ensures exists i :: 0 <= i < |ms| && CoversAt(q, ms[i], n, k)
    {
      var p := ToldCover(shown, q, path, lines, n, OnLine(ms, n), k);
      var i := OnLineComes(ms, n, p);
    }
  }

  lemma ToldAt(shown: bool, q: Query, path: string, lines: seq<string>, n: nat, ms: seq<Match>, p: nat)
    requires ValidQuery(q) && 0 < n <= |lines| && LineTold(shown, q, path, lines, n, ms) && p < |ms|
    ensures AtOccurrence(shown, q, path, lines, ms[p])
  {
    StartsAreLeftmost(lines[n - 1], q.text);
    hide Starts, Occurs, IsCut, IsContext;
  }

  lemma ToldInOrder(shown: bool, q: Query, path: string, lines: seq<string>, n: nat, ms: seq<Match>, p: nat, r: nat)
    requires ValidQuery(q) && 0 < n <= |lines| && LineTold(shown, q, path, lines, n, ms) && p < r < |ms|
    ensures Precedes(q, ms[p], ms[r])
  {
    StartsAreLeftmost(lines[n - 1], q.text);
    hide Starts, Occurs, IsCut, IsContext;
  }

  lemma ToldCover(shown: bool, q: Query, path: string, lines: seq<string>, n: nat, ms: seq<Match>, k: nat) returns (p: nat)
    requires ValidQuery(q) && 0 < n <= |lines| && LineTold(shown, q, path, lines, n, ms) && Occurs(lines[n - 1], q.text, k)
    ensures p < |ms| && CoversAt(q, ms[p], n, k)
  {
    StartsAreLeftmost(lines[n - 1], q.text);
    hide Starts, Occurs, IsCut, IsContext;
    var starts := Starts(lines[n - 1], q.text, 0);
    assert Covered(q.text, k, starts);
    p :| 0 <= p < |starts| && starts[p] <= k < starts[p] + |q.text|;
    assert Tells(shown, q, path, lines, n, Pairs(starts, q.text)[p], ms[p]);
  }

  lemma ByLines(q: Query, ms: seq<Match>, i: nat, j: nat, lines: seq<string>, shown: bool, path: string)
    requires ValidQuery(q) && i < j < |ms| && LineByLine(ms, 0, |lines|)
    requires forall n :: 0 < n <= |lines| ==> LineTold(shown, q, path, lines, n, OnLine(ms, n))
    requires forall k :: 0 <= k < |ms| ==> AtOccurrence(shown, q, path, lines, ms[k])
    ensures Precedes(q, ms[i], ms[j])
  {
    hide LineTold, OnLine, Tells, Occurs;
    if ms[i].line == ms[j].line {
      var n := ms[i].line.value;
      var p, r := InOrder(ms, n, i, j);
      ToldInOrder(shown, q, path, lines, n, OnLine(ms, n), p, r);
    } else {
      assert AtOccurrence(shown, q, path, lines, ms[i]) && AtOccurrence(shown, q, path, lines, ms[j]);
    }
  }

  /** A file-name search finds the path itself exactly when it is named; a path that cannot be loaded has
      no other matches. */
  lemma NameMatchesAre(shown: bool, w: World, q: Query, path: string)
    requires ValidQuery(q) && (q.mode == FileName || w.load(path).None?)
    ensures
      View(shown, PathMatches(w, q, path)) ==
      if q.mode == FileName && w.named(q.text, path) then [Match(path, None, None, path, [], [], FileName)] else []
  {
  }
}
