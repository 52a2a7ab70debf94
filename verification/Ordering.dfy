/** Strings in code-point order: sorting, and sorting without repetition. */
module Ordering {

  /** Code-point order on strings. */
  predicate Below(a: string, b: string) {
    a == "" || (b != "" && (a[0] < b[0] || (a[0] == b[0] && Below(a[1..], b[1..]))))
  }

  lemma BelowTotal(a: string, b: string)
    ensures Below(a, b) || Below(b, a)
    ensures Below(a, b) && Below(b, a) ==> a == b
  {
    if a != "" && b != "" && a[0] == b[0] {
      BelowTotal(a[1..], b[1..]);
      assert a == [a[0]] + a[1..] && b == [b[0]] + b[1..];
    }
  }

  lemma BelowTransitive(a: string, b: string, c: string)
    requires Below(a, b) && Below(b, c)
    ensures Below(a, c)
  {
    if a != "" && a[0] == b[0] && b[0] == c[0] {
      BelowTransitive(a[1..], b[1..], c[1..]);
    }
  }

  /** The strings agree up to `k`, where the first one ends or has the smaller character. */
  predicate DecidedAt(a: string, b: string, k: nat) {
    k <= |a| && k <= |b| && a[..k] == b[..k] && (k == |a| || (k < |b| && a[k] < b[k]))
  }

  lemma {:induction false} BelowIff(a: string, b: string)
    ensures Below(a, b) <==> exists k: nat :: DecidedAt(a, b, k)
  {
    if a == "" {
      assert DecidedAt(a, b, 0);
    } else if b != "" {
      BelowIff(a[1..], b[1..]);
      assert a[0] < b[0] ==> DecidedAt(a, b, 0);
      if a[0] == b[0] && Below(a, b) {
        var k: nat :| DecidedAt(a[1..], b[1..], k);
        assert a[..k + 1] == [a[0]] + a[1..][..k] && b[..k + 1] == [b[0]] + b[1..][..k];
        assert DecidedAt(a, b, k + 1);
      }
      if k: nat :| DecidedAt(a, b, k) {
        if k > 0 {
          assert a[..k][0] == a[0] && b[..k][0] == b[0];
          assert a[1..][..k - 1] == a[..k][1..] && b[1..][..k - 1] == b[..k][1..];
          assert DecidedAt(a[1..], b[1..], k - 1);
        }
      }
    }
  }

  predicate Ascending(s: seq<string>) {
    forall i, j :: 0 <= i < j < |s| ==> Below(s[i], s[j])
  }

  function Insert(x: string, s: seq<string>): seq<string> {
    if s == [] || Below(x, s[0]) then [x] + s else [s[0]] + Insert(x, s[1..])
  }

  /** `sorted(paths)`. */
  function Sort(paths: seq<string>): seq<string> {
    if paths == [] then [] else Insert(paths[0], Sort(paths[1..]))
  }

  lemma {:induction false} InsertSorts(x: string, s: seq<string>)
    requires Ascending(s)
    ensures Ascending(Insert(x, s)) && multiset(Insert(x, s)) == multiset(s) + multiset{x}
  {
    if s == [] {
    } else if Below(x, s[0]) {
      forall j | 0 <= j < |s|
        ensures Below(x, s[j])
      {
        if j > 0 {
          BelowTransitive(x, s[0], s[j]);
        }
      }
    } else {
      var rest := Insert(x, s[1..]);
      InsertSorts(x, s[1..]);
      BelowTotal(x, s[0]);
      assert s == [s[0]] + s[1..];
      hide Insert, Below;
      forall j | 0 <= j < |rest|
        ensures Below(s[0], rest[j])
      {
        assert rest[j] in multiset(rest);
        assert rest[j] == x || rest[j] in s[1..];
      }
    }
  }

  lemma {:induction false} SortIsSorted(paths: seq<string>)
    ensures Ascending(Sort(paths)) && multiset(Sort(paths)) == multiset(paths)
  {
    if paths != [] {
      SortIsSorted(paths[1..]);
      InsertSorts(paths[0], Sort(paths[1..]));
      assert paths == [paths[0]] + paths[1..];
    }
  }

  /** On a sorted list: each element once, the order kept. */
  function Once(s: seq<string>): seq<string> {
    if |s| < 2 then s
    else if s[0] == s[1] then Once(s[1..])
    else [s[0]] + Once(s[1..])
  }

  lemma {:induction false} OnceKeeps(s: seq<string>)
    requires Ascending(s)
    ensures
      var r := Once(s);
      && Ascending(r) && (forall x :: x in r <==> x in s)
      && (forall i, j :: 0 <= i < j < |r| ==> r[i] != r[j])
  {
    if |s| >= 2 {
      var rest := s[1..];
      OnceKeeps(rest);
      assert s == [s[0]] + rest && rest[0] == s[1];
      forall j | 0 <= j < |Once(rest)|
        ensures Below(s[0], Once(rest)[j])
      {
        assert Once(rest)[j] in rest;
      }
      if s[0] != s[1] && s[0] in rest {
        var j :| 0 <= j < |rest| && rest[j] == s[0];
        assert Below(s[1], s[0]) by {
          if j > 0 {
            assert Below(rest[0], rest[j]);
          }
        }
        BelowTotal(s[0], s[1]);
        assert false;
      }
    }
  }
}
