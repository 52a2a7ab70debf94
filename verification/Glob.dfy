/** The compiler from globs to regular expressions and the meaning it preserves. */
module Glob {

  /** The regular expressions the compiler emits. */
  datatype Re =
    | Dot                    // any character but a newline
    | NotSlash               // any character but '/'
    | Char(c: char)
    | Then(first: Re, second: Re)
    | Star(body: Re)
    | Optional(body: Re)

  /** The strings an expression describes. */
  ghost predicate In(re: Re, s: string)
    decreases re, |s|
  {
    match re
    case Dot => |s| == 1 && s[0] != '\n'
    case NotSlash => |s| == 1 && s[0] != '/'
    case Char(c) => s == [c]
    case Then(a, b) => exists k :: 0 <= k <= |s| && In(a, s[..k]) && In(b, s[k..])
    case Star(a) => s == "" || exists k :: 0 < k <= |s| && In(a, s[..k]) && In(re, s[k..])
    case Optional(a) => s == "" || In(a, s)
  }

  /** The parts one after another. */
  ghost predicate InAll(parts: seq<Re>, s: string) {
    if parts == [] then s == ""
    else exists k :: 0 <= k <= |s| && In(parts[0], s[..k]) && InAll(parts[1..], s[k..])
  }

  /** `re.compile("^" + parts + "$").match(s)`: the dollar also matches before one last newline. */
  ghost predicate Accepts(parts: seq<Re>, s: string) {
    InAll(parts, s) || (s != "" && s[|s| - 1] == '\n' && InAll(parts, s[..|s| - 1]))
  }

  // ----- the compiler -----

  const Directories := Optional(Then(Star(Dot), Char('/')))

  /** The glob starts with two stars and a slash. */
  predicate StartsDirectories(glob: string) {
    |glob| >= 3 && glob[0] == '*' && glob[1] == '*' && glob[2] == '/'
  }

  /** The glob starts with two stars. */
  predicate StartsAny(glob: string) {
    |glob| >= 2 && glob[0] == '*' && glob[1] == '*'
  }

  /** The part for the front of a glob and how much of the glob it takes. */
  function Front(glob: string): (r: (Re, nat))
    requires glob != ""
    ensures 1 <= r.1 <= |glob|
  {
    if StartsDirectories(glob) then (Directories, 3)
    else if StartsAny(glob) then (Star(Dot), 2)
    else if glob[0] == '*' then (Star(NotSlash), 1)
    else if glob[0] == '?' then (NotSlash, 1)
    else (Char(glob[0]), 1)
  }

  function Parts(glob: string): seq<Re>
    decreases |glob|
  {
    if glob == "" then [] else [Front(glob).0] + Parts(glob[Front(glob).1..])
  }

  /** Compiling one more part. */
  lemma PartsStep(glob: string, parts: seq<Re>, i: nat)
    requires i < |glob| && Parts(glob) == parts + Parts(glob[i..])
    ensures var (part, n) := Front(glob[i..]); Parts(glob) == (parts + [part]) + Parts(glob[i + n..])
  {
    hide Front;
    var (part, n) := Front(glob[i..]);
    assert glob[i..][n..] == glob[i + n..];
    assert Parts(glob[i..]) == [part] + Parts(glob[i + n..]);
    assert parts + ([part] + Parts(glob[i + n..])) == (parts + [part]) + Parts(glob[i + n..]);
  }

  /** The branches of the loop: the part for the front of what is left of the glob. */
  method FrontPart(rest: string) returns (part: Re, n: nat)
    requires rest != ""
    ensures (part, n) == Front(rest)
  {
    if StartsDirectories(rest) {
      part, n := Optional(Then(Star(Dot), Char('/'))), 3;
    } else if StartsAny(rest) {
      part, n := Star(Dot), 2;
    } else if rest[0] == '*' {
      part, n := Star(NotSlash), 1;
    } else if rest[0] == '?' {
      part, n := NotSlash, 1;
    } else {
      part, n := Char(rest[0]), 1;
    }
  }

  /** `_glob_to_regex`: the loop over the glob. */
  method GlobToRegex(glob: string) returns (parts: seq<Re>)
    ensures parts == Parts(glob)
  {
    parts := [];
    var i := 0;
    assert glob[0..] == glob;
    NoParts();
    hide *;
    while i < |glob|
      invariant 0 <= i <= |glob| && Parts(glob) == parts + Parts(glob[i..])
    {
      PartsStep(glob, parts, i);
      var part, n := FrontPart(glob[i..]);
      parts, i := parts + [part], i + n;
    }
    assert glob[i..] == "" && parts + [] == parts;
  }

  lemma NoParts()
    ensures Parts("") == []
  {
  }

  // ----- what a glob means -----

  /** Drops one leading directory, slash included; the whole path when there is none. */
  function AfterDirectory(path: string): (r: string)
    ensures |r| <= |path|
    ensures path != "" && '/' in path ==> |r| < |path|
  {
    if path == "" then ""
    else if path[0] == '/' then path[1..]
    else if '/' in path then AfterDirectory(path[1..])
    else path
  }

  /** The reference semantics, one choice at a time: `**` + '/' takes zero or more directories, `**`
      takes anything, `*` and `?` never take a slash. */
  predicate Matches(glob: string, path: string)
    decreases |glob|, |path|
  {
    if glob == "" then path == ""
    else if StartsDirectories(glob) then
      Matches(glob[3..], path) || ('/' in path && Matches(glob, AfterDirectory(path)))
    else if StartsAny(glob) then
      Matches(glob[2..], path) || (path != "" && Matches(glob, path[1..]))
    else if glob[0] == '*' then
      Matches(glob[1..], path) || (path != "" && path[0] != '/' && Matches(glob, path[1..]))
    else if glob[0] == '?' then
      path != "" && path[0] != '/' && Matches(glob[1..], path[1..])
    else
      path != "" && path[0] == glob[0] && Matches(glob[1..], path[1..])
  }

  // ----- the languages of the parts -----

  lemma {:induction false} AnyText(s: string)
    ensures In(Star(Dot), s) <==> '\n' !in s
  {
    if s != "" {
      AnyText(s[1..]);
      if '\n' !in s {
        assert In(Dot, s[..1]) && In(Star(Dot), s[1..]);
      }
      if In(Star(Dot), s) {
        var k :| 0 < k <= |s| && In(Dot, s[..k]) && In(Star(Dot), s[k..]);
        assert k == 1 && s[..1][0] == s[0];
      }
    }
  }

  lemma {:induction false} AnyName(s: string)
    ensures In(Star(NotSlash), s) <==> '/' !in s
  {
    if s != "" {
      AnyName(s[1..]);
      if '/' !in s {
        assert In(NotSlash, s[..1]) && In(Star(NotSlash), s[1..]);
      }
      if In(Star(NotSlash), s) {
        var k :| 0 < k <= |s| && In(NotSlash, s[..k]) && In(Star(NotSlash), s[k..]);
        assert k == 1 && s[..1][0] == s[0];
      }
    }
  }

  lemma InThen(a: Re, b: Re, s: string)
    ensures In(Then(a, b), s) <==> exists k :: 0 <= k <= |s| && In(a, s[..k]) && In(b, s[k..])
  {
  }

  lemma InChar(c: char, s: string)
    ensures In(Char(c), s) <==> |s| == 1 && s[0] == c
  {
  }

  lemma UpToSlash(s: string)
    requires s != ""
    ensures In(Then(Star(Dot), Char('/')), s) <==> s[|s| - 1] == '/' && In(Star(Dot), s[..|s| - 1])
  {
    InThen(Star(Dot), Char('/'), s);
    hide In;
    forall k | 0 <= k <= |s|
      ensures In(Char('/'), s[k..]) <==> k == |s| - 1 && s[k] == '/'
    {
      InChar('/', s[k..]);
    }
  }

  lemma AnyDirectories(s: string)
    ensures In(Directories, s) <==> s == "" || (s[|s| - 1] == '/' && '\n' !in s)
  {
    assert In(Directories, s) <==> s == "" || In(Then(Star(Dot), Char('/')), s);
    hide In;
    if s != "" {
      UpToSlash(s);
      AnyText(s[..|s| - 1]);
      assert s == s[..|s| - 1] + [s[|s| - 1]];
    }
  }

  // ----- splitting off the front of a glob -----

  lemma {:induction false} MatchesAny(glob: string, path: string)
    requires StartsAny(glob) && !(StartsDirectories(glob))
    ensures Matches(glob, path) <==> exists k :: 0 <= k <= |path| && Matches(glob[2..], path[k..])
    decreases |path|
  {
    assert path[0..] == path;
    if path != "" {
      MatchesAny(glob, path[1..]);
      forall k | 1 <= k <= |path|
        ensures path[1..][k - 1..] == path[k..]
      {
      }
      if exists k :: 0 <= k <= |path| && Matches(glob[2..], path[k..]) {
        var k :| 0 <= k <= |path| && Matches(glob[2..], path[k..]);
        if k > 0 {
          assert Matches(glob[2..], path[1..][k - 1..]);
        }
      }
      if Matches(glob, path[1..]) {
        var k :| 0 <= k <= |path[1..]| && Matches(glob[2..], path[1..][k..]);
        assert path[1..][k..] == path[k + 1..];
      }
    }
  }

  /** A cut after a stretch of one name. */
  ghost predicate NameCut(path: string, k: int) {
    0 <= k <= |path| && '/' !in path[..k]
  }

  lemma NameCutStep(path: string, k: int)
    requires path != "" && k > 0
    ensures NameCut(path, k) <==> path[0] != '/' && NameCut(path[1..], k - 1)
    ensures k <= |path| ==> path[1..][k - 1..] == path[k..]
  {
    if k <= |path| {
      assert path[..k] == [path[0]] + path[1..][..k - 1];
    }
  }

  lemma {:induction false} MatchesName(glob: string, path: string)
    requires glob != "" && glob[0] == '*' && !(StartsAny(glob))
    ensures Matches(glob, path) <==> exists k :: NameCut(path, k) && Matches(glob[1..], path[k..])
    decreases |path|
  {
    assert path[0..] == path && NameCut(path, 0);
    if path != "" {
      MatchesName(glob, path[1..]);
      MatchesStep(glob, path);
      hide Matches, NameCut;
      if exists k :: NameCut(path, k) && Matches(glob[1..], path[k..]) {
        var k :| NameCut(path, k) && Matches(glob[1..], path[k..]);
        CutInside(path, k);
        if k > 0 {
          NameCutStep(path, k);
        }
      }
      if path[0] != '/' && Matches(glob, path[1..]) {
        var k :| NameCut(path[1..], k) && Matches(glob[1..], path[1..][k..]);
        CutInside(path[1..], k);
        NameCutStep(path, k + 1);
      }
    }
  }

  lemma CutInside(path: string, k: int)
    requires NameCut(path, k)
    ensures 0 <= k <= |path|
  {
  }

  lemma MatchesStep(glob: string, path: string)
    requires glob != "" && glob[0] == '*' && !(StartsAny(glob)) && path != ""
    ensures Matches(glob, path) <==> Matches(glob[1..], path) || (path[0] != '/' && Matches(glob, path[1..]))
  {
  }

  /** A cut between whole directories and the rest. */
  ghost predicate DirectoryCut(path: string, k: int) {
    0 <= k <= |path| && (k == 0 || path[k - 1] == '/')
  }

  lemma {:induction false} AfterDirectoryIs(path: string)
    requires '/' in path
    ensures
      var d := |path| - |AfterDirectory(path)|;
      && 0 < d <= |path| && AfterDirectory(path) == path[d..] && path[d - 1] == '/'
      && forall i :: 0 <= i < d - 1 ==> path[i] != '/'
  {
    if path[0] != '/' {
      assert path == [path[0]] + path[1..];
      AfterDirectoryIs(path[1..]);
      var d := |path[1..]| - |AfterDirectory(path[1..])|;
      assert path[1..][d..] == path[d + 1..];
    }
  }

  lemma {:induction false} MatchesDirectories(glob: string, path: string)
    requires StartsDirectories(glob)
    ensures Matches(glob, path) <==> exists k :: DirectoryCut(path, k) && Matches(glob[3..], path[k..])
    decreases |path|
  {
    assert path[0..] == path;
    assert DirectoryCut(path, 0);
    if '/' in path {
      AfterDirectoryIs(path);
      var after := AfterDirectory(path);
      var d := |path| - |after|;
      MatchesDirectories(glob, after);
      if exists k :: DirectoryCut(path, k) && Matches(glob[3..], path[k..]) {
        var k :| DirectoryCut(path, k) && Matches(glob[3..], path[k..]);
        if k > 0 {
          assert k >= d && after[k - d..] == path[k..] && DirectoryCut(after, k - d);
        }
      }
      if Matches(glob, after) {
        var k :| DirectoryCut(after, k) && Matches(glob[3..], after[k..]);
        assert after[k..] == path[d + k..] && DirectoryCut(path, d + k);
      }
    }
  }

  // ----- the compiler preserves the meaning -----

  lemma PartSplits(glob: string, path: string)
    requires glob != ""
    ensures
      var (front, n) := Front(glob);
      InAll(Parts(glob), path) <==> exists k :: 0 <= k <= |path| && In(front, path[..k]) && InAll(Parts(glob[n..]), path[k..])
  {
    hide In, Front;
    var (front, n) := Front(glob);
    assert Parts(glob) == [front] + Parts(glob[n..]);
    assert Parts(glob)[1..] == Parts(glob[n..]);
  }

  lemma {:induction false} Compiled(glob: string, path: string)
    requires '\n' !in path
    ensures InAll(Parts(glob), path) <==> Matches(glob, path)
    decreases |glob|
  {
    if glob != "" {
      var (front, n) := Front(glob);
      var rest := glob[n..];
      PartSplits(glob, path);
      forall k | 0 <= k <= |path|
        ensures InAll(Parts(rest), path[k..]) <==> Matches(rest, path[k..])
      {
        Compiled(rest, path[k..]);
      }
      FrontSplits(glob, path);
    }
  }

  /** The reference semantics split the same way. */
  lemma FrontSplits(glob: string, path: string)
    requires glob != "" && '\n' !in path
    ensures
      var (front, n) := Front(glob);
      Matches(glob, path) <==> exists k :: 0 <= k <= |path| && In(front, path[..k]) && Matches(glob[n..], path[k..])
  {
    hide In, Matches;
    var (front, n) := Front(glob);
    if StartsDirectories(glob) {
      MatchesDirectories(glob, path);
      forall k | 0 <= k <= |path|
        ensures In(front, path[..k]) <==> DirectoryCut(path, k)
      {
        AnyDirectories(path[..k]);
      }
    } else if StartsAny(glob) {
      MatchesAny(glob, path);
      forall k | 0 <= k <= |path|
        ensures In(front, path[..k])
      {
        AnyText(path[..k]);
      }
    } else if glob[0] == '*' {
      MatchesName(glob, path);
      forall k | 0 <= k <= |path|
        ensures In(front, path[..k]) <==> NameCut(path, k)
      {
        AnyName(path[..k]);
      }
    } else {
      OneCharacter(glob, path);
    }
  }

  lemma OneCharacter(glob: string, path: string)
    requires glob != "" && glob[0] != '*'
    ensures
      var (front, n) := Front(glob);
      Matches(glob, path) <==> exists k :: 0 <= k <= |path| && In(front, path[..k]) && Matches(glob[n..], path[k..])
  {
    var (front, n) := Front(glob);
    forall k | 0 <= k <= |path| && In(front, path[..k])
      ensures k == 1 && path[..1][0] == path[0]
    {
    }
    if Matches(glob, path) {
      assert path[..1] == [path[0]];
      assert In(front, path[..1]) && Matches(glob[1..], path[1..]);
    }
  }

  /** For every glob and every path without a newline, the emitted expression accepts the path exactly
      when the reference semantics do. */
  lemma CompilerPreservesMeaning(glob: string, path: string)
    requires '\n' !in path
    ensures Accepts(Parts(glob), path) <==> Matches(glob, path)
  {
    Compiled(glob, path);
    assert path != "" ==> path[|path| - 1] in path;
  }

  // ----- literal globs -----

  predicate IsLiteral(glob: string) {
    '*' !in glob && '?' !in glob
  }

  /** The first character of a literal glob stands for itself. */
  lemma LiteralFront(glob: string, path: string)
    requires glob != "" && IsLiteral(glob)
    ensures InAll(Parts(glob), path) <==> path != "" && path[0] == glob[0] && InAll(Parts(glob[1..]), path[1..])
  {
    PartSplits(glob, path);
    assert glob[0] in glob;
    assert Front(glob) == (Char(glob[0]), 1);
    hide InAll, Parts, Front;
    forall k | 0 <= k <= |path|
      ensures In(Char(glob[0]), path[..k]) <==> k == 1 && path[0] == glob[0]
    {
      assert k == 1 ==> path[..k] == [path[0]];
    }
  }

  lemma {:induction false} LiteralMatches(glob: string, path: string)
    requires IsLiteral(glob)
    ensures InAll(Parts(glob), path) <==> path == glob
  {
    if glob != "" {
      LiteralFront(glob, path);
      hide InAll, Parts;
      assert glob == [glob[0]] + glob[1..];
      if path != "" {
        LiteralMatches(glob[1..], path[1..]);
        assert path == [path[0]] + path[1..];
      }
    }
  }

  /** A glob without metacharacters accepts only itself, and itself with one newline appended. */
  lemma LiteralAcceptsItself(glob: string, path: string)
    requires IsLiteral(glob)
    ensures Accepts(Parts(glob), path) <==> path == glob || path == glob + "\n"
  {
    LiteralMatches(glob, path);
    if path != "" {
      LiteralMatches(glob, path[..|path| - 1]);
      assert path == path[..|path| - 1] + [path[|path| - 1]];
    }
    assert (glob + "\n")[..|glob|] == glob;
  }

  // ----- exactly the paths without a newline -----

  /** A glob of one character per character of `s`. */
  function Shape(s: string): string {
    if s == "" then "" else [if s[0] == '/' then '/' else '?'] + Shape(s[1..])
  }

  lemma {:induction false} ShapeMatches(s: string, path: string)
    ensures Matches(Shape(s), path) ==> |path| == |s|
    ensures Matches(Shape(s), s)
  {
    if s != "" {
      assert Shape(s)[1..] == Shape(s[1..]) && Shape(s)[0] != '*';
      ShapeMatches(s[1..], if path == "" then "" else path[1..]);
    }
  }

  lemma AnyGlobMatches(path: string)
    ensures Matches("**", path)
  {
    MatchesAny("**", path);
    assert "**"[2..] == "" && path[|path|..] == "";
    assert Matches("**"[2..], path[|path|..]);
  }

  lemma AnyGlobAccepts(path: string)
    ensures InAll(Parts("**"), path) <==> '\n' !in path
  {
    PartSplits("**", path);
    assert Front("**") == (Star(Dot), 2) && "**"[2..] == "" && Parts("") == [];
    AnyText(path);
    assert path[..|path|] == path && path[|path|..] == "";
    forall k | 0 <= k <= |path| && InAll([], path[k..])
      ensures k == |path|
    {
    }
  }

  /** For a path with a newline some glob is accepted and does not match, or the other way round. */
  lemma NewlineSeparates(path: string) returns (glob: string)
    requires '\n' in path
    ensures Accepts(Parts(glob), path) != Matches(glob, path)
  {
    var s := path[..|path| - 1];
    if path[|path| - 1] == '\n' && '\n' !in s {
      glob := Shape(s);
      ShapeMatches(s, path);
      Compiled(glob, s);
    } else {
      glob := "**";
      AnyGlobMatches(path);
      AnyGlobAccepts(path);
      AnyGlobAccepts(s);
      assert path == s + [path[|path| - 1]];
    }
  }

  /** The emitted expressions and the reference semantics agree on a path, for all globs, if and only if
      the path has no newline. */
  lemma AgreesIff(path: string)
    ensures (forall glob :: Accepts(Parts(glob), path) <==> Matches(glob, path)) <==> '\n' !in path
  {
    hide Accepts, Matches, Parts;
    if '\n' !in path {
      forall glob
        ensures Accepts(Parts(glob), path) <==> Matches(glob, path)
      {
        CompilerPreservesMeaning(glob, path);
      }
    } else {
      var glob := NewlineSeparates(path);
    }
  }
}
