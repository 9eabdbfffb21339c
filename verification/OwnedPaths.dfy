/**
  Owned paths (scripts/validate_plan_gate.py): which patterns are accepted, when two of them overlap, and
  what an empty overlap report says about the tasks that own a path.
 */
module OwnedPaths {
  import opened Wrappers
  import opened References
  import opened PlanGraph

  // Text and segments

  predicate SegmentChar(c: char) {
    'A' <= c <= 'Z' || 'a' <= c <= 'z' || '0' <= c <= '9' || c == '.' || c == '_' || c == '-'
  }

  predicate GoodSegment(s: string) {
    s != "" && s != "." && s != ".." && forall i :: 0 <= i < |s| ==> SegmentChar(s[i])
  }

  predicate GoodSegments(ss: seq<string>) {
    ss != [] && forall i :: 0 <= i < |ss| ==> GoodSegment(ss[i])
  }

  // Python's "/".join(...).
  function Join(ss: seq<string>): string {
    if ss == [] then "" else if |ss| == 1 then ss[0] else ss[0] + "/" + Join(ss[1..])
  }

  // Python's s.split("/").
  function Split(s: string): (ss: seq<string>)
    ensures ss != []
  {
    if s == "" then [""]
    else if s[0] == '/' then [""] + Split(s[1..])
    else
      var rest := Split(s[1..]);
      [[s[0]] + rest[0]] + rest[1..]
  }

  predicate EndsWith(s: string, suffix: string) {
    |s| >= |suffix| && s[|s| - |suffix|..] == suffix
  }

  // Joining undoes splitting.
  lemma {:induction false} JoinSplit(s: string)
    ensures Join(Split(s)) == s
  {
    if s != "" {
      var rest := Split(s[1..]);
      JoinSplit(s[1..]);
      if s[0] == '/' {
        assert Split(s)[1..] == rest;
        assert "" + "/" + s[1..] == s;
      } else {
        JoinPrepend(s[0], rest);
        assert [s[0]] + s[1..] == s;
      }
    }
  }

  lemma {:induction false} JoinPrepend(c: char, ss: seq<string>)
    requires ss != []
    ensures Join([[c] + ss[0]] + ss[1..]) == [c] + Join(ss)
  {
    var more := [[c] + ss[0]] + ss[1..];
    if |ss| == 1 {
      assert more == [[c] + ss[0]];
    } else {
      assert more[1..] == ss[1..];
      assert [c] + ss[0] + "/" + Join(ss[1..]) == [c] + (ss[0] + "/" + Join(ss[1..]));
    }
  }

  predicate NoSlash(s: string) {
    forall i :: 0 <= i < |s| ==> s[i] != '/'
  }

  // Splitting undoes joining, for segments without slashes.
  lemma {:induction false} SplitFirst(a: string, rest: string)
    requires NoSlash(a)
    ensures Split(a + "/" + rest) == [a] + Split(rest)
    ensures Split(a) == [a]
  {
    if a == "" {
      assert (a + "/" + rest)[0] == '/' && (a + "/" + rest)[1..] == rest;
    } else {
      SplitFirst(a[1..], rest);
      assert (a + "/" + rest)[1..] == a[1..] + "/" + rest;
      assert [a[0]] + a[1..] == a;
      assert Split(a[1..] + "/" + rest)[1..] == Split(rest);
    }
  }

  lemma {:induction false} SplitJoin(ss: seq<string>)
    requires ss != [] && forall i :: 0 <= i < |ss| ==> NoSlash(ss[i])
    ensures Split(Join(ss)) == ss
  {
    SplitFirst(ss[0], Join(ss[1..]));
    if |ss| > 1 {
      SplitJoin(ss[1..]);
      assert ss == [ss[0]] + ss[1..];
    } else {
      assert ss == [ss[0]];
    }
  }

  lemma {:induction false} JoinConcat(xs: seq<string>, ys: seq<string>)
    requires xs != [] && ys != []
    ensures Join(xs + ys) == Join(xs) + "/" + Join(ys)
  {
    if |xs| == 1 {
      assert (xs + ys)[1..] == ys;
    } else {
      JoinConcat(xs[1..], ys);
      assert (xs + ys)[1..] == xs[1..] + ys;
      assert xs[0] + "/" + (Join(xs[1..]) + "/" + Join(ys)) == xs[0] + "/" + Join(xs[1..]) + "/" + Join(ys);
    }
  }

  // On segments without slashes, "starts with the other and a slash" is "extends the other by segments".
  lemma {:induction false} PrefixIsSegments(xs: seq<string>, ys: seq<string>)
    requires xs != [] && ys != [] && (forall i :: 0 <= i < |xs| ==> NoSlash(xs[i])) && forall i :: 0 <= i < |ys| ==> NoSlash(ys[i])
    ensures StartsWith(Join(ys), Join(xs) + "/") <==> |xs| < |ys| && ys[..|xs|] == xs
  {
    var prefix := Join(xs) + "/";
    if |xs| < |ys| && ys[..|xs|] == xs {
      JoinConcat(xs, ys[|xs|..]);
      assert ys == xs + ys[|xs|..];
      assert Join(ys) == prefix + Join(ys[|xs|..]);
    }
    if StartsWith(Join(ys), prefix) {
      var rest := Join(ys)[|prefix|..];
      assert Join(ys) == Join(xs) + "/" + rest;
      SplitAfter(xs, rest);
      SplitJoin(ys);
      assert ys == xs + Split(rest);
      assert ys[..|xs|] == xs;
    }
  }

  lemma {:induction false} Regroup(a: string, b: string, c: string)
    ensures a + "/" + b + "/" + c == a + "/" + (b + "/" + c)
  {
  }

  lemma {:induction false} HeadFirst(xs: seq<string>, more: seq<string>)
    requires xs != []
    ensures [xs[0]] + (xs[1..] + more) == xs + more
  {
  }

  lemma {:induction false} SplitAfter(xs: seq<string>, rest: string)
    requires xs != [] && forall i :: 0 <= i < |xs| ==> NoSlash(xs[i])
    ensures Split(Join(xs) + "/" + rest) == xs + Split(rest)
  {
    HeadFirst(xs, Split(rest));
    if |xs| == 1 {
      SplitFirst(xs[0], rest);
      assert xs[1..] + Split(rest) == Split(rest);
    } else {
      var tail := Join(xs[1..]);
      SplitAfter(xs[1..], rest);
      SplitFirst(xs[0], tail + "/" + rest);
      Regroup(xs[0], tail, rest);
    }
  }

  // Patterns

  datatype Kind = Exact | Tree

  datatype Owned = Owned(kind: Kind, path: string)

  predicate Contains(s: string, c: char) {
    exists i :: 0 <= i < |s| && s[i] == c
  }

  predicate DoubleSlash(s: string) {
    exists i :: 0 <= i < |s| - 1 && s[i] == '/' && s[i + 1] == '/'
  }

  predicate Wild(s: string) {
    exists i :: 0 <= i < |s| && s[i] in {'*', '?', '[', ']', '{', '}'}
  }

  const TREE_SUFFIX: string := "/**"

  function ParseOwned(pattern: string): Option<Owned> {
    if pattern == "" || StartsWith(pattern, "/") || Contains(pattern, '\\') || DoubleSlash(pattern) then None
    else
      var tree := EndsWith(pattern, TREE_SUFFIX);
      var base := if tree then pattern[..|pattern| - |TREE_SUFFIX|] else pattern;
      if Wild(base) || !GoodSegments(Split(base)) then None
      else Some(Owned(if tree then Tree else Exact, Join(Split(base))))
  }

  predicate Parsed(o: Owned) {
    GoodSegments(Split(o.path))
  }

  lemma {:induction false} GoodHasNoSlash(s: string)
    requires GoodSegment(s)
    ensures NoSlash(s)
  {
  }

  // A path of good segments holds segment characters and single slashes between them.
  predicate Inner(s: string, i: nat)
    requires i < |s|
  {
    if s[i] == '/' then i > 0 && s[i - 1] != '/' && i + 1 < |s| && s[i + 1] != '/' else SegmentChar(s[i])
  }

  lemma {:induction false} JoinChars(ss: seq<string>, i: nat)
    requires GoodSegments(ss) && i < |Join(ss)|
    ensures Join(ss) != "" && Join(ss)[0] != '/' && Join(ss)[|Join(ss)| - 1] != '/' && Inner(Join(ss), i)
  {
    var first := ss[0];
    GoodHasNoSlash(first);
    if |ss| > 1 {
      var rest := Join(ss[1..]);
      var n := |first| + 1;
      assert GoodSegments(ss[1..]);
      assert Join(ss) == first + "/" + rest;
      JoinNotEmpty(ss[1..]);
      JoinChars(ss[1..], if i >= n then i - n else 0);
    }
  }

  lemma {:induction false} JoinNotEmpty(ss: seq<string>)
    requires GoodSegments(ss)
    ensures |Join(ss)| > 0
  {
  }

  lemma {:induction false} PathChars(path: string)
    requires GoodSegments(Split(path))
    ensures path != "" && path[0] != '/' && path[|path| - 1] != '/' && forall i :: 0 <= i < |path| ==> Inner(path, i)
  {
    JoinSplit(path);
    JoinNotEmpty(Split(path));
    JoinChars(Split(path), 0);
    forall i | 0 <= i < |path| ensures Inner(path, i) { JoinChars(Split(path), i); }
  }

  lemma {:induction false} PlainIsAccepted(s: string)
    requires s != "" && s[0] != '/' && forall i :: 0 <= i < |s| ==> Inner(s, i)
    ensures !StartsWith(s, "/") && !Contains(s, '\\') && !DoubleSlash(s) && !Wild(s) && !EndsWith(s, TREE_SUFFIX)
  {
    assert Inner(s, |s| - 1);
    assert s[..1][0] == s[0];
    if |s| >= 3 {
      assert s[|s| - 3..][2] == s[|s| - 1];
    }
    forall i | 0 <= i < |s|
      ensures s[i] != '\\' && !(i + 1 < |s| && s[i] == '/' && s[i + 1] == '/') && s[i] !in {'*', '?', '[', ']', '{', '}'}
    {
      assert Inner(s, i);
    }
  }

  lemma {:induction false} CanonicalParses(o: Owned)
    requires Parsed(o)
    ensures ParseOwned(if o.kind.Tree? then o.path + TREE_SUFFIX else o.path) == Some(o)
  {
    PathChars(o.path);
    PlainIsAccepted(o.path);
    JoinSplit(o.path);
    if o.kind.Tree? {
      var pattern := o.path + TREE_SUFFIX;
      assert pattern[..|pattern| - 3] == o.path && pattern[|pattern| - 3..] == TREE_SUFFIX;
      TreeIsAccepted(o.path);
    }
  }

  lemma {:induction false} TreeIsAccepted(path: string)
    requires path != "" && path[0] != '/' && path[|path| - 1] != '/' && forall i :: 0 <= i < |path| ==> Inner(path, i)
    ensures var pattern := path + TREE_SUFFIX;
      pattern != "" && !StartsWith(pattern, "/") && !Contains(pattern, '\\') && !DoubleSlash(pattern)
  {
    var pattern := path + TREE_SUFFIX;
    var n := |path|;
    assert pattern[n] == '/' && pattern[n + 1] == '*' && pattern[n + 2] == '*' && |pattern| == n + 3;
    forall i | 0 <= i < |pattern|
      ensures pattern[i] != '\\' && !(i + 1 < |pattern| && pattern[i] == '/' && pattern[i + 1] == '/')
    {
      if i < n { assert Inner(path, i) && pattern[i] == path[i]; }
    }
    assert pattern[..1][0] == pattern[0];
  }

  // The accepted patterns are the canonical ones: good segments joined by slashes, with an optional tree suffix, and
  // parsing reads off exactly those.
  lemma {:induction false} ParsesExactly(pattern: string, o: Owned)
    ensures ParseOwned(pattern) == Some(o)
        <==> Parsed(o) && pattern == (if o.kind.Tree? then o.path + TREE_SUFFIX else o.path)
  {
    var suffix := TREE_SUFFIX;
    if ParseOwned(pattern) == Some(o) {
      var tree := EndsWith(pattern, suffix);
      var base := if tree then pattern[..|pattern| - |suffix|] else pattern;
      JoinSplit(base);
    }
    if Parsed(o) {
      CanonicalParses(o);
    }
  }

  // Overlap

  function Overlap(left: Owned, right: Owned): bool {
    match (left.kind, right.kind)
    case (Exact, Exact) => left.path == right.path
    case (Tree, Tree) =>
      left.path == right.path || StartsWith(left.path, right.path + "/") || StartsWith(right.path, left.path + "/")
    case (Tree, Exact) => right.path == left.path || StartsWith(right.path, left.path + "/")
    case (Exact, Tree) => left.path == right.path || StartsWith(left.path, right.path + "/")
  }

  // A path, segment by segment, that a pattern owns: the one it names, or any at or below the root of its tree.
  predicate Owns(o: Owned, path: seq<string>) {
    var root := Split(o.path);
    match o.kind
    case Exact => path == root
    case Tree => |root| <= |path| && path[..|root|] == root
  }

  lemma {:induction false} BelowIsSegments(a: Owned, b: Owned)
    requires Parsed(a) && Parsed(b)
    ensures StartsWith(b.path, a.path + "/") <==> |Split(a.path)| < |Split(b.path)| && Split(b.path)[..|Split(a.path)|] == Split(a.path)
    ensures a.path == b.path <==> Split(a.path) == Split(b.path)
  {
    JoinSplit(a.path);
    JoinSplit(b.path);
    PrefixIsSegments(Split(a.path), Split(b.path));
  }

  // Two accepted patterns overlap exactly when there is a path that both own.
  lemma {:induction false} OverlapIsSharedPath(a: Owned, b: Owned)
    requires Parsed(a) && Parsed(b)
    ensures Overlap(a, b) <==> exists path :: GoodSegments(path) && Owns(a, path) && Owns(b, path)
  {
    BelowIsSegments(a, b);
    BelowIsSegments(b, a);
    var x, y := Split(a.path), Split(b.path);
    if Overlap(a, b) {
      var path := if |x| >= |y| then x else y;
      assert Owns(a, path) && Owns(b, path);
    }
    if path :| GoodSegments(path) && Owns(a, path) && Owns(b, path) {
      SharedPrefixes(x, y, path);
    }
  }

  lemma {:induction false} SharedPrefixes(x: seq<string>, y: seq<string>, path: seq<string>)
    requires |x| <= |path| && |y| <= |path| && path[..|x|] == x && path[..|y|] == y
    ensures |x| <= |y| ==> y[..|x|] == x
    ensures |y| <= |x| ==> x[..|y|] == y
  {
    if |x| <= |y| {
      assert path[..|y|][..|x|] == path[..|x|];
    } else {
      assert path[..|x|][..|y|] == path[..|y|];
    }
  }

  // The serialization check

  ghost predicate OwnsPath(owned: seq<Owned>, path: seq<string>) {
    exists k :: 0 <= k < |owned| && Owns(owned[k], path)
  }

  predicate Intersects(left: seq<Owned>, right: seq<Owned>) {
    exists i, j :: 0 <= i < |left| && 0 <= j < |right| && Overlap(left[i], right[j])
  }

  predicate AllParsed(owned: seq<Owned>) {
    forall i :: 0 <= i < |owned| ==> Parsed(owned[i])
  }

  // The patterns of two tasks intersect exactly when the tasks own a path in common.
  lemma {:induction false} IntersectsIsShared(left: seq<Owned>, right: seq<Owned>)
    requires AllParsed(left) && AllParsed(right)
    ensures Intersects(left, right) <==> exists path :: GoodSegments(path) && OwnsPath(left, path) && OwnsPath(right, path)
  {
    if i, j :| 0 <= i < |left| && 0 <= j < |right| && Overlap(left[i], right[j]) {
      OverlapIsSharedPath(left[i], right[j]);
      var path :| GoodSegments(path) && Owns(left[i], path) && Owns(right[j], path);
      assert OwnsPath(left, path) && OwnsPath(right, path);
    }
    if path :| GoodSegments(path) && OwnsPath(left, path) && OwnsPath(right, path) {
      var i :| 0 <= i < |left| && Owns(left[i], path);
      var j :| 0 <= j < |right| && Owns(right[j], path);
      OverlapIsSharedPath(left[i], right[j]);
    }
  }

  // A plan: its tasks, and the patterns each owns that were accepted.
  ghost predicate PlanOf(g: Graph, ids: seq<string>, owned: map<string, seq<Owned>>) {
    forall i :: 0 <= i < |ids| ==> ids[i] in g.ids && ids[i] in owned && AllParsed(owned[ids[i]])
  }

  predicate Serialized(ancestors: map<string, set<string>>, left: string, right: string)
    requires left in ancestors && right in ancestors
  {
    left in ancestors[right] || right in ancestors[left]
  }

  // The pair is reported.
  predicate Conflict(ancestors: map<string, set<string>>, owned: map<string, seq<Owned>>, left: string, right: string) {
    && left in ancestors && right in ancestors && left in owned && right in owned
    && Intersects(owned[left], owned[right]) && !Serialized(ancestors, left, right)
  }

  ghost predicate SomeReport(ancestors: map<string, set<string>>, ids: seq<string>, owned: map<string, seq<Owned>>, report: (string, string)) {
    exists a: nat, b: nat :: IsReport(ancestors, ids, owned, report, a, b)
  }

  predicate IsReport(ancestors: map<string, set<string>>, ids: seq<string>, owned: map<string, seq<Owned>>, report: (string, string), a: nat, b: nat) {
    a < b < |ids| && report == (ids[a], ids[b]) && Conflict(ancestors, owned, ids[a], ids[b])
  }

  // A pair that is looked at, and conflicts, is among the reports.
  predicate Covered(ancestors: map<string, set<string>>, ids: seq<string>, owned: map<string, seq<Owned>>,
                    reports: seq<(string, string)>, a: nat, b: nat) {
    a < b < |ids| && Conflict(ancestors, owned, ids[a], ids[b]) ==> (ids[a], ids[b]) in reports
  }

  // The reports on the pairs with a first task before i, or with that at i and a second before j.
  ghost predicate Reported(ancestors: map<string, set<string>>, ids: seq<string>, owned: map<string, seq<Owned>>,
                           reports: seq<(string, string)>, i: nat, j: nat) {
    && (forall r :: 0 <= r < |reports| ==> SomeReport(ancestors, ids, owned, reports[r]))
    && forall a: nat, b: nat :: a < i || (a == i && b < j) ==> Covered(ancestors, ids, owned, reports, a, b)
  }

  method FindOverlaps(ancestors: map<string, set<string>>, ids: seq<string>, owned: map<string, seq<Owned>>)
    returns (reports: seq<(string, string)>)
    ensures Reported(ancestors, ids, owned, reports, |ids|, 0)
  {
    reports := [];
    var i := 0;
    while i < |ids|
      invariant i <= |ids| && Reported(ancestors, ids, owned, reports, i, 0)
    {
      var j := i + 1;
      forall a: nat, b: nat | a < i || (a == i && b < j) ensures Covered(ancestors, ids, owned, reports, a, b) {
        assert a < i ==> Covered(ancestors, ids, owned, reports, a, b);
      }
      while j < |ids|
        invariant i < j <= |ids| && Reported(ancestors, ids, owned, reports, i, j)
      {
        reports := ReportPair(ancestors, ids, owned, reports, i, j);
        j := j + 1;
      }
      forall a: nat, b: nat | a < i + 1
        ensures Covered(ancestors, ids, owned, reports, a, b)
      {
        assert a < i || b < j ==> Covered(ancestors, ids, owned, reports, a, b);
      }
      i := i + 1;
    }
  }

  method ReportPair(ancestors: map<string, set<string>>, ids: seq<string>, owned: map<string, seq<Owned>>,
                    reports: seq<(string, string)>, i: nat, j: nat) returns (more: seq<(string, string)>)
    requires i < j < |ids| && Reported(ancestors, ids, owned, reports, i, j)
    ensures Reported(ancestors, ids, owned, more, i, j + 1)
  {
    more := reports;
    if Conflict(ancestors, owned, ids[i], ids[j]) {
      more := reports + [(ids[i], ids[j])];
      assert IsReport(ancestors, ids, owned, more[|reports|], i, j);
    }
    forall a: nat, b: nat | a < i || (a == i && b < j + 1)
      ensures Covered(ancestors, ids, owned, more, a, b)
    {
      assert a < i || b < j ==> Covered(ancestors, ids, owned, reports, a, b);
    }
  }

  ghost predicate SharePath(left: seq<Owned>, right: seq<Owned>) {
    exists path :: GoodSegments(path) && OwnsPath(left, path) && OwnsPath(right, path)
  }

  lemma {:induction false} ConflictIs(g: Graph, ancestors: map<string, set<string>>, owned: map<string, seq<Owned>>, left: string, right: string)
    requires PlanGraph.Exact(g, ancestors) && left in g.ids && right in g.ids && left in owned && right in owned
    requires AllParsed(owned[left]) && AllParsed(owned[right])
    ensures Conflict(ancestors, owned, left, right)
        <==> SharePath(owned[left], owned[right]) && !Reaches(g, left, right) && !Reaches(g, right, left)
  {
    IntersectsIsShared(owned[left], owned[right]);
  }

  // Tasks that own a path in common are ordered by dependency.
  ghost predicate OwnersOrdered(g: Graph, ids: seq<string>, owned: map<string, seq<Owned>>)
    requires PlanOf(g, ids, owned)
  {
    forall i, j :: 0 <= i < j < |ids| && SharePath(owned[ids[i]], owned[ids[j]]) ==> Reaches(g, ids[i], ids[j]) || Reaches(g, ids[j], ids[i])
  }

  // No overlap is reported exactly when the tasks that own any one path are pairwise ordered by transitive dependency.
  method CheckOwnership(g: Graph, ancestors: map<string, set<string>>, ids: seq<string>, owned: map<string, seq<Owned>>) returns (clean: bool)
    requires WellFormed(g) && PlanGraph.Exact(g, ancestors) && PlanOf(g, ids, owned)
    ensures clean <==> OwnersOrdered(g, ids, owned)
  {
    var reports := FindOverlaps(ancestors, ids, owned);
    clean := reports == [];
    ReportsTell(g, ancestors, ids, owned, reports);
  }

  lemma {:induction false} ReportsTell(g: Graph, ancestors: map<string, set<string>>, ids: seq<string>, owned: map<string, seq<Owned>>,
                                       reports: seq<(string, string)>)
    requires PlanGraph.Exact(g, ancestors) && PlanOf(g, ids, owned) && Reported(ancestors, ids, owned, reports, |ids|, 0)
    ensures reports == [] <==> OwnersOrdered(g, ids, owned)
  {
    forall i, j | 0 <= i < j < |ids|
      ensures Conflict(ancestors, owned, ids[i], ids[j])
          <==> SharePath(owned[ids[i]], owned[ids[j]]) && !Reaches(g, ids[i], ids[j]) && !Reaches(g, ids[j], ids[i])
    {
      ConflictIs(g, ancestors, owned, ids[i], ids[j]);
    }
    if reports != [] {
      assert SomeReport(ancestors, ids, owned, reports[0]);
      var a: nat, b: nat :| IsReport(ancestors, ids, owned, reports[0], a, b);
    } else {
      forall i, j | 0 <= i < j < |ids| ensures !Conflict(ancestors, owned, ids[i], ids[j]) {
        assert Covered(ancestors, ids, owned, reports, i, j);
      }
    }
  }
}
