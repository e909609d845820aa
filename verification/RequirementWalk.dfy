/** Collecting exact pins from requirement files and their includes: a depth-first walk that rejects
    include cycles and conflicting pins. */
module RequirementWalk {
  import opened Prelude

  type Path = nat
  /** Package names, ordered as their canonical spelling. */
  type Package = nat

  /** A line as the parser sees it.  `Ignored` covers blanks, comments and requirements whose marker
      is false; `Rejected` everything the walk refuses. */
  datatype Line = Ignored | Rejected | Include(target: Path) | Pin(package: Package, version: Id)

  /** The readable files inside the repository. */
  type Files = map<Path, seq<Line>>

  // ----- the include graph ----------------------------------------------------------

  predicate Step(fs: Files, a: Path, b: Path) {
    a in fs && Include(b) in fs[a]
  }

  predicate IsWalk(fs: Files, w: seq<Path>) {
    |w| > 0 && forall i | 0 <= i < |w| - 1 :: Step(fs, w[i], w[i + 1])
  }

  ghost predicate Reaches(fs: Files, roots: seq<Path>, p: Path) {
    exists w: seq<Path> :: IsWalk(fs, w) && w[0] in roots && w[|w| - 1] == p
  }

  ghost predicate OnCycle(fs: Files, p: Path) {
    exists w: seq<Path> :: IsWalk(fs, w) && |w| > 1 && w[0] == p && w[|w| - 1] == p
  }

  predicate Unusable(fs: Files, p: Path) {
    p !in fs || Rejected in fs[p]
  }

  predicate HasPin(fs: Files, p: Path, n: Package, v: Id) {
    p in fs && Pin(n, v) in fs[p]
  }

  /** The pin is active: some reachable file states it. */
  ghost predicate Active(fs: Files, roots: seq<Path>, n: Package, v: Id) {
    exists p :: Reaches(fs, roots, p) && HasPin(fs, p, n, v)
  }

  ghost predicate Unreadable(fs: Files, roots: seq<Path>) {
    exists p :: Reaches(fs, roots, p) && Unusable(fs, p)
  }

  ghost predicate Cyclic(fs: Files, roots: seq<Path>) {
    exists p :: Reaches(fs, roots, p) && OnCycle(fs, p)
  }

  ghost predicate Conflicting(fs: Files, roots: seq<Path>) {
    exists n, v, w :: Active(fs, roots, n, v) && Active(fs, roots, n, w) && v != w
  }

  /** Why a walk must fail. */
  ghost predicate Flawed(fs: Files, roots: seq<Path>) {
    Unreadable(fs, roots) || Cyclic(fs, roots) || Conflicting(fs, roots)
  }

  lemma RootReaches(fs: Files, roots: seq<Path>, p: Path)
    requires p in roots
    ensures Reaches(fs, roots, p)
  {
    assert IsWalk(fs, [p]);
  }

  lemma StepReaches(fs: Files, roots: seq<Path>, p: Path, q: Path)
    requires Reaches(fs, roots, p) && Step(fs, p, q)
    ensures Reaches(fs, roots, q)
  {
    var w :| IsWalk(fs, w) && w[0] in roots && w[|w| - 1] == p;
    assert IsWalk(fs, w + [q]);
  }

  // ----- finishing order ------------------------------------------------------------

  function Elems(s: seq<Path>): set<Path> {
    set p | p in s
  }

  /** Files finished so far: each usable, with all its includes finished before it. */
  ghost predicate Finished(fs: Files, order: seq<Path>) {
    forall i | 0 <= i < |order| :: !Unusable(fs, order[i]) && forall q | Step(fs, order[i], q) :: q in order[..i]
  }

  /** Everything reachable from finished roots is finished. */
  lemma {:induction false} FinishedIsClosed(fs: Files, order: seq<Path>, w: seq<Path>)
    requires Finished(fs, order) && IsWalk(fs, w) && w[0] in order
    ensures w[|w| - 1] in order
    decreases |w|
  {
    if |w| > 1 {
      var i :| 0 <= i < |order| && order[i] == w[0];
      assert Step(fs, w[0], w[1]) && w[1] in order[..i];
      assert IsWalk(fs, w[1..]) by {
        forall k | 0 <= k < |w[1..]| - 1 ensures Step(fs, w[1..][k], w[1..][k + 1]) {
          assert Step(fs, w[k + 1], w[k + 2]);
        }
      }
      FinishedIsClosed(fs, order, w[1..]);
    }
  }

  /** A walk from a finished file leads to files finished before it. */
  lemma {:induction false} WalksGoBack(fs: Files, order: seq<Path>, w: seq<Path>, i: nat)
    requires Finished(fs, order) && IsWalk(fs, w) && |w| > 1 && i < |order| && order[i] == w[0]
    ensures w[|w| - 1] in order[..i]
    decreases |w|
  {
    assert Step(fs, w[0], w[1]) && w[1] in order[..i];
    if |w| > 2 {
      var j :| 0 <= j < i && order[..i][j] == w[1];
      assert IsWalk(fs, w[1..]) by {
        forall k | 0 <= k < |w[1..]| - 1 ensures Step(fs, w[1..][k], w[1..][k + 1]) {
          assert Step(fs, w[k + 1], w[k + 2]);
        }
      }
      WalksGoBack(fs, order, w[1..], j);
    }
  }

  /** A finishing order proves the absence of cycles. */
  lemma {:induction false} FinishedIsAcyclic(fs: Files, order: seq<Path>, p: Path, i: nat)
    requires Finished(fs, order) && i < |order| && order[i] == p
    ensures !OnCycle(fs, p)
    decreases i
  {
    if OnCycle(fs, p) {
      var w :| IsWalk(fs, w) && |w| > 1 && w[0] == p && w[|w| - 1] == p;
      WalksGoBack(fs, order, w, i);
      var j :| 0 <= j < i && order[..i][j] == p;
      FinishedIsAcyclic(fs, order, p, j);
    }
  }

  /** The black set is what has finished, with its pins collected. */
  ghost predicate Done(fs: Files, roots: seq<Path>, visited: set<Path>, order: seq<Path>, pins: map<Package, Id>) {
    && visited == Elems(order) && Finished(fs, order)
    && (forall p | p in visited :: Reaches(fs, roots, p))
    && (forall p, n, v | p in visited && HasPin(fs, p, n, v) :: n in pins && pins[n] == v)
  }

  /** The first `i` lines are acceptable, their includes finished and their pins collected. */
  ghost predicate LinesDone(lines: seq<Line>, i: nat, visited: set<Path>, pins: map<Package, Id>)
    requires i <= |lines|
  {
    forall k | 0 <= k < i ::
      && !lines[k].Rejected?
      && (lines[k].Include? ==> lines[k].target in visited)
      && (lines[k].Pin? ==> lines[k].package in pins && pins[lines[k].package] == lines[k].version)
  }

  lemma FinishedGrows(fs: Files, order: seq<Path>, path: Path)
    requires Finished(fs, order) && path in fs
    requires forall k | 0 <= k < |fs[path]| :: !fs[path][k].Rejected?
               && (fs[path][k].Include? ==> fs[path][k].target in order)
    ensures Finished(fs, order + [path])
  {
    var o := order + [path];
    forall i | 0 <= i < |o| ensures !Unusable(fs, o[i]) && forall q | Step(fs, o[i], q) :: q in o[..i] {
      if i < |order| {
        assert o[i] == order[i] && o[..i] == order[..i];
      } else {
        assert o[..i] == order;
      }
    }
  }

  /** A file whose lines are all done joins the black set. */
  lemma DoneGrows(fs: Files, roots: seq<Path>, visited: set<Path>, order: seq<Path>, pins: map<Package, Id>, path: Path)
    requires Done(fs, roots, visited, order, pins) && path in fs && Reaches(fs, roots, path)
    requires LinesDone(fs[path], |fs[path]|, visited, pins)
    ensures Done(fs, roots, visited + {path}, order + [path], pins)
  {
    assert Elems(order + [path]) == Elems(order) + {path};
    FinishedGrows(fs, order, path);
  }

  // ----- the walk -------------------------------------------------------------------

  datatype Outcome = Failed | Pins(list: seq<(Package, Id)>)

  class Walker {
    const files: Files
    const roots: seq<Path>
    var pins: map<Package, Id>
    var visited: set<Path>
    var stack: seq<Path>
    ghost var order: seq<Path>

    constructor (files: Files, roots: seq<Path>)
      ensures this.files == files && this.roots == roots && pins == map[] && visited == {} && stack == [] && order == []
    {
      this.files, this.roots := files, roots;
      pins, visited, stack, order := map[], {}, [], [];
    }

    /** The grey stack is a walk of reachable files. */
    ghost predicate StackOK()
      reads this
    {
      && (forall i | 0 <= i < |stack| :: stack[i] in files && Reaches(files, roots, stack[i]))
      && (forall i | 0 <= i < |stack| - 1 :: Step(files, stack[i], stack[i + 1]))
    }

    ghost predicate VisitedOK()
      reads this
    {
      Done(files, roots, visited, order, pins)
    }

    ghost predicate PinsOK()
      reads this
    {
      forall n | n in pins :: Active(files, roots, n, pins[n])
    }

    ghost predicate Valid()
      reads this
    {
      StackOK() && VisitedOK() && PinsOK()
    }

    /** Meeting a file of the grey stack again closes a cycle. */
    lemma CycleFound(path: Path)
      requires StackOK() && path in stack && Step(files, stack[|stack| - 1], path)
      ensures Flawed(files, roots)
    {
      var i :| 0 <= i < |stack| && stack[i] == path;
      var w := stack[i..] + [path];
      forall k | 0 <= k < |w| - 1 ensures Step(files, w[k], w[k + 1]) {
        if k + 1 < |stack| - i { assert Step(files, stack[i + k], stack[i + k + 1]); }
      }
      assert IsWalk(files, w) && |w| > 1 && w[0] == path && w[|w| - 1] == path;
      assert Reaches(files, roots, path) && OnCycle(files, path);
    }

    /** The walk from `path` finishes it, or the files are flawed. */
    method Visit(path: Path) returns (ok: bool)
      requires Valid() && Reaches(files, roots, path)
      requires stack != [] ==> Step(files, stack[|stack| - 1], path)
      modifies this
      ensures ok ==> Valid() && stack == old(stack) && path in visited
      ensures ok ==> old(visited) <= visited && Extends(old(pins), pins)
      ensures !ok ==> Flawed(files, roots)
      decreases files.Keys - Elems(stack), 0
    {
      if path !in files {
        assert Unusable(files, path);
        return false;
      }
      if path in stack {
        CycleFound(path);
        return false;
      }
      if path in visited { return true; }
      stack := stack + [path];
      assert Elems(stack) == Elems(old(stack)) + {path};
      ok := ReadLines(path);
      if !ok { return; }
      stack := stack[..|stack| - 1];
      assert stack == old(stack);
      DoneGrows(files, roots, visited, order, pins, path);
      visited, order := visited + {path}, order + [path];
    }

    /** The lines of the file on top of the stack, in order. */
    method ReadLines(path: Path) returns (ok: bool)
      requires Valid() && stack != [] && stack[|stack| - 1] == path
      modifies this
      ensures ok ==> Valid() && stack == old(stack) && path in files
      ensures ok ==> LinesDone(files[path], |files[path]|, visited, pins)
      ensures ok ==> old(visited) <= visited && Extends(old(pins), pins)
      ensures !ok ==> Flawed(files, roots)
      decreases files.Keys - Elems(stack), 1
    {
      var lines := files[path];
      for i := 0 to |lines|
        invariant Valid() && stack == old(stack) && LinesDone(lines, i, visited, pins)
        invariant old(visited) <= visited && Extends(old(pins), pins)
      {
        var line := lines[i];
        match line
        case Ignored =>
        case Rejected =>
          assert Unusable(files, path);
          return false;
        case Include(target) =>
          StepReaches(files, roots, path, target);
          ok := Visit(target);
          if !ok { return; }
        case Pin(n, v) =>
          assert HasPin(files, path, n, v) && Active(files, roots, n, v);
          if n in pins && pins[n] != v {
            assert Active(files, roots, n, pins[n]);
            return false;
          }
          pins := pins[n := v];
      }
      ok := true;
    }

    /** Pins of all root files and their includes, sorted by package.  The collection fails exactly
        when there is no root file, the reachable files are flawed, or nothing is pinned. */
    method Collect() returns (r: Outcome)
      requires pins == map[] && visited == {} && stack == [] && order == []
      modifies this
      ensures r.Failed? <==> roots == [] || Flawed(files, roots) || Unpinned(files, roots)
      ensures r.Pins? ==> PinList(files, roots, r.list)
      ensures r.Pins? ==> forall p :: p in visited <==> Reaches(files, roots, p)
    {
      if roots == [] { return Failed; }
      for i := 0 to |roots|
        invariant Valid() && stack == [] && forall k | 0 <= k < i :: roots[k] in visited
      {
        RootReaches(files, roots, roots[i]);
        var ok := Visit(roots[i]);
        if !ok { return Failed; }
      }
      AllVisited(files, roots, visited, order, pins);
      if pins == map[] { return Failed; }
      var n :| n in pins;
      assert Active(files, roots, n, pins[n]);
      var list := SortedPins();
      r := Pins(list);
    }

    method SortedPins() returns (list: seq<(Package, Id)>)
      ensures Sorted(list) && forall n, v :: (n, v) in list <==> n in pins && pins[n] == v
    {
      list := [];
      var left := pins.Keys;
      while left != {}
        invariant SortedSoFar(list, left, pins)
        decreases left
      {
        var some :| some in left;
        HasLeast(left, some);
        var n :| n in left && forall m | m in left :: n <= m;
        SortedNext(list, left, pins, n);
        list, left := list + [(n, pins[n])], left - {n};
      }
    }
  }

  predicate Extends(a: map<Package, Id>, b: map<Package, Id>) {
    forall n | n in a :: n in b && b[n] == a[n]
  }

  /** In strictly increasing order of packages, so each package once. */
  predicate Sorted(list: seq<(Package, Id)>) {
    forall i, j | 0 <= i < j < |list| :: list[i].0 < list[j].0
  }

  ghost predicate Unpinned(fs: Files, roots: seq<Path>) {
    forall n, v :: !Active(fs, roots, n, v)
  }

  /** Exactly the active pins, sorted. */
  ghost predicate PinList(fs: Files, roots: seq<Path>, list: seq<(Package, Id)>) {
    Sorted(list) && forall n: Package, v: Id :: (n, v) in list <==> Active(fs, roots, n, v)
  }

  /** The packages not in `left` are listed, and come before those that are. */
  ghost predicate SortedSoFar(list: seq<(Package, Id)>, left: set<Package>, pins: map<Package, Id>) {
    && left <= pins.Keys && Sorted(list)
    && (forall x, m | x in list && m in left :: x.0 < m)
    && (forall n, v :: (n, v) in list <==> n in pins && n !in left && pins[n] == v)
  }

  lemma SortedNext(list: seq<(Package, Id)>, left: set<Package>, pins: map<Package, Id>, n: Package)
    requires SortedSoFar(list, left, pins) && n in left && forall m | m in left :: n <= m
    ensures SortedSoFar(list + [(n, pins[n])], left - {n}, pins)
  {
    var list' := list + [(n, pins[n])];
    forall i, j | 0 <= i < j < |list'| ensures list'[i].0 < list'[j].0 {
      assert list'[i] in list;
    }
    forall m, v ensures (m, v) in list' <==> m in pins && m !in left - {n} && pins[m] == v {
      assert (m, v) in list' <==> (m, v) in list || (m, v) == (n, pins[n]);
    }
  }

  lemma {:induction false} HasLeast(s: set<Package>, n: Package)
    requires n in s
    ensures exists k :: k in s && forall m | m in s :: k <= m
    decreases n
  {
    if m :| m in s && m < n { HasLeast(s, m); }
  }

  /** Once every root is finished, the files are sound and the pins are exactly the active ones. */
  lemma AllVisited(fs: Files, roots: seq<Path>, visited: set<Path>, order: seq<Path>, pins: map<Package, Id>)
    requires Done(fs, roots, visited, order, pins) && forall k | 0 <= k < |roots| :: roots[k] in visited
    requires forall n | n in pins :: Active(fs, roots, n, pins[n])
    ensures forall p :: p in visited <==> Reaches(fs, roots, p)
    ensures !Flawed(fs, roots)
    ensures forall n, v :: n in pins && pins[n] == v <==> Active(fs, roots, n, v)
  {
    forall p | Reaches(fs, roots, p) ensures p in visited && !Unusable(fs, p) && !OnCycle(fs, p) {
      var w :| IsWalk(fs, w) && w[0] in roots && w[|w| - 1] == p;
      FinishedIsClosed(fs, order, w);
      var i :| 0 <= i < |order| && order[i] == p;
      FinishedIsAcyclic(fs, order, p, i);
    }
    forall n, v | Active(fs, roots, n, v) ensures n in pins && pins[n] == v {
      var p :| Reaches(fs, roots, p) && HasPin(fs, p, n, v);
      assert p in visited;
    }
  }

  // ----- the result does not depend on the order of lines ---------------------------

  /** The same files with the same lines, in any order and number. */
  ghost predicate SameContents(fs: Files, fs': Files) {
    fs.Keys == fs'.Keys && forall p, l | p in fs :: l in fs[p] <==> l in fs'[p]
  }

  lemma SameReach(fs: Files, fs': Files, roots: seq<Path>, roots': seq<Path>)
    requires SameContents(fs, fs') && forall p :: p in roots <==> p in roots'
    ensures forall p :: Reaches(fs, roots, p) ==> Reaches(fs', roots', p)
    ensures forall p :: OnCycle(fs, p) ==> OnCycle(fs', p)
    ensures forall n, v :: Active(fs, roots, n, v) ==> Active(fs', roots', n, v)
  {
    forall w: seq<Path> | IsWalk(fs, w) ensures IsWalk(fs', w) {
      forall i | 0 <= i < |w| - 1 ensures Step(fs', w[i], w[i + 1]) {
        assert Step(fs, w[i], w[i + 1]);
      }
    }
    forall p | Reaches(fs, roots, p) ensures Reaches(fs', roots', p) {
      var w :| IsWalk(fs, w) && w[0] in roots && w[|w| - 1] == p;
      assert IsWalk(fs', w);
    }
    forall p | OnCycle(fs, p) ensures OnCycle(fs', p) {
      var w :| IsWalk(fs, w) && |w| > 1 && w[0] == p && w[|w| - 1] == p;
      assert IsWalk(fs', w);
    }
    forall n, v | Active(fs, roots, n, v) ensures Active(fs', roots', n, v) {
      var p :| Reaches(fs, roots, p) && HasPin(fs, p, n, v);
      assert HasPin(fs', p, n, v);
    }
  }

  lemma HasFirst(a: seq<(Package, Id)>)
    ensures a != [] ==> exists x :: x in a
  {
    if a != [] { assert a[0] in a; }
  }

  lemma SortedTail(a: seq<(Package, Id)>)
    requires Sorted(a) && a != []
    ensures forall x :: x in a[1..] <==> x in a && x != a[0]
  {
    assert a == [a[0]] + a[1..];
    forall x | x in a[1..] ensures x != a[0] {
      var k :| 0 <= k < |a[1..]| && a[1..][k] == x;
      assert a[k + 1] == x;
    }
  }

  lemma SameFirst(a: seq<(Package, Id)>, b: seq<(Package, Id)>)
    requires Sorted(a) && Sorted(b) && a != [] && b != [] && a[0] in b && b[0] in a
    ensures a[0] == b[0]
  {
    var i :| 0 <= i < |b| && b[i] == a[0];
    var j :| 0 <= j < |a| && a[j] == b[0];
  }

  ghost predicate SameElements(a: seq<(Package, Id)>, b: seq<(Package, Id)>) {
    forall x :: x in a <==> x in b
  }

  lemma TailsAgree(a: seq<(Package, Id)>, b: seq<(Package, Id)>)
    requires Sorted(a) && Sorted(b) && SameElements(a, b) && a != [] && b != []
    ensures a[0] == b[0] && SameElements(a[1..], b[1..])
  {
    assert a[0] in b && b[0] in a;
    SameFirst(a, b);
    SortedTail(a);
    SortedTail(b);
  }

  lemma BothOrNeither(a: seq<(Package, Id)>, b: seq<(Package, Id)>)
    requires SameElements(a, b)
    ensures a == [] <==> b == []
  {
    HasFirst(a);
    HasFirst(b);
  }

  lemma {:induction false} SortedIsUnique(a: seq<(Package, Id)>, b: seq<(Package, Id)>)
    requires Sorted(a) && Sorted(b) && SameElements(a, b)
    ensures a == b
    decreases |a|
  {
    BothOrNeither(a, b);
    if a != [] {
      TailsAgree(a, b);
      SortedIsUnique(a[1..], b[1..]);
      assert a == [a[0]] + a[1..] && b == [b[0]] + b[1..];
    }
  }

  /** Neither the outcome nor the list depends on the order of root files, includes or pins. */
  lemma OrderDoesNotMatter(fs: Files, fs': Files, roots: seq<Path>, roots': seq<Path>,
                           list: seq<(Package, Id)>, list': seq<(Package, Id)>)
    requires SameContents(fs, fs') && forall p :: p in roots <==> p in roots'
    ensures Flawed(fs, roots) <==> Flawed(fs', roots')
    ensures Unpinned(fs, roots) <==> Unpinned(fs', roots')
    ensures PinList(fs, roots, list) && PinList(fs', roots', list') ==> list == list'
  {
    SameReach(fs, fs', roots, roots');
    SameReach(fs', fs, roots', roots);
    assert forall p :: Unusable(fs, p) <==> Unusable(fs', p);
    if PinList(fs, roots, list) && PinList(fs', roots', list') {
      forall x ensures x in list <==> x in list' {
        assert x == (x.0, x.1);
      }
      SortedIsUnique(list, list');
    }
  }
}
