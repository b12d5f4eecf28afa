/**
  The OpenBSD bootstrap image's installation of bash and git with everything they depend on, and
  the +REQUIRED_BY and +REQUIRING files it keeps in the package database.
*/
module Worklist {
  import opened Prelude

  /** A package's @depend lines, as written. */
  type Depends = string -> seq<string>

  // ---------------------------------------------------------------------------
  // What is needed
  // ---------------------------------------------------------------------------

  ghost predicate Chain(depends: Depends, roots: set<string>, path: seq<string>) {
    path != [] && path[0] in roots && forall i | 0 < i < |path| :: path[i] in depends(path[i - 1])
  }

  /** `p` is a root or is reached from one through dependencies. */
  ghost predicate Needed(depends: Depends, roots: set<string>, p: string) {
    exists path :: Chain(depends, roots, path) && path[|path| - 1] == p
  }

  lemma RootIsNeeded(depends: Depends, roots: set<string>, p: string)
    requires p in roots
    ensures Needed(depends, roots, p)
  {
    assert Chain(depends, roots, [p]);
  }

  lemma DependencyIsNeeded(depends: Depends, roots: set<string>, p: string, q: string)
    requires Needed(depends, roots, p) && q in depends(p)
    ensures Needed(depends, roots, q)
  {
    var path :| Chain(depends, roots, path) && path[|path| - 1] == p;
    assert Chain(depends, roots, path + [q]);
  }

  predicate Closed(depends: Depends, s: seq<string>) {
    forall i, j | 0 <= i < |s| && 0 <= j < |depends(s[i])| :: depends(s[i])[j] in s
  }

  lemma {:induction false} ClosedHoldsChain(depends: Depends, roots: set<string>, s: seq<string>, path: seq<string>)
    requires (forall r | r in roots :: r in s) && Closed(depends, s) && Chain(depends, roots, path)
    ensures path[|path| - 1] in s
    decreases |path|
  {
    if |path| > 1 {
      var front := path[..|path| - 1];
      ClosedHoldsChain(depends, roots, s, front);
      assert path[|path| - 1] in depends(front[|front| - 1]);
    }
  }

  lemma ClosedHoldsNeeded(depends: Depends, roots: set<string>, s: seq<string>)
    requires (forall r | r in roots :: r in s) && Closed(depends, s)
    ensures forall p | Needed(depends, roots, p) :: p in s
  {
    forall p | Needed(depends, roots, p) ensures p in s {
      var path :| Chain(depends, roots, path) && path[|path| - 1] == p;
      ClosedHoldsChain(depends, roots, s, path);
    }
  }

  // ---------------------------------------------------------------------------
  // The queue
  // ---------------------------------------------------------------------------

  /** The dependencies that get queued: those without a directory, once each. */
  function NewDeps(deps: seq<string>, known: set<string>): seq<string> {
    if deps == [] then []
    else
      var n := |deps| - 1;
      NewDeps(deps[..n], known) + if deps[n] in known || deps[n] in deps[..n] then [] else [deps[n]]
  }

  lemma {:induction false} NewDepsOnce(deps: seq<string>, known: set<string>, p: string)
    ensures multiset(NewDeps(deps, known))[p] == if p in deps && p !in known then 1 else 0
    decreases |deps|
  {
    if deps != [] {
      NewDepsOnce(deps[..|deps| - 1], known, p);
      assert deps == deps[..|deps| - 1] + [deps[|deps| - 1]];
    }
  }

  /** How often a package is downloaded: git twice when bash lists it directly. */
  function Rounds(depends: Depends, bash: string, git: string, p: string): nat {
    if p == git && git in depends(bash) then 2 else 1
  }

  function Times(list: seq<string>, n: nat): seq<string> {
    if n == 0 then [] else Times(list, n - 1) + list
  }

  // ---------------------------------------------------------------------------
  // The package database
  // ---------------------------------------------------------------------------

  /** A kind of file in the packages' directories; a missing file has no lines. */
  type Files = map<string, seq<string>>

  function Lines(files: Files, p: string): seq<string> {
    if p in files then files[p] else []
  }

  function Append(files: Files, p: string, line: string): Files {
    files[p := Lines(files, p) + [line]]
  }

  /** `a` is listed as requiring `b` as often as `b` is listed as required by `a`. */
  ghost predicate Inverse(requiredBy: Files, requiring: Files) {
    forall a, b :: multiset(Lines(requiredBy, b))[a] == multiset(Lines(requiring, a))[b]
  }

  lemma CountAppended(files: Files, p: string, line: string, q: string, x: string)
    ensures multiset(Lines(Append(files, p, line), q))[x]
         == multiset(Lines(files, q))[x] + if q == p && x == line then 1 else 0
  {
  }

  lemma LinkKeepsInverse(requiredBy: Files, requiring: Files, pkg: string, dep: string)
    requires Inverse(requiredBy, requiring)
    ensures Inverse(Append(requiredBy, dep, pkg), Append(requiring, pkg, dep))
  {
    forall a, b
      ensures multiset(Lines(Append(requiredBy, dep, pkg), b))[a] == multiset(Lines(Append(requiring, pkg, dep), a))[b]
    {
      CountAppended(requiredBy, dep, pkg, b, a);
      CountAppended(requiring, pkg, dep, a, b);
    }
  }

  function AppendAll(files: Files, p: string, lines: seq<string>): Files {
    if lines == [] then files
    else
      var n := |lines| - 1;
      Append(AppendAll(files, p, lines[..n]), p, lines[n])
  }

  lemma AppendNext(files: Files, p: string, lines: seq<string>, i: nat)
    requires i < |lines|
    ensures AppendAll(files, p, lines[..i + 1]) == Append(AppendAll(files, p, lines[..i]), p, lines[i])
  {
    assert lines[..i + 1][..i] == lines[..i];
  }

  lemma {:induction false} AppendedLines(files: Files, p: string, lines: seq<string>, q: string)
    ensures Lines(AppendAll(files, p, lines), q) == Lines(files, q) + if q == p then lines else []
    decreases |lines|
  {
    if lines == [] {
      assert Lines(files, q) + [] == Lines(files, q);
    } else {
      var n := |lines| - 1;
      AppendedLines(files, p, lines[..n], q);
      assert Lines(files, q) + lines[..n] + [lines[n]] == Lines(files, q) + lines;
    }
  }

  lemma NewDepsNext(deps: seq<string>, i: nat, known: set<string>)
    requires i < |deps|
    ensures NewDeps(deps[..i + 1], known)
         == NewDeps(deps[..i], known) + if deps[i] in known || deps[i] in deps[..i] then [] else [deps[i]]
  {
    assert deps[..i + 1][..i] == deps[..i];
  }

  function Elements(list: seq<string>): set<string> {
    set p | p in list
  }

  lemma ElementsNext(list: seq<string>, i: nat)
    requires i < |list|
    ensures Elements(list[..i + 1]) == Elements(list[..i]) + {list[i]}
    ensures list[i] in list[..i] <==> list[i] in Elements(list[..i])
  {
  }

  /** What the dependencies in `list` have made of the directories, the queue and the files. */
  ghost predicate Installed(known: set<string>, files: Files, pkg: string, list: seq<string>,
      dirs: set<string>, added: seq<string>, requiring: Files)
  {
    && dirs == known + Elements(list)
    && added == NewDeps(list, known)
    && requiring == AppendAll(files, pkg, list)
  }

  lemma NextDependency(known: set<string>, files: Files, pkg: string, deps: seq<string>, i: nat,
      dirs: set<string>, added: seq<string>, requiring: Files)
    requires i < |deps| && Installed(known, files, pkg, deps[..i], dirs, added, requiring)
    ensures Installed(known, files, pkg, deps[..i + 1], dirs + {deps[i]},
                      added + (if deps[i] in dirs then [] else [deps[i]]), Append(requiring, pkg, deps[i]))
  {
    ElementsNext(deps, i);
    NewDepsNext(deps, i, known);
    AppendNext(files, pkg, deps, i);
  }

  class PkgDb {
    var dirs: set<string>
    var requiredBy: Files
    var requiring: Files

    constructor ()
      ensures dirs == {} && requiredBy == map[] && requiring == map[]
    {
      dirs, requiredBy, requiring := {}, map[], map[];
    }

    ghost predicate Valid()
      reads this
    {
      Inverse(requiredBy, requiring)
    }

    /** One dependency: its directory and the two lines.  The files stay each other's inverse. */
    method Link(pkg: string, dep: string)
      requires Valid()
      modifies this
      ensures Valid() && dirs == old(dirs) + {dep}
      ensures requiring == Append(old(requiring), pkg, dep) && requiredBy == Append(old(requiredBy), dep, pkg)
    {
      LinkKeepsInverse(requiredBy, requiring, pkg, dep);
      dirs := dirs + {dep};
      requiredBy := Append(requiredBy, dep, pkg);
      requiring := Append(requiring, pkg, dep);
    }

    /** One package: returns what is added to the queue. */
    method Install(pkg: string, deps: seq<string>) returns (added: seq<string>)
      requires Valid()
      modifies this
      ensures Valid() && dirs == old(dirs) + {pkg} + Elements(deps)
      ensures added == NewDeps(deps, old(dirs) + {pkg})
      ensures requiring == AppendAll(old(requiring), pkg, deps)
    {
      dirs := dirs + {pkg};
      added := [];
      ghost var known := dirs;
      for i := 0 to |deps|
        invariant Valid() && Installed(known, old(requiring), pkg, deps[..i], dirs, added, requiring)
      {
        NextDependency(known, old(requiring), pkg, deps, i, dirs, added, requiring);
        if deps[i] !in dirs {
          added := added + [deps[i]];
        }
        Link(pkg, deps[i]);
      }
      assert deps[..|deps|] == deps;
    }
  }

  // ---------------------------------------------------------------------------
  // The outer loop
  // ---------------------------------------------------------------------------

  datatype Bootstrap = Bootstrap(depends: Depends, bash: string, git: string)
  {
    ghost predicate Needs(p: string) {
      Needed(depends, {bash, git}, p)
    }

    /** How often `p` has been downloaded or is queued, once bash is done. */
    function Due(dirs: set<string>, p: string): nat {
      (if p in dirs || p == git then 1 else 0) + if p == git && git in depends(bash) then 1 else 0
    }

    ghost predicate Counted(dirs: set<string>, done: seq<string>, queue: seq<string>) {
      forall p :: CountedAt(dirs, done, queue, p)
    }

    /** Every package's file lists its dependencies, as often as it was downloaded. */
    ghost predicate Recorded(requiring: Files, done: seq<string>) {
      forall p :: Lines(requiring, p) == Times(depends(p), multiset(done)[p])
    }

    ghost predicate AllNeeded(list: seq<string>) {
      forall i | 0 <= i < |list| :: Needs(list[i])
    }

    predicate Covered(done: seq<string>, dirs: set<string>) {
      forall i | 0 <= i < |done| :: done[i] in dirs && Elements(depends(done[i])) <= dirs
    }

    /** The queue starts with bash and git, and bash may queue git again. */
    predicate Started(dirs: set<string>, done: seq<string>, queue: seq<string>) {
      if done == [] then dirs == {} && queue == [bash, git]
      else if |done| == 1 then done[0] == bash && queue != [] && queue[0] == git
      else done[0] == bash && done[1] == git
    }

    lemma CountFirst(dirs: set<string>)
      requires bash != git && dirs == {}
      ensures Counted(dirs + {bash} + Elements(depends(bash)), [bash], [git] + NewDeps(depends(bash), dirs + {bash}))
    {
      var added := NewDeps(depends(bash), dirs + {bash});
      forall p
        ensures CountedAt(dirs + {bash} + Elements(depends(bash)), [bash], [git] + added, p)
      {
        NewDepsOnce(depends(bash), dirs + {bash}, p);
        assert multiset([git] + added)[p] == multiset([git])[p] + multiset(added)[p];
      }
    }

    ghost predicate CountedAt(dirs: set<string>, done: seq<string>, queue: seq<string>, p: string) {
      multiset(done)[p] + multiset(queue)[p] == Due(dirs, p)
    }

    lemma CountNextAt(dirs: set<string>, done: seq<string>, queue: seq<string>, p: string)
      requires queue != [] && (git in dirs || queue[0] == git)
      requires CountedAt(dirs, done, queue, p) && CountedAt(dirs, done, queue, queue[0])
      ensures var pkg := queue[0];
        CountedAt(dirs + {pkg} + Elements(depends(pkg)), done + [pkg],
                  queue[1..] + NewDeps(depends(pkg), dirs + {pkg}), p)
    {
      NewDepsOnce(depends(queue[0]), dirs + {queue[0]}, p);
      CountOneMore(done, queue[0], p);
      CountMoved(queue, NewDeps(depends(queue[0]), dirs + {queue[0]}), p);
    }

    /** The queue loses its first entry and gains the added ones. */
    lemma CountMoved(queue: seq<string>, added: seq<string>, p: string)
      requires queue != []
      ensures multiset(queue[1..] + added)[p] + (if p == queue[0] then 1 else 0)
           == multiset(queue)[p] + multiset(added)[p]
    {
      assert queue == [queue[0]] + queue[1..];
    }

    lemma CountNext(dirs: set<string>, done: seq<string>, queue: seq<string>)
      requires queue != [] && Counted(dirs, done, queue) && (git in dirs || queue[0] == git)
      ensures var pkg := queue[0];
        Counted(dirs + {pkg} + Elements(depends(pkg)), done + [pkg], queue[1..] + NewDeps(depends(pkg), dirs + {pkg}))
    {
      var pkg := queue[0];
      forall p
        ensures CountedAt(dirs + {pkg} + Elements(depends(pkg)), done + [pkg],
                          queue[1..] + NewDeps(depends(pkg), dirs + {pkg}), p)
      {
        assert CountedAt(dirs, done, queue, p) && CountedAt(dirs, done, queue, pkg);
        CountNextAt(dirs, done, queue, p);
      }
    }

    lemma CountOneMore(done: seq<string>, pkg: string, p: string)
      ensures multiset(done + [pkg])[p] == multiset(done)[p] + if p == pkg then 1 else 0
    {
    }

    lemma RecordNext(requiring: Files, done: seq<string>, pkg: string)
      requires Recorded(requiring, done)
      ensures Recorded(AppendAll(requiring, pkg, depends(pkg)), done + [pkg])
    {
      forall p
        ensures Lines(AppendAll(requiring, pkg, depends(pkg)), p) == Times(depends(p), multiset(done + [pkg])[p])
      {
        CountOneMore(done, pkg, p);
        AppendedLines(requiring, pkg, depends(pkg), p);
        assert Lines(requiring, p) == Times(depends(p), multiset(done)[p]);
        AddTime(depends(p), multiset(done)[p]);
      }
    }

    lemma AddTime(list: seq<string>, n: nat)
      ensures Times(list, n + 1) == Times(list, n) + list && Times(list, n) + [] == Times(list, n)
    {
    }

    lemma {:induction false} NewDepsFrom(deps: seq<string>, known: set<string>)
      ensures forall i | 0 <= i < |NewDeps(deps, known)| ::
        NewDeps(deps, known)[i] in deps && NewDeps(deps, known)[i] !in known
      decreases |deps|
    {
      if deps != [] {
        NewDepsFrom(deps[..|deps| - 1], known);
      }
    }

    lemma NeededNext(queue: seq<string>, known: set<string>)
      requires queue != [] && AllNeeded(queue)
      ensures AllNeeded(queue[1..] + NewDeps(depends(queue[0]), known))
    {
      var rest, added := queue[1..], NewDeps(depends(queue[0]), known);
      NewDepsFrom(depends(queue[0]), known);
      forall i | 0 <= i < |rest + added| ensures Needs((rest + added)[i]) {
        if i < |rest| {
          assert queue[i + 1] == rest[i];
        } else {
          DependencyIsNeeded(depends, {bash, git}, queue[0], added[i - |rest|]);
        }
      }
    }

    lemma NeededAppend(list: seq<string>, p: string)
      requires AllNeeded(list) && Needs(p)
      ensures AllNeeded(list + [p])
    {
    }

    /** A round either makes a new directory or shortens the queue. */
    lemma Progress(universe: set<string>, dirs: set<string>, pkg: string)
      requires dirs + {pkg} + Elements(depends(pkg)) <= universe
      ensures var dirs' := dirs + {pkg} + Elements(depends(pkg));
        |universe - dirs'| < |universe - dirs| || (dirs' == dirs && NewDeps(depends(pkg), dirs + {pkg}) == [])
    {
      var dirs' := dirs + {pkg} + Elements(depends(pkg));
      NewDepsFrom(depends(pkg), dirs + {pkg});
      if dirs' == dirs {
        if NewDeps(depends(pkg), dirs + {pkg}) != [] {
          assert NewDeps(depends(pkg), dirs + {pkg})[0] in Elements(depends(pkg));
        }
      } else {
        var d :| d in dirs' && d !in dirs;
        assert universe - dirs' < universe - dirs by {
          assert d in universe - dirs;
        }
        SmallerSet(universe - dirs', universe - dirs);
      }
    }

    /** What holds between two rounds; `dirs` and `requiring` are the database's. */
    ghost predicate LoopOk(dirs: set<string>, requiring: Files, done: seq<string>, queue: seq<string>) {
      && Started(dirs, done, queue)
      && (done != [] ==> Counted(dirs, done, queue))
      && Recorded(requiring, done)
      && AllNeeded(queue) && AllNeeded(done) && Covered(done, dirs)
    }

    lemma LoopStarts()
      ensures LoopOk({}, map[], [], [bash, git])
    {
      RootIsNeeded(depends, {bash, git}, bash);
      RootIsNeeded(depends, {bash, git}, git);
    }

    lemma CoveredNext(dirs: set<string>, done: seq<string>, pkg: string)
      requires Covered(done, dirs)
      ensures Covered(done + [pkg], dirs + {pkg} + Elements(depends(pkg)))
    {
    }

    lemma StartedNext(dirs: set<string>, done: seq<string>, queue: seq<string>, added: seq<string>)
      requires queue != [] && Started(dirs, done, queue)
      ensures Started(dirs + {queue[0]} + Elements(depends(queue[0])), done + [queue[0]], queue[1..] + added)
    {
    }

    lemma CountRound(dirs: set<string>, done: seq<string>, queue: seq<string>)
      requires bash != git && queue != [] && Started(dirs, done, queue) && Covered(done, dirs)
      requires done != [] ==> Counted(dirs, done, queue)
      ensures var pkg := queue[0];
        Counted(dirs + {pkg} + Elements(depends(pkg)), done + [pkg], queue[1..] + NewDeps(depends(pkg), dirs + {pkg}))
    {
      if done == [] {
        CountFirst(dirs);
        assert done + [bash] == [bash] && queue[1..] == [git];
      } else {
        CountNext(dirs, done, queue);
      }
    }

    lemma RoundKeepsLoopOk(dirs: set<string>, requiring: Files, done: seq<string>, queue: seq<string>)
      requires bash != git && queue != [] && LoopOk(dirs, requiring, done, queue)
      ensures var pkg := queue[0];
        LoopOk(dirs + {pkg} + Elements(depends(pkg)), AppendAll(requiring, pkg, depends(pkg)),
               done + [pkg], queue[1..] + NewDeps(depends(pkg), dirs + {pkg}))
    {
      StartedNext(dirs, done, queue, NewDeps(depends(queue[0]), dirs + {queue[0]}));
      CountRound(dirs, done, queue);
      RecordNext(requiring, done, queue[0]);
      NeededNext(queue, dirs + {queue[0]});
      CoveredNext(dirs, done, queue[0]);
      NeededAppend(done, queue[0]);
    }

    /** When the queue is empty everything needed, and nothing else, has been downloaded. */
    lemma LoopEnds(dirs: set<string>, requiring: Files, done: seq<string>, p: string)
      requires LoopOk(dirs, requiring, done, []) && bash != git
      ensures multiset(done)[p] == if Needs(p) then Rounds(depends, bash, git, p) else 0
      ensures p in dirs <==> Needs(p)
      ensures Lines(requiring, p) == Times(depends(p), multiset(done)[p])
    {
      assert |done| >= 2 && bash in done && git in done && git in dirs;
      assert CountedAt(dirs, done, [], p);
      InDone(dirs, done);
      ClosedHoldsNeeded(depends, {bash, git}, done);
      assert Needs(p) ==> p in done;
      if p in done {
        var i :| 0 <= i < |done| && done[i] == p;
        assert Needs(done[i]);
      }
    }

    lemma InDone(dirs: set<string>, done: seq<string>)
      requires Counted(dirs, done, []) && Covered(done, dirs) && git in dirs
      ensures forall p :: p in done <==> p in dirs
      ensures Closed(depends, done)
    {
      forall p ensures p in done <==> p in dirs {
        assert CountedAt(dirs, done, [], p);
      }
    }

    /**
      Installs bash and git.  `universe` is the mirror's package list, which has every dependency of
      its packages.  Exactly the needed packages are downloaded, each once and git perhaps twice, and
      the database lists each package's dependencies as often, and nothing else, in both directions.
    */
    method Run(universe: set<string>, db: PkgDb) returns (done: seq<string>)
      requires bash != git && bash in universe && git in universe
      requires ClosedMirror(universe)
      requires db.dirs == {} && db.requiredBy == map[] && db.requiring == map[]
      modifies db
      ensures forall p :: multiset(done)[p] == if Needs(p) then Rounds(depends, bash, git, p) else 0
      ensures forall p :: p in db.dirs <==> Needs(p)
      ensures forall p :: Lines(db.requiring, p) == Times(depends(p), multiset(done)[p])
      ensures Inverse(db.requiredBy, db.requiring)
    {
      var queue := [bash, git];
      done := [];
      LoopStarts();
      while queue != []
        invariant db.Valid() && LoopOk(db.dirs, db.requiring, done, queue) && Listed(universe, db.dirs, queue)
        decreases |universe - db.dirs|, |queue|
      {
        ghost var dirs, requiring := db.dirs, db.requiring;
        var pkg, rest := queue[0], queue[1..];
        var added := db.Install(pkg, depends(pkg));
        Round(universe, dirs, requiring, done, queue);
        queue := rest + added;
        done := done + [pkg];
      }
      AllEnds(db.dirs, db.requiring, done);
    }

    lemma AllEnds(dirs: set<string>, requiring: Files, done: seq<string>)
      requires LoopOk(dirs, requiring, done, []) && bash != git
      ensures forall p :: multiset(done)[p] == if Needs(p) then Rounds(depends, bash, git, p) else 0
      ensures forall p :: p in dirs <==> Needs(p)
      ensures forall p :: Lines(requiring, p) == Times(depends(p), multiset(done)[p])
    {
      forall p
        ensures multiset(done)[p] == if Needs(p) then Rounds(depends, bash, git, p) else 0
        ensures p in dirs <==> Needs(p)
        ensures Lines(requiring, p) == Times(depends(p), multiset(done)[p])
      {
        LoopEnds(dirs, requiring, done, p);
      }
    }

    predicate ClosedMirror(universe: set<string>) {
      forall p | p in universe :: Elements(depends(p)) <= universe
    }

    predicate Listed(universe: set<string>, dirs: set<string>, queue: seq<string>) {
      dirs <= universe && Elements(queue) <= universe
    }

    /** One round keeps the invariant and comes closer to the end. */
    lemma Round(universe: set<string>, dirs: set<string>, requiring: Files, done: seq<string>, queue: seq<string>)
      requires bash != git && ClosedMirror(universe) && queue != []
      requires LoopOk(dirs, requiring, done, queue) && Listed(universe, dirs, queue)
      ensures var pkg := queue[0];
        var dirs', added := dirs + {pkg} + Elements(depends(pkg)), NewDeps(depends(pkg), dirs + {pkg});
        && LoopOk(dirs', AppendAll(requiring, pkg, depends(pkg)), done + [pkg], queue[1..] + added)
        && Listed(universe, dirs', queue[1..] + added)
        && (|universe - dirs'| < |universe - dirs| || (dirs' == dirs && added == []))
    {
      InUniverse(universe, queue, dirs + {queue[0]});
      Progress(universe, dirs, queue[0]);
      RoundKeepsLoopOk(dirs, requiring, done, queue);
    }

    lemma InUniverse(universe: set<string>, queue: seq<string>, known: set<string>)
      requires queue != [] && Elements(queue) <= universe && ClosedMirror(universe)
      ensures queue[0] in universe && Elements(queue[1..] + NewDeps(depends(queue[0]), known)) <= universe
    {
      var added := NewDeps(depends(queue[0]), known);
      assert queue[0] in Elements(queue);
      NewDepsFrom(depends(queue[0]), known);
      forall p | p in queue[1..] + added ensures p in universe {
        if p in queue[1..] {
          assert p in Elements(queue);
        } else {
          assert p in Elements(depends(queue[0]));
        }
      }
    }
  }

  lemma SmallerSet(a: set<string>, b: set<string>)
    requires a < b
    ensures |a| < |b|
  {
    assert b == a + (b - a);
    assert b - a != {};
  }
}
