/** The reconciler and tree assembler, `process_packages`
    (diff_tool/diff_v1.py:79-103): which package is fetched on which side, with
    which descriptor, into which directory. */
module Reconcile {
  import opened Runtime
  import opened Yaml
  import opened Paths
  import opened Fetcher
  import opened Seqs
  import Manifest

  /** A lock file's `packages` mapping: package name to descriptor dict. */
  type Packages = map<string, Node>

  /** The two trees: `deps1` (the old ref) is fetched under "old", `deps2`
      (the new ref) under "new". */
  datatype Side = Old | New

  /** One call of `download_package`: the side, the package, the descriptor it
      is given and the directory it materialises the package in. */
  datatype Fetch = Fetch(side: Side, name: string, descriptor: Node, dest: string)

  function SideName(side: Side): string
  {
    match side
    case Old => "old"
    case New => "new"
  }

  function SideDir(tempDir: string, side: Side): string
  {
    Join(tempDir, SideName(side))
  }

  function SideMap(deps1: Packages, deps2: Packages, side: Side): Packages
  {
    match side
    case Old => deps1
    case New => deps2
  }

  /** `process_packages` hands `join(side dir, name)` to `download_package` as
      its temporary directory, which joins the name once more. */
  function Destination(tempDir: string, side: Side, name: string): string
  {
    Join(Join(SideDir(tempDir, side), name), name)
  }

  predicate Unchanged(deps1: Packages, deps2: Packages, name: string)
  {
    name in deps1 && name in deps2 && deps1[name] == deps2[name]
  }

  predicate Skipped(deps1: Packages, deps2: Packages, skipUnchanged: bool, name: string)
  {
    skipUnchanged && Unchanged(deps1, deps2, name)
  }

  function SideFetch(deps1: Packages, deps2: Packages, tempDir: string, side: Side, name: string): seq<Fetch>
  {
    var m := SideMap(deps1, deps2, side);
    if name in m then [Fetch(side, name, m[name], Destination(tempDir, side, name))] else []
  }

  /** One iteration of the loop: nothing for a skipped package, else the old
      side's fetch (if any) followed by the new side's (if any). */
  function FetchesFor(deps1: Packages, deps2: Packages, tempDir: string, skipUnchanged: bool, name: string): seq<Fetch>
  {
    if Skipped(deps1, deps2, skipUnchanged, name) then []
    else SideFetch(deps1, deps2, tempDir, Old, name) + SideFetch(deps1, deps2, tempDir, New, name)
  }

  /** The fetches of the whole loop when the names are visited in `order`. */
  function Schedule(order: seq<string>, deps1: Packages, deps2: Packages, tempDir: string, skipUnchanged: bool): seq<Fetch>
  {
    if order == [] then []
    else Schedule(order[..|order| - 1], deps1, deps2, tempDir, skipUnchanged)
         + FetchesFor(deps1, deps2, tempDir, skipUnchanged, order[|order| - 1])
  }

  /** The reference rule, per fetch and independent of any order: a package is
      fetched on a side iff it appears on that side and is not skipped, with that
      side's descriptor and into `<side dir>/<name>/<name>`. */
  ghost predicate Intended(deps1: Packages, deps2: Packages, tempDir: string, skipUnchanged: bool, f: Fetch)
  {
    var m := SideMap(deps1, deps2, f.side);
    && f.name in m
    && !Skipped(deps1, deps2, skipUnchanged, f.name)
    && f.descriptor == m[f.name]
    && f.dest == Destination(tempDir, f.side, f.name)
  }

  /** `order` lists the keys of both manifests, as iterating over the set
      `set(deps1.keys()) | set(deps2.keys())` does. */
  ghost predicate Enumerates(order: seq<string>, deps1: Packages, deps2: Packages)
  {
    forall n :: n in order <==> n in deps1 || n in deps2
  }

  predicate Distinct<T(==)>(s: seq<T>)
  {
    forall i, j :: 0 <= i < j < |s| ==> s[i] != s[j]
  }

  /** No two fetches are for the same package on the same side. */
  predicate OncePerSide(s: seq<Fetch>)
  {
    forall i, j :: 0 <= i < j < |s| ==> s[i].side != s[j].side || s[i].name != s[j].name
  }

  // ---------------------------------------------------------------- the schedule

  lemma SideFetchMembers(deps1: Packages, deps2: Packages, tempDir: string, side: Side, name: string, f: Fetch)
    ensures f in SideFetch(deps1, deps2, tempDir, side, name) <==>
              var m := SideMap(deps1, deps2, side);
              f.side == side && f.name == name && name in m && f.descriptor == m[name]
              && f.dest == Destination(tempDir, side, name)
  {
  }

  lemma FetchesForMembers(deps1: Packages, deps2: Packages, tempDir: string, skipUnchanged: bool, name: string, f: Fetch)
    ensures f in FetchesFor(deps1, deps2, tempDir, skipUnchanged, name) <==>
              f.name == name && Intended(deps1, deps2, tempDir, skipUnchanged, f)
  {
    SideFetchMembers(deps1, deps2, tempDir, Old, name, f);
    SideFetchMembers(deps1, deps2, tempDir, New, name, f);
  }

  /** One iteration fetches nothing for a skipped package. Otherwise it makes
      one fetch per side on which the package appears, the old side first, all
      of them for that package and each as the reference rule prescribes. */
  lemma FetchesForShape(deps1: Packages, deps2: Packages, tempDir: string, skipUnchanged: bool, name: string)
    ensures var r := FetchesFor(deps1, deps2, tempDir, skipUnchanged, name);
            && (Skipped(deps1, deps2, skipUnchanged, name) ==> r == [])
            && (!Skipped(deps1, deps2, skipUnchanged, name) ==>
                  |r| == (if name in deps1 then 1 else 0) + (if name in deps2 then 1 else 0))
            && (forall k :: 0 <= k < |r| ==> r[k].name == name)
            && (|r| == 2 ==> r[0].side == Old && r[1].side == New)
            && (forall k :: 0 <= k < |r| ==> Intended(deps1, deps2, tempDir, skipUnchanged, r[k]))
  {
    var r := FetchesFor(deps1, deps2, tempDir, skipUnchanged, name);
    forall k | 0 <= k < |r| ensures Intended(deps1, deps2, tempDir, skipUnchanged, r[k]) {
      FetchesForMembers(deps1, deps2, tempDir, skipUnchanged, name, r[k]);
    }
  }

  /** Visiting `order`, the loop makes at most two fetches per name visited. */
  lemma {:induction false} ScheduleLength(order: seq<string>, deps1: Packages, deps2: Packages, tempDir: string,
                                          skipUnchanged: bool)
    ensures |Schedule(order, deps1, deps2, tempDir, skipUnchanged)| <= 2 * |order|
  {
    if order != [] {
      ScheduleLength(order[..|order| - 1], deps1, deps2, tempDir, skipUnchanged);
      FetchesForShape(deps1, deps2, tempDir, skipUnchanged, order[|order| - 1]);
    }
  }

  lemma {:induction false} ScheduleMembers(order: seq<string>, deps1: Packages, deps2: Packages, tempDir: string,
                                           skipUnchanged: bool, f: Fetch)
    ensures f in Schedule(order, deps1, deps2, tempDir, skipUnchanged) <==>
              f.name in order && Intended(deps1, deps2, tempDir, skipUnchanged, f)
  {
    if order != [] {
      var prefix, last := order[..|order| - 1], order[|order| - 1];
      ScheduleMembers(prefix, deps1, deps2, tempDir, skipUnchanged, f);
      FetchesForMembers(deps1, deps2, tempDir, skipUnchanged, last, f);
      assert order == prefix + [last];
    }
  }

  /** Over a full enumeration of the names, the loop fetches exactly what the
      reference rule prescribes. */
  lemma ScheduleIsIntended(order: seq<string>, deps1: Packages, deps2: Packages, tempDir: string, skipUnchanged: bool)
    requires Enumerates(order, deps1, deps2)
    ensures forall f :: f in Schedule(order, deps1, deps2, tempDir, skipUnchanged) <==>
                        Intended(deps1, deps2, tempDir, skipUnchanged, f)
  {
    forall f ensures f in Schedule(order, deps1, deps2, tempDir, skipUnchanged) <==>
                     Intended(deps1, deps2, tempDir, skipUnchanged, f)
    {
      ScheduleMembers(order, deps1, deps2, tempDir, skipUnchanged, f);
    }
  }

  /** With `skip_unchanged`, a package with equal descriptors on both sides is
      fetched on neither side. */
  lemma SkipUnchangedFetchesNeither(order: seq<string>, deps1: Packages, deps2: Packages, tempDir: string, name: string)
    requires Unchanged(deps1, deps2, name)
    ensures forall f :: f in Schedule(order, deps1, deps2, tempDir, true) ==> f.name != name
  {
    forall f | f in Schedule(order, deps1, deps2, tempDir, true) ensures f.name != name {
      ScheduleMembers(order, deps1, deps2, tempDir, true, f);
    }
  }

  /** A package that is not skipped is fetched on a side iff it is a key of that
      side's manifest, and then with that side's descriptor and destination. */
  lemma FetchedOnSideIff(order: seq<string>, deps1: Packages, deps2: Packages, tempDir: string, skipUnchanged: bool,
                         side: Side, name: string)
    requires Enumerates(order, deps1, deps2)
    requires !Skipped(deps1, deps2, skipUnchanged, name)
    ensures var s, m := Schedule(order, deps1, deps2, tempDir, skipUnchanged), SideMap(deps1, deps2, side);
            && (name in m <==> exists f :: f in s && f.side == side && f.name == name)
            && (name in m ==> Fetch(side, name, m[name], Destination(tempDir, side, name)) in s)
            && (forall f :: f in s && f.side == side && f.name == name ==>
                              f == Fetch(side, name, m[name], Destination(tempDir, side, name)))
  {
    var s, m := Schedule(order, deps1, deps2, tempDir, skipUnchanged), SideMap(deps1, deps2, side);
    ScheduleIsIntended(order, deps1, deps2, tempDir, skipUnchanged);
    if name in m {
      assert Intended(deps1, deps2, tempDir, skipUnchanged, Fetch(side, name, m[name], Destination(tempDir, side, name)));
    }
  }

  /** Without `skip_unchanged`, every package of either manifest is fetched on
      every side where it appears, and nothing else is fetched. */
  lemma NoSkipFetchesEverySide(order: seq<string>, deps1: Packages, deps2: Packages, tempDir: string)
    requires Enumerates(order, deps1, deps2)
    ensures var s := Schedule(order, deps1, deps2, tempDir, false);
            && (forall n :: n in deps1 ==> Fetch(Old, n, deps1[n], Destination(tempDir, Old, n)) in s)
            && (forall n :: n in deps2 ==> Fetch(New, n, deps2[n], Destination(tempDir, New, n)) in s)
            && (forall f :: f in s ==>
                  var m := SideMap(deps1, deps2, f.side);
                  f.name in m && f == Fetch(f.side, f.name, m[f.name], Destination(tempDir, f.side, f.name)))
  {
    ScheduleIsIntended(order, deps1, deps2, tempDir, false);
    forall n | n in deps1 ensures Intended(deps1, deps2, tempDir, false, Fetch(Old, n, deps1[n], Destination(tempDir, Old, n))) { }
    forall n | n in deps2 ensures Intended(deps1, deps2, tempDir, false, Fetch(New, n, deps2[n], Destination(tempDir, New, n))) { }
  }

  /** Every fetched name is a key of one of the two manifests. */
  lemma ScheduleWithinUnion(order: seq<string>, deps1: Packages, deps2: Packages, tempDir: string, skipUnchanged: bool)
    ensures forall f :: f in Schedule(order, deps1, deps2, tempDir, skipUnchanged) ==> f.name in deps1 || f.name in deps2
  {
    forall f | f in Schedule(order, deps1, deps2, tempDir, skipUnchanged) ensures f.name in deps1 || f.name in deps2 {
      ScheduleMembers(order, deps1, deps2, tempDir, skipUnchanged, f);
    }
  }

  /** Visiting each name once, the loop fetches each (side, name) at most once. */
  lemma {:induction false} ScheduleOncePerSide(order: seq<string>, deps1: Packages, deps2: Packages, tempDir: string,
                                               skipUnchanged: bool)
    requires Distinct(order)
    ensures OncePerSide(Schedule(order, deps1, deps2, tempDir, skipUnchanged))
  {
    if order != [] {
      var prefix, last := order[..|order| - 1], order[|order| - 1];
      assert Distinct(prefix);
      ScheduleOncePerSide(prefix, deps1, deps2, tempDir, skipUnchanged);
      var s := Schedule(prefix, deps1, deps2, tempDir, skipUnchanged);
      var t := FetchesFor(deps1, deps2, tempDir, skipUnchanged, last);
      assert last !in prefix;
      forall i | 0 <= i < |s| ensures s[i].name != last {
        ScheduleMembers(prefix, deps1, deps2, tempDir, skipUnchanged, s[i]);
      }
      assert forall k :: 0 <= k < |t| ==> t[k].name == last;
      assert OncePerSide(t);
      OncePerSideConcat(s, t, last);
    }
  }

  /** Two logs, each once per side, whose names do not meet, join into one. */
  lemma OncePerSideConcat(s: seq<Fetch>, t: seq<Fetch>, name: string)
    requires OncePerSide(s) && OncePerSide(t)
    requires forall i :: 0 <= i < |s| ==> s[i].name != name
    requires forall k :: 0 <= k < |t| ==> t[k].name == name
    ensures OncePerSide(s + t)
  {
    var st := s + t;
    forall i, j | 0 <= i < j < |st| ensures st[i].side != st[j].side || st[i].name != st[j].name {
      if j < |s| {
        assert st[i] == s[i] && st[j] == s[j];
      } else if i < |s| {
        assert st[i] == s[i] && st[j] == t[j - |s|];
      } else {
        assert st[i] == t[i - |s|] && st[j] == t[j - |s|];
      }
    }
  }

  lemma {:induction false} DistinctCount<T>(s: seq<T>, x: T)
    requires Distinct(s)
    ensures multiset(s)[x] == if x in s then 1 else 0
  {
    if s != [] {
      var rest := s[1..];
      assert s == [s[0]] + rest;
      assert Distinct(rest);
      DistinctCount(rest, x);
      assert s[0] !in rest;
    }
  }

  /** The multiset of fetches does not depend on the order in which the set of
      names is iterated, and neither does whether some fetch raises. */
  lemma ScheduleOrderIndependent(order1: seq<string>, order2: seq<string>, deps1: Packages, deps2: Packages,
                                 tempDir: string, skipUnchanged: bool, ok: Effect -> bool)
    requires Enumerates(order1, deps1, deps2) && Distinct(order1)
    requires Enumerates(order2, deps1, deps2) && Distinct(order2)
    ensures var s1, s2 := Schedule(order1, deps1, deps2, tempDir, skipUnchanged),
                          Schedule(order2, deps1, deps2, tempDir, skipUnchanged);
            && multiset(s1) == multiset(s2)
            && ((forall f :: f in s1 ==> !Raises(tempDir, f, ok)) <==> (forall f :: f in s2 ==> !Raises(tempDir, f, ok)))
  {
    var s1, s2 := Schedule(order1, deps1, deps2, tempDir, skipUnchanged),
                  Schedule(order2, deps1, deps2, tempDir, skipUnchanged);
    ScheduleIsIntended(order1, deps1, deps2, tempDir, skipUnchanged);
    ScheduleIsIntended(order2, deps1, deps2, tempDir, skipUnchanged);
    ScheduleOncePerSide(order1, deps1, deps2, tempDir, skipUnchanged);
    ScheduleOncePerSide(order2, deps1, deps2, tempDir, skipUnchanged);
    assert Distinct(s1) && Distinct(s2);
    forall f ensures multiset(s1)[f] == multiset(s2)[f] {
      DistinctCount(s1, f);
      DistinctCount(s2, f);
    }
  }

  // ---------------------------------------------------------------- destinations

  /** The destination of a package is `<temp>/<side>/<name>/<name>`. */
  lemma DestinationShape(tempDir: string, side: Side, name: string)
    requires Directory(tempDir) && Component(name)
    ensures Destination(tempDir, side, name) == tempDir + "/" + SideName(side) + "/" + name + "/" + name
  {
    JoinComponent(tempDir, SideName(side));
    JoinComponent(SideDir(tempDir, side), name);
    JoinComponent(Join(SideDir(tempDir, side), name), name);
  }

  /** Distinct (side, name) pairs materialise into distinct directories. */
  lemma DestinationsDistinct(tempDir: string, side1: Side, name1: string, side2: Side, name2: string)
    requires Directory(tempDir) && Component(name1) && Component(name2)
    requires side1 != side2 || name1 != name2
    ensures Destination(tempDir, side1, name1) != Destination(tempDir, side2, name2)
  {
    DestinationShape(tempDir, side1, name1);
    DestinationShape(tempDir, side2, name2);
    if Destination(tempDir, side1, name1) == Destination(tempDir, side2, name2) {
      LayoutInjective(tempDir, SideName(side1), name1, SideName(side2), name2);
    }
  }

  /** `<t>/<s>/<n>/<n>` determines `s` and `n` when side names have one length. */
  lemma LayoutInjective(t: string, s1: string, n1: string, s2: string, n2: string)
    requires |s1| == |s2|
    requires t + "/" + s1 + "/" + n1 + "/" + n1 == t + "/" + s2 + "/" + n2 + "/" + n2
    ensures s1 == s2 && n1 == n2
  {
    var d1, d2 := t + "/" + s1 + "/" + n1 + "/" + n1, t + "/" + s2 + "/" + n2 + "/" + n2;
    var k := |t| + 1;
    assert |n1| == |n2|;
    assert d1[k..k + |s1|] == s1;
    assert d2[k..k + |s2|] == s2;
    var j := k + |s1| + 1;
    assert d1[j..j + |n1|] == n1;
    assert d2[j..j + |n2|] == n2;
  }

  /** When the old ref's lock file cannot be read or parsed, `get_dependencies`
      yields no packages for it, so every package of the new manifest is fetched
      on the new side only and nothing is fetched on the old side. */
  lemma UnreadableOldLock(order: seq<string>, read: Result<Node, Exception>, deps2: Packages, tempDir: string,
                          skipUnchanged: bool, f: Fetch)
    requires read.Err? && Manifest.CaughtByReader(read.error)
    ensures var deps1 := Manifest.GetDependencies(read).value.entries;
            f in Schedule(order, deps1, deps2, tempDir, skipUnchanged) <==>
              && f.name in order && f.name in deps2
              && f == Fetch(New, f.name, deps2[f.name], Destination(tempDir, New, f.name))
  {
    var deps1 := Manifest.GetDependencies(read).value.entries;
    ScheduleMembers(order, deps1, deps2, tempDir, skipUnchanged, f);
  }

  // ---------------------------------------------------------------- the loop

  function DownloadOf(tempDir: string, f: Fetch, ok: Effect -> bool): Download
  {
    DownloadPackage(f.name, f.descriptor, Join(SideDir(tempDir, f.side), f.name), ok)
  }

  predicate Raises(tempDir: string, f: Fetch, ok: Effect -> bool)
  {
    DownloadOf(tempDir, f, ok).outcome.Raised?
  }

  function RaisesIn(tempDir: string, ok: Effect -> bool): Fetch -> bool
  {
    f => Raises(tempDir, f, ok)
  }

  function EffectsIn(tempDir: string, ok: Effect -> bool): Fetch -> seq<Effect>
  {
    f => DownloadOf(tempDir, f, ok).effects
  }

  /** None of the downloads of `fetches` raises. */
  predicate NoneRaise(tempDir: string, fetches: seq<Fetch>, ok: Effect -> bool)
  {
    NoneOf(fetches, RaisesIn(tempDir, ok))
  }

  lemma NoneRaiseAll(tempDir: string, fetches: seq<Fetch>, ok: Effect -> bool)
    ensures NoneRaise(tempDir, fetches, ok) <==> forall k :: 0 <= k < |fetches| ==> !Raises(tempDir, fetches[k], ok)
  {
    NoneOfAll(fetches, RaisesIn(tempDir, ok));
  }

  /** A scheduled download that returns, returns its fetch's destination. */
  lemma DownloadLandsInDestination(order: seq<string>, deps1: Packages, deps2: Packages, tempDir: string,
                                   skipUnchanged: bool, ok: Effect -> bool, f: Fetch)
    requires f in Schedule(order, deps1, deps2, tempDir, skipUnchanged)
    requires !Raises(tempDir, f, ok)
    ensures DownloadOf(tempDir, f, ok).outcome.value == f.dest
  {
    ScheduleMembers(order, deps1, deps2, tempDir, skipUnchanged, f);
  }

  /** Everything the downloads of `fetches` did, in order. */
  function EffectsOf(tempDir: string, fetches: seq<Fetch>, ok: Effect -> bool): seq<Effect>
  {
    ConcatMap(fetches, EffectsIn(tempDir, ok))
  }

  /** The log of `a` followed by `b`: its effects are those of `a` then those of
      `b`, and it raises nowhere iff neither part does. */
  lemma ConcatFetches(tempDir: string, a: seq<Fetch>, b: seq<Fetch>, ok: Effect -> bool)
    ensures EffectsOf(tempDir, a + b, ok) == EffectsOf(tempDir, a, ok) + EffectsOf(tempDir, b, ok)
    ensures NoneRaise(tempDir, a + b, ok) <==> NoneRaise(tempDir, a, ok) && NoneRaise(tempDir, b, ok)
  {
    ConcatOf(a, b, RaisesIn(tempDir, ok), EffectsIn(tempDir, ok));
  }

  /** A log of one fetch: the effects and the outcome of its download. */
  lemma SingleFetch(tempDir: string, f: Fetch, ok: Effect -> bool)
    ensures EffectsOf(tempDir, [f], ok) == DownloadOf(tempDir, f, ok).effects
    ensures NoneRaise(tempDir, [f], ok) <==> !Raises(tempDir, f, ok)
  {
    Single(f, RaisesIn(tempDir, ok), EffectsIn(tempDir, ok));
  }

  /** The empty log. */
  lemma EmptyLog(tempDir: string, ok: Effect -> bool)
    ensures EffectsOf(tempDir, [], ok) == [] && NoneRaise(tempDir, [], ok)
  {
  }

  /** Appending one iteration's fetches `more`, a prefix of `planned`, to the log. */
  lemma Extend(tempDir: string, fetches: seq<Fetch>, more: seq<Fetch>, planned: seq<Fetch>, ok: Effect -> bool)
    requires more <= planned
    ensures fetches + more <= fetches + planned
    ensures EffectsOf(tempDir, fetches + more, ok) == EffectsOf(tempDir, fetches, ok) + EffectsOf(tempDir, more, ok)
    ensures NoneRaise(tempDir, fetches, ok) && NoneRaise(tempDir, more, ok) ==> NoneRaise(tempDir, fetches + more, ok)
    ensures more != [] ==>
              && (fetches + more)[|fetches + more| - 1] == more[|more| - 1]
              && (NoneRaise(tempDir, fetches, ok) && NoneRaise(tempDir, more[..|more| - 1], ok) ==>
                    NoneRaise(tempDir, (fetches + more)[..|fetches + more| - 1], ok))
  {
    ConcatFetches(tempDir, fetches, more, ok);
    assert (fetches + planned)[..|fetches + more|] == fetches + more;
    if more != [] {
      assert (fetches + more)[..|fetches + more| - 1] == fetches + more[..|more| - 1];
      ConcatFetches(tempDir, fetches, more[..|more| - 1], ok);
    }
  }

  /** Creating the two side directories (lines 84-85), stopping if the first fails. */
  function SetupEffects(tempDir: string, ok: Effect -> bool): seq<Effect>
  {
    var mkOld := MakeDirs(SideDir(tempDir, Old));
    [mkOld] + if ok(mkOld) then [MakeDirs(SideDir(tempDir, New))] else []
  }

  predicate SetupSucceeds(tempDir: string, ok: Effect -> bool)
  {
    ok(MakeDirs(SideDir(tempDir, Old))) && ok(MakeDirs(SideDir(tempDir, New)))
  }

  lemma ScheduleStep(order: seq<string>, i: nat, deps1: Packages, deps2: Packages, tempDir: string, skipUnchanged: bool)
    requires i < |order|
    ensures Schedule(order[..i + 1], deps1, deps2, tempDir, skipUnchanged) ==
            Schedule(order[..i], deps1, deps2, tempDir, skipUnchanged) + FetchesFor(deps1, deps2, tempDir, skipUnchanged, order[i])
  {
    assert order[..i + 1][..i] == order[..i];
  }

  lemma {:induction false} SchedulePrefix(order: seq<string>, k: nat, deps1: Packages, deps2: Packages, tempDir: string,
                                          skipUnchanged: bool)
    requires k <= |order|
    ensures Schedule(order[..k], deps1, deps2, tempDir, skipUnchanged) <= Schedule(order, deps1, deps2, tempDir, skipUnchanged)
    decreases |order|
  {
    if k < |order| {
      var prefix := order[..|order| - 1];
      assert prefix[..k] == order[..k];
      SchedulePrefix(prefix, k, deps1, deps2, tempDir, skipUnchanged);
    } else {
      assert order[..k] == order;
    }
  }

  /** A download that raises inside iteration `i` belongs to the whole schedule,
      which therefore does not run to completion. */
  lemma RaisedInSchedule(order: seq<string>, i: nat, deps1: Packages, deps2: Packages, tempDir: string,
                         skipUnchanged: bool, fetches: seq<Fetch>, ok: Effect -> bool)
    requires i < |order|
    requires fetches != [] && fetches <= Schedule(order[..i + 1], deps1, deps2, tempDir, skipUnchanged)
    requires Raises(tempDir, fetches[|fetches| - 1], ok)
    ensures fetches <= Schedule(order, deps1, deps2, tempDir, skipUnchanged)
    ensures !NoneRaise(tempDir, Schedule(order, deps1, deps2, tempDir, skipUnchanged), ok)
  {
    SchedulePrefix(order, i + 1, deps1, deps2, tempDir, skipUnchanged);
    var s := Schedule(order, deps1, deps2, tempDir, skipUnchanged);
    assert fetches[|fetches| - 1] == s[|fetches| - 1];
    NoneRaiseAll(tempDir, s, ok);
  }

  /** The old side's log, which did not raise, followed by the new side's. */
  lemma TwoSides(tempDir: string, a: seq<Fetch>, b: seq<Fetch>, ok: Effect -> bool)
    requires |b| <= 1 && NoneRaise(tempDir, a, ok)
    ensures EffectsOf(tempDir, a + b, ok) == EffectsOf(tempDir, a, ok) + EffectsOf(tempDir, b, ok)
    ensures NoneRaise(tempDir, a + b, ok) <==> NoneRaise(tempDir, b, ok)
    ensures b != [] ==> (a + b)[..|a + b| - 1] == a && (a + b)[|a + b| - 1] == b[0]
  {
    ConcatFetches(tempDir, a, b, ok);
    if b != [] {
      assert (a + b)[..|a + b| - 1] == a;
    }
  }

  /** An iteration that completes extends the log to the schedule of one more name. */
  lemma GoesOn(order: seq<string>, i: nat, deps1: Packages, deps2: Packages, tempDir: string,
               skipUnchanged: bool, before: seq<Fetch>, fetched: seq<Fetch>, ok: Effect -> bool)
    requires i < |order| && before == Schedule(order[..i], deps1, deps2, tempDir, skipUnchanged)
    requires fetched == FetchesFor(deps1, deps2, tempDir, skipUnchanged, order[i])
    requires NoneRaise(tempDir, before, ok) && NoneRaise(tempDir, fetched, ok)
    ensures before + fetched == Schedule(order[..i + 1], deps1, deps2, tempDir, skipUnchanged)
    ensures NoneRaise(tempDir, before + fetched, ok)
    ensures EffectsOf(tempDir, before + fetched, ok) == EffectsOf(tempDir, before, ok) + EffectsOf(tempDir, fetched, ok)
  {
    ScheduleStep(order, i, deps1, deps2, tempDir, skipUnchanged);
    ConcatFetches(tempDir, before, fetched, ok);
  }

  /** How the loop over the schedule `s` ended: with the log `fetches` a prefix
      of `s` and `effects` the effects of its downloads; without an exception iff
      no download of `s` raises, and then after all of `s`; otherwise with the
      exception of the last download of the log, the only one that raised. */
  predicate LoopEnded(tempDir: string, s: seq<Fetch>, fetches: seq<Fetch>, effects: seq<Effect>,
                      raised: Option<Exception>, ok: Effect -> bool)
  {
    && fetches <= s
    && effects == EffectsOf(tempDir, fetches, ok)
    && (raised.None? <==> NoneRaise(tempDir, s, ok))
    && (raised.None? ==> fetches == s)
    && (raised.Some? ==>
          && fetches != []
          && NoneRaise(tempDir, fetches[..|fetches| - 1], ok)
          && Raises(tempDir, fetches[|fetches| - 1], ok)
          && raised.value == DownloadOf(tempDir, fetches[|fetches| - 1], ok).outcome.error)
  }

  /** An iteration whose last download raises `e` ends the loop. */
  lemma StopsInSchedule(order: seq<string>, i: nat, deps1: Packages, deps2: Packages, tempDir: string,
                        skipUnchanged: bool, before: seq<Fetch>, fetched: seq<Fetch>, e: Exception, ok: Effect -> bool)
    requires i < |order| && before == Schedule(order[..i], deps1, deps2, tempDir, skipUnchanged)
    requires fetched <= FetchesFor(deps1, deps2, tempDir, skipUnchanged, order[i]) && fetched != []
    requires NoneRaise(tempDir, before, ok) && NoneRaise(tempDir, fetched[..|fetched| - 1], ok)
    requires Raises(tempDir, fetched[|fetched| - 1], ok)
    requires e == DownloadOf(tempDir, fetched[|fetched| - 1], ok).outcome.error
    ensures LoopEnded(tempDir, Schedule(order, deps1, deps2, tempDir, skipUnchanged), before + fetched,
                      EffectsOf(tempDir, before, ok) + EffectsOf(tempDir, fetched, ok), Some(e), ok)
  {
    ScheduleStep(order, i, deps1, deps2, tempDir, skipUnchanged);
    Extend(tempDir, before, fetched, FetchesFor(deps1, deps2, tempDir, skipUnchanged, order[i]), ok);
    RaisedInSchedule(order, i, deps1, deps2, tempDir, skipUnchanged, before + fetched, ok);
  }

  /** The loop ran through the whole schedule. */
  lemma RanThrough(order: seq<string>, deps1: Packages, deps2: Packages, tempDir: string,
                   skipUnchanged: bool, fetches: seq<Fetch>, ok: Effect -> bool)
    requires fetches == Schedule(order[..|order|], deps1, deps2, tempDir, skipUnchanged)
    requires NoneRaise(tempDir, fetches, ok)
    ensures LoopEnded(tempDir, Schedule(order, deps1, deps2, tempDir, skipUnchanged), fetches,
                      EffectsOf(tempDir, fetches, ok), None, ok)
  {
    assert order[..|order|] == order;
  }

  /** One side of an iteration (lines 94-97 or 98-101): if that side's manifest
      has the package, download it into its destination and record the fetch. */
  method FetchSide(deps1: Packages, deps2: Packages, tempDir: string, side: Side, name: string, ok: Effect -> bool)
    returns (fetched: seq<Fetch>, effects: seq<Effect>, raised: Option<Exception>)
    ensures fetched == SideFetch(deps1, deps2, tempDir, side, name) && |fetched| <= 1
    ensures effects == EffectsOf(tempDir, fetched, ok)
    ensures raised.None? <==> NoneRaise(tempDir, fetched, ok)
    ensures raised.Some? ==> fetched != [] && Raises(tempDir, fetched[0], ok) && raised.value == DownloadOf(tempDir, fetched[0], ok).outcome.error
  {
    var m := SideMap(deps1, deps2, side);
    fetched, effects, raised := [], [], None;
    if name in m {
      var d := DownloadPackage(name, m[name], Join(SideDir(tempDir, side), name), ok);
      fetched := [Fetch(side, name, m[name], Destination(tempDir, side, name))];
      SingleFetch(tempDir, fetched[0], ok);
      effects := d.effects;
      if d.outcome.Raised? {
        raised := Some(d.outcome.error);
      }
    }
  }

  /** One iteration of the loop (lines 88-101) for `name`: skip it when it is
      unchanged and skipping is on, otherwise fetch the old side, then the new. */
  method FetchName(deps1: Packages, deps2: Packages, tempDir: string, skipUnchanged: bool, name: string,
                   ok: Effect -> bool)
    returns (fetched: seq<Fetch>, effects: seq<Effect>, raised: Option<Exception>)
    ensures fetched <= FetchesFor(deps1, deps2, tempDir, skipUnchanged, name)
    ensures effects == EffectsOf(tempDir, fetched, ok)
    ensures raised.None? ==> fetched == FetchesFor(deps1, deps2, tempDir, skipUnchanged, name) && NoneRaise(tempDir, fetched, ok)
    ensures raised.Some? ==>
              && fetched != []
              && NoneRaise(tempDir, fetched[..|fetched| - 1], ok)
              && Raises(tempDir, fetched[|fetched| - 1], ok)
              && raised.value == DownloadOf(tempDir, fetched[|fetched| - 1], ok).outcome.error
  {
    if skipUnchanged && name in deps1 && name in deps2 {
      if deps1[name] == deps2[name] {
        fetched, effects, raised := [], [], None;
        EmptyLog(tempDir, ok);
        return;
      }
    }
    var fetchedOld, effectsOld, raisedOld := FetchSide(deps1, deps2, tempDir, Old, name, ok);
    if raisedOld.Some? {
      assert fetchedOld[..0] == [];
      fetched, effects, raised := fetchedOld, effectsOld, raisedOld;
      return;
    }
    var fetchedNew, effectsNew, raisedNew := FetchSide(deps1, deps2, tempDir, New, name, ok);
    TwoSides(tempDir, fetchedOld, fetchedNew, ok);
    fetched, effects, raised := fetchedOld + fetchedNew, effectsOld + effectsNew, raisedNew;
  }

  /** The loop of lines 87-101 over the names in `order`: the fetches it made,
      the effects of their downloads, and the exception that stopped it, if one did. */
  method FetchAll(deps1: Packages, deps2: Packages, tempDir: string, skipUnchanged: bool,
                  order: seq<string>, ok: Effect -> bool)
    returns (fetches: seq<Fetch>, effects: seq<Effect>, raised: Option<Exception>)
    ensures LoopEnded(tempDir, Schedule(order, deps1, deps2, tempDir, skipUnchanged), fetches, effects, raised, ok)
  {
    fetches, effects, raised := [], [], None;
    EmptyLog(tempDir, ok);
    for i := 0 to |order|
      invariant fetches == Schedule(order[..i], deps1, deps2, tempDir, skipUnchanged)
      invariant NoneRaise(tempDir, fetches, ok)
      invariant effects == EffectsOf(tempDir, fetches, ok)
    {
      var fetched, effectsHere, raisedHere := FetchName(deps1, deps2, tempDir, skipUnchanged, order[i], ok);
      if raisedHere.Some? {
        StopsInSchedule(order, i, deps1, deps2, tempDir, skipUnchanged, fetches, fetched, raisedHere.value, ok);
        fetches, effects, raised := fetches + fetched, effects + effectsHere, raisedHere;
        return;
      }
      GoesOn(order, i, deps1, deps2, tempDir, skipUnchanged, fetches, fetched, ok);
      fetches, effects := fetches + fetched, effects + effectsHere;
    }
    RanThrough(order, deps1, deps2, tempDir, skipUnchanged, fetches, ok);
  }

  /** `process_packages(deps1, deps2, tempDir, skipUnchanged)`, visiting the
      names in `order`. It returns the fetches it made, every network and
      filesystem step in order, and how it completed. */
  method ProcessPackages(deps1: Packages, deps2: Packages, tempDir: string, skipUnchanged: bool,
                         order: seq<string>, ok: Effect -> bool)
    returns (fetches: seq<Fetch>, effects: seq<Effect>, outcome: Outcome<(string, string)>)
    requires Enumerates(order, deps1, deps2) && Distinct(order)
    ensures var s := Schedule(order, deps1, deps2, tempDir, skipUnchanged);
            && fetches <= s
            && effects == SetupEffects(tempDir, ok) + EffectsOf(tempDir, fetches, ok)
            // it returns iff the side directories are created and no download raises
            && (outcome.Returned? <==> SetupSucceeds(tempDir, ok) && NoneRaise(tempDir, s, ok))
            && (outcome.Returned? ==>
                  fetches == s && outcome == Returned((SideDir(tempDir, Old), SideDir(tempDir, New)), None))
            // an escaping exception stops the loop at the download that raised it
            && (outcome.Raised? && fetches == [] ==> !SetupSucceeds(tempDir, ok) && outcome.error == OSError)
            && (outcome.Raised? && fetches != [] ==>
                  && SetupSucceeds(tempDir, ok)
                  && NoneRaise(tempDir, fetches[..|fetches| - 1], ok)
                  && Raises(tempDir, fetches[|fetches| - 1], ok)
                  && outcome.error == DownloadOf(tempDir, fetches[|fetches| - 1], ok).outcome.error)
  {
    var oldDir := SideDir(tempDir, Old);   // os.path.join(temp_dir, "old")
    var newDir := SideDir(tempDir, New);
    fetches, effects := [], [MakeDirs(oldDir)];
    if !ok(MakeDirs(oldDir)) {
      outcome := Raised(OSError);
      return;
    }
    effects := effects + [MakeDirs(newDir)];
    if !ok(MakeDirs(newDir)) {
      outcome := Raised(OSError);
      return;
    }
    var loopEffects, raised;
    fetches, loopEffects, raised := FetchAll(deps1, deps2, tempDir, skipUnchanged, order, ok);
    effects := effects + loopEffects;
    outcome := if raised.Some? then Raised(raised.value) else Returned((oldDir, newDir), None);
  }
}
