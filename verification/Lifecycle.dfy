/** Runs of the client over its record graph: collections, detaching and resetting projects,
    scheduler replies, and the tasks and transfers that come and go in between
    (client/client_state.C, client/cs_scheduler.C). Every reachable graph can be collected from,
    detached from and merged into. */
module Lifecycle {
  import opened Sequences
  import opened Records
  import opened Vectors
  import opened Collector
  import opened Detach
  import opened Merge

  // ---- What does not follow from the links ------------------------------------------------

  ghost predicate Tidy(g: Graph) {
    && Separate(g) && XfersOwned(g)
    && Distinct(g.projects) && Distinct(g.persXfers) && Distinct(g.fileXfers)
    && KeysUnique(g) && SameApp(g)
  }

  lemma MergeableIs(g: Graph)
    ensures Mergeable(g) <==> g.CheckAll() && g.Linked() && Tidy(g)
  {
    hide Graph.CheckAll, Graph.Linked, Separate, XfersOwned, KeysUnique, SameApp, Distinct;
  }

  // ---- Vectors that lose elements -----------------------------------------------------------

  /** `t` is `s` without some of its elements. */
  ghost predicate Thinned<T(!new)>(s: seq<T>, t: seq<T>) { exists keep: set<T> :: t == Filter(s, keep) }

  lemma ThinnedSame<T(!new)>(s: seq<T>)
    ensures Thinned(s, s)
  {
    FilterIdentity(s, SetOf(s));
    assert Filter(s, SetOf(s)) == s;
  }

  lemma ThinnedMembers<T(!new)>(s: seq<T>, t: seq<T>)
    requires Thinned(s, t)
    ensures forall x :: x in t ==> x in s
  {
    var keep: set<T> :| t == Filter(s, keep);
    FilterIn(s, keep);
  }

  lemma ThinnedDistinct<T(!new)>(s: seq<T>, t: seq<T>)
    requires Thinned(s, t) && Distinct(s)
    ensures Distinct(t)
  {
    var keep: set<T> :| t == Filter(s, keep);
    FilterDistinct(s, keep);
  }

  ghost predicate Pairwise<T>(s: seq<T>, r: (T, T) -> bool) { forall i, j :: 0 <= i < j < |s| ==> r(s[i], s[j]) }

  lemma {:induction false} PairwiseTo<T>(s: seq<T>, k: nat, keep: set<T>, r: (T, T) -> bool)
    requires Pairwise(s, r) && k <= |s|
    ensures Pairwise(FilterTo(s, k, keep), r)
    ensures forall x :: x in FilterTo(s, k, keep) ==> exists i :: 0 <= i < k && s[i] == x
  {
    if k != 0 {
      PairwiseTo(s, k - 1, keep, r);
      var front := FilterTo(s, k - 1, keep);
      forall i | 0 <= i < |front| ensures r(front[i], s[k - 1]) {
        assert front[i] in front;
        var m :| 0 <= m < k - 1 && s[m] == front[i];
      }
    }
  }

  lemma ThinnedPairwise<T(!new)>(s: seq<T>, t: seq<T>, r: (T, T) -> bool)
    requires Thinned(s, t) && Pairwise(s, r)
    ensures Pairwise(t, r)
  {
    var keep: set<T> :| t == Filter(s, keep);
    PairwiseTo(s, |s|, keep, r);
  }

  lemma ThinnedKeys(g: Graph, h: Graph)
    requires KeysUnique(g)
    requires Thinned(g.apps, h.apps) && Thinned(g.fileInfos, h.fileInfos) && Thinned(g.appVersions, h.appVersions)
    requires Thinned(g.workunits, h.workunits) && Thinned(g.results, h.results)
    ensures KeysUnique(h)
  {
    var apps := (a: App, b: App) => !(a.project == b.project && a.name == b.name);
    var files := (a: FileInfo, b: FileInfo) => !(a.project == b.project && a.name == b.name);
    var versions := (a: AppVersion, b: AppVersion) => !VersionMatches(a, b.app, b.platform, b.versionNum, b.planClass);
    var workunits := (a: Workunit, b: Workunit) => !(a.project == b.project && a.name == b.name);
    var results := (a: Result, b: Result) => !(a.project == b.project && a.name == b.name);
    assert Pairwise(g.apps, apps) && Pairwise(g.fileInfos, files) && Pairwise(g.appVersions, versions);
    assert Pairwise(g.workunits, workunits) && Pairwise(g.results, results);
    ThinnedPairwise(g.apps, h.apps, apps);
    ThinnedPairwise(g.fileInfos, h.fileInfos, files);
    ThinnedPairwise(g.appVersions, h.appVersions, versions);
    ThinnedPairwise(g.workunits, h.workunits, workunits);
    ThinnedPairwise(g.results, h.results, results);
    hide Thinned;
  }

  /** From `g` to `h` vectors have only lost elements, and projects have kept or lost their files. */
  ghost predicate Thins(g: Graph, h: Graph) {
    && Thinned(g.projects, h.projects) && Thinned(g.apps, h.apps) && Thinned(g.fileInfos, h.fileInfos)
    && Thinned(g.appVersions, h.appVersions) && Thinned(g.workunits, h.workunits) && Thinned(g.results, h.results)
    && Thinned(g.persXfers, h.persXfers) && Thinned(g.fileXfers, h.fileXfers)
    && (forall q :: h.FilesOf(q) == g.FilesOf(q) || h.FilesOf(q) == [])
  }

  lemma ThinsSeparate(g: Graph, h: Graph)
    requires Thins(g, h) && Separate(g) && SameApp(g)
    ensures Separate(h) && SameApp(h)
  {
    ThinnedMembers(g.projects, h.projects);
    ThinnedMembers(g.appVersions, h.appVersions);
    ThinnedMembers(g.workunits, h.workunits);
    ThinnedMembers(g.results, h.results);
    hide Thinned, SeparateVersion, SeparateWorkunit, SeparateResult;
  }

  lemma ThinsTidy(g: Graph, h: Graph)
    requires Thins(g, h) && Tidy(g) && XfersOwned(h)
    ensures Tidy(h)
  {
    hide Thinned, Separate, SameApp, KeysUnique, Distinct, XfersOwned;
    ThinsSeparate(g, h);
    ThinnedKeys(g, h);
    ThinnedDistinct(g.projects, h.projects);
    ThinnedDistinct(g.persXfers, h.persXfers);
    ThinnedDistinct(g.fileXfers, h.fileXfers);
  }

  // ---- Collections and detaching -----------------------------------------------------------------

  lemma FilteredIsThinned<T(!new)>(s: seq<T>, keep: set<T>)
    ensures Thinned(s, Filter(s, keep)) && Thinned(s, s)
  {
    ThinnedSame(s);
  }

  /** Vectors that both graphs share. */
  lemma SharedThinned(g: Graph)
    ensures Thins(g, g)
  {
    ThinnedSame(g.projects);
    ThinnedSame(g.apps);
    ThinnedSame(g.fileInfos);
    ThinnedSame(g.appVersions);
    ThinnedSame(g.workunits);
    ThinnedSame(g.results);
    ThinnedSame(g.persXfers);
    ThinnedSame(g.fileXfers);
    hide Thinned;
  }

  lemma CollectTidy(g: Graph)
    requires Tidy(g)
    ensures Tidy(Collect(g))
  {
    var h := Collect(g);
    SharedThinned(g);
    FilteredIsThinned(g.results, KeptResults(g));
    FilteredIsThinned(g.workunits, KeptWorkunits(g));
    FilteredIsThinned(g.appVersions, KeptAppVersions(g));
    FilteredIsThinned(g.fileInfos, KeptFiles(g));
    hide Thinned, Filter, KeptResults, KeptWorkunits, KeptAppVersions, KeptFiles, Separate, KeysUnique, SameApp,
        Distinct;
    assert forall q :: h.FilesOf(q) == g.FilesOf(q);
    assert XfersOwned(h);
    hide XfersOwned;
    ThinsTidy(g, h);
  }

  /** Whoever collects a mergeable graph gets a mergeable graph. */
  lemma CollectMergeable(g: Graph)
    requires Mergeable(g)
    ensures Mergeable(Collect(g))
  {
    hide Graph.CheckAll, Graph.Linked, Tidy, Collect, Mergeable;
    MergeableIs(g);
    CollectSafe(g);
    CollectTidy(g);
    MergeableIs(Collect(g));
  }

  lemma StoppedOwned(g: Graph, p: Project)
    requires XfersOwned(g)
    ensures XfersOwned(Stopped(g, p))
  {
    var h := Stopped(g, p);
    StoppedMembers(g, p);
    hide Filter;
    forall x | x in h.fileXfers ensures exists y <- h.persXfers :: y in h.netXfer && h.netXfer[y] == x {
      var y :| y in g.persXfers && y in g.netXfer && g.netXfer[y] == x;
      assert y in h.persXfers && y in h.netXfer;
    }
  }

  lemma StoppedTidy(g: Graph, p: Project)
    requires Tidy(g)
    ensures Tidy(Stopped(g, p))
  {
    var h := Stopped(g, p);
    StoppedOwned(g, p);
    SharedThinned(g);
    FilteredIsThinned(g.persXfers, set x <- g.persXfers | x.fip.project != p);
    FilteredIsThinned(g.fileXfers, set x <- g.fileXfers | x.fip.project != p);
    hide Thinned, Filter, XfersOwned, Separate, KeysUnique, SameApp, Distinct;
    assert forall q :: h.FilesOf(q) == if q == p then [] else g.FilesOf(q);
    ThinsTidy(g, h);
  }

  lemma WithoutAppsTidy(g: Graph, p: Project)
    requires Tidy(g)
    ensures Tidy(WithoutApps(g, p))
  {
    var h := WithoutApps(g, p);
    SharedThinned(g);
    FilteredIsThinned(g.appVersions, set v <- g.appVersions | v.project != p);
    FilteredIsThinned(g.apps, set a <- g.apps | a.project != p);
    hide Thinned, Filter, Separate, KeysUnique, SameApp, Distinct;
    assert forall q :: h.FilesOf(q) == g.FilesOf(q);
    assert XfersOwned(h);
    hide XfersOwned;
    ThinsTidy(g, h);
  }

  lemma WithoutProjectTidy(g: Graph, p: Project)
    requires Tidy(g)
    ensures Tidy(WithoutProject(g, p))
  {
    var h := WithoutProject(g, p);
    SharedThinned(g);
    FilteredIsThinned(g.fileInfos, set f <- g.fileInfos | f.project != p);
    FilteredIsThinned(g.projects, set q <- g.projects | q != p);
    hide Thinned, Filter, Separate, KeysUnique, SameApp, Distinct;
    assert forall q :: h.FilesOf(q) == g.FilesOf(q);
    assert XfersOwned(h);
    hide XfersOwned;
    ThinsTidy(g, h);
  }

  lemma MiddleTidy(g: Graph, p: Project)
    requires Tidy(g)
    ensures Tidy(Stopped(g, p)) && Tidy(Collect(Stopped(g, p))) && Tidy(Middle(g, p)) && Tidy(Collect(Middle(g, p)))
  {
    hide Tidy, Stopped, Collect, WithoutApps;
    StoppedTidy(g, p);
    CollectTidy(Stopped(g, p));
    WithoutAppsTidy(Collect(Stopped(g, p)), p);
    CollectTidy(Middle(g, p));
  }

  lemma DetachedTidy(g: Graph, p: Project)
    requires Tidy(g)
    ensures Tidy(Detached(g, p))
  {
    hide Tidy, Stopped, Collect, WithoutApps, WithoutProject;
    MiddleTidy(g, p);
    WithoutProjectTidy(Collect(Middle(g, p)), p);
  }

  lemma DetachableIs(g: Graph)
    requires Mergeable(g)
    ensures Detachable(g)
  {
    hide Detachable;
  }

  /** Detaching a project, too. */
  lemma DetachMergeable(g: Graph, p: Project)
    requires Mergeable(g)
    ensures Mergeable(Detached(g, p))
  {
    hide Graph.CheckAll, Graph.Linked, Tidy, Detached, Mergeable, Detachable;
    MergeableIs(g);
    DetachableIs(g);
    DetachedSafe(g, p);
    DetachedTidy(g, p);
    MergeableIs(Detached(g, p));
  }

  lemma ScheduledLinks(g: Graph, rs: seq<Result>)
    requires g.CheckAll() && g.Linked()
    ensures g.(scheduled := rs).CheckAll() && g.(scheduled := rs).Linked()
  {
    var h := g.(scheduled := rs);
    forall f | f in h.fileInfos ensures h.CheckFileInfo(f) { assert g.CheckFileInfo(f); }
    forall v | v in h.appVersions ensures h.CheckAppVersion(v) { assert g.CheckAppVersion(v); }
    forall w | w in h.workunits ensures h.CheckWorkunit(w) { assert g.CheckWorkunit(w); }
    forall r | r in h.results ensures h.CheckResult(r) { assert g.CheckResult(r); }
    forall a | a in h.apps ensures h.CheckApp(a) { assert g.CheckApp(a); }
    forall x | x in h.persXfers ensures h.CheckPersFileXfer(x) { assert g.CheckPersFileXfer(x); }
    forall x | x in h.fileXfers ensures h.CheckFileXfer(x) { assert g.CheckFileXfer(x); }
    forall t | t in h.activeTasks ensures h.CheckActiveTask(t) { assert g.CheckActiveTask(t); }
    forall p | p in h.projects ensures h.CheckFileRefs(h.FilesOf(p)) { assert g.CheckFileRefs(g.FilesOf(p)); }
  }

  lemma ScheduledTidy(g: Graph, rs: seq<Result>)
    requires Tidy(g)
    ensures Tidy(g.(scheduled := rs))
  {
    var h := g.(scheduled := rs);
    assert forall q :: h.FilesOf(q) == g.FilesOf(q);
    hide KeysUnique, SeparateVersion, SeparateWorkunit, SeparateResult, Distinct;
    assert KeysUnique(h) by { KeysOf(g, h); }
  }

  lemma KeysOf(g: Graph, h: Graph)
    requires KeysUnique(g) && h == g.(scheduled := h.scheduled)
    ensures KeysUnique(h)
  {
    hide AppKeys, FileKeys, VersionKeys, WorkunitKeys, ResultKeys;
  }

  lemma ResetMergeable(g: Graph, p: Project, keepApps: bool)
    requires Mergeable(g)
    ensures Mergeable(WasReset(g, p, keepApps))
  {
    hide Graph.CheckAll, Graph.Linked, Tidy, Middle, Stopped, Collect, Mergeable, Detachable;
    MergeableIs(g);
    DetachableIs(g);
    MiddleTidy(g, p);
    StoppedSafe(g, p);
    CollectSafe(Stopped(g, p));
    MiddleSafe(g, p);
    CollectSafe(Middle(g, p));
    ScheduledLinks(Collect(Stopped(g, p)), []);
    ScheduledTidy(Collect(Stopped(g, p)), []);
    MergeableIs(WasReset(g, p, keepApps));
  }

  // ---- Tasks and transfers -----------------------------------------------------------------------

  /** A task for a result; the end of a task. */
  function StartTask(g: Graph, r: Result, addr: Address): Graph {
    if r in g.results then g.(activeTasks := g.activeTasks + [ActiveTask(addr, r, r.wup, r.avp)]) else g
  }

  ghost function EndTask(g: Graph, t: ActiveTask): Graph {
    g.(activeTasks := Filter(g.activeTasks, SetOf(g.activeTasks) - {t}))
  }

  /** A persistent transfer for a file without one, and its end. */
  function MakeXfer(g: Graph, f: FileInfo, addr: Address): Graph {
    var x := PersFileXfer(addr, f);
    if f in g.fileInfos && f !in g.persXfer && x !in g.netXfer then
      g.(persXfers := g.persXfers + [x], persXfer := g.persXfer[f := x])
    else g
  }

  ghost function EraseXfer(g: Graph, x: PersFileXfer): Graph {
    if x in g.persXfers && x !in g.netXfer then
      g.(persXfers := Filter(g.persXfers, SetOf(g.persXfers) - {x}), persXfer := g.persXfer - {x.fip})
    else g
  }

  /** A persistent transfer starts its network transfer, and lets go of it. */
  function BeginXfer(g: Graph, x: PersFileXfer, addr: Address): Graph {
    if x in g.persXfers && x !in g.netXfer then
      g.(fileXfers := g.fileXfers + [FileXfer(addr, x.fip)], netXfer := g.netXfer[x := FileXfer(addr, x.fip)])
    else g
  }

  ghost function EndXfer(g: Graph, x: PersFileXfer): Graph {
    if x in g.persXfers && x in g.netXfer then
      g.(fileXfers := Filter(g.fileXfers, SetOf(g.fileXfers) - {g.netXfer[x]}), netXfer := g.netXfer - {x})
    else g
  }

  /** Only tasks and transfers differ. */
  ghost predicate SameRecords(g: Graph, h: Graph) {
    h == g.(activeTasks := h.activeTasks, persXfers := h.persXfers, fileXfers := h.fileXfers,
            persXfer := h.persXfer, netXfer := h.netXfer)
  }

  /** Then what has to be seen to are tasks and transfers. */
  lemma SameRecordsMergeable(g: Graph, h: Graph)
    requires Mergeable(g) && SameRecords(g, h)
    requires forall f <- h.fileInfos :: f in h.persXfer ==> h.persXfer[f] in h.persXfers && h.persXfer[f].fip == f
    requires forall x <- h.persXfers :: h.CheckPersFileXfer(x) && x.fip in h.persXfer && h.persXfer[x.fip] == x
    requires forall x <- h.fileXfers :: h.CheckFileXfer(x)
    requires forall t <- h.activeTasks :: h.CheckActiveTask(t) && t.wup == t.result.wup && t.appVersion == t.result.avp
    requires XfersOwned(h) && Distinct(h.persXfers) && Distinct(h.fileXfers)
    ensures Mergeable(h)
  {
    assert forall q :: h.FilesOf(q) == g.FilesOf(q);
    forall f | f in h.fileInfos ensures h.CheckFileInfo(f) { assert g.CheckFileInfo(f); }
    forall v | v in h.appVersions ensures h.CheckAppVersion(v) { assert g.CheckAppVersion(v); }
    forall w | w in h.workunits ensures h.CheckWorkunit(w) { assert g.CheckWorkunit(w); }
    forall r | r in h.results ensures h.CheckResult(r) { assert g.CheckResult(r); }
    forall a | a in h.apps ensures h.CheckApp(a) { assert g.CheckApp(a); }
    hide KeysUnique, XfersOwned, Distinct, SeparateVersion, SeparateWorkunit, SeparateResult;
  }

  /** The facts about tasks and transfers that a mergeable graph has. */
  lemma XferFacts(g: Graph)
    requires Mergeable(g)
    ensures forall f <- g.fileInfos :: f in g.persXfer ==> g.persXfer[f] in g.persXfers && g.persXfer[f].fip == f
    ensures forall x <- g.persXfers :: x.fip in g.fileInfos && x.fip in g.persXfer && g.persXfer[x.fip] == x
    ensures forall x <- g.persXfers :: x in g.netXfer ==> g.netXfer[x] in g.fileXfers && g.netXfer[x].fip == x.fip
    ensures forall x <- g.fileXfers ::
              x.fip in g.fileInfos && exists y <- g.persXfers :: y in g.netXfer && g.netXfer[y] == x
    ensures Distinct(g.persXfers) && Distinct(g.fileXfers)
  {
    hide KeysUnique, Separate, SameApp, Distinct;
    forall f | f in g.fileInfos && f in g.persXfer ensures g.persXfer[f] in g.persXfers { assert g.CheckFileInfo(f); }
    forall x | x in g.persXfers
      ensures x.fip in g.fileInfos && (x in g.netXfer ==> g.netXfer[x] in g.fileXfers)
    {
      assert g.CheckPersFileXfer(x);
    }
    forall x | x in g.fileXfers ensures x.fip in g.fileInfos { assert g.CheckFileXfer(x); }
  }

  lemma TaskFacts(g: Graph)
    requires Mergeable(g)
    ensures forall t <- g.activeTasks ::
              t.result in g.results && t.wup in g.workunits && t.appVersion in g.appVersions
              && t.wup == t.result.wup && t.appVersion == t.result.avp
    ensures forall r <- g.results :: r.wup in g.workunits && r.avp in g.appVersions
  {
    hide KeysUnique, Separate, SameApp, Distinct, XfersOwned;
    forall t | t in g.activeTasks
      ensures t.result in g.results && t.wup in g.workunits && t.appVersion in g.appVersions
    {
      assert g.CheckActiveTask(t);
    }
    forall r | r in g.results ensures r.wup in g.workunits { assert g.CheckResult(r); }
  }

  lemma DistinctPush<T>(s: seq<T>, x: T)
    requires Distinct(s) && x !in s
    ensures Distinct(s + [x])
  {
  }

  /** Changing the tasks only. */
  lemma TasksMergeable(g: Graph, h: Graph)
    requires Mergeable(g) && h == g.(activeTasks := h.activeTasks)
    requires forall t <- h.activeTasks ::
               || t in g.activeTasks
               || (t.result in g.results && t == ActiveTask(t.addr, t.result, t.result.wup, t.result.avp))
    ensures Mergeable(h)
  {
    XferFacts(g);
    TaskFacts(g);
    hide KeysUnique, Separate, SameApp, Distinct, Graph.CheckAll, Graph.Linked;
    assert XfersOwned(h);
    hide XfersOwned, Mergeable;
    SameRecordsMergeable(g, h);
  }

  lemma StartTaskMergeable(g: Graph, r: Result, addr: Address)
    requires Mergeable(g)
    ensures Mergeable(StartTask(g, r, addr))
  {
    hide Mergeable;
    TasksMergeable(g, StartTask(g, r, addr));
  }

  lemma EndTaskMergeable(g: Graph, t: ActiveTask)
    requires Mergeable(g)
    ensures Mergeable(EndTask(g, t))
  {
    hide Mergeable;
    FilterIn(g.activeTasks, SetOf(g.activeTasks) - {t});
    hide Filter;
    TasksMergeable(g, EndTask(g, t));
  }

  lemma MakeXferMergeable(g: Graph, f: FileInfo, addr: Address)
    requires Mergeable(g)
    ensures Mergeable(MakeXfer(g, f, addr))
  {
    var x, h := PersFileXfer(addr, f), MakeXfer(g, f, addr);
    XferFacts(g);
    TaskFacts(g);
    hide Mergeable;
    if h != g {
      DistinctPush(g.persXfers, x);
      hide Distinct;
      assert XfersOwned(h);
      hide XfersOwned;
      SameRecordsMergeable(g, h);
    }
  }

  lemma EraseXferMergeable(g: Graph, x: PersFileXfer)
    requires Mergeable(g)
    ensures Mergeable(EraseXfer(g, x))
  {
    var h := EraseXfer(g, x);
    XferFacts(g);
    TaskFacts(g);
    hide Mergeable;
    if h != g {
      FilterIn(g.persXfers, SetOf(g.persXfers) - {x});
      FilterDistinct(g.persXfers, SetOf(g.persXfers) - {x});
      hide Distinct, Filter;
      assert XfersOwned(h);
      hide XfersOwned;
      SameRecordsMergeable(g, h);
    }
  }

  lemma BeginXferMergeable(g: Graph, x: PersFileXfer, addr: Address)
    requires Mergeable(g)
    ensures Mergeable(BeginXfer(g, x, addr))
  {
    var y, h := FileXfer(addr, x.fip), BeginXfer(g, x, addr);
    XferFacts(g);
    TaskFacts(g);
    hide Mergeable;
    if h != g {
      assert y !in g.fileXfers;
      DistinctPush(g.fileXfers, y);
      hide Distinct;
      assert XfersOwned(h);
      hide XfersOwned;
      SameRecordsMergeable(g, h);
    }
  }

  lemma EndXferMergeable(g: Graph, x: PersFileXfer)
    requires Mergeable(g)
    ensures Mergeable(EndXfer(g, x))
  {
    var h := EndXfer(g, x);
    XferFacts(g);
    TaskFacts(g);
    hide Mergeable;
    if h != g {
      FilterIn(g.fileXfers, SetOf(g.fileXfers) - {g.netXfer[x]});
      FilterDistinct(g.fileXfers, SetOf(g.fileXfers) - {g.netXfer[x]});
      hide Distinct, Filter;
      assert XfersOwned(h);
      hide XfersOwned;
      SameRecordsMergeable(g, h);
    }
  }

  // ---- Projects -------------------------------------------------------------------------------------

  /** A new project, and the files that a scheduler reply lists for it. */
  function Attach(g: Graph, p: Project): Graph {
    if p !in g.projects && g.FilesOf(p) == [] then g.(projects := g.projects + [p]) else g
  }

  function SetFiles(g: Graph, p: Project, files: seq<FileInfo>): Graph {
    if p in g.projects && g.CheckFileRefs(files) && OwnFiles(files, p)
    then g.(projectFiles := g.projectFiles[p := files])
    else g
  }

  lemma ProjectsMergeable(g: Graph, h: Graph)
    requires Mergeable(g) && h == g.(projects := h.projects, projectFiles := h.projectFiles)
    requires (forall p <- g.projects :: p in h.projects) && Distinct(h.projects)
    requires forall p <- h.projects :: g.CheckFileRefs(h.FilesOf(p)) && OwnFiles(h.FilesOf(p), p)
    ensures Mergeable(h)
  {
    forall f | f in h.fileInfos ensures h.CheckFileInfo(f) { assert g.CheckFileInfo(f); }
    forall v | v in h.appVersions ensures h.CheckAppVersion(v) { assert g.CheckAppVersion(v); }
    forall w | w in h.workunits ensures h.CheckWorkunit(w) { assert g.CheckWorkunit(w); }
    forall r | r in h.results ensures h.CheckResult(r) { assert g.CheckResult(r); }
    forall a | a in h.apps ensures h.CheckApp(a) { assert g.CheckApp(a); }
    forall x | x in h.persXfers ensures h.CheckPersFileXfer(x) { assert g.CheckPersFileXfer(x); }
    forall x | x in h.fileXfers ensures h.CheckFileXfer(x) { assert g.CheckFileXfer(x); }
    forall t | t in h.activeTasks ensures h.CheckActiveTask(t) { assert g.CheckActiveTask(t); }
    hide KeysUnique, SeparateVersion, SeparateWorkunit, SeparateResult;
  }

  lemma OwnProjectFiles(g: Graph)
    requires Mergeable(g)
    ensures Distinct(g.projects) && forall p <- g.projects :: g.CheckFileRefs(g.FilesOf(p)) && OwnFiles(g.FilesOf(p), p)
  {
    hide KeysUnique, SameApp, XfersOwned, Graph.CheckAll, Distinct;
  }

  lemma AttachMergeable(g: Graph, p: Project)
    requires Mergeable(g)
    ensures Mergeable(Attach(g, p))
  {
    var h := Attach(g, p);
    hide Mergeable;
    OwnProjectFiles(g);
    if h != g {
      DistinctPush(g.projects, p);
      hide Distinct;
      forall q | q in h.projects ensures g.CheckFileRefs(h.FilesOf(q)) && OwnFiles(h.FilesOf(q), q) {
        assert h.FilesOf(q) == g.FilesOf(q);
      }
      ProjectsMergeable(g, h);
    }
  }

  lemma SetFilesMergeable(g: Graph, p: Project, files: seq<FileInfo>)
    requires Mergeable(g)
    ensures Mergeable(SetFiles(g, p, files))
  {
    var h := SetFiles(g, p, files);
    hide Mergeable;
    OwnProjectFiles(g);
    if h != g {
      hide Distinct;
      forall q | q in h.projects ensures g.CheckFileRefs(h.FilesOf(q)) && OwnFiles(h.FilesOf(q), q) {
        assert h.FilesOf(q) == if q == p then files else g.FilesOf(q);
      }
      ProjectsMergeable(g, h);
    }
  }

  // ---- File statuses and the schedule ---------------------------------------------------------------

  /** A transfer or a check of a file ends. */
  function SetStatus(g: Graph, f: FileInfo, status: int): Graph {
    if f in g.fileInfos then g.(status := g.status[f := status]) else g
  }

  /** schedule_cpus: a new schedule of listed results. */
  function Schedule(g: Graph, rs: seq<Result>): Graph {
    if SetOf(rs) <= SetOf(g.results) then g.(scheduled := rs) else g
  }

  lemma SetStatusMergeable(g: Graph, f: FileInfo, status: int)
    requires Mergeable(g)
    ensures Mergeable(SetStatus(g, f, status))
  {
    hide Mergeable;
    FlagsKeep(g, SetStatus(g, f, status));
  }

  lemma ScheduleMergeable(g: Graph, rs: seq<Result>)
    requires Mergeable(g)
    ensures Mergeable(Schedule(g, rs))
  {
    hide Graph.CheckAll, Graph.Linked, Tidy, Mergeable;
    MergeableIs(g);
    ScheduledLinks(g, rs);
    ScheduledTidy(g, rs);
    MergeableIs(g.(scheduled := rs));
  }

  // ---- Runs ---------------------------------------------------------------------------------------------

  datatype Event =
    | DoCollect
    | DoDetach(p: Project)
    | DoReset(p: Project, keepApps: bool)
    | DoReply(p: Project, reply: Reply, platforms: seq<string>)
    | DoAttach(p: Project)
    | DoSetFiles(p: Project, files: seq<FileInfo>)
    | DoStartTask(r: Result)
    | DoEndTask(t: ActiveTask)
    | DoMakeXfer(f: FileInfo)
    | DoEraseXfer(x: PersFileXfer)
    | DoBeginXfer(x: PersFileXfer)
    | DoEndXfer(x: PersFileXfer)
    | DoSetStatus(f: FileInfo, status: int)
    | DoSchedule(rs: seq<Result>)

  /** The graph, and the first address that has not been given out. */
  datatype World = World(g: Graph, next: Address)

  ghost function Apply(w: World, e: Event): World {
    match e
    case DoCollect => w.(g := Collect(w.g))
    case DoDetach(p) => w.(g := Detached(w.g, p))
    case DoReset(p, keepApps) => w.(g := WasReset(w.g, p, keepApps))
    case DoReply(p, reply, platforms) =>
      if p in w.g.projects && |platforms| > 0
      then World(Merged(w.g, p, reply, platforms, w.next), w.next + SizeOf(reply))
      else w
    case DoAttach(p) => w.(g := Attach(w.g, p))
    case DoSetFiles(p, files) => w.(g := SetFiles(w.g, p, files))
    case DoStartTask(r) => World(StartTask(w.g, r, w.next), w.next + 1)
    case DoEndTask(t) => w.(g := EndTask(w.g, t))
    case DoMakeXfer(f) => World(MakeXfer(w.g, f, w.next), w.next + 1)
    case DoEraseXfer(x) => w.(g := EraseXfer(w.g, x))
    case DoBeginXfer(x) => World(BeginXfer(w.g, x, w.next), w.next + 1)
    case DoEndXfer(x) => w.(g := EndXfer(w.g, x))
    case DoSetStatus(f, status) => w.(g := SetStatus(w.g, f, status))
    case DoSchedule(rs) => w.(g := Schedule(w.g, rs))
  }

  ghost function Run(w: World, es: seq<Event>): World {
    if es == [] then w else Apply(Run(w, es[..|es| - 1]), es[|es| - 1])
  }

  ghost predicate Sound(w: World) { Mergeable(w.g) && Fresh(w.g, w.next) }

  lemma ApplyMergeable(w: World, e: Event)
    requires Sound(w)
    ensures Mergeable(Apply(w, e).g)
  {
    hide Mergeable, Fresh, Collect, Detached, WasReset, Merged, Attach, SetFiles, StartTask, EndTask, MakeXfer,
      EraseXfer, BeginXfer, EndXfer, SetStatus, Schedule;
    match e
    case DoCollect => CollectMergeable(w.g);
    case DoDetach(p) => DetachMergeable(w.g, p);
    case DoReset(p, keepApps) => ResetMergeable(w.g, p, keepApps);
    case DoReply(p, reply, platforms) =>
      if p in w.g.projects && |platforms| > 0 { MergedKeeps(w.g, p, reply, platforms, w.next); }
    case DoAttach(p) => AttachMergeable(w.g, p);
    case DoSetFiles(p, files) => SetFilesMergeable(w.g, p, files);
    case DoStartTask(r) => StartTaskMergeable(w.g, r, w.next);
    case DoEndTask(t) => EndTaskMergeable(w.g, t);
    case DoMakeXfer(f) => MakeXferMergeable(w.g, f, w.next);
    case DoEraseXfer(x) => EraseXferMergeable(w.g, x);
    case DoBeginXfer(x) => BeginXferMergeable(w.g, x, w.next);
    case DoEndXfer(x) => EndXferMergeable(w.g, x);
    case DoSetStatus(f, status) => SetStatusMergeable(w.g, f, status);
    case DoSchedule(rs) => ScheduleMergeable(w.g, rs);
  }

  /** Files and results only go, and flags and statuses are only set on listed ones. */
  ghost predicate Shrinks(g: Graph, h: Graph) {
    && (forall f <- h.fileInfos :: f in g.fileInfos) && (forall r <- h.results :: r in g.results)
    && (forall f <- h.persXfer.Keys :: f in g.persXfer || f in g.fileInfos)
    && (forall f <- h.status.Keys :: f in g.status || f in g.fileInfos) && h.markedForDelete == g.markedForDelete
    && (forall r <- h.acked + h.ready :: r in g.acked + g.ready || r in g.results)
  }

  lemma ShrinksFresh(g: Graph, h: Graph, addr: Address, next: Address)
    requires Shrinks(g, h) && Fresh(g, addr) && addr <= next
    ensures Fresh(h, next)
  {
  }

  lemma ShrinksTrans(g: Graph, h: Graph, k: Graph)
    requires Shrinks(g, h) && Shrinks(h, k)
    ensures Shrinks(g, k)
  {
  }

  lemma CollectShrinks(g: Graph)
    ensures Shrinks(g, Collect(g))
  {
    FilterIn(g.results, KeptResults(g));
    FilterIn(g.fileInfos, KeptFiles(g));
    hide Filter, KeptFiles, IsReported;
  }

  lemma StageShrinks(g: Graph, p: Project)
    ensures Shrinks(g, Stopped(g, p)) && Shrinks(g, WithoutApps(g, p)) && Shrinks(g, WithoutProject(g, p))
  {
    WithoutProjectMembers(g, p);
    hide Filter;
  }

  lemma DetachShrinks(g: Graph, p: Project, keepApps: bool)
    ensures Shrinks(g, Detached(g, p)) && Shrinks(g, WasReset(g, p, keepApps))
  {
    var s := Stopped(g, p);
    var m := Middle(g, p);
    hide Stopped, WithoutApps, WithoutProject, Collect, Shrinks;
    StageShrinks(g, p);
    CollectShrinks(s);
    ShrinksTrans(g, s, Collect(s));
    StageShrinks(Collect(s), p);
    ShrinksTrans(g, Collect(s), m);
    CollectShrinks(m);
    ShrinksTrans(g, m, Collect(m));
    StageShrinks(Collect(m), p);
    ShrinksTrans(g, Collect(m), Detached(g, p));
    ScheduledShrinks(g, Collect(s));
  }

  lemma ScheduledShrinks(g: Graph, h: Graph)
    requires Shrinks(g, h)
    ensures Shrinks(g, h.(scheduled := []))
  {
  }

  lemma MovesShrink(w: World, e: Event)
    requires !e.DoReply? && !e.DoCollect? && !e.DoDetach? && !e.DoReset?
    ensures Shrinks(w.g, Apply(w, e).g) && Apply(w, e).next >= w.next
  {
    hide Filter, Collect, Detached, WasReset, Merged;
  }

  lemma ApplyShrinks(w: World, e: Event)
    requires !e.DoReply?
    ensures Shrinks(w.g, Apply(w, e).g) && Apply(w, e).next >= w.next
  {
    hide Shrinks, Collect, Detached, WasReset, Merged;
    match e
    case DoCollect => CollectShrinks(w.g);
    case DoDetach(p) => DetachShrinks(w.g, p, true);
    case DoReset(p, keepApps) => DetachShrinks(w.g, p, keepApps);
    case _ => MovesShrink(w, e);
  }

  lemma ApplyFresh(w: World, e: Event)
    requires Sound(w)
    ensures Fresh(Apply(w, e).g, Apply(w, e).next)
  {
    hide Mergeable, Fresh, Merged, Shrinks;
    if e.DoReply? {
      if e.p in w.g.projects && |e.platforms| > 0 { MergedKeeps(w.g, e.p, e.reply, e.platforms, w.next); }
    } else {
      ApplyShrinks(w, e);
      hide Apply;
      ShrinksFresh(w.g, Apply(w, e).g, w.next, Apply(w, e).next);
    }
  }

  /** Over any run, every graph can be collected from, detached from and merged into again: links
      lead to listed records and do not cross projects, keys are unique, and every result runs a
      version of its workunit's application. */
  lemma {:induction false} RunSound(w: World, es: seq<Event>)
    requires Sound(w)
    ensures Sound(Run(w, es))
  {
    if es != [] {
      var v := Run(w, es[..|es| - 1]);
      RunSound(w, es[..|es| - 1]);
      hide Apply, Mergeable, Fresh;
      ApplyMergeable(v, es[|es| - 1]);
      ApplyFresh(v, es[|es| - 1]);
    }
  }

  /** A client without any projects. */
  const EMPTY: Graph := Graph([], [], [], [], [], [], [], [], [], [], map[], map[], {}, map[], map[], {}, {})

  /** So every graph that the client can reach is one. */
  lemma EveryRun(es: seq<Event>)
    ensures Sound(Run(World(EMPTY, 0), es))
    ensures var g := Run(World(EMPTY, 0), es).g; g.CheckAll() && g.Linked() && Detachable(g)
  {
    EmptySound();
    hide Fresh, Run, Detachable, KeysUnique, SameApp;
    RunSound(World(EMPTY, 0), es);
    DetachableIs(Run(World(EMPTY, 0), es).g);
    MergeableIs(Run(World(EMPTY, 0), es).g);
  }

  lemma EmptySound()
    ensures Sound(World(EMPTY, 0))
  {
  }

  lemma RunPush(w: World, es: seq<Event>, e: Event)
    ensures Run(w, es + [e]) == Apply(Run(w, es), e)
  {
    assert (es + [e])[..|es|] == es;
  }

  lemma RunLast(w: World, es: seq<Event>)
    requires es != []
    ensures Run(w, es) == Apply(Run(w, es[..|es| - 1]), es[|es| - 1])
  {
    hide Apply;
  }

  lemma {:induction false} RunConcat(w: World, es: seq<Event>, fs: seq<Event>)
    ensures Run(w, es + fs) == Run(Run(w, es), fs)
  {
    if fs == [] {
      assert es + fs == es;
    } else {
      var front, last := fs[..|fs| - 1], fs[|fs| - 1];
      RunConcat(w, es, front);
      RunLast(w, es + fs);
      RunLast(Run(w, es), fs);
      hide Run, Apply;
      assert (es + fs)[..|es + fs| - 1] == es + front && (es + fs)[|es + fs| - 1] == last;
    }
  }
}
