/** CLIENT_STATE::detach_project and CLIENT_STATE::reset_project (client/client_state.C). */
module Detach {
  import opened Sequences
  import opened Collector
  import opened Records
  import opened Vectors

  // ---- States that a project can be detached from -----------------------------

  predicate OwnFiles(files: seq<FileInfo>, p: Project) { forall f <- files :: f.project == p }

  predicate SeparateVersion(v: AppVersion) { v.app.project == v.project && OwnFiles(v.appFiles, v.project) }
  predicate SeparateWorkunit(w: Workunit) { w.app.project == w.project && OwnFiles(w.inputFiles, w.project) }
  predicate SeparateResult(r: Result) {
    r.wup.project == r.project && r.avp.project == r.project && r.app.project == r.project
        && OwnFiles(r.outputFiles, r.project)
  }

  /** Links never cross projects. */
  predicate Separate(g: Graph) {
    && (forall p <- g.projects :: OwnFiles(g.FilesOf(p), p))
    && (forall v <- g.appVersions :: SeparateVersion(v))
    && (forall w <- g.workunits :: SeparateWorkunit(w))
    && (forall r <- g.results :: SeparateResult(r))
  }

  /** Every network transfer belongs to a listed persistent one, for the same file. */
  predicate XfersOwned(g: Graph) {
    && (forall x <- g.fileXfers :: exists y <- g.persXfers :: y in g.netXfer && g.netXfer[y] == x)
    && (forall y <- g.persXfers :: y in g.netXfer ==> g.netXfer[y].fip == y.fip)
  }

  ghost predicate Detachable(g: Graph) {
    && g.CheckAll() && g.Linked() && Separate(g) && XfersOwned(g)
    && Distinct(g.projects) && Distinct(g.persXfers) && Distinct(g.fileXfers)
  }

  // ---- The stages ---------------------------------------------------------------

  /** After abort_project, the transfer loop, the acknowledgement loop and the clearing of the
      project's file lists. */
  ghost function Stopped(g: Graph, p: Project): Graph {
    g.(activeTasks := Filter(g.activeTasks, set t <- g.activeTasks | t.result.project != p),
       persXfers := Filter(g.persXfers, set x <- g.persXfers | x.fip.project != p),
       fileXfers := Filter(g.fileXfers, set x <- g.fileXfers | x.fip.project != p),
       persXfer := g.persXfer - (set x <- g.persXfers | x.fip.project == p :: x.fip),
       netXfer := g.netXfer - (set x <- g.persXfers | x.fip.project == p),
       acked := g.acked + (set r <- g.results | r.project == p),
       projectFiles := g.projectFiles[p := []])
  }

  /** After the scheduled results are forgotten and the project's applications are erased. */
  ghost function WithoutApps(g: Graph, p: Project): Graph {
    g.(scheduled := [],
       appVersions := Filter(g.appVersions, set v <- g.appVersions | v.project != p),
       apps := Filter(g.apps, set a <- g.apps | a.project != p))
  }

  /** After the files that outlived the collections and the project itself are erased. */
  ghost function WithoutProject(g: Graph, p: Project): Graph {
    g.(fileInfos := Filter(g.fileInfos, set f <- g.fileInfos | f.project != p),
       projects := Filter(g.projects, set q <- g.projects | q != p))
  }

  ghost function Detached(g: Graph, p: Project): Graph {
    WithoutProject(Collect(WithoutApps(Collect(Stopped(g, p)), p)), p)
  }

  /** Nothing in the graph belongs to the project. */
  predicate FreeOf(g: Graph, p: Project) {
    && p !in g.projects && g.scheduled == []
    && (forall a <- g.apps :: a.project != p)
    && (forall f <- g.fileInfos :: f.project != p)
    && (forall v <- g.appVersions :: v.project != p)
    && (forall w <- g.workunits :: w.project != p)
    && (forall r <- g.results :: r.project != p)
    && (forall t <- g.activeTasks :: t.result.project != p)
    && (forall x <- g.persXfers :: x.fip.project != p)
    && (forall x <- g.fileXfers :: x.fip.project != p)
  }

  lemma FilterIn<T>(s: seq<T>, keep: set<T>)
    ensures forall x :: x in Filter(s, keep) <==> x in s && x in keep
  {
    FilterMembers(s, keep);
    SetMembers(Filter(s, keep));
  }

  // ---- Each stage keeps the collector's precondition ---------------------------

  lemma StoppedMembers(g: Graph, p: Project)
    ensures var h := Stopped(g, p);
            && (forall t :: t in h.activeTasks <==> t in g.activeTasks && t.result.project != p)
            && (forall x :: x in h.persXfers <==> x in g.persXfers && x.fip.project != p)
            && (forall x :: x in h.fileXfers <==> x in g.fileXfers && x.fip.project != p)
  {
    FilterIn(g.activeTasks, set t <- g.activeTasks | t.result.project != p);
    FilterIn(g.persXfers, set x <- g.persXfers | x.fip.project != p);
    FilterIn(g.fileXfers, set x <- g.fileXfers | x.fip.project != p);
  }

  lemma StoppedSafe(g: Graph, p: Project)
    requires Detachable(g)
    ensures Stopped(g, p).CheckAll() && Stopped(g, p).Linked()
  {
    var h := Stopped(g, p);
    StoppedMembers(g, p);
    forall f | f in h.fileInfos ensures h.CheckFileInfo(f) {
      assert g.CheckFileInfo(f);
    }
    forall x | x in h.persXfers ensures h.CheckPersFileXfer(x) {
      assert g.CheckPersFileXfer(x);
    }
    forall x | x in h.fileXfers ensures h.CheckFileXfer(x) { assert g.CheckFileXfer(x); }
    forall t | t in h.activeTasks ensures h.CheckActiveTask(t) { assert g.CheckActiveTask(t); }
    forall v | v in h.appVersions ensures h.CheckAppVersion(v) { assert g.CheckAppVersion(v); }
    forall w | w in h.workunits ensures h.CheckWorkunit(w) { assert g.CheckWorkunit(w); }
    forall r | r in h.results ensures h.CheckResult(r) { assert g.CheckResult(r); }
    forall a | a in h.apps ensures h.CheckApp(a) { assert g.CheckApp(a); }
    forall q | q in h.projects ensures h.CheckFileRefs(h.FilesOf(q)) { assert g.CheckFileRefs(g.FilesOf(q)); }
  }

  /** Once its tasks are gone and its results acknowledged, the collector removes every result
      and workunit of the project, and exactly what it removes anyway of the others. */
  lemma StoppedKeeps(g: Graph, p: Project)
    requires Detachable(g)
    ensures KeptResults(Stopped(g, p)) == set r <- KeptResults(g) | r.project != p
    ensures KeptWorkunits(Stopped(g, p)) == set w <- KeptWorkunits(g) | w.project != p
    ensures forall v <- g.appVersions :: v.project != p ==>
            (v in KeptAppVersions(Stopped(g, p)) <==> v in KeptAppVersions(g))
  {
    var h := Stopped(g, p);
    StoppedMembers(g, p);
    forall r | r in g.results ensures r in KeptResults(h) <==> r in KeptResults(g) && r.project != p {
      if r.project != p {
        assert h.HasTask(r) <==> g.HasTask(r);
      }
    }
    assert KeptResults(h) == set r <- KeptResults(g) | r.project != p;
    assert forall r <- KeptResults(g) :: SeparateResult(r);
    forall v | v in g.appVersions && v.project != p
      ensures v in AppVersionsOf(KeptResults(h)) <==> v in AppVersionsOf(KeptResults(g))
    {
    }
  }

  /** The same for what the records that stay refer to. */
  lemma StoppedRecordRefs(g: Graph, p: Project, f: FileInfo)
    requires Detachable(g) && f.project != p
    ensures var h := Stopped(g, p);
            && (f in OutputRefs(KeptResults(h)) <==> f in OutputRefs(KeptResults(g)))
            && (f in InputRefs(KeptWorkunits(h)) <==> f in InputRefs(KeptWorkunits(g)))
            && (f in AppRefs(KeptAppVersions(h)) <==> f in AppRefs(KeptAppVersions(g)))
  {
    var h := Stopped(g, p);
    StoppedKeeps(g, p);
    StoppedVersions(g, p);
    RecordRefsStay(g);
    hide Stopped, KeptWorkunits, Graph.CheckAll, Graph.Linked, XfersOwned, Distinct, KeptFiles, AppVersionsOf,
        Superseded;
    assert forall r <- KeptResults(g) :: r in g.results && SeparateResult(r);
    assert forall w <- KeptWorkunits(g) :: w in SetOf(g.workunits) && SeparateWorkunit(w);
    assert forall v <- KeptAppVersions(g) :: v in g.appVersions && SeparateVersion(v);
    assert forall v <- KeptAppVersions(h) :: v in g.appVersions && SeparateVersion(v);
  }

  /** The same for projects and transfers. */
  lemma StoppedOutsideRefs(g: Graph, p: Project, f: FileInfo)
    requires Separate(g) && f.project != p
    ensures var h := Stopped(g, p);
            && (f in ProjectRefs(h, SetOf(h.projects)) <==> f in ProjectRefs(g, SetOf(g.projects)))
            && (f in NetRefs(SetOf(h.fileXfers)) <==> f in NetRefs(SetOf(g.fileXfers)))
            && (f in PersRefs(SetOf(h.persXfers)) <==> f in PersRefs(SetOf(g.persXfers)))
  {
    var h := Stopped(g, p);
    StoppedMembers(g, p);
    hide Filter;
    assert forall q :: h.FilesOf(q) == if q == p then [] else g.FilesOf(q);
  }

  /** So the files of other projects stay or go as they would have anyway. */
  lemma StoppedRefs(g: Graph, p: Project)
    requires Detachable(g)
    ensures forall f <- g.fileInfos :: f.project != p ==> (f in KeptFiles(Stopped(g, p)) <==> f in KeptFiles(g))
  {
    var h := Stopped(g, p);
    forall f | f in g.fileInfos && f.project != p ensures f in KeptFiles(h) <==> f in KeptFiles(g) {
      StoppedRecordRefs(g, p, f);
      StoppedOutsideRefs(g, p, f);
      assert Exempt(h, f) <==> Exempt(g, f);
      StoppedVersions(g, p);
      hide Detachable, Stopped, ProjectRefs, OutputRefs, InputRefs, AppRefs, NetRefs, PersRefs, KeptResults,
           KeptWorkunits, KeptAppVersions, Exempt;
    }
  }

  /** What the first collection leaves has no result or workunit of the project. */
  lemma FirstCollection(g: Graph, p: Project)
    requires Detachable(g)
    ensures SetOf(Collect(Stopped(g, p)).results) == KeptResults(Stopped(g, p))
    ensures SetOf(Collect(Stopped(g, p)).workunits) == KeptWorkunits(Stopped(g, p))
    ensures SetOf(Collect(Stopped(g, p)).appVersions) == KeptAppVersions(Stopped(g, p))
    ensures SetOf(Collect(Stopped(g, p)).fileInfos) == KeptFiles(Stopped(g, p))
  {
    var s := Stopped(g, p);
    hide Detachable, Stopped, KeptResults, KeptWorkunits, KeptAppVersions, KeptFiles;
    StoppedSafe(g, p);
    CollectMembers(s);
    RecordRefsStay(s);
    assert SetOf(s.workunits) * KeptWorkunits(s) == KeptWorkunits(s);
  }

  /** So the project's applications can go. */
  lemma AppsCanGo(g: Graph, p: Project)
    requires Detachable(g)
    ensures forall r <- Collect(Stopped(g, p)).results :: SeparateResult(r) && r.project != p
    ensures forall w <- Collect(Stopped(g, p)).workunits :: SeparateWorkunit(w) && w.project != p
    ensures forall v <- Collect(Stopped(g, p)).appVersions :: SeparateVersion(v)
  {
    hide Collect, KeptFiles, Stopped, Graph.CheckAll, Graph.Linked, SeparateResult, SeparateWorkunit, SeparateVersion,
        XfersOwned, Distinct;
    var h := Collect(Stopped(g, p));
    FirstCollection(g, p);
    RecordRefsStay(g);
    StoppedKeeps(g, p);
    forall r | r in h.results ensures SeparateResult(r) && r.project != p {
      assert r in SetOf(h.results) && r in KeptResults(g);
    }
    forall w | w in h.workunits ensures SeparateWorkunit(w) && w.project != p {
      assert w in SetOf(h.workunits) && w in KeptWorkunits(g) && w in SetOf(g.workunits);
    }
    forall v | v in h.appVersions ensures SeparateVersion(v) {
      assert v in SetOf(h.appVersions) && v in KeptAppVersions(Stopped(g, p));
      StoppedVersions(g, p);
    }
  }

  lemma StoppedVersions(g: Graph, p: Project)
    ensures Stopped(g, p).appVersions == g.appVersions && Stopped(g, p).fileInfos == g.fileInfos
    ensures Stopped(g, p).results == g.results && Stopped(g, p).workunits == g.workunits
  {
  }

  lemma WithoutAppsMembers(g: Graph, p: Project)
    ensures forall v :: v in WithoutApps(g, p).appVersions <==> v in g.appVersions && v.project != p
    ensures forall a :: a in WithoutApps(g, p).apps <==> a in g.apps && a.project != p
  {
    FilterIn(g.appVersions, set v <- g.appVersions | v.project != p);
    FilterIn(g.apps, set a <- g.apps | a.project != p);
  }

  lemma WithoutAppsSafe(g: Graph, p: Project)
    requires g.CheckAll() && g.Linked()
    requires forall r <- g.results :: SeparateResult(r) && r.project != p
    requires forall w <- g.workunits :: SeparateWorkunit(w) && w.project != p
    requires forall v <- g.appVersions :: SeparateVersion(v)
    ensures WithoutApps(g, p).CheckAll() && WithoutApps(g, p).Linked()
  {
    var h := WithoutApps(g, p);
    WithoutAppsMembers(g, p);
    forall f | f in h.fileInfos ensures h.CheckFileInfo(f) { assert g.CheckFileInfo(f); }
    forall x | x in h.persXfers ensures h.CheckPersFileXfer(x) { assert g.CheckPersFileXfer(x); }
    forall x | x in h.fileXfers ensures h.CheckFileXfer(x) { assert g.CheckFileXfer(x); }
    forall t | t in h.activeTasks ensures h.CheckActiveTask(t) { assert g.CheckActiveTask(t); }
    forall v | v in h.appVersions ensures h.CheckAppVersion(v) { assert g.CheckAppVersion(v); }
    forall w | w in h.workunits ensures h.CheckWorkunit(w) { assert g.CheckWorkunit(w); }
    forall r | r in h.results ensures h.CheckResult(r) { assert g.CheckResult(r); }
    forall a | a in h.apps ensures h.CheckApp(a) { assert g.CheckApp(a); }
    forall q | q in h.projects ensures h.CheckFileRefs(h.FilesOf(q)) { assert g.CheckFileRefs(g.FilesOf(q)); }
  }

  /** The state before the second collection. */
  ghost function Middle(g: Graph, p: Project): Graph {
    WithoutApps(Collect(Stopped(g, p)), p)
  }

  lemma MiddleSafe(g: Graph, p: Project)
    requires Detachable(g)
    ensures Middle(g, p).CheckAll() && Middle(g, p).Linked()
  {
    hide Stopped, WithoutApps, Collect, SeparateResult, SeparateWorkunit, SeparateVersion, Detachable, Graph.CheckAll,
        Graph.Linked;
    AppsCanGo(g, p);
    StoppedSafe(g, p);
    CollectSafe(Stopped(g, p));
    WithoutAppsSafe(Collect(Stopped(g, p)), p);
  }

  /** Erasing applications that no result uses leaves no version superseded that was not. */
  lemma WithoutAppsKeeps(h: Graph, p: Project)
    requires Clean(h)
    ensures KeptResults(WithoutApps(h, p)) == KeptResults(h)
    ensures KeptAppVersions(WithoutApps(h, p)) == SetOf(WithoutApps(h, p).appVersions)
  {
    var m := WithoutApps(h, p);
    WithoutAppsMembers(h, p);
    hide KeptFiles, Filter;
    assert forall r :: m.HasTask(r) <==> h.HasTask(r);
    assert KeptResults(m) == KeptResults(h);
    forall v | v in m.appVersions ensures v in KeptAppVersions(m) {
      assert v in SetOf(h.appVersions) && v in KeptAppVersions(h);
      assert Superseded(v, m.appVersions) ==> Superseded(v, h.appVersions);
    }
  }

  /** The second collection finds no more results, workunits or application versions to delete. */
  lemma MiddleKeeps(g: Graph, p: Project)
    requires Detachable(g)
    ensures KeptResults(Middle(g, p)) == KeptResults(Stopped(g, p)) == SetOf(Middle(g, p).results)
    ensures KeptWorkunits(Middle(g, p)) == KeptWorkunits(Stopped(g, p)) == SetOf(Middle(g, p).workunits)
    ensures KeptAppVersions(Middle(g, p)) == SetOf(Middle(g, p).appVersions)
  {
    var s := Stopped(g, p);
    FirstCollection(g, p);
    StoppedSafe(g, p);
    CollectClean(s);
    CollectAgain(s);
    WithoutAppsKeeps(Collect(s), p);
    hide Detachable, Stopped, Collect, KeptResults, KeptFiles, KeptAppVersions, Graph.CheckAll, Graph.Linked, Clean,
        SetOf;
  }

  lemma MiddleOutside(g: Graph, p: Project)
    ensures var s, m := Stopped(g, p), Middle(g, p);
            && ProjectRefs(m, SetOf(m.projects)) == ProjectRefs(s, SetOf(s.projects))
            && m.fileXfers == s.fileXfers && m.persXfers == s.persXfers
            && m.fileInfos == Collect(s).fileInfos
            && (forall f :: Exempt(m, f) <==> Exempt(s, f))
  {
    assert forall q :: Middle(g, p).FilesOf(q) == Stopped(g, p).FilesOf(q);
  }

  /** Files of other projects that the first collection kept are kept again. */
  lemma MiddleRefs(g: Graph, p: Project)
    requires Detachable(g)
    ensures forall f <- Middle(g, p).fileInfos :: f.project != p ==> f in KeptFiles(Middle(g, p))
  {
    var s, m := Stopped(g, p), Middle(g, p);
    MiddleOutside(g, p);
    MiddleKeeps(g, p);
    FirstCollection(g, p);
    AppsCanGo(g, p);
    WithoutAppsMembers(Collect(s), p);
    forall f | f in m.fileInfos && f.project != p ensures f in KeptFiles(m) {
      assert f in SetOf(m.fileInfos) && f in KeptFiles(s);
      if f in AppRefs(KeptAppVersions(s)) {
        var v :| v in KeptAppVersions(s) && f in v.appFiles;
        assert v in SetOf(Collect(s).appVersions) && SeparateVersion(v) && v in SetOf(m.appVersions);
      }
      hide Detachable, Stopped, Collect, Middle, WithoutApps, ProjectRefs, OutputRefs, InputRefs, NetRefs, PersRefs,
           KeptResults, KeptWorkunits, KeptAppVersions, Exempt;
    }
  }

  // ---- What a detach leaves -------------------------------------------------------

  /** The second collection only deletes files. */
  lemma MiddleFixed(g: Graph, p: Project)
    requires Detachable(g)
    ensures var m, n := Middle(g, p), Collect(Middle(g, p));
            n.results == m.results && n.workunits == m.workunits && n.appVersions == m.appVersions
  {
    var m := Middle(g, p);
    MiddleKeeps(g, p);
    FilterIdentity(m.results, KeptResults(m));
    FilterIdentity(m.workunits, KeptWorkunits(m));
    FilterIdentity(m.appVersions, KeptAppVersions(m));
    hide Detachable, Middle, Filter, KeptResults, KeptWorkunits, KeptAppVersions, KeptFiles;
  }

  /** Results and workunits: exactly those of other projects that an ordinary collection would
      have left, in the same order. */
  lemma DetachLeavesResults(g: Graph, p: Project)
    requires Detachable(g)
    ensures var d, k := Detached(g, p), Collect(g);
            && d.results == Filter(k.results, set r <- g.results | r.project != p)
            && d.workunits == Filter(k.workunits, set w <- g.workunits | w.project != p)
  {
    var s := Stopped(g, p);
    StoppedKeeps(g, p);
    MiddleFixed(g, p);
    hide Detachable, Filter, KeptResults, KeptWorkunits, KeptAppVersions, KeptFiles;
    assert Detached(g, p).results == Filter(g.results, KeptResults(s));
    assert Detached(g, p).workunits == Filter(g.workunits, KeptWorkunits(s));
    assert Collect(g).results == Filter(g.results, KeptResults(g));
    assert Collect(g).workunits == Filter(g.workunits, KeptWorkunits(g));
    hide Stopped, Collect, Detached;
    FilterBoth(g.results, KeptResults(g), (set r <- g.results | r.project != p), KeptResults(s));
    FilterBoth(g.workunits, KeptWorkunits(g), (set w <- g.workunits | w.project != p), KeptWorkunits(s));
  }

  /** What is left of the vectors after a detach, as filters of the first vectors. */
  lemma DetachedVersions(g: Graph, p: Project)
    requires Detachable(g)
    ensures var s := Stopped(g, p); var k := Collect(s);
            && k.appVersions == Filter(g.appVersions, KeptAppVersions(s))
            && Detached(g, p).appVersions == Filter(k.appVersions, set v <- k.appVersions | v.project != p)
  {
    MiddleFixed(g, p);
    hide Detachable, Filter, KeptResults, KeptWorkunits, KeptAppVersions, KeptFiles;
  }

  lemma DetachedFiles(g: Graph, p: Project)
    ensures var s, m := Stopped(g, p), Middle(g, p); var k := Collect(m);
            && m.fileInfos == Filter(g.fileInfos, KeptFiles(s)) && k.fileInfos == Filter(m.fileInfos, KeptFiles(m))
            && Detached(g, p).fileInfos == Filter(k.fileInfos, set f <- k.fileInfos | f.project != p)
  {
    hide Filter, KeptResults, KeptWorkunits, KeptAppVersions, KeptFiles;
  }

  /** Application versions: likewise. */
  lemma DetachLeavesVersions(g: Graph, p: Project)
    requires Detachable(g)
    ensures Detached(g, p).appVersions == Filter(Collect(g).appVersions, set v <- g.appVersions | v.project != p)
  {
    var s := Stopped(g, p);
    StoppedKeeps(g, p);
    DetachedVersions(g, p);
    assert Collect(g).appVersions == Filter(g.appVersions, KeptAppVersions(g));
    var others := set v <- g.appVersions | v.project != p;
    var mine := set v <- Collect(s).appVersions | v.project != p;
    hide Detachable, Filter, KeptResults, KeptWorkunits, KeptAppVersions, KeptFiles, Stopped, Collect, Detached;
    FilterIn(g.appVersions, KeptAppVersions(s));
    FilterBoth(g.appVersions, KeptAppVersions(g), others, KeptAppVersions(g) * others);
    FilterBoth(g.appVersions, KeptAppVersions(s), mine, KeptAppVersions(g) * others);
  }

  /** Files: likewise. */
  lemma DetachLeavesFiles(g: Graph, p: Project)
    requires Detachable(g)
    ensures Detached(g, p).fileInfos == Filter(Collect(g).fileInfos, set f <- g.fileInfos | f.project != p)
  {
    hide Detachable, Filter, KeptFiles, Stopped, Detached, Middle, KeptResults, KeptWorkunits, KeptAppVersions;
    var s, m := Stopped(g, p), Middle(g, p);
    StoppedRefs(g, p);
    MiddleRefs(g, p);
    DetachedFiles(g, p);
    var others := set f <- g.fileInfos | f.project != p;
    var mine := set f <- Collect(m).fileInfos | f.project != p;
    assert Collect(g).fileInfos == Filter(g.fileInfos, KeptFiles(g));
    hide Collect;
    forall f | f in g.fileInfos
      ensures f in KeptFiles(g) * others <==> f in KeptFiles(s) && f in KeptFiles(m) && f in mine
    {
      FilterIn(g.fileInfos, KeptFiles(s));
      FilterIn(m.fileInfos, KeptFiles(m));
    }
    FilterThree(g.fileInfos, KeptFiles(s), KeptFiles(m), mine, KeptFiles(g) * others);
    FilterBoth(g.fileInfos, KeptFiles(g), others, KeptFiles(g) * others);
  }

  /** Projects, applications, tasks and transfers: all those of other projects. */
  lemma DetachLeavesRest(g: Graph, p: Project)
    ensures var d := Detached(g, p);
            && d.projects == Filter(g.projects, set q <- g.projects | q != p)
            && d.apps == Filter(g.apps, set a <- g.apps | a.project != p)
            && d.activeTasks == Filter(g.activeTasks, set t <- g.activeTasks | t.result.project != p)
            && d.persXfers == Filter(g.persXfers, set x <- g.persXfers | x.fip.project != p)
            && d.fileXfers == Filter(g.fileXfers, set x <- g.fileXfers | x.fip.project != p)
  {
  }

  lemma DetachedRecordsAreFree(g: Graph, p: Project)
    requires Detachable(g)
    ensures var d := Detached(g, p);
            && (forall r <- d.results :: r.project != p) && (forall w <- d.workunits :: w.project != p)
            && (forall v <- d.appVersions :: v.project != p) && (forall f <- d.fileInfos :: f.project != p)
  {
    hide Detachable, Filter, Detached, Collect;
    var k := Collect(g);
    DetachLeavesResults(g, p);
    DetachLeavesVersions(g, p);
    DetachLeavesFiles(g, p);
    FilterIn(k.results, set r <- g.results | r.project != p);
    FilterIn(k.workunits, set w <- g.workunits | w.project != p);
    FilterIn(k.appVersions, set v <- g.appVersions | v.project != p);
    FilterIn(k.fileInfos, set f <- g.fileInfos | f.project != p);
  }

  /** A detach leaves nothing of the project. */
  lemma DetachedIsFree(g: Graph, p: Project)
    requires Detachable(g)
    ensures FreeOf(Detached(g, p), p)
  {
    hide Detachable, Filter;
    DetachedRecordsAreFree(g, p);
    StoppedMembers(g, p);
    FilterIn(g.projects, set q <- g.projects | q != p);
    FilterIn(g.apps, set a <- g.apps | a.project != p);
  }

  lemma WithoutProjectMembers(g: Graph, p: Project)
    ensures forall f :: f in WithoutProject(g, p).fileInfos <==> f in g.fileInfos && f.project != p
    ensures forall q :: q in WithoutProject(g, p).projects <==> q in g.projects && q != p
  {
    FilterIn(g.fileInfos, set f <- g.fileInfos | f.project != p);
    FilterIn(g.projects, set q <- g.projects | q != p);
  }

  /** When only files and the project itself are left of a project, they can go. */
  lemma WithoutProjectSafe(g: Graph, p: Project)
    requires g.CheckAll() && g.Linked() && Separate(g)
    requires FreeOf(WithoutProject(g, p), p)
    ensures WithoutProject(g, p).CheckAll() && WithoutProject(g, p).Linked()
  {
    var h := WithoutProject(g, p);
    WithoutProjectMembers(g, p);
    forall f | f in h.fileInfos ensures h.CheckFileInfo(f) { assert g.CheckFileInfo(f); }
    forall x | x in h.persXfers ensures h.CheckPersFileXfer(x) { assert g.CheckPersFileXfer(x); }
    forall x | x in h.fileXfers ensures h.CheckFileXfer(x) { assert g.CheckFileXfer(x); }
    forall t | t in h.activeTasks ensures h.CheckActiveTask(t) { assert g.CheckActiveTask(t); }
    forall v | v in h.appVersions ensures h.CheckAppVersion(v) { assert g.CheckAppVersion(v) && SeparateVersion(v); }
    forall w | w in h.workunits ensures h.CheckWorkunit(w) { assert g.CheckWorkunit(w) && SeparateWorkunit(w); }
    forall r | r in h.results ensures h.CheckResult(r) { assert g.CheckResult(r) && SeparateResult(r); }
    forall a | a in h.apps ensures h.CheckApp(a) { assert g.CheckApp(a); }
    forall q | q in h.projects ensures h.CheckFileRefs(h.FilesOf(q)) { assert g.CheckFileRefs(g.FilesOf(q)); }
  }

  lemma CollectSeparate(g: Graph)
    requires Separate(g)
    ensures Separate(Collect(g))
  {
    var h := Collect(g);
    FilterIn(g.results, KeptResults(g));
    FilterIn(g.workunits, KeptWorkunits(g));
    FilterIn(g.appVersions, KeptAppVersions(g));
    assert forall q <- h.projects :: h.FilesOf(q) == g.FilesOf(q);
  }

  lemma MiddleSeparate(g: Graph, p: Project)
    requires Separate(g)
    ensures Separate(Middle(g, p))
  {
    var s := Stopped(g, p);
    assert forall q <- s.projects :: s.FilesOf(q) == if q == p then [] else g.FilesOf(q);
    CollectSeparate(s);
    WithoutAppsMembers(Collect(s), p);
    assert forall q <- s.projects :: Middle(g, p).FilesOf(q) == Collect(s).FilesOf(q);
  }

  /** check_all holds on what a detach leaves. */
  lemma DetachedSafe(g: Graph, p: Project)
    requires Detachable(g)
    ensures Detached(g, p).CheckAll() && Detached(g, p).Linked()
  {
    var m := Middle(g, p);
    MiddleSafe(g, p);
    MiddleSeparate(g, p);
    CollectSafe(m);
    CollectSeparate(m);
    DetachedIsFree(g, p);
    WithoutProjectSafe(Collect(m), p);
  }

  // ---- The program ------------------------------------------------------------------

  /** The network transfers that none of `gone` runs. */
  ghost function Running(g: Graph, gone: set<PersFileXfer>): set<FileXfer> {
    set x <- g.fileXfers | forall y <- gone :: y in g.netXfer ==> g.netXfer[y] != x
  }

  ghost function FilesOfXfers(xs: set<PersFileXfer>): set<FileInfo> { set x <- xs :: x.fip }

  lemma RunningStep(g: Graph, gone: set<PersFileXfer>, x: PersFileXfer)
    ensures var net := Filter(g.fileXfers, Running(g, gone));
            Filter(g.fileXfers, Running(g, gone + {x}))
            == if x in g.netXfer && x !in gone then Filter(net, SetOf(net) - {g.netXfer[x]}) else net
  {
    var net := Filter(g.fileXfers, Running(g, gone));
    FilterIn(g.fileXfers, Running(g, gone));
    if x in g.netXfer && x !in gone {
      FilterBoth(g.fileXfers, Running(g, gone), SetOf(net) - {g.netXfer[x]}, Running(g, gone + {x}));
    } else {
      assert Running(g, gone + {x}) == Running(g, gone);
    }
  }

  /** When every persistent transfer of the project is gone, so is every network transfer of it. */
  lemma RunningEnd(g: Graph, p: Project, gone: set<PersFileXfer>)
    requires XfersOwned(g)
    requires gone == set x <- g.persXfers | x.fip.project == p
    ensures Filter(g.fileXfers, Running(g, gone)) == Filter(g.fileXfers, set x <- g.fileXfers | x.fip.project != p)
  {
    var others := set x <- g.fileXfers | x.fip.project != p;
    forall x | x in g.fileXfers ensures x in Running(g, gone) <==> x in others {
      var y :| y in g.persXfers && y in g.netXfer && g.netXfer[y] == x;
    }
    FilterToSame(g.fileXfers, |g.fileXfers|, Running(g, gone), others);
  }

  lemma FilterDistinct<T>(s: seq<T>, keep: set<T>)
    requires Distinct(s)
    ensures Distinct(Filter(s, keep))
  {
    ScannedDistinct(s, |s|, keep);
    ScanShape(s, |s|, keep);
    assert Scanned(s, |s|, keep) == Filter(s, keep);
  }

  /** What the transfer fields are once `gone` has been stopped. */
  ghost predicate AfterStopping(g: Graph, gone: set<PersFileXfer>, net: seq<FileXfer>,
                                ofFile: map<FileInfo, PersFileXfer>, runs: map<PersFileXfer, FileXfer>) {
    && net == Filter(g.fileXfers, Running(g, gone))
    && ofFile == g.persXfer - FilesOfXfers(gone)
    && runs == g.netXfer - gone
  }

  /** Stop one persistent transfer: remove the network transfer it runs and the file's link. */
  method StopOne(g: Graph, x: PersFileXfer, net: seq<FileXfer>, ofFile: map<FileInfo, PersFileXfer>,
                 runs: map<PersFileXfer, FileXfer>, ghost gone: set<PersFileXfer>)
    returns (net': seq<FileXfer>, ofFile': map<FileInfo, PersFileXfer>, runs': map<PersFileXfer, FileXfer>)
    requires Distinct(g.fileXfers) && AfterStopping(g, gone, net, ofFile, runs)
    ensures AfterStopping(g, gone + {x}, net', ofFile', runs')
  {
    RunningStep(g, gone, x);
    net' := net;
    if x in runs {
      FilterDistinct(g.fileXfers, Running(g, gone));
      net' := EraseFirst(net, runs[x]);
    }
    assert FilesOfXfers(gone + {x}) == FilesOfXfers(gone) + {x.fip};
    ofFile', runs' := ofFile - {x.fip}, runs - {x};
  }

  /** Removing the element under the iterator by searching for it. */
  method EraseCurrent(pers: seq<PersFileXfer>, x: PersFileXfer, ghost i: nat, ghost all: seq<PersFileXfer>,
                      ghost k: nat, ghost keep: set<PersFileXfer>) returns (pers': seq<PersFileXfer>)
    requires Distinct(all) && Scan(pers, i, all, k, keep) && i < |pers| && pers[i] == x
    ensures pers' == Erase(pers, i)
  {
    ScannedDistinct(all, k, keep);
    pers' := EraseFirst(pers, x);
  }

  /** Stop the project's transfers: each persistent one is removed together with the network
      transfer it runs. */
  method StopTransfers(g: Graph, p: Project, ghost keep: set<PersFileXfer>, ghost drop: set<PersFileXfer>)
    returns (pers: seq<PersFileXfer>, net: seq<FileXfer>, ofFile: map<FileInfo, PersFileXfer>, runs: map<PersFileXfer,
        FileXfer>)
    requires Distinct(g.fileXfers) && Distinct(g.persXfers)
    requires forall x <- g.persXfers :: (x in keep <==> x.fip.project != p) && (x in drop <==> x.fip.project == p)
    ensures pers == Filter(g.persXfers, keep)
    ensures AfterStopping(g, SetOf(g.persXfers) * drop, net, ofFile, runs)
  {
    pers, net, ofFile, runs := g.persXfers, g.fileXfers, g.persXfer, g.netXfer;
    var i := 0;
    ghost var k := 0;
    FilterIdentity(g.fileXfers, Running(g, {}));
    while i < |pers|
      invariant Scan(pers, i, g.persXfers, k, keep)
      invariant AfterStopping(g, Kept(g.persXfers, k, drop), net, ofFile, runs)
      decreases |g.persXfers| - k
    {
      ScanNext(pers, i, g.persXfers, k, keep);
      var x := pers[i];
      if x.fip.project == p {
        net, ofFile, runs := StopOne(g, x, net, ofFile, runs, Kept(g.persXfers, k, drop));
        pers := EraseCurrent(pers, x, i, g.persXfers, k, keep);
      } else {
        assert Kept(g.persXfers, k + 1, drop) == Kept(g.persXfers, k, drop);
        i := i + 1;
      }
      k := k + 1;
    }
    ScanEnd(pers, i, g.persXfers, k, keep);
    FilterMembers(g.persXfers, drop);
  }

  /** Mark the project's results as acknowledged by the server. */
  method AckResults(g: Graph, p: Project) returns (acked: set<Result>)
    ensures acked == g.acked + (set r <- g.results | r.project == p)
  {
    acked := g.acked;
    for i := 0 to |g.results|
      invariant acked == g.acked + (set r <- g.results[..i] | r.project == p)
    {
      assert g.results[..i + 1] == g.results[..i] + [g.results[i]];
      if g.results[i].project == p { acked := acked + {g.results[i]}; }
    }
    assert g.results[..|g.results|] == g.results;
  }

  /** The part of reset_project before the first collection. */
  method StopProject(g: Graph, p: Project) returns (h: Graph)
    requires Detachable(g)
    ensures h == Stopped(g, p)
  {
    ghost var drop := set x <- g.persXfers | x.fip.project == p;
    var tasks := EraseWhere(g.activeTasks, (t: ActiveTask) => t.result.project == p,
                            set t <- g.activeTasks | t.result.project != p);
    var pers, net, ofFile, runs := StopTransfers(g, p, (set x <- g.persXfers | x.fip.project != p), drop);
    assert SetOf(g.persXfers) * drop == drop;
    RunningEnd(g, p, drop);
    assert FilesOfXfers(drop) == set x <- g.persXfers | x.fip.project == p :: x.fip;
    var acked := AckResults(g, p);
    h := g.(activeTasks := tasks, persXfers := pers, fileXfers := net, persXfer := ofFile, netXfer := runs,
            acked := acked, projectFiles := g.projectFiles[p := []]);
  }

  method EraseApps(g: Graph, p: Project) returns (h: Graph)
    ensures h == WithoutApps(g, p)
  {
    var versions := EraseWhere(g.appVersions, (v: AppVersion) => v.project == p,
        set v <- g.appVersions | v.project != p);
    var apps := EraseWhere(g.apps, (a: App) => a.project == p, set a <- g.apps | a.project != p);
    h := g.(scheduled := [], appVersions := versions, apps := apps);
  }

  method EraseProject(g: Graph, p: Project) returns (h: Graph)
    requires Distinct(g.projects)
    ensures h == WithoutProject(g, p)
  {
    var files := EraseWhere(g.fileInfos, (f: FileInfo) => f.project == p, set f <- g.fileInfos | f.project != p);
    var projects := EraseFirst(g.projects, p);
    FilterToSame(g.projects, |g.projects|, SetOf(g.projects) - {p}, set q <- g.projects | q != p);
    h := g.(fileInfos := files, projects := projects);
  }

  /** The state after a reset that keeps the applications of the project, or does not. */
  ghost function WasReset(g: Graph, p: Project, keepApps: bool): Graph {
    if keepApps then Collect(Stopped(g, p)).(scheduled := []) else Collect(Middle(g, p))
  }

  /** CLIENT_STATE::reset_project. Applications stay when the project uses its own
      (anonymous platform) and is not being detached. */
  method ResetProject(c: ClientState, p: Project, anonymousPlatform: bool, detaching: bool)
    requires Detachable(c.g)
    modifies c
    ensures c.g == WasReset(old(c.g), p, anonymousPlatform && !detaching)
  {
    StoppedSafe(c.g, p);
    MiddleSafe(c.g, p);
    c.g := StopProject(c.g, p);
    var _ := GarbageCollectAlways(c);
    c.g := c.g.(scheduled := []);
    if !anonymousPlatform || detaching {
      c.g := EraseApps(c.g, p);
      var _ := GarbageCollectAlways(c);
    }
  }

  /** CLIENT_STATE::detach_project. */
  method DetachProject(c: ClientState, p: Project)
    requires Detachable(c.g)
    modifies c
    ensures c.g == Detached(old(c.g), p)
    ensures FreeOf(c.g, p) && c.g.CheckAll() && c.g.Linked()
  {
    DetachedIsFree(c.g, p);
    DetachedSafe(c.g, p);
    ResetProject(c, p, false, true);
    c.g := EraseProject(c.g, p);
  }
}
