/** CLIENT_STATE::garbage_collect_always (client/client_state.C): a staged reference-counting
    collector that deletes from the vectors in place, proved against a reachability
    specification that mentions neither counters nor the order of deletion. */
module Collector {
  import opened Sequences
  import opened Records
  import opened Vectors

  // ---- Reachability specification ------------------------------------------

  ghost function KeptResults(g: Graph): set<Result> {
    set r <- g.results | r !in g.acked || g.HasTask(r)
  }

  ghost function WorkunitsOf(rs: set<Result>): set<Workunit> { set r <- rs :: r.wup }
  ghost function AppVersionsOf(rs: set<Result>): set<AppVersion> { set r <- rs :: r.avp }

  /** A more recent version of the same application and plan class is listed. */
  predicate Superseded(a: AppVersion, versions: seq<AppVersion>) {
    exists b <- versions :: b.app == a.app && b.versionNum > a.versionNum && b.planClass == a.planClass
  }

  ghost function KeptWorkunits(g: Graph): set<Workunit> {
    WorkunitsOf(KeptResults(g))
  }

  /** Which of the listed versions stay, when results use `used`. */
  ghost function VersionsToKeep(versions: seq<AppVersion>, used: set<AppVersion>): set<AppVersion> {
    set a <- versions | a in used || !Superseded(a, versions)
  }

  ghost function KeptAppVersions(g: Graph): set<AppVersion> {
    VersionsToKeep(g.appVersions, AppVersionsOf(KeptResults(g)))
  }

  ghost function ProjectRefs(g: Graph, ps: set<Project>): set<FileInfo> { set p <- ps, f <- g.FilesOf(p) :: f }
  ghost function OutputRefs(rs: set<Result>): set<FileInfo> { set r <- rs, f <- r.outputFiles :: f }
  ghost function InputRefs(ws: set<Workunit>): set<FileInfo> { set w <- ws, f <- w.inputFiles :: f }
  ghost function AppRefs(vs: set<AppVersion>): set<FileInfo> { set v <- vs, f <- v.appFiles :: f }
  ghost function NetRefs(xs: set<FileXfer>): set<FileInfo> { set x <- xs :: x.fip }
  ghost function PersRefs(xs: set<PersFileXfer>): set<FileInfo> { set x <- xs :: x.fip }

  /** The files that something that stays refers to. */
  ghost function ReferencedFiles(g: Graph): set<FileInfo> {
    ProjectRefs(g, SetOf(g.projects)) + OutputRefs(KeptResults(g)) + InputRefs(KeptWorkunits(g))
    + AppRefs(KeptAppVersions(g)) + NetRefs(SetOf(g.fileXfers)) + PersRefs(SetOf(g.persXfers))
  }

  /** A file that stays even when nothing refers to it. */
  predicate Exempt(g: Graph, f: FileInfo) {
    f.sticky && g.Status(f) >= 0 && f !in g.markedForDelete
  }

  ghost function KeptFiles(g: Graph): set<FileInfo> {
    set f <- g.fileInfos | f in ReferencedFiles(g) || Exempt(g, f)
  }

  predicate AnyFailure(g: Graph, files: seq<FileInfo>) {
    exists f <- files :: IsFailure(g.Status(f))
  }

  /** A result that stays is reported when the server acknowledged it although a task still
      runs it, or when a file of its workunit, application version or output failed. */
  predicate IsReported(g: Graph, r: Result) {
    r in g.acked || AnyFailure(g, r.wup.inputFiles) || AnyFailure(g, r.avp.appFiles) || AnyFailure(g, r.outputFiles)
  }

  ghost function ReportedResults(g: Graph): set<Result> {
    set r <- KeptResults(g) | IsReported(g, r)
  }

  /** The whole effect of a collection. */
  ghost function Collect(g: Graph): Graph {
    g.(results := Filter(g.results, KeptResults(g)),
       workunits := Filter(g.workunits, KeptWorkunits(g)),
       appVersions := Filter(g.appVersions, KeptAppVersions(g)),
       fileInfos := Filter(g.fileInfos, KeptFiles(g)),
       ready := g.ready + ReportedResults(g))
  }

  /** Nothing is collectable. */
  ghost predicate Clean(g: Graph) {
    && SetOf(g.results) <= KeptResults(g)
    && SetOf(g.workunits) <= KeptWorkunits(g)
    && SetOf(g.appVersions) <= KeptAppVersions(g)
    && SetOf(g.fileInfos) <= KeptFiles(g)
  }

  // ---- What a collection keeps ----------------------------------------------

  lemma CollectMembers(g: Graph)
    ensures SetOf(Collect(g).results) == KeptResults(g)
    ensures SetOf(Collect(g).workunits) == SetOf(g.workunits) * KeptWorkunits(g)
    ensures SetOf(Collect(g).appVersions) == KeptAppVersions(g)
    ensures SetOf(Collect(g).fileInfos) == KeptFiles(g)
  {
    FilterMembers(g.results, KeptResults(g));
    FilterMembers(g.workunits, KeptWorkunits(g));
    FilterMembers(g.appVersions, KeptAppVersions(g));
    FilterMembers(g.fileInfos, KeptFiles(g));
    assert SetOf(g.results) * KeptResults(g) == KeptResults(g);
    assert SetOf(g.appVersions) * KeptAppVersions(g) == KeptAppVersions(g);
    assert SetOf(g.fileInfos) * KeptFiles(g) == KeptFiles(g);
  }

  /** What a result, workunit or application version that stays refers to stays. */
  lemma RecordRefsStay(g: Graph)
    requires g.CheckAll() && g.Linked()
    ensures KeptWorkunits(g) <= SetOf(g.workunits) && AppVersionsOf(KeptResults(g)) <= KeptAppVersions(g)
    ensures forall r <- KeptResults(g) :: SetOf(r.outputFiles) <= KeptFiles(g)
    ensures forall w <- KeptWorkunits(g) :: SetOf(w.inputFiles) <= KeptFiles(g)
    ensures forall v <- KeptAppVersions(g) :: SetOf(v.appFiles) <= KeptFiles(g)
  {
    forall r | r in KeptResults(g) ensures SetOf(r.outputFiles) <= KeptFiles(g) {
      assert SetOf(r.outputFiles) <= OutputRefs(KeptResults(g)) <= ReferencedFiles(g);
    }
    forall w | w in KeptWorkunits(g) ensures SetOf(w.inputFiles) <= KeptFiles(g) {
      assert w in g.workunits && SetOf(w.inputFiles) <= InputRefs(KeptWorkunits(g)) <= ReferencedFiles(g);
    }
    forall v | v in KeptAppVersions(g) ensures SetOf(v.appFiles) <= KeptFiles(g) {
      assert SetOf(v.appFiles) <= AppRefs(KeptAppVersions(g)) <= ReferencedFiles(g);
    }
  }

  /** What a project, a transfer or a task refers to stays. */
  lemma OutsideRefsStay(g: Graph)
    requires g.CheckAll() && g.Linked()
    ensures forall p <- g.projects :: SetOf(g.FilesOf(p)) <= KeptFiles(g)
    ensures forall x <- g.fileXfers :: x.fip in KeptFiles(g)
    ensures forall x <- g.persXfers :: x.fip in KeptFiles(g)
    ensures forall t <- g.activeTasks :: t.result in KeptResults(g)
  {
    forall p | p in g.projects ensures SetOf(g.FilesOf(p)) <= KeptFiles(g) {
      assert SetOf(g.FilesOf(p)) <= ProjectRefs(g, SetOf(g.projects)) <= ReferencedFiles(g);
    }
    forall x | x in g.fileXfers ensures x.fip in KeptFiles(g) {
      assert x.fip in NetRefs(SetOf(g.fileXfers));
    }
    forall x | x in g.persXfers ensures x.fip in KeptFiles(g) {
      assert x.fip in PersRefs(SetOf(g.persXfers));
    }
  }

  lemma CollectKeepsLinks(g: Graph)
    requires g.CheckAll() && g.Linked()
    ensures Collect(g).Linked()
  {
    var h := Collect(g);
    CollectMembers(g);
    RecordRefsStay(g);
    OutsideRefsStay(g);
    SetMembers(h.results);
    SetMembers(h.appVersions);
    SetMembers(h.fileInfos);
  }

  lemma CollectChecksRecords(g: Graph)
    requires g.CheckAll() && g.Linked()
    ensures var h := Collect(g); (forall v <- h.appVersions :: h.CheckAppVersion(v))
                                 && (forall w <- h.workunits :: h.CheckWorkunit(w))
                                 && (forall r <- h.results :: h.CheckResult(r))
  {
    var h := Collect(g);
    CollectMembers(g);
    RecordRefsStay(g);
    forall v | v in h.appVersions ensures h.CheckAppVersion(v) {
      assert v in SetOf(h.appVersions) && g.CheckAppVersion(v);
    }
    forall w | w in h.workunits ensures h.CheckWorkunit(w) {
      assert w in SetOf(h.workunits) && g.CheckWorkunit(w);
    }
    forall r | r in h.results ensures h.CheckResult(r) {
      assert r in SetOf(h.results) && g.CheckResult(r);
      assert r.wup in SetOf(h.workunits);
    }
  }

  lemma CollectChecksOutside(g: Graph)
    requires g.CheckAll() && g.Linked()
    ensures var h := Collect(g); (forall f <- h.fileInfos :: h.CheckFileInfo(f))
                                 && (forall t <- h.activeTasks :: h.CheckActiveTask(t))
                                 && (forall x <- h.persXfers :: h.CheckPersFileXfer(x))
                                 && (forall x <- h.fileXfers :: h.CheckFileXfer(x))
  {
    var h := Collect(g);
    CollectMembers(g);
    RecordRefsStay(g);
    OutsideRefsStay(g);
    forall f | f in h.fileInfos ensures h.CheckFileInfo(f) {
      assert f in SetOf(h.fileInfos) && g.CheckFileInfo(f);
    }
    forall t | t in h.activeTasks ensures h.CheckActiveTask(t) {
      assert g.CheckActiveTask(t) && t.result in SetOf(h.results);
      assert t.wup in SetOf(h.workunits) && t.appVersion in SetOf(h.appVersions);
    }
    forall x | x in h.persXfers ensures h.CheckPersFileXfer(x) {
      assert g.CheckPersFileXfer(x) && x.fip in SetOf(h.fileInfos);
    }
    forall x | x in h.fileXfers ensures h.CheckFileXfer(x) {
      assert x.fip in SetOf(h.fileInfos);
    }
  }

  /** Safety: no surviving record, task or transfer refers to a deleted one. The schedule may: see
      CollectKeepsSchedule. */
  lemma CollectSafe(g: Graph)
    requires g.CheckAll() && g.Linked()
    ensures Collect(g).CheckAll() && Collect(g).Linked()
  {
    CollectKeepsLinks(g);
    CollectChecksRecords(g);
    CollectChecksOutside(g);
    assert forall a <- g.apps :: g.CheckApp(a) && Collect(g).CheckApp(a);
  }

  /** ordered_scheduled_results is not looked at: it refers to listed results afterwards, exactly if
      none of the scheduled results is acknowledged without a task. */
  lemma CollectKeepsSchedule(g: Graph)
    requires SetOf(g.scheduled) <= SetOf(g.results)
    ensures SetOf(Collect(g).scheduled) <= SetOf(Collect(g).results) <==>
            forall r <- g.scheduled :: r !in g.acked || g.HasTask(r)
  {
    CollectMembers(g);
    hide Filter, Graph.HasTask;
    forall r | r in g.scheduled ensures r in g.results { assert r in SetOf(g.scheduled); }
    if forall r <- g.scheduled :: r !in g.acked || g.HasTask(r) {
      forall r | r in SetOf(Collect(g).scheduled) ensures r in SetOf(Collect(g).results) { assert r in KeptResults(g); }
    }
    if SetOf(Collect(g).scheduled) <= SetOf(Collect(g).results) {
      forall r | r in g.scheduled ensures r !in g.acked || g.HasTask(r) {
        assert r in SetOf(Collect(g).scheduled);
        assert r in KeptResults(g);
      }
    }
  }

  lemma SetMembers<T>(s: seq<T>)
    ensures forall x :: x in s <==> x in SetOf(s)
  {
  }

  /** A second look at the graph keeps the same records. */
  lemma CollectAgain(g: Graph)
    requires g.CheckAll() && g.Linked()
    ensures KeptResults(Collect(g)) == KeptResults(g)
    ensures KeptAppVersions(g) <= KeptAppVersions(Collect(g))
  {
    var h := Collect(g);
    CollectMembers(g);
    SetMembers(h.results);
    SetMembers(h.appVersions);
    assert forall r <- g.results :: h.HasTask(r) <==> g.HasTask(r);
    assert KeptResults(h) == KeptResults(g);
    assert forall a :: Superseded(a, h.appVersions) ==> Superseded(a, g.appVersions);
  }

  /** What is referred to is still referred to. */
  lemma CollectRefs(g: Graph)
    requires g.CheckAll() && g.Linked()
    ensures ReferencedFiles(g) <= ReferencedFiles(Collect(g))
  {
    var h := Collect(g);
    CollectAgain(g);
    assert forall p :: h.FilesOf(p) == g.FilesOf(p);
    hide KeptResults, KeptAppVersions, KeptFiles, Graph.CheckAll, Graph.Linked;
    assert ProjectRefs(h, SetOf(h.projects)) == ProjectRefs(g, SetOf(g.projects));
    assert AppRefs(KeptAppVersions(g)) <= AppRefs(KeptAppVersions(h));
    hide ProjectRefs, AppRefs, OutputRefs, InputRefs, NetRefs, PersRefs;
  }

  /** Idempotence: after a collection nothing is collectable. */
  lemma CollectClean(g: Graph)
    requires g.CheckAll() && g.Linked()
    ensures Clean(Collect(g))
  {
    var h := Collect(g);
    SameExempt(g);
    hide Collect, KeptResults, KeptAppVersions, ReferencedFiles, Exempt, Graph.CheckAll, Graph.Linked;
    CollectMembers(g);
    CollectAgain(g);
    CollectRefs(g);
    SetMembers(h.fileInfos);
    assert KeptWorkunits(h) == KeptWorkunits(g);
  }

  lemma SameExempt(g: Graph)
    ensures forall f :: Exempt(Collect(g), f) <==> Exempt(g, f)
  {
  }

  /** A clean graph is a fixed point up to the report marks: the vectors do not change. */
  lemma CleanIsFixed(g: Graph)
    ensures Clean(g) <==> Collect(g) == g.(ready := Collect(g).ready)
  {
    FilterIdentity(g.results, KeptResults(g));
    FilterIdentity(g.workunits, KeptWorkunits(g));
    FilterIdentity(g.appVersions, KeptAppVersions(g));
    FilterIdentity(g.fileInfos, KeptFiles(g));
  }

  // ---- The same in plain terms -----------------------------------------------------

  /** A surviving record, a project or a transfer refers to the file. */
  predicate Referenced(h: Graph, f: FileInfo) {
    || (exists p <- h.projects :: f in h.FilesOf(p))
    || (exists r <- h.results :: f in r.outputFiles)
    || (exists w <- h.workunits :: f in w.inputFiles)
    || (exists v <- h.appVersions :: f in v.appFiles)
    || (exists x <- h.fileXfers :: x.fip == f)
    || (exists x <- h.persXfers :: x.fip == f)
  }

  lemma OutsideRefsAre(g: Graph, f: FileInfo)
    ensures var h := Collect(g);
            && (f in ProjectRefs(g, SetOf(g.projects)) <==> exists p <- h.projects :: f in h.FilesOf(p))
            && (f in NetRefs(SetOf(g.fileXfers)) <==> exists x <- h.fileXfers :: x.fip == f)
            && (f in PersRefs(SetOf(g.persXfers)) <==> exists x <- h.persXfers :: x.fip == f)
  {
    assert forall p :: Collect(g).FilesOf(p) == g.FilesOf(p);
    hide KeptResults, KeptWorkunits, KeptAppVersions, KeptFiles, Filter;
  }

  lemma RecordRefsAre(g: Graph, f: FileInfo)
    requires g.CheckAll() && g.Linked()
    ensures var h := Collect(g);
            && (f in OutputRefs(KeptResults(g)) <==> exists r <- h.results :: f in r.outputFiles)
            && (f in InputRefs(KeptWorkunits(g)) <==> exists w <- h.workunits :: f in w.inputFiles)
            && (f in AppRefs(KeptAppVersions(g)) <==> exists v <- h.appVersions :: f in v.appFiles)
  {
    var h := Collect(g);
    hide KeptResults, KeptWorkunits, KeptAppVersions, KeptFiles, Graph.CheckAll, Graph.Linked, Filter, Collect;
    CollectMembers(g);
    RecordRefsStay(g);
    SetMembers(h.results);
    SetMembers(h.workunits);
    SetMembers(h.appVersions);
    assert SetOf(g.workunits) * KeptWorkunits(g) == KeptWorkunits(g);
  }

  lemma ReferencedIs(g: Graph, f: FileInfo)
    requires g.CheckAll() && g.Linked()
    ensures f in ReferencedFiles(g) <==> Referenced(Collect(g), f)
  {
    hide Graph.CheckAll, Graph.Linked, Collect, ProjectRefs, OutputRefs, InputRefs, AppRefs, NetRefs, PersRefs;
    OutsideRefsAre(g, f);
    RecordRefsAre(g, f);
  }

  /** A listed file survives exactly if something that survives refers to it, or if it is sticky,
      has a status of 0 or more, and is not marked for deletion. */
  lemma FilesLeft(g: Graph, f: FileInfo)
    requires g.CheckAll() && g.Linked() && f in g.fileInfos
    ensures f in Collect(g).fileInfos <==>
              Referenced(Collect(g), f) || (f.sticky && g.Status(f) >= 0 && f !in g.markedForDelete)
  {
    ReferencedIs(g, f);
    CollectMembers(g);
    SetMembers(Collect(g).fileInfos);
    hide ReferencedFiles, Referenced, Collect, Graph.CheckAll, Graph.Linked;
  }

  /** A result survives exactly if the server has not acknowledged it or a task runs it; a workunit,
      if a surviving result uses it; a version, if a surviving result uses it or no listed version of
      the same application and plan class has a higher number. */
  lemma RecordsLeft(g: Graph)
    requires g.CheckAll() && g.Linked()
    ensures forall r <- g.results ::
              r in Collect(g).results <==> r !in g.acked || exists t <- g.activeTasks :: t.result == r
    ensures forall w <- g.workunits :: w in Collect(g).workunits <==> exists r <- Collect(g).results :: r.wup == w
    ensures forall v <- g.appVersions ::
              v in Collect(g).appVersions <==>
                || (exists r <- Collect(g).results :: r.avp == v)
                || !(exists b <- g.appVersions ::
                       b.app == v.app && b.planClass == v.planClass && b.versionNum > v.versionNum)
  {
    var h := Collect(g);
    CollectMembers(g);
    SetMembers(h.results);
    SetMembers(h.workunits);
    SetMembers(h.appVersions);
    hide Graph.CheckAll, Graph.Linked, Filter, KeptFiles, Collect;
    assert forall r <- g.results :: r in h.results <==> r in KeptResults(g);
    assert forall w :: w in WorkunitsOf(KeptResults(g)) <==> exists r <- h.results :: r.wup == w;
    assert forall v :: v in AppVersionsOf(KeptResults(g)) <==> exists r <- h.results :: r.avp == v;
    hide WorkunitsOf, AppVersionsOf;
  }

  /** A file failed: its status is none of not present (0), present (1) and not needed (2). */
  predicate FailedOne(g: Graph, files: seq<FileInfo>) {
    exists f <- files :: g.Status(f) != 0 && g.Status(f) != 1 && g.Status(f) != 2
  }

  /** A surviving result is reported exactly if it was before, if it is acknowledged, or if one of the
      files that it needs or makes has failed; nothing else is. */
  lemma ResultsReported(g: Graph, r: Result)
    ensures r in Collect(g).ready <==>
              || r in g.ready
              || (r in g.results && (r !in g.acked || g.HasTask(r))
                  && (|| r in g.acked || FailedOne(g, r.wup.inputFiles) || FailedOne(g, r.avp.appFiles)
                      || FailedOne(g, r.outputFiles)))
  {
    assert AnyFailure(g, r.wup.inputFiles) <==> FailedOne(g, r.wup.inputFiles);
    assert AnyFailure(g, r.avp.appFiles) <==> FailedOne(g, r.avp.appFiles);
    assert AnyFailure(g, r.outputFiles) <==> FailedOne(g, r.outputFiles);
    hide AnyFailure, FailedOne, Graph.HasTask, KeptFiles, Filter;
  }

  /** An unreferenced application version goes exactly when it is below the latest version of
      its application and plan class, whatever was deleted before it: the latest version is
      never superseded, so it is still listed. */
  lemma LatestVersion(versions: seq<AppVersion>, a: AppVersion) returns (latest: AppVersion)
    requires Superseded(a, versions)
    ensures latest in versions && latest.app == a.app && latest.planClass == a.planClass
    ensures latest.versionNum > a.versionNum && !Superseded(latest, versions)
    decreases |(set v <- versions | v.versionNum > a.versionNum)|
  {
    var b :| b in versions && b.app == a.app && b.versionNum > a.versionNum && b.planClass == a.planClass;
    if Superseded(b, versions) {
      var above, aboveB := set v <- versions | v.versionNum > a.versionNum,
          set v <- versions | v.versionNum > b.versionNum;
      assert b in above && b !in aboveB && aboveB <= above - {b};
      Cardinality(aboveB, above - {b});
      latest := LatestVersion(versions, b);
    } else {
      latest := b;
    }
  }

  lemma {:induction false} Cardinality<T>(a: set<T>, b: set<T>)
    requires a <= b
    ensures |a| <= |b|
  {
    if a != {} {
      var x :| x in a;
      Cardinality(a - {x}, b - {x});
    }
  }

  // ---- Counting phases ------------------------------------------------------

  // The ref_cnt fields of the records are counted from zero in every collection. A record's
  // counter is its multiplicity in one of the multisets below.

  ghost function Support<T>(m: multiset<T>): set<T> { set x <- m }

  lemma SupportAdd<T>(m: multiset<T>, s: seq<T>)
    ensures Support(m + multiset(s)) == Support(m) + SetOf(s)
  {
  }

  lemma SetOfStep<T>(s: seq<T>, k: nat)
    requires k < |s|
    ensures SetOf(s[..k + 1]) == SetOf(s[..k]) + {s[k]}
  {
    assert s[..k + 1] == s[..k] + [s[k]];
  }

  /** Reference-count user and project files. */
  method CountProjectFiles(g: Graph) returns (refs: multiset<FileInfo>)
    ensures Support(refs) == ProjectRefs(g, SetOf(g.projects))
  {
    refs := multiset{};
    for i := 0 to |g.projects|
      invariant Support(refs) == ProjectRefs(g, SetOf(g.projects[..i]))
    {
      var p := g.projects[i];
      SetOfStep(g.projects, i);
      SupportAdd(refs, g.FilesOf(p));
      assert ProjectRefs(g, SetOf(g.projects[..i + 1])) == ProjectRefs(g, SetOf(g.projects[..i])) + SetOf(g.FilesOf(p));
      refs := refs + multiset(g.FilesOf(p));
    }
    assert g.projects[..|g.projects|] == g.projects;
  }

  /** Reference-count the files of the application versions that stayed. */
  method CountAppVersionFiles(versions: seq<AppVersion>, before: multiset<FileInfo>) returns (refs: multiset<FileInfo>)
    ensures Support(refs) == Support(before) + AppRefs(SetOf(versions))
  {
    refs := before;
    for i := 0 to |versions|
      invariant Support(refs) == Support(before) + AppRefs(SetOf(versions[..i]))
    {
      var v := versions[i];
      SetOfStep(versions, i);
      SupportAdd(refs, v.appFiles);
      assert AppRefs(SetOf(versions[..i + 1])) == AppRefs(SetOf(versions[..i])) + SetOf(v.appFiles);
      refs := refs + multiset(v.appFiles);
    }
    assert versions[..|versions|] == versions;
  }

  /** Reference-count files involved in network transfers, then in persistent ones. */
  method CountXferFiles(g: Graph, before: multiset<FileInfo>) returns (refs: multiset<FileInfo>)
    ensures Support(refs) == Support(before) + NetRefs(SetOf(g.fileXfers)) + PersRefs(SetOf(g.persXfers))
  {
    refs := before;
    for i := 0 to |g.fileXfers|
      invariant Support(refs) == Support(before) + NetRefs(SetOf(g.fileXfers[..i]))
    {
      SetOfStep(g.fileXfers, i);
      SupportAdd(refs, [g.fileXfers[i].fip]);
      assert NetRefs(SetOf(g.fileXfers[..i + 1])) == NetRefs(SetOf(g.fileXfers[..i])) + {g.fileXfers[i].fip};
      refs := refs + multiset([g.fileXfers[i].fip]);
    }
    assert g.fileXfers[..|g.fileXfers|] == g.fileXfers;
    ghost var counted := Support(refs);
    for i := 0 to |g.persXfers|
      invariant Support(refs) == counted + PersRefs(SetOf(g.persXfers[..i]))
    {
      SetOfStep(g.persXfers, i);
      SupportAdd(refs, [g.persXfers[i].fip]);
      assert PersRefs(SetOf(g.persXfers[..i + 1])) == PersRefs(SetOf(g.persXfers[..i])) + {g.persXfers[i].fip};
      refs := refs + multiset([g.persXfers[i].fip]);
    }
    assert g.persXfers[..|g.persXfers|] == g.persXfers;
  }

  // ---- Scanning phases -------------------------------------------------------

  /** ACTIVE_TASK_SET::lookup_result. */
  method LookupTask(g: Graph, r: Result) returns (found: bool)
    ensures found <==> g.HasTask(r)
  {
    for i := 0 to |g.activeTasks|
      invariant forall t <- g.activeTasks[..i] :: t.result != r
    {
      if g.activeTasks[i].result == r { return true; }
    }
    return false;
  }

  /** A result stays unless the server acknowledged it and no task runs it. */
  method ResultStays(g: Graph, r: Result) returns (stays: bool)
    ensures stays <==> r !in g.acked || g.HasTask(r)
  {
    if r !in g.acked { return true; }
    stays := LookupTask(g, r);
  }

  /** WORKUNIT::had_download_failure, APP_VERSION::had_download_failure and the scan of the
      output files. */
  method HadFailure(g: Graph, files: seq<FileInfo>) returns (failed: bool)
    ensures failed <==> AnyFailure(g, files)
  {
    for i := 0 to |files|
      invariant forall f <- files[..i] :: !IsFailure(g.Status(f))
    {
      if IsFailure(g.Status(files[i])) { return true; }
    }
    return false;
  }

  /** Whether report_result_error or abort_task is called for a result that stays. */
  method ReportNeeded(g: Graph, r: Result) returns (report: bool)
    ensures report <==> IsReported(g, r)
  {
    if r in g.acked { return true; }
    var wuFailed := HadFailure(g, r.wup.inputFiles);
    if wuFailed { return true; }
    var avFailed := HadFailure(g, r.avp.appFiles);
    if avFailed { return true; }
    report := HadFailure(g, r.outputFiles);
  }

  /** The counters of one pass over the results. */
  datatype Counters = Counters(files: multiset<FileInfo>, workunits: multiset<Workunit>, versions: multiset<AppVersion>)

  /** The counters are positive exactly on the `base` files and on what the results in `done`
      refer to. */
  ghost predicate CountedFor(n: Counters, base: set<FileInfo>, done: set<Result>) {
    && Support(n.files) == base + OutputRefs(done)
    && Support(n.workunits) == WorkunitsOf(done)
    && Support(n.versions) == AppVersionsOf(done)
  }

  /** Count what one result that stays refers to. */
  method CountResult(n: Counters, r: Result, ghost base: set<FileInfo>, ghost done: set<Result>) returns (n': Counters)
    requires CountedFor(n, base, done)
    ensures CountedFor(n', base, done + {r})
  {
    RefsNext(done, r);
    SupportAdd(n.files, r.outputFiles);
    SupportAdd(n.workunits, [r.wup]);
    SupportAdd(n.versions, [r.avp]);
    hide Support, OutputRefs, WorkunitsOf, AppVersionsOf;
    n' := Counters(n.files + multiset(r.outputFiles), n.workunits + multiset([r.wup]), n.versions + multiset([r.avp]));
  }

  lemma RefsNext(done: set<Result>, r: Result)
    ensures OutputRefs(done + {r}) == OutputRefs(done) + SetOf(r.outputFiles)
    ensures WorkunitsOf(done + {r}) == WorkunitsOf(done) + SetOf([r.wup])
    ensures AppVersionsOf(done + {r}) == AppVersionsOf(done) + SetOf([r.avp])
  {
  }

  /** Everything the scan does with a result that stays. */
  method KeepResult(g: Graph, r: Result, n: Counters, ready: set<Result>, ghost base: set<FileInfo>,
                    ghost done: set<Result>, ghost reported: set<Result>) returns (n': Counters, ready': set<Result>)
    requires CountedFor(n, base, done) && (r in reported <==> IsReported(g, r))
    ensures CountedFor(n', base, done + {r})
    ensures ready' == ready + {r} * reported
  {
    var report := ReportNeeded(g, r);
    ready' := if report then ready + {r} else ready;
    n' := CountResult(n, r, base, done);
  }

  /** Delete acknowledged results without a task; report and count the others. */
  method ScanResults(g: Graph, before: multiset<FileInfo>, ghost keep: set<Result>, ghost reported: set<Result>)
    returns (results: seq<Result>, ready: set<Result>, n: Counters, action: bool)
    requires forall r <- g.results :: r in keep <==> r !in g.acked || g.HasTask(r)
    requires forall r <- g.results :: r in reported <==> IsReported(g, r)
    ensures results == Filter(g.results, keep)
    ensures ready == g.ready + SetOf(g.results) * keep * reported
    ensures CountedFor(n, Support(before), SetOf(g.results) * keep)
    ensures action <==> results != g.results
  {
    hide Erase;
    results, ready, n, action := g.results, g.ready, Counters(before, multiset{}, multiset{}), false;
    var i := 0;
    ghost var k := 0;
    while i < |results|
      invariant Scan(results, i, g.results, k, keep)
      invariant i <= k && (action <==> i < k)
      invariant CountedFor(n, Support(before), Kept(g.results, k, keep))
      invariant ready == g.ready + Kept(g.results, k, keep) * reported
      decreases |g.results| - k
    {
      ScanNext(results, i, g.results, k, keep);
      var r := results[i];
      var stays := ResultStays(g, r);
      if stays {
        n, ready := KeepResult(g, r, n, ready, Support(before), Kept(g.results, k, keep), reported);
        i := i + 1;
      } else {
        results := Erase(results, i);
        action := true;
      }
      k := k + 1;
    }
    ScanEnd(results, i, g.results, k, keep);
    FilterMembers(g.results, keep);
  }

  /** Delete workunits that no remaining result uses; count the input files of the others. */
  method ScanWorkunits(listed: seq<Workunit>, used: multiset<Workunit>, before: multiset<FileInfo>)
    returns (workunits: seq<Workunit>, refs: multiset<FileInfo>, action: bool)
    ensures workunits == Filter(listed, Support(used))
    ensures Support(refs) == Support(before) + InputRefs(SetOf(workunits))
    ensures action <==> workunits != listed
  {
    hide Erase;
    ghost var keep := Support(used);
    workunits, refs, action := listed, before, false;
    var i := 0;
    ghost var k := 0;
    while i < |workunits|
      invariant Scan(workunits, i, listed, k, keep)
      invariant i <= k && (action <==> i < k)
      invariant Support(refs) == Support(before) + InputRefs(Kept(listed, k, keep))
      decreases |listed| - k
    {
      ScanNext(workunits, i, listed, k, keep);
      var w := workunits[i];
      if used[w] == 0 {
        workunits := Erase(workunits, i);
        action := true;
      } else {
        SupportAdd(refs, w.inputFiles);
        assert InputRefs(Kept(listed, k + 1, keep)) == InputRefs(Kept(listed, k, keep)) + SetOf(w.inputFiles);
        refs := refs + multiset(w.inputFiles);
        i := i + 1;
      }
      k := k + 1;
    }
    ScanEnd(workunits, i, listed, k, keep);
    FilterMembers(listed, keep);
  }

  /** The scan for a more recent version, over what the vector holds at that moment. */
  method FoundNewer(a: AppVersion, versions: seq<AppVersion>) returns (found: bool)
    ensures found <==> Superseded(a, versions)
  {
    for j := 0 to |versions|
      invariant !Superseded(a, versions[..j])
    {
      var b := versions[j];
      if b.app == a.app && b.versionNum > a.versionNum && b.planClass == a.planClass { return true; }
    }
    assert versions[..|versions|] == versions;
    return false;
  }

  /** Deletions so far do not change whether a version is superseded. */
  lemma SupersededDuringScan(a: AppVersion, cur: seq<AppVersion>, i: nat, all: seq<AppVersion>, k: nat,
                             keep: set<AppVersion>)
    requires Scan(cur, i, all, k, keep)
    requires forall b <- all :: !Superseded(b, all) ==> b in keep
    ensures Superseded(a, cur) <==> Superseded(a, all)
  {
    ScanShape(all, k, keep);
    KeptMembers(all, k, keep);
    var front, back := FilterTo(all, k, keep), all[k..];
    assert cur == front + back && all == all[..k] + back;
    SetMembers(front);
    if Superseded(a, all) {
      var latest := LatestVersion(all, a);
      assert latest in all[..k] ==> latest in SetOf(all[..k]) * keep;
      assert latest in front || latest in back;
    }
    assert forall b <- front :: b in SetOf(all[..k]);
  }

  /** The scan for a newer version, at any moment of the pass. */
  method FoundNewerDuringScan(a: AppVersion, cur: seq<AppVersion>, ghost i: nat, ghost all: seq<AppVersion>,
                              ghost k: nat, ghost keep: set<AppVersion>, ghost newer: set<AppVersion>)
                                  returns (found: bool)
    requires Scan(cur, i, all, k, keep)
    requires forall b <- all :: b in newer <==> Superseded(b, all)
    requires forall b <- all :: b !in newer ==> b in keep
    requires a in all
    ensures found <==> a in newer
  {
    SupersededDuringScan(a, cur, i, all, k, keep);
    found := FoundNewer(a, cur);
  }

  /** Delete unused application versions that a listed version supersedes. */
  method ScanAppVersions(listed: seq<AppVersion>, used: multiset<AppVersion>, ghost keep: set<AppVersion>,
                         ghost newer: set<AppVersion>)
    returns (versions: seq<AppVersion>, action: bool)
    requires forall a <- listed :: a in newer <==> Superseded(a, listed)
    requires forall a <- listed :: a in keep <==> a in used || a !in newer
    ensures versions == Filter(listed, keep)
    ensures action <==> versions != listed
  {
    hide Erase;
    versions, action := listed, false;
    var i := 0;
    ghost var k := 0;
    while i < |versions|
      invariant Scan(versions, i, listed, k, keep)
      invariant i <= k && (action <==> i < k)
      decreases |listed| - k
    {
      ScanNext(versions, i, listed, k, keep);
      var a := versions[i];
      var found := FoundNewerDuringScan(a, versions, i, listed, k, keep, newer);
      if used[a] == 0 && found {
        versions := Erase(versions, i);
        action := true;
      } else {
        i := i + 1;
      }
      k := k + 1;
    }
    ScanEnd(versions, i, listed, k, keep);
  }

  /** Delete files that nothing refers to and that are not exempt. The source's branch for an
      unreferenced file with a persistent transfer cannot be reached: that transfer is listed
      and points back, so the file is counted. */
  method ScanFiles(g: Graph, refs: multiset<FileInfo>, ghost keep: set<FileInfo>)
      returns (files: seq<FileInfo>, action: bool)
    requires forall f <- g.fileInfos :: f in g.persXfer ==> f in refs
    requires forall f <- g.fileInfos :: f in keep <==> f in refs || Exempt(g, f)
    ensures files == Filter(g.fileInfos, keep)
    ensures action <==> files != g.fileInfos
  {
    hide Erase;
    ghost var listed := g.fileInfos;
    files, action := g.fileInfos, false;
    var i := 0;
    ghost var k := 0;
    while i < |files|
      invariant Scan(files, i, listed, k, keep)
      invariant i <= k && (action <==> i < k)
      decreases |listed| - k
    {
      ScanNext(files, i, listed, k, keep);
      var f := files[i];
      if refs[f] == 0 && !Exempt(g, f) {
        assert f !in g.persXfer;
        files := Erase(files, i);
        action := true;
      } else {
        i := i + 1;
      }
      k := k + 1;
    }
    ScanEnd(files, i, listed, k, keep);
  }

  /** A file with a persistent transfer is referenced: the transfer is listed and points back. */
  lemma TransfersAreCounted(g: Graph)
    requires g.CheckAll() && g.Linked()
    ensures forall f <- g.fileInfos :: f in g.persXfer ==> f in ReferencedFiles(g)
  {
    forall f | f in g.fileInfos && f in g.persXfer ensures f in ReferencedFiles(g) {
      assert g.CheckFileInfo(f) && g.persXfer[f] in SetOf(g.persXfers);
      assert f in PersRefs(SetOf(g.persXfers));
    }
  }

  /** The passes over results, workunits and application versions, and all the counting. */
  method ScanRecords(g: Graph)
    returns (results: seq<Result>, ready: set<Result>, workunits: seq<Workunit>, versions: seq<AppVersion>,
             refs: multiset<FileInfo>, action: bool)
    requires g.CheckAll() && g.Linked()
    ensures results == Collect(g).results && ready == Collect(g).ready
    ensures workunits == Collect(g).workunits && versions == Collect(g).appVersions
    ensures Support(refs) == ReferencedFiles(g)
    ensures action <==> results != g.results || workunits != g.workunits || versions != g.appVersions
  {
    hide Graph.CheckAll, Graph.Linked, Filter, KeptFiles, Superseded;
    ghost var kept, reported := KeptResults(g), set r <- g.results | IsReported(g, r);
    ghost var newer := set a <- g.appVersions | Superseded(a, g.appVersions);
    assert SetOf(g.results) * kept == kept && kept * reported == ReportedResults(g);
    CollectMembers(g);
    RecordRefsStay(g);
    assert SetOf(g.workunits) * KeptWorkunits(g) == KeptWorkunits(g);
    var n, action1, action2, action3;
    refs := CountProjectFiles(g);
    results, ready, n, action1 := ScanResults(g, refs, kept, reported);
    workunits, refs, action2 := ScanWorkunits(g.workunits, n.workunits, n.files);
    assert forall a :: a in n.versions <==> a in Support(n.versions);
    versions, action3 := ScanAppVersions(g.appVersions, n.versions, KeptAppVersions(g), newer);
    refs := CountAppVersionFiles(versions, refs);
    refs := CountXferFiles(g, refs);
    action := action1 || action2 || action3;
  }

  /** CLIENT_STATE::garbage_collect_always. */
  method GarbageCollectAlways(c: ClientState) returns (action: bool)
    requires c.g.CheckAll() && c.g.Linked()
    modifies c
    ensures c.g == Collect(old(c.g))
    ensures action <==> !Clean(old(c.g))
    ensures c.g.CheckAll() && c.g.Linked() && Clean(c.g)
  {
    var g := c.g;
    CleanIsFixed(g);
    CollectSafe(g);
    CollectClean(g);
    TransfersAreCounted(g);
    var results, ready, workunits, versions, refs, action1 := ScanRecords(g);
    assert forall f :: f in refs <==> f in Support(refs);
    var files, action2 := ScanFiles(g, refs, KeptFiles(g));
    c.g := g.(results := results, ready := ready, workunits := workunits, appVersions := versions, fileInfos := files);
    action := action1 || action2;
  }

  /** An immediate second collection deletes nothing and returns false. */
  method CollectTwice(c: ClientState) returns (first: bool, second: bool)
    requires c.g.CheckAll() && c.g.Linked()
    modifies c
    ensures !second && c.g == Collect(old(c.g)).(ready := c.g.ready)
  {
    first := GarbageCollectAlways(c);
    CleanIsFixed(c.g);
    second := GarbageCollectAlways(c);
  }
}
