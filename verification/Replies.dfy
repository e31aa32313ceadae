/** What a scheduler reply brings about (client/cs_scheduler.C), in plain terms: everything in it that
    can be linked is listed afterwards, whatever was listed before and in whatever order it comes. */
module Replies {
  import opened Options
  import opened Sequences
  import opened Records
  import opened Vectors
  import opened Collector
  import opened Detach
  import opened Merge

  predicate HasApp(h: Graph, p: Project, name: string) { exists a <- h.apps :: a.project == p && a.name == name }

  predicate HasFile(h: Graph, p: Project, name: string) { exists f <- h.fileInfos :: f.project == p && f.name == name }

  predicate HasFiles(h: Graph, p: Project, names: seq<string>) { forall n <- names :: HasFile(h, p, n) }

  predicate HasWorkunit(h: Graph, p: Project, name: string) {
    exists w <- h.workunits :: w.project == p && w.name == name
  }

  predicate HasResult(h: Graph, p: Project, name: string) { exists r <- h.results :: r.project == p && r.name == name }

  /** The platform that an entry of the reply means: the primary one if it names none. */
  function Meant(platform: string, platforms: seq<string>): string
    requires |platforms| > 0
  {
    if platform == "" then platforms[0] else platform
  }

  predicate ListsVersion(h: Graph, p: Project, app: string, platform: string, num: int, plan: string) {
    exists v <- h.appVersions ::
      v.app.project == p && v.app.name == app && v.platform == platform && v.versionNum == num && v.planClass == plan
  }

  /** A version that a result of workunit `w` can run: the one that the reply names, or the newest. */
  predicate Runs(h: Graph, w: Workunit, r: ReplyResult, v: AppVersion, platforms: seq<string>)
    requires |platforms| > 0
  {
    && v in h.appVersions && v.app == w.app && v.planClass == r.planClass && v.platform == Meant(r.platform, platforms)
    && (r.platform != "" ==> v.versionNum == r.versionNum)
    && (r.platform == "" ==>
          && v.versionNum >= 0
          && (forall u <- h.appVersions :: u.app == w.app && u.platform == platforms[0] ==>
              u.versionNum <= v.versionNum))
  }

  /** Applications and files: all of them, and only those of the reply are new. */
  ghost predicate FilesHandled(g: Graph, p: Project, reply: Reply, h: Graph) {
    && (forall n <- reply.apps :: HasApp(h, p, n))
    && (forall f <- reply.files :: HasFile(h, p, f.name))
    && (forall a <- h.apps :: a in g.apps || (a.project == p && a.name in reply.apps))
    && (forall f <- h.fileInfos :: f in g.fileInfos || (f.project == p && ReplyFile(f.name, f.sticky) in reply.files))
  }

  /** Versions, workunits and results: all whose references are listed. */
  ghost predicate VersionsHandled(p: Project, vs: seq<ReplyVersion>, platforms: seq<string>, h: Graph)
    requires |platforms| > 0
  {
    forall v <- vs ::
      (v.platform == "" || v.platform in platforms) && HasApp(h, p, v.appName) && HasFiles(h, p, v.files) ==>
        ListsVersion(h, p, v.appName, Meant(v.platform, platforms), v.versionNum, v.planClass)
  }

  ghost predicate WorkunitsHandled(p: Project, ws: seq<ReplyWorkunit>, h: Graph) {
    forall w <- ws :: HasApp(h, p, w.appName) && HasFiles(h, p, w.files) ==> HasWorkunit(h, p, w.name)
  }

  ghost predicate ResultsHandled(p: Project, rs: seq<ReplyResult>, platforms: seq<string>, h: Graph)
    requires |platforms| > 0
  {
    forall r <- rs, w <- h.workunits, v <- h.appVersions ::
      w.project == p && w.name == r.wuName && HasFiles(h, p, r.files) && Runs(h, w, r, v, platforms) ==>
        HasResult(h, p, r.name)
  }

  ghost predicate RecordsHandled(p: Project, reply: Reply, platforms: seq<string>, h: Graph)
    requires |platforms| > 0
  {
    && VersionsHandled(p, reply.versions, platforms, h)
    && WorkunitsHandled(p, reply.workunits, h)
    && ResultsHandled(p, reply.results, platforms, h)
  }

  predicate Named(files: seq<FileInfo>, names: seq<string>) {
    |files| == |names| && forall i :: 0 <= i < |names| ==> files[i].name == names[i]
  }

  predicate DescribesVersion(rv: ReplyVersion, v: AppVersion, p: Project, platforms: seq<string>)
    requires |platforms| > 0
  {
    && v.project == p && v.app.name == rv.appName && v.platform == Meant(rv.platform, platforms)
    && v.versionNum == rv.versionNum && v.planClass == rv.planClass && Named(v.appFiles, rv.files)
  }

  predicate DescribesWorkunit(rw: ReplyWorkunit, w: Workunit, p: Project) {
    w.project == p && w.name == rw.name && w.app.name == rw.appName && Named(w.inputFiles, rw.files)
  }

  /** A result runs what the reply says, or the newest listed version for the primary platform. */
  predicate DescribesResult(rr: ReplyResult, r: Result, p: Project, platforms: seq<string>, h: Graph)
    requires |platforms| > 0
  {
    && r.project == p && r.name == rr.name && r.wup.name == rr.wuName && Named(r.outputFiles, rr.files)
    && r.avp.app == r.wup.app && r.avp.platform == Meant(rr.platform, platforms) && r.avp.planClass == rr.planClass
    && (rr.platform != "" ==> r.avp.versionNum == rr.versionNum)
    && (rr.platform == "" ==> forall u <- h.appVersions ::
          u.app == r.wup.app && u.platform == platforms[0] ==> u.versionNum <= r.avp.versionNum)
  }

  /** What is new is what the reply describes. */
  ghost predicate RecordsNew(g: Graph, p: Project, reply: Reply, platforms: seq<string>, h: Graph)
    requires |platforms| > 0
  {
    && (forall v <- h.appVersions ::
          v in g.appVersions || exists rv <- reply.versions :: DescribesVersion(rv, v, p, platforms))
    && (forall w <- h.workunits :: w in g.workunits || exists rw <- reply.workunits :: DescribesWorkunit(rw, w, p))
    && (forall r <- h.results ::
          r in g.results || exists rr <- reply.results :: DescribesResult(rr, r, p, platforms, h))
  }

  /** Marks grow by exactly the named records. */
  ghost predicate MarksHandled(g: Graph, p: Project, reply: Reply, h: Graph) {
    && (forall f :: f in h.markedForDelete <==>
          f in g.markedForDelete || (f in h.fileInfos && f.project == p && f.name in reply.fileDeletes))
    && (forall r :: r in h.acked <==>
          r in g.acked || (r in h.results && r.project == p && r.name in reply.acks))
    && (forall r :: r in h.ready <==>
          || r in g.ready
          || (r in h.results && r.project == p && r.name in reply.aborts && exists t <- h.activeTasks :: t.result == r))
  }

  // ---- Applications and files ------------------------------------------------------------

  lemma AppsAndFiles(g: Graph, p: Project, reply: Reply, addr: Address)
    ensures var h := MergedFiles(g, p, reply, addr);
            && FilesHandled(g, p, reply, h)
            && h == g.(apps := h.apps, fileInfos := h.fileInfos, markedForDelete := h.markedForDelete)
            && (forall f :: f in h.markedForDelete <==>
                  f in g.markedForDelete || (f in h.fileInfos && f.project == p && f.name in reply.fileDeletes))
  {
    hide AddApps, AddFiles, HasApp, HasFile;
    var a := AddApps(g, p, reply.apps, addr);
    var b := AddFiles(a, p, reply.files, addr + |reply.apps|);
    AddAppsExact(g, p, reply.apps, addr);
    AddFilesExact(a, p, reply.files, addr + |reply.apps|);
    hide LookupApp, LookupFile;
    AppsListed(b, p, reply.apps);
    FilesListed(b, p, reply.files);
    AppsNew(g, p, reply, b);
    FilesNew(g, p, reply, b);
    SameListed(b, MergedFiles(g, p, reply, addr), p);
  }

  lemma SameListed(b: Graph, h: Graph, p: Project)
    requires h == b.(markedForDelete := h.markedForDelete)
    ensures forall n :: HasApp(b, p, n) <==> HasApp(h, p, n)
    ensures forall n :: HasFile(b, p, n) <==> HasFile(h, p, n)
  {
  }

  lemma AppsNew(g: Graph, p: Project, reply: Reply, h: Graph)
    requires g.apps <= h.apps
    requires forall j :: |g.apps| <= j < |h.apps| ==> h.apps[j].project == p && h.apps[j].name in reply.apps
    ensures forall a <- h.apps :: a in g.apps || (a.project == p && a.name in reply.apps)
  {
  }

  lemma FilesNew(g: Graph, p: Project, reply: Reply, h: Graph)
    requires g.fileInfos <= h.fileInfos
    requires forall j :: |g.fileInfos| <= j < |h.fileInfos| ==>
               h.fileInfos[j].project == p && ReplyFile(h.fileInfos[j].name, h.fileInfos[j].sticky) in reply.files
    ensures forall f <- h.fileInfos ::
              f in g.fileInfos || (f.project == p && ReplyFile(f.name, f.sticky) in reply.files)
  {
  }

  lemma AppsListed(h: Graph, p: Project, names: seq<string>)
    requires forall j :: 0 <= j < |names| ==> LookupApp(h.apps, p, names[j]).Some?
    ensures forall n <- names :: HasApp(h, p, n)
  {
    hide LookupApp;
    forall n | n in names ensures HasApp(h, p, n) {
      var j :| 0 <= j < |names| && names[j] == n;
      assert LookupApp(h.apps, p, names[j]).value in h.apps;
    }
  }

  lemma FilesListed(h: Graph, p: Project, files: seq<ReplyFile>)
    requires forall j :: 0 <= j < |files| ==> LookupFile(h.fileInfos, p, files[j].name).Some?
    ensures forall f <- files :: HasFile(h, p, f.name)
  {
    hide LookupFile;
    forall f | f in files ensures HasFile(h, p, f.name) {
      var j :| 0 <= j < |files| && files[j] == f;
      assert LookupFile(h.fileInfos, p, files[j].name).value in h.fileInfos;
    }
  }

  // ---- Versions, workunits and results ----------------------------------------------------

  lemma Links(h: Graph, p: Project, names: seq<string>)
    ensures HasFiles(h, p, names) ==> LinkFiles(h.fileInfos, p, names).Some?
    ensures forall n :: HasApp(h, p, n) ==> LookupApp(h.apps, p, n).Some?
  {
    hide LinkFiles, LookupApp, LookupFile;
    forall n | n in names && HasFile(h, p, n) ensures LookupFile(h.fileInfos, p, n).Some? {}
  }

  lemma VersionsDone(g: Graph, p: Project, vs: seq<ReplyVersion>, platforms: seq<string>, addr: Address, h: Graph)
    requires |platforms| > 0 && h == AddVersions(g, p, vs, platforms, addr)
    ensures VersionsHandled(p, vs, platforms, h)
  {
    AddVersionsExact(g, p, vs, platforms, addr);
    hide AddVersions, LinkFiles, LookupApp, LookupVersion, VersionFrom;
    forall v | v in vs && (v.platform == "" || v.platform in platforms) && HasApp(h, p, v.appName)
        && HasFiles(h, p, v.files)
      ensures ListsVersion(h, p, v.appName, Meant(v.platform, platforms), v.versionNum, v.planClass)
    {
      Links(h, p, v.files);
      var j :| 0 <= j < |vs| && vs[j] == v;
      assert VersionLinks(g, p, vs[j], platforms) && HasVersion(h, p, v, platforms);
      var app := LookupApp(h.apps, p, v.appName).value;
      var x := LookupVersion(h.appVersions, app, PlatformOf(v.platform, platforms[0]), v.versionNum, v.planClass).value;
      assert x in h.appVersions && x.app == app;
    }
  }

  lemma WorkunitsDone(g: Graph, p: Project, ws: seq<ReplyWorkunit>, addr: Address, h: Graph)
    requires h == AddWorkunits(g, p, ws, addr)
    ensures WorkunitsHandled(p, ws, h)
  {
    AddWorkunitsExact(g, p, ws, addr);
    hide AddWorkunits, LinkFiles, LookupApp, LookupWorkunit, WorkunitFrom;
    forall w | w in ws && HasApp(h, p, w.appName) && HasFiles(h, p, w.files) ensures HasWorkunit(h, p, w.name) {
      Links(h, p, w.files);
      var j :| 0 <= j < |ws| && ws[j] == w;
      assert WorkunitLinks(g, p, ws[j]);
      assert LookupWorkunit(h.workunits, p, w.name).value in h.workunits;
    }
  }

  lemma VersionFound(h: Graph, w: Workunit, r: ReplyResult, v: AppVersion, platforms: seq<string>)
    requires |platforms| > 0 && Runs(h, w, r, v, platforms)
    ensures ResultVersion(h, r, w.app, platforms).Some?
  {
    hide LookupVersion, LatestVersionNum;
    var num := if r.platform == "" then LatestVersionNum(h.appVersions, w.app, Meant("", platforms)) else r.versionNum;
    assert num == v.versionNum;
    assert VersionMatches(v, w.app, PlatformOf(r.platform, platforms[0]), num, r.planClass);
  }

  lemma WorkunitFound(h: Graph, p: Project, w: Workunit)
    requires w in h.workunits && w.project == p && WorkunitKeys(h.workunits)
    ensures LookupWorkunit(h.workunits, p, w.name) == Some(w)
  {
    hide LookupWorkunit;
    var o := LookupWorkunit(h.workunits, p, w.name);
    var i :| 0 <= i < |h.workunits| && h.workunits[i] == w;
    var j :| 0 <= j < |h.workunits| && h.workunits[j] == o.value;
    assert i == j;
  }

  lemma ResultsDone(g: Graph, p: Project, rs: seq<ReplyResult>, platforms: seq<string>, addr: Address, h: Graph)
    requires |platforms| > 0 && h == AddResults(g, p, rs, platforms, addr) && WorkunitKeys(g.workunits)
    ensures ResultsHandled(p, rs, platforms, h)
  {
    AddResultsExact(g, p, rs, platforms, addr);
    hide AddResults, LinkFiles, LookupWorkunit, LookupResult, ResultFrom, ResultVersion, WorkunitKeys, Runs;
    forall r, w, v | r in rs && w in h.workunits && v in h.appVersions
        && w.project == p && w.name == r.wuName && HasFiles(h, p, r.files) && Runs(h, w, r, v, platforms)
      ensures HasResult(h, p, r.name)
    {
      Links(h, p, r.files);
      WorkunitFound(h, p, w);
      VersionFound(h, w, r, v, platforms);
      VersionSame(g, h, r, w.app, platforms);
      var j :| 0 <= j < |rs| && rs[j] == r;
      assert ResultLinks(g, p, rs[j], platforms);
      assert LookupResult(h.results, p, r.name).value in h.results;
    }
  }

  lemma VersionSame(g: Graph, h: Graph, r: ReplyResult, app: App, platforms: seq<string>)
    requires |platforms| > 0 && g.appVersions == h.appVersions
    ensures ResultVersion(g, r, app, platforms) == ResultVersion(h, r, app, platforms)
  {
  }

  lemma RecordsDone(g: Graph, p: Project, reply: Reply, platforms: seq<string>, addr: Address)
    requires |platforms| > 0 && Mergeable(g) && p in g.projects && Fresh(g, addr)
    ensures var h := MergedRecords(g, p, reply, platforms, addr);
            && RecordsHandled(p, reply, platforms, h)
            && h == g.(appVersions := h.appVersions, workunits := h.workunits, results := h.results, status := h.status)
  {
    hide Mergeable, Fresh, AddVersions, AddWorkunits, AddResults, VersionsHandled, WorkunitsHandled, ResultsHandled,
      WorkunitKeys;
    var n := addr + |reply.versions|;
    var a := AddVersions(g, p, reply.versions, platforms, addr);
    var b := AddWorkunits(a, p, reply.workunits, n);
    var h := AddResults(b, p, reply.results, platforms, n + |reply.workunits|);
    assert h == MergedRecords(g, p, reply, platforms, addr);
    hide MergedRecords;
    AddVersionsKeep(g, p, reply.versions, platforms, addr);
    AddWorkunitsKeep(a, p, reply.workunits, n);
    WorkunitsUnique(b);
    VersionsDone(g, p, reply.versions, platforms, addr, a);
    WorkunitsDone(a, p, reply.workunits, n, b);
    ResultsDone(b, p, reply.results, platforms, n + |reply.workunits|, h);
    VersionsOnly(g, p, reply.versions, platforms, addr);
    WorkunitsOnly(a, p, reply.workunits, n);
    ResultsOnly(b, p, reply.results, platforms, n + |reply.workunits|);
    Carry(a, h, p, reply, platforms);
    Carry(b, h, p, reply, platforms);
  }

  lemma VersionsOnly(g: Graph, p: Project, vs: seq<ReplyVersion>, platforms: seq<string>, addr: Address)
    requires |platforms| > 0
    ensures var h := AddVersions(g, p, vs, platforms, addr); h == g.(appVersions := h.appVersions, status := h.status)
  {
    hide *;
    AddVersionsExact(g, p, vs, platforms, addr);
  }

  lemma WorkunitsOnly(g: Graph, p: Project, ws: seq<ReplyWorkunit>, addr: Address)
    ensures var h := AddWorkunits(g, p, ws, addr); h == g.(workunits := h.workunits, status := h.status)
  {
    hide *;
    AddWorkunitsExact(g, p, ws, addr);
  }

  lemma ResultsOnly(g: Graph, p: Project, rs: seq<ReplyResult>, platforms: seq<string>, addr: Address)
    requires |platforms| > 0
    ensures var h := AddResults(g, p, rs, platforms, addr); h == g.(results := h.results)
  {
    hide *;
    AddResultsExact(g, p, rs, platforms, addr);
  }

  lemma VersionsNew(g: Graph, p: Project, vs: seq<ReplyVersion>, platforms: seq<string>, addr: Address)
    requires |platforms| > 0
    ensures forall v <- AddVersions(g, p, vs, platforms, addr).appVersions ::
              v in g.appVersions || exists rv <- vs :: DescribesVersion(rv, v, p, platforms)
  {
    var h := AddVersions(g, p, vs, platforms, addr);
    AddVersionsExact(g, p, vs, platforms, addr);
    hide AddVersions, VersionLinks, HasVersion, DescribesVersion, VersionFrom;
    forall v | v in h.appVersions && v !in g.appVersions
        ensures exists rv <- vs :: DescribesVersion(rv, v, p, platforms) {
      var j :| 0 <= j < |h.appVersions| && h.appVersions[j] == v;
      assert j >= |g.appVersions|;
      var rv :| rv in vs && VersionFrom(h.appVersions[j], rv, p, platforms);
      VersionDescribed(v, rv, p, platforms);
    }
  }

  lemma VersionDescribed(v: AppVersion, rv: ReplyVersion, p: Project, platforms: seq<string>)
    requires |platforms| > 0 && VersionFrom(v, rv, p, platforms)
    ensures DescribesVersion(rv, v, p, platforms)
  {
  }

  lemma WorkunitsNew(g: Graph, p: Project, ws: seq<ReplyWorkunit>, addr: Address)
    ensures forall w <- AddWorkunits(g, p, ws, addr).workunits ::
              w in g.workunits || exists rw <- ws :: DescribesWorkunit(rw, w, p)
  {
    var h := AddWorkunits(g, p, ws, addr);
    AddWorkunitsExact(g, p, ws, addr);
    hide AddWorkunits, WorkunitLinks, LookupWorkunit;
    forall w | w in h.workunits && w !in g.workunits ensures exists rw <- ws :: DescribesWorkunit(rw, w, p) {
      var j :| 0 <= j < |h.workunits| && h.workunits[j] == w;
      assert j >= |g.workunits|;
      var rw :| rw in ws && WorkunitFrom(h.workunits[j], rw, p);
      assert DescribesWorkunit(rw, w, p);
    }
  }

  lemma ResultsNew(g: Graph, p: Project, rs: seq<ReplyResult>, platforms: seq<string>, addr: Address)
    requires |platforms| > 0
    ensures forall r <- AddResults(g, p, rs, platforms, addr).results ::
              r in g.results || exists rr <- rs :: DescribesResult(rr, r, p, platforms,
                  AddResults(g, p, rs, platforms, addr))
  {
    var h := AddResults(g, p, rs, platforms, addr);
    AddResultsExact(g, p, rs, platforms, addr);
    hide AddResults, ResultLinks, LookupResult, DescribesResult, ResultFrom;
    forall r | r in h.results && r !in g.results ensures exists rr <- rs :: DescribesResult(rr, r, p, platforms, h) {
      var j :| 0 <= j < |h.results| && h.results[j] == r;
      assert j >= |g.results|;
      var rr :| rr in rs && ResultFrom(g.appVersions, h.results[j], rr, p, platforms);
      ResultDescribed(r, rr, p, platforms, h);
    }
  }

  lemma ResultDescribed(r: Result, rr: ReplyResult, p: Project, platforms: seq<string>, h: Graph)
    requires |platforms| > 0 && ResultFrom(h.appVersions, r, rr, p, platforms)
    ensures DescribesResult(rr, r, p, platforms, h)
  {
  }

  lemma RecordsAreNew(g: Graph, p: Project, reply: Reply, platforms: seq<string>, addr: Address)
    requires |platforms| > 0
    ensures RecordsNew(g, p, reply, platforms, MergedRecords(g, p, reply, platforms, addr))
  {
    hide AddVersions, AddWorkunits, AddResults, DescribesVersion, DescribesWorkunit, DescribesResult;
    var n := addr + |reply.versions|;
    var a := AddVersions(g, p, reply.versions, platforms, addr);
    var b := AddWorkunits(a, p, reply.workunits, n);
    var h := AddResults(b, p, reply.results, platforms, n + |reply.workunits|);
    assert h == MergedRecords(g, p, reply, platforms, addr);
    VersionsNew(g, p, reply.versions, platforms, addr);
    WorkunitsNew(a, p, reply.workunits, n);
    ResultsNew(b, p, reply.results, platforms, n + |reply.workunits|);
    VersionsOnly(g, p, reply.versions, platforms, addr);
    WorkunitsOnly(a, p, reply.workunits, n);
    ResultsOnly(b, p, reply.results, platforms, n + |reply.workunits|);
  }

  lemma NewCarry(g: Graph, a: Graph, b: Graph, h: Graph, p: Project, reply: Reply, platforms: seq<string>)
    requires |platforms| > 0 && RecordsNew(a, p, reply, platforms, b)
    requires a.appVersions == g.appVersions && a.workunits == g.workunits && a.results == g.results
    requires b.appVersions == h.appVersions && b.workunits == h.workunits && b.results == h.results
    ensures RecordsNew(g, p, reply, platforms, h)
  {
    assert forall rr, r :: DescribesResult(rr, r, p, platforms, b) ==> DescribesResult(rr, r, p, platforms, h);
    hide DescribesVersion, DescribesWorkunit, DescribesResult;
  }

  /** What is handled stays handled while the vectors it depends on stay. */
  lemma Carry(a: Graph, h: Graph, p: Project, reply: Reply, platforms: seq<string>)
    requires |platforms| > 0 && a.apps == h.apps && a.fileInfos == h.fileInfos && a.appVersions == h.appVersions
    ensures VersionsHandled(p, reply.versions, platforms, a) ==> VersionsHandled(p, reply.versions, platforms, h)
    ensures a.workunits == h.workunits && WorkunitsHandled(p, reply.workunits, a) ==>
            WorkunitsHandled(p, reply.workunits, h)
    ensures a.workunits == h.workunits && a.results == h.results && ResultsHandled(p, reply.results, platforms, a) ==>
              ResultsHandled(p, reply.results, platforms, h)
  {
    assert forall n :: HasApp(a, p, n) <==> HasApp(h, p, n);
    assert forall n :: HasFile(a, p, n) <==> HasFile(h, p, n);
    assert forall names :: HasFiles(a, p, names) <==> HasFiles(h, p, names);
    assert forall n, o, i: int, c :: ListsVersion(a, p, n, o, i, c) <==> ListsVersion(h, p, n, o, i, c);
    assert a.workunits == h.workunits ==> forall n :: HasWorkunit(a, p, n) <==> HasWorkunit(h, p, n);
    assert a.results == h.results ==> forall n :: HasResult(a, p, n) <==> HasResult(h, p, n);
    hide HasApp, HasFile, HasFiles, ListsVersion, HasWorkunit, HasResult;
  }

  lemma WorkunitsUnique(g: Graph)
    requires Mergeable(g)
    ensures WorkunitKeys(g.workunits)
  {
  }

  // ---- The whole reply ------------------------------------------------------------------------

  lemma FlagsDone(g: Graph, p: Project, reply: Reply)
    ensures var h := MergedFlags(g, p, reply);
            && h == g.(acked := h.acked, ready := h.ready)
            && (forall r :: r in h.acked <==>
                r in g.acked || (r in g.results && r.project == p && r.name in reply.acks))
            && (forall r :: r in h.ready <==>
                  || r in g.ready
                  || (r in g.results && r.project == p && r.name in reply.aborts
                      && exists t <- g.activeTasks :: t.result == r))
  {
  }

  /** After any reply: all its applications and files are listed; every version, workunit and result
      whose references are listed, before or by the same reply, is; deletion marks, acknowledgements
      and reports grow by exactly the named records; and what is new is what the reply describes. */
  lemma ReplyHandled(g: Graph, p: Project, reply: Reply, platforms: seq<string>, addr: Address)
    requires Mergeable(g) && p in g.projects && Fresh(g, addr) && |platforms| > 0
    ensures var h := Merged(g, p, reply, platforms, addr);
            && FilesHandled(g, p, reply, h) && RecordsHandled(p, reply, platforms, h) && MarksHandled(g, p, reply, h)
            && RecordsNew(g, p, reply, platforms, h)
  {
    hide Mergeable, Fresh, MergedFiles, MergedRecords, MergedFlags, FilesHandled, VersionsHandled, WorkunitsHandled,
      ResultsHandled, RecordsNew;
    var n := addr + |reply.apps| + |reply.files|;
    var a := MergedFiles(g, p, reply, addr);
    var b := MergedRecords(a, p, reply, platforms, n);
    var h := MergedFlags(b, p, reply);
    assert h == Merged(g, p, reply, platforms, addr);
    hide Merged;
    AppsAndFiles(g, p, reply, addr);
    MergedFilesKeeps(g, p, reply, addr);
    ExtendsProjects(g, a);
    RecordsDone(a, p, reply, platforms, n);
    FlagsDone(b, p, reply);
    RecordsAreNew(a, p, reply, platforms, n);
    NewCarry(g, a, b, h, p, reply, platforms);
    FilesCarry(g, a, h, p, reply);
    Carry(b, h, p, reply, platforms);
  }

  lemma FilesCarry(g: Graph, a: Graph, h: Graph, p: Project, reply: Reply)
    requires FilesHandled(g, p, reply, a) && a.apps == h.apps && a.fileInfos == h.fileInfos
    ensures FilesHandled(g, p, reply, h)
  {
    assert forall n :: HasApp(a, p, n) <==> HasApp(h, p, n);
    assert forall n :: HasFile(a, p, n) <==> HasFile(h, p, n);
    hide HasApp, HasFile;
  }

  /** The server's deletion requests: after the collection at the end of the reply, no file of the
      project with one of the names is left, unless something that is left refers to it. */
  lemma DeletedFilesGo(g: Graph, p: Project, reply: Reply, platforms: seq<string>, addr: Address, f: FileInfo)
    requires Mergeable(g) && p in g.projects && Fresh(g, addr) && |platforms| > 0
    requires f.project == p && f.name in reply.fileDeletes
    ensures var h := Collect(Merged(g, p, reply, platforms, addr)); f in h.fileInfos ==> Referenced(h, f)
  {
    var m := Merged(g, p, reply, platforms, addr);
    ReplyHandled(g, p, reply, platforms, addr);
    MergedKeeps(g, p, reply, platforms, addr);
    MergeableLinks(m);
    CollectMembers(m);
    hide Mergeable, Fresh, Merged, Collect, Referenced, FilesHandled, RecordsHandled, RecordsNew, Graph.CheckAll,
      Graph.Linked, KeptFiles, KeptResults, KeptWorkunits, KeptAppVersions;
    if f in Collect(m).fileInfos {
      FileWasListed(m, f);
      FilesLeft(m, f);
    }
  }

  lemma FileWasListed(m: Graph, f: FileInfo)
    requires f in Collect(m).fileInfos
    ensures f in m.fileInfos
  {
    FilterIn(m.fileInfos, KeptFiles(m));
  }

  lemma MergeableLinks(m: Graph)
    requires Mergeable(m)
    ensures m.CheckAll() && m.Linked()
  {
    hide Graph.CheckAll, Graph.Linked;
  }

  // ---- File statuses ------------------------------------------------------------------------------

  /** Not present, present, or not needed. */
  predicate Regular(status: int) { status == 0 || status == 1 || status == 2 }

  lemma ClearedIs(a: Graph, b: Graph, files: set<FileInfo>)
    requires b.status == Cleared(a.status, files)
    ensures forall f :: b.Status(f) == a.Status(f) || (!Regular(a.Status(f)) && b.Status(f) == 0)
    ensures forall f <- files :: Regular(b.Status(f))
  {
  }

  /** A failed file is as if not downloaded yet when a new workunit needs it, or a version that was
      listed before and is in the reply again; no other status differs. */
  lemma StatusesReset(g: Graph, p: Project, reply: Reply, platforms: seq<string>, addr: Address)
    requires Mergeable(g) && p in g.projects && Fresh(g, addr) && |platforms| > 0
    ensures var h := Merged(g, p, reply, platforms, addr);
            && (forall f :: h.Status(f) == g.Status(f) || (!Regular(g.Status(f)) && h.Status(f) == 0))
            && (forall w <- h.workunits :: w in g.workunits || forall f <- w.inputFiles :: Regular(h.Status(f)))
            && (forall v <- reply.versions, x <- g.appVersions ::
                  (v.platform == "" || v.platform in platforms) && x.app.project == p && x.app.name == v.appName
                  && x.platform == Meant(v.platform, platforms) && x.versionNum == v.versionNum
                  && x.planClass == v.planClass
                  ==> forall f <- x.appFiles :: Regular(h.Status(f)))
  {
    hide Mergeable, Fresh, MergedFiles, MergedRecords, MergedFlags, Regular, Meant, Graph.Status;
    var n := addr + |reply.apps| + |reply.files|;
    var a := MergedFiles(g, p, reply, addr);
    var b := MergedRecords(a, p, reply, platforms, n);
    var h := MergedFlags(b, p, reply);
    assert h == Merged(g, p, reply, platforms, addr);
    hide Merged;
    AppsAndFiles(g, p, reply, addr);
    MergedFilesKeeps(g, p, reply, addr);
    ExtendsProjects(g, a);
    FlagsDone(b, p, reply);
    RecordStatuses(a, p, reply, platforms, n);
    SameStatus(g, a);
    SameStatus(b, h);
    hide FilesHandled;
  }

  lemma SameStatus(g: Graph, h: Graph)
    requires g.status == h.status
    ensures forall f :: g.Status(f) == h.Status(f)
  {
  }

  lemma RecordStatuses(g: Graph, p: Project, reply: Reply, platforms: seq<string>, addr: Address)
    requires Mergeable(g) && p in g.projects && Fresh(g, addr) && |platforms| > 0
    ensures var h := MergedRecords(g, p, reply, platforms, addr);
            && (forall f :: h.Status(f) == g.Status(f) || (!Regular(g.Status(f)) && h.Status(f) == 0))
            && (forall w <- h.workunits :: w in g.workunits || forall f <- w.inputFiles :: Regular(h.Status(f)))
            && (forall v <- reply.versions, x <- g.appVersions ::
                  (v.platform == "" || v.platform in platforms) && x.app.project == p && x.app.name == v.appName
                  && x.platform == Meant(v.platform, platforms) && x.versionNum == v.versionNum
                  && x.planClass == v.planClass
                  ==> forall f <- x.appFiles :: Regular(h.Status(f)))
  {
    hide Mergeable, Fresh, AddVersions, AddWorkunits, AddResults, Meant, Graph.Status;
    var n := addr + |reply.versions|;
    var a := AddVersions(g, p, reply.versions, platforms, addr);
    var b := AddWorkunits(a, p, reply.workunits, n);
    var h := AddResults(b, p, reply.results, platforms, n + |reply.workunits|);
    assert h == MergedRecords(g, p, reply, platforms, addr);
    VersionsOnly(g, p, reply.versions, platforms, addr);
    WorkunitsOnly(a, p, reply.workunits, n);
    ResultsOnly(b, p, reply.results, platforms, n + |reply.workunits|);
    SameStatus(b, h);
    var known := KnownFilesOf(g, p, reply.versions, platforms, addr);
    VersionStatus(g, p, reply.versions, platforms, addr);
    ClearedIs(g, a, known);
    WorkunitStatus(a, p, reply.workunits, n);
    ClearedIs(a, b, NewInputs(a, b));
    hide MergedRecords, KnownFilesOf, NewInputs, Regular;
    forall v, x | v in reply.versions && x in g.appVersions
        && (v.platform == "" || v.platform in platforms) && x.app.project == p && x.app.name == v.appName
        && x.platform == Meant(v.platform, platforms) && x.versionNum == v.versionNum && x.planClass == v.planClass
      ensures forall f <- x.appFiles :: Regular(h.Status(f))
    {
      KnownOne(g, p, reply.versions, platforms, addr, v, x);
      assert Regular(0) by { RegularZero(); }
      forall f | f in x.appFiles ensures Regular(h.Status(f)) { assert f in SetOf(x.appFiles); }
    }
    forall w | w in h.workunits && w !in g.workunits ensures forall f <- w.inputFiles :: Regular(h.Status(f)) {
      NewInputsOf(a, b, w);
    }
    RegularZero();
  }

  lemma RegularZero()
    ensures Regular(0)
  {
  }

  lemma NewInputsOf(a: Graph, b: Graph, w: Workunit)
    requires a.workunits <= b.workunits && w in b.workunits && w !in a.workunits
    ensures forall f <- w.inputFiles :: f in NewInputs(a, b)
  {
    var j :| 0 <= j < |b.workunits| && b.workunits[j] == w;
    assert j >= |a.workunits|;
  }

  lemma VersionStatus(g: Graph, p: Project, vs: seq<ReplyVersion>, platforms: seq<string>, addr: Address)
    requires |platforms| > 0
    ensures AddVersions(g, p, vs, platforms, addr).status == Cleared(g.status, KnownFilesOf(g, p, vs, platforms, addr))
  {
    hide *;
    AddVersionsExact(g, p, vs, platforms, addr);
  }

  lemma WorkunitStatus(g: Graph, p: Project, ws: seq<ReplyWorkunit>, addr: Address)
    ensures var h := AddWorkunits(g, p, ws, addr);
            h.status == Cleared(g.status, NewInputs(g, h)) && g.workunits <= h.workunits
  {
    hide *;
    AddWorkunitsExact(g, p, ws, addr);
  }

  lemma KnownOne(g: Graph, p: Project, vs: seq<ReplyVersion>, platforms: seq<string>, addr: Address, v: ReplyVersion,
                 x: AppVersion)
    requires Mergeable(g) && p in g.projects && Fresh(g, addr) && |platforms| > 0
    requires v in vs && x in g.appVersions && (v.platform == "" || v.platform in platforms)
    requires x.app.project == p && x.app.name == v.appName && x.platform == Meant(v.platform, platforms)
    requires x.versionNum == v.versionNum && x.planClass == v.planClass
    ensures SetOf(x.appFiles) <= KnownFilesOf(g, p, vs, platforms, addr)
  {
    var j :| 0 <= j < |vs| && vs[j] == v;
    AppFound(g, x);
    hide Mergeable, Fresh, KnownFilesOf, LookupApp;
    KnownBefore(g, p, vs, platforms, addr, j, x);
  }

  lemma AppFound(g: Graph, x: AppVersion)
    requires Mergeable(g) && x in g.appVersions
    ensures LookupApp(g.apps, x.app.project, x.app.name) == Some(x.app)
  {
    assert g.CheckAppVersion(x) && AppKeys(g.apps);
    hide Mergeable, LookupApp;
    var o := LookupApp(g.apps, x.app.project, x.app.name);
    var i :| 0 <= i < |g.apps| && g.apps[i] == x.app;
    var j :| 0 <= j < |g.apps| && g.apps[j] == o.value;
    assert i == j;
  }
}
