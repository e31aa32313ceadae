/** The entity-merging part of CLIENT_STATE::handle_scheduler_reply (client/cs_scheduler.C),
    with the lookups and link functions of client/client_state.C that it uses. */
module Merge {
  import opened Options
  import opened Detach
  import opened Records
  import opened Vectors

  // ---- Lookups ----------------------------------------------------------------

  function LookupApp(apps: seq<App>, p: Project, name: string): (r: Option<App>)
    ensures r.Some? ==> r.value in apps && r.value.project == p && r.value.name == name
    ensures r.None? ==> forall a <- apps :: !(a.project == p && a.name == name)
  {
    if apps == [] then None
    else if apps[0].project == p && apps[0].name == name then Some(apps[0])
    else LookupApp(apps[1..], p, name)
  }

  function LookupFile(files: seq<FileInfo>, p: Project, name: string): (r: Option<FileInfo>)
    ensures r.Some? ==> r.value in files && r.value.project == p && r.value.name == name
    ensures r.None? ==> forall f <- files :: !(f.project == p && f.name == name)
  {
    if files == [] then None
    else if files[0].project == p && files[0].name == name then Some(files[0])
    else LookupFile(files[1..], p, name)
  }

  function LookupWorkunit(ws: seq<Workunit>, p: Project, name: string): (r: Option<Workunit>)
    ensures r.Some? ==> r.value in ws && r.value.project == p && r.value.name == name
    ensures r.None? ==> forall w <- ws :: !(w.project == p && w.name == name)
  {
    if ws == [] then None
    else if ws[0].project == p && ws[0].name == name then Some(ws[0])
    else LookupWorkunit(ws[1..], p, name)
  }

  function LookupResult(rs: seq<Result>, p: Project, name: string): (r: Option<Result>)
    ensures r.Some? ==> r.value in rs && r.value.project == p && r.value.name == name
    ensures r.None? ==> forall x <- rs :: !(x.project == p && x.name == name)
  {
    if rs == [] then None
    else if rs[0].project == p && rs[0].name == name then Some(rs[0])
    else LookupResult(rs[1..], p, name)
  }

  predicate VersionMatches(v: AppVersion, app: App, platform: string, num: int, plan: string) {
    v.app == app && v.versionNum == num && v.platform == platform && v.planClass == plan
  }

  function LookupVersion(vs: seq<AppVersion>, app: App, platform: string, num: int,
                         plan: string): (r: Option<AppVersion>)
    ensures r.Some? ==> r.value in vs && VersionMatches(r.value, app, platform, num, plan)
    ensures r.None? ==> forall v <- vs :: !VersionMatches(v, app, platform, num, plan)
  {
    if vs == [] then None
    else if VersionMatches(vs[0], app, platform, num, plan) then Some(vs[0])
    else LookupVersion(vs[1..], app, platform, num, plan)
  }

  predicate NamesOf(files: seq<FileInfo>, names: seq<string>) {
    |files| == |names| && forall i :: 0 <= i < |names| ==> files[i].name == names[i]
  }

  /** Link file references by name: the files, in order, or None if one is missing. */
  function LinkFiles(files: seq<FileInfo>, p: Project, names: seq<string>): (r: Option<seq<FileInfo>>)
    ensures r.Some? <==> forall n <- names :: LookupFile(files, p, n).Some?
    ensures r.Some? ==> NamesOf(r.value, names) && SetOf(r.value) <= SetOf(files) && OwnFiles(r.value, p)
  {
    if names == [] then Some([])
    else
      assert names == [names[0]] + names[1..] && names[0] in names;
      match LookupFile(files, p, names[0])
      case None => None
      case Some(f) =>
        var rest := LinkFiles(files, p, names[1..]);
        if rest.None? then
          assert exists n <- names[1..] :: n in names && LookupFile(files, p, n).None?;
          None
        else
          assert SetOf([f] + rest.value) == {f} + SetOf(rest.value);
          assert OwnFiles(rest.value, p);
          Some([f] + rest.value)
  }

  /** CLIENT_STATE::latest_version: the highest version number of the application for the
      platform, or -1. */
  function LatestVersionNum(vs: seq<AppVersion>, app: App, platform: string): (n: int)
    ensures n >= -1
    ensures forall v <- vs :: v.app == app && v.platform == platform ==> v.versionNum <= n
    ensures n != -1 ==> exists v <- vs :: v.app == app && v.platform == platform && v.versionNum == n
  {
    if vs == [] then -1
    else
      var v, n := vs[|vs| - 1], LatestVersionNum(vs[..|vs| - 1], app, platform);
      assert vs == vs[..|vs| - 1] + [v];
      if v.app == app && v.platform == platform && v.versionNum >= n then v.versionNum else n
  }

  // ---- The reply -----------------------------------------------------------------

  datatype ReplyFile = ReplyFile(name: string, sticky: bool)
  datatype ReplyVersion = ReplyVersion(appName: string, platform: string, versionNum: int, planClass: string,
      files: seq<string>)
  datatype ReplyWorkunit = ReplyWorkunit(name: string, appName: string, files: seq<string>)
  datatype ReplyResult = ReplyResult(name: string, wuName: string, platform: string, versionNum: int, planClass: string,
                                     files: seq<string>)
  datatype Reply = Reply(
    apps: seq<string>,
    files: seq<ReplyFile>,
    fileDeletes: seq<string>,
    versions: seq<ReplyVersion>,
    workunits: seq<ReplyWorkunit>,
    results: seq<ReplyResult>,
    acks: seq<string>,
    aborts: seq<string>
  )

  // ---- What a merge keeps -----------------------------------------------------------

  predicate AppKeys(apps: seq<App>) {
    forall i, j :: 0 <= i < j < |apps| ==> !(apps[i].project == apps[j].project && apps[i].name == apps[j].name)
  }
  predicate FileKeys(files: seq<FileInfo>) {
    forall i, j :: 0 <= i < j < |files| ==> !(files[i].project == files[j].project && files[i].name == files[j].name)
  }
  predicate VersionKeys(vs: seq<AppVersion>) {
    forall i, j :: 0 <= i < j < |vs| ==>
        !VersionMatches(vs[i], vs[j].app, vs[j].platform, vs[j].versionNum, vs[j].planClass)
  }
  predicate WorkunitKeys(ws: seq<Workunit>) {
    forall i, j :: 0 <= i < j < |ws| ==> !(ws[i].project == ws[j].project && ws[i].name == ws[j].name)
  }
  predicate ResultKeys(rs: seq<Result>) {
    forall i, j :: 0 <= i < j < |rs| ==> !(rs[i].project == rs[j].project && rs[i].name == rs[j].name)
  }

  /** No two records of a kind have the same key. */
  predicate KeysUnique(g: Graph) {
    AppKeys(g.apps) && FileKeys(g.fileInfos) && VersionKeys(g.appVersions) && WorkunitKeys(g.workunits)
        && ResultKeys(g.results)
  }

  /** Every result runs an application version of its workunit's application. */
  predicate SameApp(g: Graph) {
    forall r <- g.results :: r.avp.app == r.wup.app == r.app
  }

  ghost predicate Mergeable(g: Graph) {
    Detachable(g) && KeysUnique(g) && SameApp(g)
  }

  /** `addr` and everything above it is unused: a record allocated there starts with no flags. */
  ghost predicate Fresh(g: Graph, addr: Address) {
    && (forall f <- g.fileInfos :: f.addr < addr)
    && (forall f <- g.persXfer.Keys + g.status.Keys + g.markedForDelete :: f.addr < addr)
    && (forall r <- g.results :: r.addr < addr)
    && (forall r <- g.acked + g.ready :: r.addr < addr)
  }

  /** `h` adds records to `g` and leaves projects, tasks and transfers alone. */
  predicate Extends(g: Graph, h: Graph) {
    && g.apps <= h.apps && g.fileInfos <= h.fileInfos && g.appVersions <= h.appVersions
    && g.workunits <= h.workunits && g.results <= h.results
    && g.projects == h.projects && g.projectFiles == h.projectFiles && g.activeTasks == h.activeTasks
    && g.persXfers == h.persXfers && g.fileXfers == h.fileXfers && g.persXfer == h.persXfer && g.netXfer == h.netXfer
    && g.scheduled == h.scheduled
  }

  // ---- One entity at a time -----------------------------------------------------------

  function AddApp(g: Graph, p: Project, name: string, addr: Address): Graph {
    if LookupApp(g.apps, p, name).Some? then g
    else g.(apps := g.apps + [App(addr, p, name)])
  }

  function AddFile(g: Graph, p: Project, f: ReplyFile, addr: Address): Graph {
    if LookupFile(g.fileInfos, p, f.name).Some? then g
    else g.(fileInfos := g.fileInfos + [FileInfo(addr, p, f.name, f.sticky)])
  }

  function MarkDeleted(g: Graph, p: Project, name: string): Graph {
    match LookupFile(g.fileInfos, p, name)
    case None => g
    case Some(f) => g.(markedForDelete := g.markedForDelete + {f})
  }

  /** APP_VERSION::clear_errors and WORKUNIT::clear_errors: failed files are reset. */
  function ClearErrors(g: Graph, files: seq<FileInfo>): Graph {
    g.(status := map f | f in g.status ::
                   if f in files && IsFailure(g.status[f]) then FILE_NOT_PRESENT else g.status[f])
  }

  function PlatformOf(platform: string, primary: string): string { if platform == "" then primary else platform }

  function AddVersion(g: Graph, p: Project, v: ReplyVersion, platforms: seq<string>, addr: Address): Graph
    requires |platforms| > 0
  {
    var platform := PlatformOf(v.platform, platforms[0]);
    if v.platform != "" && v.platform !in platforms then g
    else
      match LookupApp(g.apps, p, v.appName)
      case None => g
      case Some(app) =>
        match LookupVersion(g.appVersions, app, platform, v.versionNum, v.planClass)
        case Some(known) => ClearErrors(g, known.appFiles)
        case None =>
          match LinkFiles(g.fileInfos, p, v.files)
          case None => g
          case Some(files) =>
            g.(appVersions := g.appVersions + [AppVersion(addr, p, app, platform, v.versionNum, v.planClass, files)])
  }

  function AddWorkunit(g: Graph, p: Project, w: ReplyWorkunit, addr: Address): Graph {
    if LookupWorkunit(g.workunits, p, w.name).Some? then g
    else
      match LookupApp(g.apps, p, w.appName)
      case None => g
      case Some(app) =>
        match LinkFiles(g.fileInfos, p, w.files)
        case None => g
        case Some(files) =>
          ClearErrors(g.(workunits := g.workunits + [Workunit(addr, p, app, w.name, files)]), files)
  }

  function AddResult(g: Graph, p: Project, r: ReplyResult, platforms: seq<string>, addr: Address): Graph
    requires |platforms| > 0
  {
    if LookupResult(g.results, p, r.name).Some? then g
    else
      match LookupWorkunit(g.workunits, p, r.wuName)
      case None => g
      case Some(wup) =>
        match LinkFiles(g.fileInfos, p, r.files)
        case None => g
        case Some(files) =>
          var platform := PlatformOf(r.platform, platforms[0]);
          var num := if r.platform == "" then LatestVersionNum(g.appVersions, wup.app, platform) else r.versionNum;
          match LookupVersion(g.appVersions, wup.app, platform, num, r.planClass)
          case None => g
          case Some(avp) => g.(results := g.results + [Result(addr, p, r.name, wup, wup.app, avp, files)])
  }

  function Ack(g: Graph, p: Project, name: string): Graph {
    match LookupResult(g.results, p, name)
    case None => g
    case Some(r) => g.(acked := g.acked + {r})
  }

  /** An aborted result with a task is reported; without a task only its state changes. */
  function Abort(g: Graph, p: Project, name: string): Graph {
    match LookupResult(g.results, p, name)
    case None => g
    case Some(r) => if g.HasTask(r) then g.(ready := g.ready + {r}) else g
  }

  // ---- Each entity keeps the invariant ---------------------------------------------------

  /** Growing the vectors never breaks a link that was fine. */
  lemma GrowSafe(g: Graph, h: Graph)
    requires Mergeable(g) && Extends(g, h) && KeysUnique(h) && SameApp(h) && Separate(h)
    requires forall a <- h.apps :: h.CheckApp(a)
    requires forall f <- h.fileInfos :: h.CheckFileInfo(f) && (f in h.persXfer ==> h.persXfer[f].fip == f)
    requires forall v <- h.appVersions :: h.CheckAppVersion(v)
    requires forall w <- h.workunits :: h.CheckWorkunit(w)
    requires forall r <- h.results :: h.CheckResult(r) && r.avp in h.appVersions
    ensures Mergeable(h)
  {
    forall t | t in h.activeTasks ensures h.CheckActiveTask(t) { assert g.CheckActiveTask(t); }
    forall x | x in h.persXfers ensures h.CheckPersFileXfer(x) { assert g.CheckPersFileXfer(x); }
    forall x | x in h.fileXfers ensures h.CheckFileXfer(x) { assert g.CheckFileXfer(x); }
    forall q | q in h.projects ensures h.CheckFileRefs(h.FilesOf(q)) {
      assert h.FilesOf(q) == g.FilesOf(q);
      assert g.CheckFileRefs(g.FilesOf(q)) && SetOf(g.fileInfos) <= SetOf(h.fileInfos);
    }
  }

  /** Records that are not new keep passing the check while vectors only grow. */
  lemma Unchanged(g: Graph, h: Graph)
    requires g.CheckAll() && g.Linked() && Extends(g, h)
    ensures forall f <- g.fileInfos :: h.CheckFileInfo(f) && (f in h.persXfer ==> h.persXfer[f].fip == f)
    ensures forall v <- g.appVersions :: h.CheckAppVersion(v)
    ensures forall w <- g.workunits :: h.CheckWorkunit(w)
    ensures forall r <- g.results :: h.CheckResult(r) && r.avp in h.appVersions
  {
    assert SetOf(g.fileInfos) <= SetOf(h.fileInfos);
    forall f | f in g.fileInfos ensures h.CheckFileInfo(f) { assert g.CheckFileInfo(f); }
    forall v | v in g.appVersions ensures h.CheckAppVersion(v) { assert g.CheckAppVersion(v); }
    forall w | w in g.workunits ensures h.CheckWorkunit(w) { assert g.CheckWorkunit(w); }
    forall r | r in g.results ensures h.CheckResult(r) { assert g.CheckResult(r); }
  }

  // Linked records with a new key can be pushed.

  lemma PushApp(g: Graph, a: App)
    requires Mergeable(g) && a.project in g.projects
    requires forall x <- g.apps :: !(x.project == a.project && x.name == a.name)
    ensures Mergeable(g.(apps := g.apps + [a]))
  {
    var h := g.(apps := g.apps + [a]);
    forall x | x in h.apps ensures h.CheckApp(x) { if x in g.apps { assert g.CheckApp(x); } }
    Unchanged(g, h);
    GrowSafe(g, h);
  }

  lemma PushFile(g: Graph, f: FileInfo)
    requires Mergeable(g) && f.project in g.projects && f !in g.persXfer
    requires forall x <- g.fileInfos :: !(x.project == f.project && x.name == f.name)
    ensures Mergeable(g.(fileInfos := g.fileInfos + [f]))
  {
    var h := g.(fileInfos := g.fileInfos + [f]);
    forall x | x in h.apps ensures h.CheckApp(x) { assert g.CheckApp(x); }
    Unchanged(g, h);
    GrowSafe(g, h);
  }

  lemma PushVersion(g: Graph, v: AppVersion)
    requires Mergeable(g) && v.project in g.projects && v.app in g.apps && SeparateVersion(v)
            && g.CheckFileRefs(v.appFiles)
    requires forall x <- g.appVersions :: !VersionMatches(x, v.app, v.platform, v.versionNum, v.planClass)
    ensures Mergeable(g.(appVersions := g.appVersions + [v]))
  {
    var h := g.(appVersions := g.appVersions + [v]);
    forall x | x in h.apps ensures h.CheckApp(x) { assert g.CheckApp(x); }
    Unchanged(g, h);
    GrowSafe(g, h);
  }

  lemma PushWorkunit(g: Graph, w: Workunit)
    requires Mergeable(g) && w.project in g.projects && w.app in g.apps && SeparateWorkunit(w)
            && g.CheckFileRefs(w.inputFiles)
    requires forall x <- g.workunits :: !(x.project == w.project && x.name == w.name)
    ensures Mergeable(g.(workunits := g.workunits + [w]))
  {
    var h := g.(workunits := g.workunits + [w]);
    forall x | x in h.apps ensures h.CheckApp(x) { assert g.CheckApp(x); }
    Unchanged(g, h);
    GrowSafe(g, h);
  }

  lemma PushResult(g: Graph, x: Result)
    requires Mergeable(g) && x.project in g.projects && x.wup in g.workunits && x.avp in g.appVersions
    requires x.app == x.wup.app == x.avp.app && SeparateResult(x) && g.CheckFileRefs(x.outputFiles)
    requires forall r <- g.results :: !(r.project == x.project && r.name == x.name)
    ensures Mergeable(g.(results := g.results + [x]))
  {
    var h := g.(results := g.results + [x]);
    PushedResult(g, x);
    Unchanged(g, h);
    assert g.CheckWorkunit(x.wup);
    forall a | a in h.apps ensures h.CheckApp(a) { assert g.CheckApp(a); }
    hide KeysUnique, SameApp, Separate, SeparateResult, XfersOwned;
    GrowSafe(g, h);
  }

  lemma PushedResult(g: Graph, x: Result)
    requires KeysUnique(g) && SameApp(g) && Separate(g)
    requires x.app == x.wup.app == x.avp.app && SeparateResult(x)
    requires forall r <- g.results :: !(r.project == x.project && r.name == x.name)
    ensures var h := g.(results := g.results + [x]); KeysUnique(h) && SameApp(h) && Separate(h)
  {
    var h := g.(results := g.results + [x]);
    assert forall p :: h.FilesOf(p) == g.FilesOf(p);
    hide AppKeys, FileKeys, VersionKeys, WorkunitKeys, SeparateVersion, SeparateWorkunit, SeparateResult;
  }

  /** Changing only status words and flags keeps everything. */
  lemma FlagsKeep(g: Graph, h: Graph)
    requires Mergeable(g)
    requires h == g.(status := h.status, markedForDelete := h.markedForDelete, acked := h.acked, ready := h.ready)
    ensures Mergeable(h) && Extends(g, h)
  {
    forall a | a in h.apps ensures h.CheckApp(a) { assert g.CheckApp(a); }
    assert forall q <- h.projects :: h.FilesOf(q) == g.FilesOf(q);
    Unchanged(g, h);
    GrowSafe(g, h);
  }

  lemma ClearErrorsKeeps(g: Graph, files: seq<FileInfo>, addr: Address)
    requires Mergeable(g) && Fresh(g, addr)
    ensures var h := ClearErrors(g, files); Mergeable(h) && Extends(g, h) && Fresh(h, addr)
    ensures forall f <- files :: !IsFailure(ClearErrors(g, files).Status(f))
  {
    FlagsKeep(g, ClearErrors(g, files));
    assert ClearErrors(g, files).status.Keys == g.status.Keys;
  }

  lemma AddAppKeeps(g: Graph, p: Project, name: string, addr: Address)
    requires Mergeable(g) && p in g.projects && Fresh(g, addr)
    ensures var h := AddApp(g, p, name, addr); Mergeable(h) && Extends(g, h) && Fresh(h, addr + 1)
  {
    hide Mergeable, LookupApp;
    if LookupApp(g.apps, p, name).None? { PushApp(g, App(addr, p, name)); }
  }

  lemma AddFileKeeps(g: Graph, p: Project, f: ReplyFile, addr: Address)
    requires Mergeable(g) && p in g.projects && Fresh(g, addr)
    ensures var h := AddFile(g, p, f, addr); Mergeable(h) && Extends(g, h) && Fresh(h, addr + 1)
  {
    hide Mergeable, LookupFile;
    if LookupFile(g.fileInfos, p, f.name).None? { PushFile(g, FileInfo(addr, p, f.name, f.sticky)); }
  }

  /** A version can be taken over: its platform is supported, its application is known and
      its files are all there. */
  predicate VersionLinks(g: Graph, p: Project, v: ReplyVersion, platforms: seq<string>) {
    && (v.platform == "" || v.platform in platforms)
    && LookupApp(g.apps, p, v.appName).Some? && LinkFiles(g.fileInfos, p, v.files).Some?
  }

  predicate HasVersion(g: Graph, p: Project, v: ReplyVersion, platforms: seq<string>)
    requires |platforms| > 0
  {
    && LookupApp(g.apps, p, v.appName).Some?
    && LookupVersion(g.appVersions, LookupApp(g.apps, p, v.appName).value, PlatformOf(v.platform, platforms[0]),
                     v.versionNum, v.planClass).Some?
  }

  /** A new version is what the reply describes. */
  predicate VersionFrom(v: AppVersion, rv: ReplyVersion, p: Project, platforms: seq<string>)
    requires |platforms| > 0
  {
    && v.project == p && v.app.name == rv.appName && NamesOf(v.appFiles, rv.files)
    && VersionMatches(v, v.app, PlatformOf(rv.platform, platforms[0]), rv.versionNum, rv.planClass)
  }

  lemma AddVersionKeeps(g: Graph, p: Project, v: ReplyVersion, platforms: seq<string>, addr: Address)
    requires Mergeable(g) && p in g.projects && Fresh(g, addr) && |platforms| > 0
    ensures var h := AddVersion(g, p, v, platforms, addr); Mergeable(h) && Extends(g, h) && Fresh(h, addr + 1)
  {
    hide Mergeable, LookupApp, LookupVersion, LinkFiles, ClearErrors, VersionMatches;
    var h := AddVersion(g, p, v, platforms, addr);
    var app := LookupApp(g.apps, p, v.appName);
    if h != g {
      var known := LookupVersion(g.appVersions, app.value, PlatformOf(v.platform, platforms[0]), v.versionNum,
          v.planClass);
      if known.Some? {
        ClearErrorsKeeps(g, known.value.appFiles, addr);
      } else {
        PushVersion(g, h.appVersions[|g.appVersions|]);
      }
    }
  }

  predicate WorkunitLinks(g: Graph, p: Project, w: ReplyWorkunit) {
    LookupApp(g.apps, p, w.appName).Some? && LinkFiles(g.fileInfos, p, w.files).Some?
  }

  predicate WorkunitFrom(w: Workunit, rw: ReplyWorkunit, p: Project) {
    w.project == p && w.name == rw.name && w.app.name == rw.appName && NamesOf(w.inputFiles, rw.files)
  }

  lemma AddWorkunitKeeps(g: Graph, p: Project, w: ReplyWorkunit, addr: Address)
    requires Mergeable(g) && p in g.projects && Fresh(g, addr)
    ensures var h := AddWorkunit(g, p, w, addr); Mergeable(h) && Extends(g, h) && Fresh(h, addr + 1)
  {
    hide Mergeable, LookupApp, LookupWorkunit, LinkFiles, ClearErrors;
    if LookupWorkunit(g.workunits, p, w.name).None? && WorkunitLinks(g, p, w) {
      var files := LinkFiles(g.fileInfos, p, w.files).value;
      var x := Workunit(addr, p, LookupApp(g.apps, p, w.appName).value, w.name, files);
      var m := g.(workunits := g.workunits + [x]);
      PushWorkunit(g, x);
      ClearErrorsKeeps(m, files, addr + 1);
      assert AddWorkunit(g, p, w, addr) == ClearErrors(m, files);
    }
  }

  /** The version that a new result runs. */
  function ResultVersion(g: Graph, r: ReplyResult, app: App, platforms: seq<string>): Option<AppVersion>
    requires |platforms| > 0
  {
    var platform := PlatformOf(r.platform, platforms[0]);
    var num := if r.platform == "" then LatestVersionNum(g.appVersions, app, platform) else r.versionNum;
    LookupVersion(g.appVersions, app, platform, num, r.planClass)
  }

  predicate ResultLinks(g: Graph, p: Project, r: ReplyResult, platforms: seq<string>)
    requires |platforms| > 0
  {
    && LookupWorkunit(g.workunits, p, r.wuName).Some? && LinkFiles(g.fileInfos, p, r.files).Some?
    && ResultVersion(g, r, LookupWorkunit(g.workunits, p, r.wuName).value.app, platforms).Some?
  }

  /** A new result is what the reply describes; without a platform it runs the newest of the listed
      versions `vs` for the primary one. */
  predicate ResultFrom(vs: seq<AppVersion>, r: Result, rr: ReplyResult, p: Project, platforms: seq<string>)
    requires |platforms| > 0
  {
    && r.project == p && r.name == rr.name && r.wup.name == rr.wuName && NamesOf(r.outputFiles, rr.files)
    && r.avp.app == r.wup.app && r.avp.platform == PlatformOf(rr.platform, platforms[0])
        && r.avp.planClass == rr.planClass
    && (rr.platform != "" ==> r.avp.versionNum == rr.versionNum)
    && (rr.platform == "" ==> forall v <- vs ::
          v.app == r.wup.app && v.platform == platforms[0] ==> v.versionNum <= r.avp.versionNum)
  }

  lemma ListedSeparate(g: Graph, w: Workunit, v: AppVersion)
    requires Mergeable(g) && w in g.workunits && v in g.appVersions
    ensures SeparateWorkunit(w) && SeparateVersion(v)
  {
  }

  lemma AddResultKeeps(g: Graph, p: Project, r: ReplyResult, platforms: seq<string>, addr: Address)
    requires Mergeable(g) && p in g.projects && Fresh(g, addr) && |platforms| > 0
    ensures var h := AddResult(g, p, r, platforms, addr); Mergeable(h) && Extends(g, h) && Fresh(h, addr + 1)
  {
    hide Mergeable, LookupWorkunit, LookupResult, LookupVersion, LinkFiles, LatestVersionNum;
    if LookupResult(g.results, p, r.name).None? && ResultLinks(g, p, r, platforms) {
      var wup := LookupWorkunit(g.workunits, p, r.wuName).value;
      var avp := ResultVersion(g, r, wup.app, platforms).value;
      ListedSeparate(g, wup, avp);
      PushResult(g, Result(addr, p, r.name, wup, wup.app, avp, LinkFiles(g.fileInfos, p, r.files).value));
    }
  }

  // ---- Whole lists of entities ----------------------------------------------------------------

  function AddApps(g: Graph, p: Project, names: seq<string>, addr: Address): Graph {
    if names == [] then g
    else AddApp(AddApps(g, p, names[..|names| - 1], addr), p, names[|names| - 1], addr + |names| - 1)
  }

  function AddFiles(g: Graph, p: Project, files: seq<ReplyFile>, addr: Address): Graph {
    if files == [] then g
    else AddFile(AddFiles(g, p, files[..|files| - 1], addr), p, files[|files| - 1], addr + |files| - 1)
  }

  function AddVersions(g: Graph, p: Project, vs: seq<ReplyVersion>, platforms: seq<string>, addr: Address): Graph
    requires |platforms| > 0
  {
    if vs == [] then g
    else AddVersion(AddVersions(g, p, vs[..|vs| - 1], platforms, addr), p, vs[|vs| - 1], platforms, addr + |vs| - 1)
  }

  function AddWorkunits(g: Graph, p: Project, ws: seq<ReplyWorkunit>, addr: Address): Graph {
    if ws == [] then g
    else AddWorkunit(AddWorkunits(g, p, ws[..|ws| - 1], addr), p, ws[|ws| - 1], addr + |ws| - 1)
  }

  function AddResults(g: Graph, p: Project, rs: seq<ReplyResult>, platforms: seq<string>, addr: Address): Graph
    requires |platforms| > 0
  {
    if rs == [] then g
    else AddResult(AddResults(g, p, rs[..|rs| - 1], platforms, addr), p, rs[|rs| - 1], platforms, addr + |rs| - 1)
  }

  lemma {:induction false} AddAppsKeep(g: Graph, p: Project, names: seq<string>, addr: Address)
    requires Mergeable(g) && p in g.projects && Fresh(g, addr)
    ensures var h := AddApps(g, p, names, addr); Mergeable(h) && Extends(g, h) && Fresh(h, addr + |names|)
  {
    hide Mergeable, Fresh, AddApp, AddFile, AddVersion, AddWorkunit, AddResult;
    if names != [] {
      AddAppsKeep(g, p, names[..|names| - 1], addr);
      AddAppKeeps(AddApps(g, p, names[..|names| - 1], addr), p, names[|names| - 1], addr + |names| - 1);
    }
  }

  lemma {:induction false} AddFilesKeep(g: Graph, p: Project, files: seq<ReplyFile>, addr: Address)
    requires Mergeable(g) && p in g.projects && Fresh(g, addr)
    ensures var h := AddFiles(g, p, files, addr); Mergeable(h) && Extends(g, h) && Fresh(h, addr + |files|)
  {
    hide Mergeable, Fresh, AddApp, AddFile, AddVersion, AddWorkunit, AddResult;
    if files != [] {
      AddFilesKeep(g, p, files[..|files| - 1], addr);
      AddFileKeeps(AddFiles(g, p, files[..|files| - 1], addr), p, files[|files| - 1], addr + |files| - 1);
    }
  }

  lemma {:induction false} AddVersionsKeep(g: Graph, p: Project, vs: seq<ReplyVersion>, platforms: seq<string>,
                                           addr: Address)
    requires Mergeable(g) && p in g.projects && Fresh(g, addr) && |platforms| > 0
    ensures var h := AddVersions(g, p, vs, platforms, addr); Mergeable(h) && Extends(g, h) && Fresh(h, addr + |vs|)
  {
    hide Mergeable, Fresh, AddApp, AddFile, AddVersion, AddWorkunit, AddResult;
    if vs != [] {
      AddVersionsKeep(g, p, vs[..|vs| - 1], platforms, addr);
      AddVersionKeeps(AddVersions(g, p, vs[..|vs| - 1], platforms, addr), p, vs[|vs| - 1], platforms, addr + |vs| - 1);
    }
  }

  lemma {:induction false} AddWorkunitsKeep(g: Graph, p: Project, ws: seq<ReplyWorkunit>, addr: Address)
    requires Mergeable(g) && p in g.projects && Fresh(g, addr)
    ensures var h := AddWorkunits(g, p, ws, addr); Mergeable(h) && Extends(g, h) && Fresh(h, addr + |ws|)
  {
    hide Mergeable, Fresh, AddApp, AddFile, AddVersion, AddWorkunit, AddResult;
    if ws != [] {
      AddWorkunitsKeep(g, p, ws[..|ws| - 1], addr);
      AddWorkunitKeeps(AddWorkunits(g, p, ws[..|ws| - 1], addr), p, ws[|ws| - 1], addr + |ws| - 1);
    }
  }

  lemma {:induction false} AddResultsKeep(g: Graph, p: Project, rs: seq<ReplyResult>, platforms: seq<string>,
                                          addr: Address)
    requires Mergeable(g) && p in g.projects && Fresh(g, addr) && |platforms| > 0
    ensures var h := AddResults(g, p, rs, platforms, addr); Mergeable(h) && Extends(g, h) && Fresh(h, addr + |rs|)
  {
    hide Mergeable, Fresh, AddApp, AddFile, AddVersion, AddWorkunit, AddResult;
    if rs != [] {
      AddResultsKeep(g, p, rs[..|rs| - 1], platforms, addr);
      AddResultKeeps(AddResults(g, p, rs[..|rs| - 1], platforms, addr), p, rs[|rs| - 1], platforms, addr + |rs| - 1);
    }
  }

  // ---- Nothing lost, nothing invented --------------------------------------------------------

  /** A lookup that succeeded still succeeds after the vector grew. */
  lemma LookupsGrow(g: Graph, h: Graph, p: Project, name: string)
    requires g.apps <= h.apps && g.fileInfos <= h.fileInfos && g.workunits <= h.workunits && g.results <= h.results
    ensures LookupApp(g.apps, p, name).Some? ==> LookupApp(h.apps, p, name).Some?
    ensures LookupFile(g.fileInfos, p, name).Some? ==> LookupFile(h.fileInfos, p, name).Some?
    ensures LookupWorkunit(g.workunits, p, name).Some? ==> LookupWorkunit(h.workunits, p, name).Some?
    ensures LookupResult(g.results, p, name).Some? ==> LookupResult(h.results, p, name).Some?
  {
    hide LookupApp, LookupFile, LookupWorkunit, LookupResult;
    assert forall a <- g.apps :: a in h.apps;
    assert forall f <- g.fileInfos :: f in h.fileInfos;
    assert forall w <- g.workunits :: w in h.workunits;
    assert forall r <- g.results :: r in h.results;
  }

  lemma AddAppExact(g: Graph, p: Project, name: string, addr: Address)
    ensures var h := AddApp(g, p, name, addr);
            && h == g.(apps := h.apps) && g.apps <= h.apps && LookupApp(h.apps, p, name).Some?
            && (forall j :: |g.apps| <= j < |h.apps| ==> h.apps[j].project == p && h.apps[j].name == name)
  {
    hide LookupApp;
    var h := AddApp(g, p, name, addr);
    assert h.apps == g.apps || h.apps[|g.apps|] in h.apps;
  }

  lemma {:induction false} AddAppsExact(g: Graph, p: Project, names: seq<string>, addr: Address)
    ensures var h := AddApps(g, p, names, addr);
            && h == g.(apps := h.apps) && g.apps <= h.apps
            && (forall j :: 0 <= j < |names| ==> LookupApp(h.apps, p, names[j]).Some?)
            && (forall j :: |g.apps| <= j < |h.apps| ==> h.apps[j].project == p && h.apps[j].name in names)
  {
    hide AddApp, LookupApp;
    if names != [] {
      var front, last := names[..|names| - 1], names[|names| - 1];
      var m, h := AddApps(g, p, front, addr), AddApps(g, p, names, addr);
      AddAppsExact(g, p, front, addr);
      AddAppExact(m, p, last, addr + |names| - 1);
      forall j | 0 <= j < |names| ensures LookupApp(h.apps, p, names[j]).Some? {
        if j < |front| { assert names[j] == front[j]; LookupsGrow(m, h, p, front[j]); }
      }
    }
  }

  lemma AddFileExact(g: Graph, p: Project, f: ReplyFile, addr: Address)
    ensures var h := AddFile(g, p, f, addr);
            && h == g.(fileInfos := h.fileInfos) && g.fileInfos <= h.fileInfos
                && LookupFile(h.fileInfos, p, f.name).Some?
            && (forall j :: |g.fileInfos| <= j < |h.fileInfos| ==>
                  h.fileInfos[j].project == p && ReplyFile(h.fileInfos[j].name, h.fileInfos[j].sticky) == f)
  {
    hide LookupFile;
    var h := AddFile(g, p, f, addr);
    assert h.fileInfos == g.fileInfos || h.fileInfos[|g.fileInfos|] in h.fileInfos;
  }

  lemma {:induction false} AddFilesExact(g: Graph, p: Project, files: seq<ReplyFile>, addr: Address)
    ensures var h := AddFiles(g, p, files, addr);
            && h == g.(fileInfos := h.fileInfos) && g.fileInfos <= h.fileInfos
            && (forall j :: 0 <= j < |files| ==> LookupFile(h.fileInfos, p, files[j].name).Some?)
            && (forall j :: |g.fileInfos| <= j < |h.fileInfos| ==>
                  h.fileInfos[j].project == p && ReplyFile(h.fileInfos[j].name, h.fileInfos[j].sticky) in files)
  {
    hide AddFile, LookupFile;
    if files != [] {
      var front, last := files[..|files| - 1], files[|files| - 1];
      var m, h := AddFiles(g, p, front, addr), AddFiles(g, p, files, addr);
      AddFilesExact(g, p, front, addr);
      AddFileExact(m, p, last, addr + |files| - 1);
      forall j | 0 <= j < |files| ensures LookupFile(h.fileInfos, p, files[j].name).Some? {
        if j < |front| { assert files[j] == front[j]; LookupsGrow(m, h, p, front[j].name); }
      }
    }
  }

  /** A linkable version is there afterwards; a new version is what the reply describes. */
  lemma AddVersionExact(g: Graph, p: Project, v: ReplyVersion, platforms: seq<string>, addr: Address)
    requires |platforms| > 0
    ensures var h := AddVersion(g, p, v, platforms, addr);
            && h == g.(appVersions := h.appVersions, status := h.status) && g.appVersions <= h.appVersions
            && (VersionLinks(g, p, v, platforms) ==> HasVersion(h, p, v, platforms))
            && (forall j :: |g.appVersions| <= j < |h.appVersions| ==> VersionFrom(h.appVersions[j], v, p, platforms))
  {
    hide LookupApp, LookupVersion, LinkFiles;
    var h := AddVersion(g, p, v, platforms, addr);
    assert h.appVersions == g.appVersions || h.appVersions[|g.appVersions|] in h.appVersions;
  }

  lemma HasVersionGrows(g: Graph, h: Graph, p: Project, v: ReplyVersion, platforms: seq<string>)
    requires |platforms| > 0 && g.appVersions <= h.appVersions && g.apps == h.apps
    ensures HasVersion(g, p, v, platforms) ==> HasVersion(h, p, v, platforms)
  {
    hide LookupApp, LookupVersion;
    assert forall x <- g.appVersions :: x in h.appVersions;
  }

  /** The failed ones among `files` are as if not downloaded yet; no other status differs. */
  function Cleared(status: map<FileInfo, int>, files: set<FileInfo>): map<FileInfo, int> {
    map f | f in status :: if f in files && IsFailure(status[f]) then FILE_NOT_PRESENT else status[f]
  }

  lemma ClearedTwice(status: map<FileInfo, int>, a: set<FileInfo>, b: set<FileInfo>)
    ensures Cleared(Cleared(status, a), b) == Cleared(status, a + b) && Cleared(status, {}) == status
  {
  }

  /** The files of the listed version that the entry describes. */
  function KnownFiles(g: Graph, p: Project, v: ReplyVersion, platforms: seq<string>): set<FileInfo>
    requires |platforms| > 0
  {
    if v.platform != "" && v.platform !in platforms then {}
    else
      match LookupApp(g.apps, p, v.appName)
      case None => {}
      case Some(app) =>
        match LookupVersion(g.appVersions, app, PlatformOf(v.platform, platforms[0]), v.versionNum, v.planClass)
        case None => {}
        case Some(known) => SetOf(known.appFiles)
  }

  /** The files of all versions that are listed already when their entry is handled. */
  function KnownFilesOf(g: Graph, p: Project, vs: seq<ReplyVersion>, platforms: seq<string>, addr: Address):
      set<FileInfo>
    requires |platforms| > 0
  {
    if vs == [] then {}
    else
      var front, last := vs[..|vs| - 1], vs[|vs| - 1];
      KnownFilesOf(g, p, front, platforms, addr)
      + KnownFiles(AddVersions(g, p, front, platforms, addr), p, last, platforms)
  }

  /** A file of a version that was listed before is among them if an entry describes the version. */
  lemma {:induction false} KnownBefore(g: Graph, p: Project, vs: seq<ReplyVersion>, platforms: seq<string>,
                                       addr: Address, j: nat, x: AppVersion)
    requires |platforms| > 0 && j < |vs| && x in g.appVersions && Mergeable(g) && p in g.projects && Fresh(g, addr)
    requires vs[j].platform == "" || vs[j].platform in platforms
    requires LookupApp(g.apps, p, vs[j].appName).Some?
    requires VersionMatches(x, LookupApp(g.apps, p, vs[j].appName).value, PlatformOf(vs[j].platform, platforms[0]),
                            vs[j].versionNum, vs[j].planClass)
    ensures SetOf(x.appFiles) <= KnownFilesOf(g, p, vs, platforms, addr)
  {
    hide Mergeable, Fresh, KnownFiles, LookupApp, VersionMatches;
    var front, last := vs[..|vs| - 1], vs[|vs| - 1];
    if j < |front| {
      assert front[j] == vs[j];
      KnownBefore(g, p, front, platforms, addr, j, x);
    } else {
      var m := AddVersions(g, p, front, platforms, addr);
      AddVersionsKeep(g, p, front, platforms, addr);
      AddVersionsExact(g, p, front, platforms, addr);
      VersionsListed(g, m, x);
      KnownLast(m, p, last, platforms, x);
    }
  }

  lemma VersionsListed(g: Graph, m: Graph, x: AppVersion)
    requires Mergeable(m) && Extends(g, m) && x in g.appVersions
    ensures VersionKeys(m.appVersions) && x in m.appVersions
  {
  }

  lemma KnownLast(m: Graph, p: Project, v: ReplyVersion, platforms: seq<string>, x: AppVersion)
    requires |platforms| > 0 && x in m.appVersions && VersionKeys(m.appVersions)
    requires v.platform == "" || v.platform in platforms
    requires LookupApp(m.apps, p, v.appName).Some?
    requires VersionMatches(x, LookupApp(m.apps, p, v.appName).value, PlatformOf(v.platform, platforms[0]),
                            v.versionNum, v.planClass)
    ensures SetOf(x.appFiles) <= KnownFiles(m, p, v, platforms)
  {
    KnownIs(m.appVersions, x, LookupVersion(m.appVersions, x.app, x.platform, x.versionNum, x.planClass));
    hide LookupApp, LookupVersion, VersionKeys;
  }

  lemma KnownIs(vs: seq<AppVersion>, x: AppVersion, o: Option<AppVersion>)
    requires VersionKeys(vs) && x in vs && o == LookupVersion(vs, x.app, x.platform, x.versionNum, x.planClass)
    ensures o == Some(x)
  {
    assert VersionMatches(x, x.app, x.platform, x.versionNum, x.planClass);
    hide LookupVersion;
    var i :| 0 <= i < |vs| && vs[i] == x;
    var j :| 0 <= j < |vs| && vs[j] == o.value;
    assert i == j;
  }

  lemma AddVersionStatus(g: Graph, p: Project, v: ReplyVersion, platforms: seq<string>, addr: Address)
    requires |platforms| > 0
    ensures AddVersion(g, p, v, platforms, addr).status == Cleared(g.status, KnownFiles(g, p, v, platforms))
  {
    hide LookupApp, LookupVersion, LinkFiles;
  }

  lemma {:induction false} AddVersionsExact(g: Graph, p: Project, vs: seq<ReplyVersion>, platforms: seq<string>,
                                            addr: Address)
    requires |platforms| > 0
    ensures var h := AddVersions(g, p, vs, platforms, addr);
            && h == g.(appVersions := h.appVersions, status := h.status) && g.appVersions <= h.appVersions
            && (forall j :: 0 <= j < |vs| && VersionLinks(g, p, vs[j], platforms) ==>
                HasVersion(h, p, vs[j], platforms))
            && (forall j :: |g.appVersions| <= j < |h.appVersions| ==>
                exists v <- vs :: VersionFrom(h.appVersions[j], v, p, platforms))
            && h.status == Cleared(g.status, KnownFilesOf(g, p, vs, platforms, addr))
  {
    hide AddVersion, HasVersion, VersionFrom, LookupApp, LinkFiles, Cleared, KnownFiles;
    ClearedTwice(g.status, {}, {});
    if vs != [] {
      var front, last := vs[..|vs| - 1], vs[|vs| - 1];
      var m, h := AddVersions(g, p, front, platforms, addr), AddVersions(g, p, vs, platforms, addr);
      AddVersionsExact(g, p, front, platforms, addr);
      AddVersionExact(m, p, last, platforms, addr + |vs| - 1);
      AddVersionStatus(m, p, last, platforms, addr + |vs| - 1);
      ClearedTwice(g.status, KnownFilesOf(g, p, front, platforms, addr), KnownFiles(m, p, last, platforms));
      forall j | 0 <= j < |vs| && VersionLinks(g, p, vs[j], platforms) ensures HasVersion(h, p, vs[j], platforms) {
        if j < |front| { assert vs[j] == front[j]; HasVersionGrows(m, h, p, front[j], platforms); }
        assert VersionLinks(m, p, vs[j], platforms) <==> VersionLinks(g, p, vs[j], platforms);
      }
      hide VersionLinks;
      forall j | |g.appVersions| <= j < |h.appVersions|
          ensures exists v <- vs :: VersionFrom(h.appVersions[j], v, p, platforms) {
        if j < |m.appVersions| {
          assert h.appVersions[j] == m.appVersions[j];
          var v :| v in front && VersionFrom(m.appVersions[j], v, p, platforms);
          assert v in vs;
        } else {
          assert last in vs;
        }
      }
    }
  }

  lemma AddWorkunitExact(g: Graph, p: Project, w: ReplyWorkunit, addr: Address)
    ensures var h := AddWorkunit(g, p, w, addr);
            && h == g.(workunits := h.workunits, status := h.status) && g.workunits <= h.workunits
            && (WorkunitLinks(g, p, w) ==> LookupWorkunit(h.workunits, p, w.name).Some?)
            && (forall j :: |g.workunits| <= j < |h.workunits| ==> WorkunitFrom(h.workunits[j], w, p))
  {
    hide LookupApp, LookupWorkunit, LinkFiles;
    var h := AddWorkunit(g, p, w, addr);
    assert h.workunits == g.workunits || h.workunits[|g.workunits|] in h.workunits;
  }

  /** The input files of the new workunits. */
  function NewInputs(g: Graph, h: Graph): set<FileInfo> {
    set i: nat, f: FileInfo | |g.workunits| <= i < |h.workunits| && f in h.workunits[i].inputFiles :: f
  }

  lemma NewInputsNext(g: Graph, m: Graph, h: Graph)
    requires g.workunits <= m.workunits <= h.workunits
    ensures NewInputs(g, h) == NewInputs(g, m) + NewInputs(m, h) && NewInputs(g, g) == {}
  {
    forall f | f in NewInputs(g, h) ensures f in NewInputs(g, m) + NewInputs(m, h) {
      var i: nat :| |g.workunits| <= i < |h.workunits| && f in h.workunits[i].inputFiles;
      if i < |m.workunits| { assert m.workunits[i] == h.workunits[i]; }
    }
    forall f | f in NewInputs(g, m) ensures f in NewInputs(g, h) {
      var i: nat :| |g.workunits| <= i < |m.workunits| && f in m.workunits[i].inputFiles;
      assert m.workunits[i] == h.workunits[i];
    }
  }

  lemma AddWorkunitStatus(g: Graph, p: Project, w: ReplyWorkunit, addr: Address)
    ensures var h := AddWorkunit(g, p, w, addr); h.status == Cleared(g.status, NewInputs(g, h))
  {
    hide LookupApp, LookupWorkunit, LinkFiles;
    var h := AddWorkunit(g, p, w, addr);
    if |h.workunits| == |g.workunits| {
      assert NewInputs(g, h) == {};
    } else {
      var n := |g.workunits|;
      assert |h.workunits| == n + 1;
      assert forall f :: f in NewInputs(g, h) <==> f in h.workunits[n].inputFiles;
    }
  }

  lemma {:induction false} AddWorkunitsExact(g: Graph, p: Project, ws: seq<ReplyWorkunit>, addr: Address)
    ensures var h := AddWorkunits(g, p, ws, addr);
            && h == g.(workunits := h.workunits, status := h.status) && g.workunits <= h.workunits
            && (forall j :: 0 <= j < |ws| && WorkunitLinks(g, p, ws[j]) ==>
                LookupWorkunit(h.workunits, p, ws[j].name).Some?)
            && (forall j :: |g.workunits| <= j < |h.workunits| ==> exists w <- ws :: WorkunitFrom(h.workunits[j], w, p))
            && h.status == Cleared(g.status, NewInputs(g, h))
  {
    hide AddWorkunit, LookupWorkunit, WorkunitFrom, LookupApp, LinkFiles, Cleared, NewInputs;
    NewInputsNext(g, g, g);
    ClearedTwice(g.status, {}, {});
    if ws != [] {
      var front, last := ws[..|ws| - 1], ws[|ws| - 1];
      var m, h := AddWorkunits(g, p, front, addr), AddWorkunits(g, p, ws, addr);
      AddWorkunitsExact(g, p, front, addr);
      AddWorkunitExact(m, p, last, addr + |ws| - 1);
      AddWorkunitStatus(m, p, last, addr + |ws| - 1);
      NewInputsNext(g, m, h);
      ClearedTwice(g.status, NewInputs(g, m), NewInputs(m, h));
      forall j | 0 <= j < |ws| && WorkunitLinks(g, p, ws[j]) ensures LookupWorkunit(h.workunits, p, ws[j].name).Some? {
        if j < |front| { assert ws[j] == front[j]; LookupsGrow(m, h, p, front[j].name); }
      }
      assert forall w <- front :: w in ws;
    }
  }

  lemma AddResultExact(g: Graph, p: Project, r: ReplyResult, platforms: seq<string>, addr: Address)
    requires |platforms| > 0
    ensures var h := AddResult(g, p, r, platforms, addr);
            && h == g.(results := h.results) && g.results <= h.results
            && (ResultLinks(g, p, r, platforms) ==> LookupResult(h.results, p, r.name).Some?)
            && (forall j :: |g.results| <= j < |h.results| ==> ResultFrom(g.appVersions, h.results[j], r, p, platforms))
  {
    hide LookupWorkunit, LookupResult, LookupVersion, LinkFiles, LatestVersionNum;
    var h := AddResult(g, p, r, platforms, addr);
    assert h.results == g.results || h.results[|g.results|] in h.results;
  }

  lemma {:induction false} AddResultsExact(g: Graph, p: Project, rs: seq<ReplyResult>, platforms: seq<string>,
                                           addr: Address)
    requires |platforms| > 0
    ensures var h := AddResults(g, p, rs, platforms, addr);
            && h == g.(results := h.results) && g.results <= h.results
            && (forall j :: 0 <= j < |rs| && ResultLinks(g, p, rs[j], platforms) ==>
                LookupResult(h.results, p, rs[j].name).Some?)
            && (forall j :: |g.results| <= j < |h.results| ==>
                exists r <- rs :: ResultFrom(g.appVersions, h.results[j], r, p, platforms))
  {
    hide AddResult, LookupResult, ResultFrom, LookupWorkunit, LinkFiles;
    if rs != [] {
      var front, last := rs[..|rs| - 1], rs[|rs| - 1];
      var m, h := AddResults(g, p, front, platforms, addr), AddResults(g, p, rs, platforms, addr);
      AddResultsExact(g, p, front, platforms, addr);
      AddResultExact(m, p, last, platforms, addr + |rs| - 1);
      forall j | 0 <= j < |rs| && ResultLinks(g, p, rs[j], platforms)
          ensures LookupResult(h.results, p, rs[j].name).Some? {
        if j < |front| { assert rs[j] == front[j]; LookupsGrow(m, h, p, front[j].name); }
      }
      assert forall r <- front :: r in rs;
    }
  }

  /** New results have new addresses. */
  lemma {:induction false} AddResultsNew(g: Graph, p: Project, rs: seq<ReplyResult>, platforms: seq<string>,
                                         addr: Address)
    requires |platforms| > 0
    ensures forall r <- AddResults(g, p, rs, platforms, addr).results :: r in g.results || r.addr >= addr
  {
    if rs != [] {
      AddResultsNew(g, p, rs[..|rs| - 1], platforms, addr);
      hide AddResults, LookupResult, LookupWorkunit, LookupVersion, LinkFiles;
      assert AddResults(g, p, rs, platforms, addr)
          == AddResult(AddResults(g, p, rs[..|rs| - 1], platforms, addr), p, rs[|rs| - 1], platforms, addr + |rs| - 1);
    }
  }

  // ---- Acknowledgements, aborts and deletion requests ------------------------------------------

  /** With unique keys a lookup finds exactly the records of the name. */
  lemma {:induction false} LookupResultExact(rs: seq<Result>, p: Project, name: string)
    requires ResultKeys(rs)
    ensures forall r <- rs :: r.project == p && r.name == name ==> LookupResult(rs, p, name) == Some(r)
  {
    if rs != [] { LookupResultExact(rs[1..], p, name); }
  }

  lemma {:induction false} LookupFileExact(files: seq<FileInfo>, p: Project, name: string)
    requires FileKeys(files)
    ensures forall f <- files :: f.project == p && f.name == name ==> LookupFile(files, p, name) == Some(f)
  {
    if files != [] { LookupFileExact(files[1..], p, name); }
  }

  function Named(rs: seq<Result>, p: Project, names: seq<string>): set<Result> {
    set r <- rs | r.project == p && r.name in names
  }

  lemma NamedStep(rs: seq<Result>, p: Project, names: seq<string>, i: nat)
    requires i < |names| && ResultKeys(rs)
    ensures Named(rs, p, names[..i + 1]) ==
            Named(rs, p, names[..i]) + match LookupResult(rs, p, names[i]) case None => {} case Some(r) => {r}
  {
    LookupResultExact(rs, p, names[i]);
    assert names[..i + 1] == names[..i] + [names[i]];
  }

  /** Acknowledgements reach exactly the listed results of the project with these names. */
  method MergeAcks(g: Graph, p: Project, names: seq<string>) returns (h: Graph)
    requires ResultKeys(g.results)
    ensures h == g.(acked := g.acked + Named(g.results, p, names))
  {
    h := g;
    for i := 0 to |names|
      invariant h == g.(acked := g.acked + Named(g.results, p, names[..i]))
    {
      NamedStep(g.results, p, names, i);
      h := Ack(h, p, names[i]);
    }
    assert names[..|names|] == names;
  }

  function Running(g: Graph, rs: set<Result>): set<Result> { set r <- rs | g.HasTask(r) }

  lemma RunningStep(g: Graph, h: Graph, rs: set<Result>, r: Result)
    requires g.activeTasks == h.activeTasks
    ensures Running(g, rs + {r}) == Running(g, rs) + if h.HasTask(r) then {r} else {}
  {
  }

  /** Abort requests report exactly those of these results that a task runs. */
  method MergeAborts(g: Graph, p: Project, names: seq<string>) returns (h: Graph)
    requires ResultKeys(g.results)
    ensures h == g.(ready := g.ready + Running(g, Named(g.results, p, names)))
  {
    hide ResultKeys, LookupResult;
    h := g;
    for i := 0 to |names|
      invariant h == g.(ready := g.ready + Running(g, Named(g.results, p, names[..i])))
    {
      NamedStep(g.results, p, names, i);
      var found := LookupResult(h.results, p, names[i]);
      if found.Some? { RunningStep(g, h, Named(g.results, p, names[..i]), found.value); }
      hide Running, Named, Graph.HasTask;
      assert Named(g.results, p, names[..i]) + {} == Named(g.results, p, names[..i]);
      h := Abort(h, p, names[i]);
    }
    assert names[..|names|] == names;
  }

  function NamedFiles(files: seq<FileInfo>, p: Project, names: seq<string>): set<FileInfo> {
    set f <- files | f.project == p && f.name in names
  }

  lemma NamedFilesStep(files: seq<FileInfo>, p: Project, names: seq<string>, i: nat)
    requires i < |names| && FileKeys(files)
    ensures NamedFiles(files, p, names[..i + 1]) ==
            NamedFiles(files, p, names[..i]) + match LookupFile(files, p, names[i]) case None => {} case Some(f) => {f}
  {
    LookupFileExact(files, p, names[i]);
    assert names[..i + 1] == names[..i] + [names[i]];
  }

  /** Deletion requests mark exactly the listed files of the project with these names. */
  method MergeDeletes(g: Graph, p: Project, names: seq<string>) returns (h: Graph)
    requires FileKeys(g.fileInfos)
    ensures h == g.(markedForDelete := g.markedForDelete + NamedFiles(g.fileInfos, p, names))
  {
    hide FileKeys, LookupFile, NamedFiles;
    h := g;
    assert NamedFiles(g.fileInfos, p, []) == {} by { NoNames(g.fileInfos, p); }
    for i := 0 to |names|
      invariant h == g.(markedForDelete := g.markedForDelete + NamedFiles(g.fileInfos, p, names[..i]))
    {
      NamedFilesStep(g.fileInfos, p, names, i);
      h := MarkDeleted(h, p, names[i]);
    }
    assert names[..|names|] == names;
  }

  lemma NoNames(files: seq<FileInfo>, p: Project)
    ensures NamedFiles(files, p, []) == {}
  {
  }

  // ---- The program ----------------------------------------------------------------------------

  method MergeApps(g: Graph, p: Project, names: seq<string>, addr: Address) returns (h: Graph)
    ensures h == AddApps(g, p, names, addr)
  {
    hide AddApp;
    h := g;
    for i := 0 to |names|
      invariant h == AddApps(g, p, names[..i], addr)
    {
      assert names[..i + 1][..i] == names[..i];
      h := AddApp(h, p, names[i], addr + i);
    }
    assert names[..|names|] == names;
  }

  method MergeFiles(g: Graph, p: Project, files: seq<ReplyFile>, addr: Address) returns (h: Graph)
    ensures h == AddFiles(g, p, files, addr)
  {
    hide AddFile;
    h := g;
    for i := 0 to |files|
      invariant h == AddFiles(g, p, files[..i], addr)
    {
      assert files[..i + 1][..i] == files[..i];
      h := AddFile(h, p, files[i], addr + i);
    }
    assert files[..|files|] == files;
  }

  method MergeVersions(g: Graph, p: Project, vs: seq<ReplyVersion>, platforms: seq<string>, addr: Address)
      returns (h: Graph)
    requires |platforms| > 0
    ensures h == AddVersions(g, p, vs, platforms, addr)
  {
    hide AddVersion;
    h := g;
    for i := 0 to |vs|
      invariant h == AddVersions(g, p, vs[..i], platforms, addr)
    {
      assert vs[..i + 1][..i] == vs[..i];
      h := AddVersion(h, p, vs[i], platforms, addr + i);
    }
    assert vs[..|vs|] == vs;
  }

  method MergeWorkunits(g: Graph, p: Project, ws: seq<ReplyWorkunit>, addr: Address) returns (h: Graph)
    ensures h == AddWorkunits(g, p, ws, addr)
  {
    hide AddWorkunit;
    h := g;
    for i := 0 to |ws|
      invariant h == AddWorkunits(g, p, ws[..i], addr)
    {
      assert ws[..i + 1][..i] == ws[..i];
      h := AddWorkunit(h, p, ws[i], addr + i);
    }
    assert ws[..|ws|] == ws;
  }

  method MergeResults(g: Graph, p: Project, rs: seq<ReplyResult>, platforms: seq<string>, addr: Address)
      returns (h: Graph)
    requires |platforms| > 0
    ensures h == AddResults(g, p, rs, platforms, addr)
  {
    hide AddResult;
    h := g;
    for i := 0 to |rs|
      invariant h == AddResults(g, p, rs[..i], platforms, addr)
    {
      assert rs[..i + 1][..i] == rs[..i];
      h := AddResult(h, p, rs[i], platforms, addr + i);
    }
    assert rs[..|rs|] == rs;
  }

  /** After the new applications and files, and the deletion requests. */
  function MergedFiles(g: Graph, p: Project, reply: Reply, addr: Address): Graph {
    var a := AddFiles(AddApps(g, p, reply.apps, addr), p, reply.files, addr + |reply.apps|);
    a.(markedForDelete := a.markedForDelete + NamedFiles(a.fileInfos, p, reply.fileDeletes))
  }

  /** After the new versions, workunits and results. */
  function MergedRecords(g: Graph, p: Project, reply: Reply, platforms: seq<string>, addr: Address): Graph
    requires |platforms| > 0
  {
    var a := AddVersions(g, p, reply.versions, platforms, addr);
    var b := AddWorkunits(a, p, reply.workunits, addr + |reply.versions|);
    AddResults(b, p, reply.results, platforms, addr + |reply.versions| + |reply.workunits|)
  }

  /** After the acknowledgements and abort requests. */
  function MergedFlags(g: Graph, p: Project, reply: Reply): Graph {
    var a := g.(acked := g.acked + Named(g.results, p, reply.acks));
    a.(ready := a.ready + Running(a, Named(a.results, p, reply.aborts)))
  }

  function Merged(g: Graph, p: Project, reply: Reply, platforms: seq<string>, addr: Address): Graph
    requires |platforms| > 0
  {
    var files := MergedFiles(g, p, reply, addr);
    MergedFlags(MergedRecords(files, p, reply, platforms, addr + |reply.apps| + |reply.files|), p, reply)
  }

  lemma MarksStayFresh(g: Graph, p: Project, names: seq<string>, addr: Address)
    requires Fresh(g, addr)
    ensures Fresh(g.(markedForDelete := g.markedForDelete + NamedFiles(g.fileInfos, p, names)), addr)
  {
  }

  lemma MergeableKeys(g: Graph)
    requires Mergeable(g)
    ensures ResultKeys(g.results) && FileKeys(g.fileInfos)
  {
  }

  lemma MergedFilesKeeps(g: Graph, p: Project, reply: Reply, addr: Address)
    requires Mergeable(g) && p in g.projects && Fresh(g, addr)
    ensures var h := MergedFiles(g, p, reply, addr);
            Mergeable(h) && Extends(g, h) && Fresh(h, addr + |reply.apps| + |reply.files|)
    ensures var a := AddFiles(AddApps(g, p, reply.apps, addr), p, reply.files, addr + |reply.apps|);
            FileKeys(a.fileInfos)
  {
    hide Mergeable, AddApps, AddFiles, FileKeys, ResultKeys, NamedFiles;
    var a := AddFiles(AddApps(g, p, reply.apps, addr), p, reply.files, addr + |reply.apps|);
    AddAppsKeep(g, p, reply.apps, addr);
    AddFilesKeep(AddApps(g, p, reply.apps, addr), p, reply.files, addr + |reply.apps|);
    MergeableKeys(a);
    FlagsKeep(a, MergedFiles(g, p, reply, addr));
    MarksStayFresh(a, p, reply.fileDeletes, addr + |reply.apps| + |reply.files|);
    hide Fresh;
  }

  lemma MergedRecordsKeeps(g: Graph, p: Project, reply: Reply, platforms: seq<string>, addr: Address)
    requires Mergeable(g) && p in g.projects && Fresh(g, addr) && |platforms| > 0
    ensures var h := MergedRecords(g, p, reply, platforms, addr);
            && Mergeable(h) && Extends(g, h)
            && Fresh(h, addr + |reply.versions| + |reply.workunits| + |reply.results|)
  {
    hide Mergeable, Fresh, AddVersions, AddWorkunits, AddResults;
    var a := AddVersions(g, p, reply.versions, platforms, addr);
    AddVersionsKeep(g, p, reply.versions, platforms, addr);
    AddWorkunitsKeep(a, p, reply.workunits, addr + |reply.versions|);
    AddResultsKeep(AddWorkunits(a, p, reply.workunits, addr + |reply.versions|), p, reply.results, platforms,
                   addr + |reply.versions| + |reply.workunits|);
  }

  /** Whatever the reply contains, every link stays sound, every key stays unique and every
      result runs a version of its workunit's application. */
  lemma MergedKeeps(g: Graph, p: Project, reply: Reply, platforms: seq<string>, addr: Address)
    requires Mergeable(g) && p in g.projects && Fresh(g, addr) && |platforms| > 0
    ensures Mergeable(Merged(g, p, reply, platforms, addr)) && Extends(g, Merged(g, p, reply, platforms, addr))
    ensures Fresh(Merged(g, p, reply, platforms, addr), addr + SizeOf(reply))
  {
    hide Mergeable, Fresh, MergedFiles, MergedRecords, MergedFlags;
    var n := addr + |reply.apps| + |reply.files|;
    var a := MergedFiles(g, p, reply, addr);
    MergedFilesKeeps(g, p, reply, addr);
    MergedRecordsKeeps(a, p, reply, platforms, n);
    FlagsOnly(MergedRecords(a, p, reply, platforms, n), p, reply);
    FlagsKeep(MergedRecords(a, p, reply, platforms, n), Merged(g, p, reply, platforms, addr));
    FlagsStayFresh(MergedRecords(a, p, reply, platforms, n), p, reply, addr + SizeOf(reply));
  }

  /** How many addresses a merge may use. */
  function SizeOf(reply: Reply): nat {
    |reply.apps| + |reply.files| + |reply.versions| + |reply.workunits| + |reply.results|
  }

  lemma MergedFilesResults(g: Graph, p: Project, reply: Reply, addr: Address)
    ensures MergedFiles(g, p, reply, addr).scheduled == g.scheduled
    ensures MergedFiles(g, p, reply, addr).results == g.results
  {
    hide AddApps, AddFiles, NamedFiles;
    AddAppsExact(g, p, reply.apps, addr);
    AddFilesExact(AddApps(g, p, reply.apps, addr), p, reply.files, addr + |reply.apps|);
    hide LookupApp, LookupFile;
  }

  lemma MergedRecordsResults(g: Graph, p: Project, reply: Reply, platforms: seq<string>, addr: Address)
    requires |platforms| > 0
    ensures var h := MergedRecords(g, p, reply, platforms, addr);
            && h.scheduled == g.scheduled && g.results <= h.results
            && (forall r <- h.results :: r in g.results || r.addr >= addr)
  {
    hide AddVersions, AddWorkunits, AddResults;
    AddVersionsExact(g, p, reply.versions, platforms, addr);
    var vs := AddVersions(g, p, reply.versions, platforms, addr);
    AddWorkunitsExact(vs, p, reply.workunits, addr + |reply.versions|);
    var ws := AddWorkunits(vs, p, reply.workunits, addr + |reply.versions|);
    AddResultsExact(ws, p, reply.results, platforms, addr + |reply.versions| + |reply.workunits|);
    AddResultsNew(ws, p, reply.results, platforms, addr + |reply.versions| + |reply.workunits|);
    hide LookupWorkunit, LookupResult, VersionLinks, WorkunitLinks, ResultLinks, HasVersion, Cleared;
  }

  /** A merge adds results only, with new addresses, and does not look at the schedule. */
  lemma MergedResults(g: Graph, p: Project, reply: Reply, platforms: seq<string>, addr: Address)
    requires |platforms| > 0
    ensures var h := Merged(g, p, reply, platforms, addr);
            && h.scheduled == g.scheduled && g.results <= h.results
            && (forall r <- h.results :: r in g.results || r.addr >= addr)
  {
    hide MergedFiles, MergedRecords, Named, Running;
    MergedFilesResults(g, p, reply, addr);
    MergedRecordsResults(MergedFiles(g, p, reply, addr), p, reply, platforms, addr + |reply.apps| + |reply.files|);
  }

  lemma FlagsOnly(g: Graph, p: Project, reply: Reply)
    ensures var h := MergedFlags(g, p, reply); h == g.(acked := h.acked, ready := h.ready)
  {
  }

  lemma FlagsStayFresh(g: Graph, p: Project, reply: Reply, addr: Address)
    requires Fresh(g, addr)
    ensures Fresh(MergedFlags(g, p, reply), addr)
  {
  }

  /** The three parts of the program. */
  method MergeFileEntities(g: Graph, p: Project, reply: Reply, addr: Address) returns (h: Graph)
    requires Mergeable(g) && p in g.projects && Fresh(g, addr)
    ensures h == MergedFiles(g, p, reply, addr)
  {
    hide Mergeable, Fresh, FileKeys, AddApps, AddFiles, NamedFiles, Extends;
    MergedFilesKeeps(g, p, reply, addr);
    h := MergeApps(g, p, reply.apps, addr);
    h := MergeFiles(h, p, reply.files, addr + |reply.apps|);
    h := MergeDeletes(h, p, reply.fileDeletes);
  }

  method MergeRecordEntities(g: Graph, p: Project, reply: Reply, platforms: seq<string>, addr: Address)
      returns (h: Graph)
    requires |platforms| > 0
    ensures h == MergedRecords(g, p, reply, platforms, addr)
  {
    hide AddVersions, AddWorkunits, AddResults;
    h := MergeVersions(g, p, reply.versions, platforms, addr);
    h := MergeWorkunits(h, p, reply.workunits, addr + |reply.versions|);
    h := MergeResults(h, p, reply.results, platforms, addr + |reply.versions| + |reply.workunits|);
  }

  method MergeFlags(g: Graph, p: Project, reply: Reply) returns (h: Graph)
    requires ResultKeys(g.results)
    ensures h == MergedFlags(g, p, reply)
  {
    hide ResultKeys, Named, Running;
    h := MergeAcks(g, p, reply.acks);
    h := MergeAborts(h, p, reply.aborts);
  }

  /** CLIENT_STATE::handle_scheduler_reply, from the first new application to the last abort. */
  method MergeReply(c: ClientState, p: Project, reply: Reply, platforms: seq<string>, addr: Address)
    requires Mergeable(c.g) && p in c.g.projects && Fresh(c.g, addr) && |platforms| > 0
    modifies c
    ensures c.g == Merged(old(c.g), p, reply, platforms, addr)
    ensures Mergeable(c.g) && Extends(old(c.g), c.g)
  {
    hide Mergeable, Fresh, MergedFiles, MergedRecords, MergedFlags, ResultKeys, FileKeys, Extends, AddApps, AddFiles;
    ghost var g, n := c.g, addr + |reply.apps| + |reply.files|;
    ghost var a := MergedFiles(g, p, reply, addr);
    MergedFilesKeeps(g, p, reply, addr);
    ExtendsProjects(g, a);
    MergedRecordsKeeps(a, p, reply, platforms, n);
    MergeableKeys(MergedRecords(a, p, reply, platforms, n));
    MergedKeeps(g, p, reply, platforms, addr);
    c.g := MergeFileEntities(c.g, p, reply, addr);
    c.g := MergeRecordEntities(c.g, p, reply, platforms, addr + |reply.apps| + |reply.files|);
    c.g := MergeFlags(c.g, p, reply);
  }

  lemma ExtendsProjects(g: Graph, h: Graph)
    requires Extends(g, h)
    ensures g.projects == h.projects
  {
  }
}
