/** The client's record graph: the records of CLIENT_STATE and how they point at each other.

    A record is identified by its address. The links of a record (a result's workunit, a
    workunit's input files, and so on) are set before the record enters its vector and are
    never reassigned, so they are part of the record; what the client changes later (status
    words, flags, the transfer of a file, the files of a project) is kept in the graph. */
module Records {
  import opened Vectors

  type Address = nat

  datatype Project = Project(addr: Address)
  datatype App = App(addr: Address, project: Project, name: string)
  datatype FileInfo = FileInfo(addr: Address, project: Project, name: string, sticky: bool)
  datatype AppVersion = AppVersion(addr: Address, project: Project, app: App, platform: string,
                                   versionNum: int, planClass: string, appFiles: seq<FileInfo>)
  datatype Workunit = Workunit(addr: Address, project: Project, app: App, name: string, inputFiles: seq<FileInfo>)
  datatype Result = Result(addr: Address, project: Project, name: string, wup: Workunit, app: App,
                           avp: AppVersion, outputFiles: seq<FileInfo>)
  datatype ActiveTask = ActiveTask(addr: Address, result: Result, wup: Workunit, appVersion: AppVersion)
  datatype PersFileXfer = PersFileXfer(addr: Address, fip: FileInfo)
  datatype FileXfer = FileXfer(addr: Address, fip: FileInfo)

  const FILE_NOT_PRESENT := 0
  const FILE_PRESENT := 1
  const FILE_NOT_PRESENT_NOT_NEEDED := 2

  /** FILE_INFO::had_failure: any status besides the three regular ones. */
  predicate IsFailure(status: int) {
    status != FILE_NOT_PRESENT && status != FILE_PRESENT && status != FILE_NOT_PRESENT_NOT_NEEDED
  }

  datatype Graph = Graph(
    projects: seq<Project>,
    apps: seq<App>,
    fileInfos: seq<FileInfo>,
    appVersions: seq<AppVersion>,
    workunits: seq<Workunit>,
    results: seq<Result>,
    activeTasks: seq<ActiveTask>,
    persXfers: seq<PersFileXfer>,
    fileXfers: seq<FileXfer>,
    scheduled: seq<Result>,                       // ordered_scheduled_results
    projectFiles: map<Project, seq<FileInfo>>,    // user_files and project_files
    status: map<FileInfo, int>,
    markedForDelete: set<FileInfo>,
    persXfer: map<FileInfo, PersFileXfer>,        // FILE_INFO::pers_file_xfer, where not NULL
    netXfer: map<PersFileXfer, FileXfer>,         // PERS_FILE_XFER::fxp, where not NULL
    acked: set<Result>,                           // got_server_ack
    ready: set<Result>                            // ready_to_report
  ) {
    function Status(f: FileInfo): int { if f in status then status[f] else FILE_NOT_PRESENT }
    function FilesOf(p: Project): seq<FileInfo> { if p in projectFiles then projectFiles[p] else [] }

    predicate CheckApp(a: App) { a.project in projects }

    predicate CheckFileRefs(files: seq<FileInfo>) { SetOf(files) <= SetOf(fileInfos) }

    predicate CheckFileInfo(f: FileInfo) {
      f.project in projects && (f in persXfer ==> persXfer[f] in persXfers)
    }

    predicate CheckAppVersion(v: AppVersion) {
      v.app in apps && v.project in projects && CheckFileRefs(v.appFiles)
    }

    predicate CheckWorkunit(w: Workunit) {
      CheckFileRefs(w.inputFiles) && w.project in projects && w.app in apps
    }

    predicate CheckResult(r: Result) {
      CheckFileRefs(r.outputFiles) && r.app in apps && r.wup in workunits && r.project in projects
    }

    predicate CheckActiveTask(t: ActiveTask) {
      t.result in results && t.wup in workunits && t.appVersion in appVersions
    }

    predicate CheckPersFileXfer(x: PersFileXfer) {
      x.fip in fileInfos && (x in netXfer ==> netXfer[x] in fileXfers)
    }

    predicate CheckFileXfer(x: FileXfer) { x.fip in fileInfos }

    /** CLIENT_STATE::check_all: every pointer held by a listed record leads to a listed record. */
    predicate CheckAll() {
      && (forall a <- apps :: CheckApp(a))
      && (forall f <- fileInfos :: CheckFileInfo(f))
      && (forall v <- appVersions :: CheckAppVersion(v))
      && (forall w <- workunits :: CheckWorkunit(w))
      && (forall r <- results :: CheckResult(r))
      && (forall t <- activeTasks :: CheckActiveTask(t))
      && (forall x <- persXfers :: CheckPersFileXfer(x))
      && (forall x <- fileXfers :: CheckFileXfer(x))
    }

    /** The links that check_all does not look at but the collector follows: the files of a
        project, a result's application version, a task's agreement with its result, and the
        two-way link between a file and its persistent transfer. */
    predicate Linked() {
      && (forall p <- projects :: CheckFileRefs(FilesOf(p)))
      && (forall r <- results :: r.avp in appVersions)
      && (forall t <- activeTasks :: t.wup == t.result.wup && t.appVersion == t.result.avp)
      && (forall f <- fileInfos :: f in persXfer ==> persXfer[f].fip == f)
      && (forall x <- persXfers :: x.fip in persXfer && persXfer[x.fip] == x)
    }

    /** Some task runs the result (ACTIVE_TASK_SET::lookup_result). */
    predicate HasTask(r: Result) {
      exists t <- activeTasks :: t.result == r
    }
  }

  /** CLIENT_STATE: the vectors and record fields, changed in place. */
  class ClientState {
    var g: Graph

    constructor (g: Graph)
      ensures this.g == g
    {
      this.g := g;
    }
  }
}
