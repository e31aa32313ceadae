/** ordered_scheduled_results over runs of the client: a collection does not look at it
    (client/client_state.C), so it can be left with results that have been deleted. */
module StaleSchedule {
  import opened Options
  import opened Records
  import opened Vectors
  import opened Collector
  import opened Detach
  import opened Merge
  import opened Lifecycle

  // ---- The schedule over runs ---------------------------------------------------------------------------

  /** Every scheduled result is listed. */
  predicate ScheduleListed(g: Graph) { SetOf(g.scheduled) <= SetOf(g.results) }

  /** A collection now would delete a scheduled result. */
  predicate WouldLose(g: Graph) { exists r <- g.scheduled :: r in g.acked && !g.HasTask(r) }

  /** Since the schedule was last made or cleared, there has been such a collection. */
  ghost predicate Lost(w: World, es: seq<Event>) {
    if es == [] then false
    else
      var front, v := es[..|es| - 1], Run(w, es[..|es| - 1]);
      match es[|es| - 1]
      case DoCollect => Lost(w, front) || WouldLose(v.g)
      case DoSchedule(rs) => Lost(w, front) && !(SetOf(rs) <= SetOf(v.g.results))
      case DoDetach(_) => false
      case DoReset(_, _) => false
      case _ => Lost(w, front)
  }

  /** Scheduled results were listed once. */
  predicate Aged(w: World) { forall r <- w.g.scheduled :: r.addr < w.next }

  lemma AgedAtFirst(w: World)
    requires Sound(w) && ScheduleListed(w.g)
    ensures Aged(w)
  {
    hide Mergeable;
    forall r | r in w.g.scheduled ensures r.addr < w.next { assert r in SetOf(w.g.scheduled); }
  }

  lemma ClearedSchedules(g: Graph, p: Project, keepApps: bool)
    ensures Detached(g, p).scheduled == [] && WasReset(g, p, keepApps).scheduled == []
  {
    hide Filter;
  }

  lemma ReplyKeepsSchedule(w: World, h: Graph)
    requires Aged(w) && h.scheduled == w.g.scheduled && w.g.results <= h.results
    requires forall r <- h.results :: r in w.g.results || r.addr >= w.next
    ensures ScheduleListed(h) <==> ScheduleListed(w.g)
  {
    assert forall r <- w.g.results :: r in h.results;
    forall r | r in w.g.scheduled ensures r in w.g.results <==> r in h.results {
      assert r.addr < w.next;
    }
    assert forall r :: r in SetOf(w.g.scheduled) <==> r in w.g.scheduled;
  }

  /** What one event does to the schedule. */
  lemma ScheduleNext(w: World, e: Event)
    requires Sound(w) && Aged(w)
    ensures Aged(Apply(w, e))
    ensures e.DoCollect? ==> (ScheduleListed(Apply(w, e).g) <==> ScheduleListed(w.g) && !WouldLose(w.g))
    ensures e.DoSchedule? ==>
            (ScheduleListed(Apply(w, e).g) <==> ScheduleListed(w.g) || SetOf(e.rs) <= SetOf(w.g.results))
    ensures e.DoDetach? || e.DoReset? ==> ScheduleListed(Apply(w, e).g)
    ensures !e.DoCollect? && !e.DoSchedule? && !e.DoDetach? && !e.DoReset? ==>
              (ScheduleListed(Apply(w, e).g) <==> ScheduleListed(w.g))
  {
    hide Mergeable, Collect, Detached, WasReset, Merged, Filter;
    match e
    case DoCollect =>
      CollectFields(w.g);
      CollectLosesSchedule(w.g);
      hide Fresh, WouldLose, ScheduleListed;
    case DoSchedule(rs) =>
      forall r | r in rs && SetOf(rs) <= SetOf(w.g.results) ensures r.addr < w.next { assert r in SetOf(rs); }
    case DoDetach(p) => ClearedSchedules(w.g, p, true);
    case DoReset(p, keepApps) => ClearedSchedules(w.g, p, keepApps);
    case DoReply(p, reply, platforms) =>
      hide Fresh;
      if p in w.g.projects && |platforms| > 0 {
        MergedResults(w.g, p, reply, platforms, w.next);
        ReplyKeepsSchedule(w, Merged(w.g, p, reply, platforms, w.next));
      }
    case _ => hide Fresh;
  }

  lemma CollectFields(g: Graph)
    ensures Collect(g).scheduled == g.scheduled
  {
  }

  lemma CollectLosesSchedule(g: Graph)
    ensures ScheduleListed(Collect(g)) <==> ScheduleListed(g) && !WouldLose(g)
  {
    CollectFields(g);
    CollectMembers(g);
    hide Collect, Filter;
    assert KeptResults(g) <= SetOf(g.results);
    if ScheduleListed(g) { CollectKeepsSchedule(g); }
  }

  /** Over any run, the schedule refers to listed results, exactly if no collection since it was
      made has found an acknowledged result without a task in it. */
  lemma {:induction false} ScheduleOverRuns(w: World, es: seq<Event>)
    requires Sound(w) && ScheduleListed(w.g)
    ensures ScheduleListed(Run(w, es).g) <==> !Lost(w, es)
    ensures Aged(Run(w, es))
  {
    AgedAtFirst(w);
    if es != [] {
      var front := es[..|es| - 1];
      ScheduleOverRuns(w, front);
      RunSound(w, front);
      ScheduleNext(Run(w, front), es[|es| - 1]);
      hide Sound, Aged, ScheduleListed, WouldLose, Apply;
    }
  }

  /** A reply that only acknowledges results. */
  function AckReply(names: seq<string>): Reply { Reply([], [], [], [], [], [], names, []) }

  lemma AckReplyIs(g: Graph, p: Project, names: seq<string>, platforms: seq<string>, addr: Address)
    requires |platforms| > 0
    ensures Merged(g, p, AckReply(names), platforms, addr) == g.(acked := g.acked + Named(g.results, p, names))
  {
    var reply := AckReply(names);
    hide Named;
    NoNames(g.fileInfos, p);
    assert g.(markedForDelete := g.markedForDelete + {}) == g;
    assert MergedFiles(g, p, reply, addr) == g;
    assert Named(g.results, p, []) == {} by { NoneNamed(g.results, p); }
    var a := g.(acked := g.acked + Named(g.results, p, names));
    assert Named(a.results, p, []) == {};
    assert a.(ready := a.ready + {}) == a;
  }

  lemma NoneNamed(rs: seq<Result>, p: Project)
    ensures Named(rs, p, []) == {}
  {
  }

  lemma RunThree(w: World, d: Event, e: Event, f: Event)
    ensures Run(w, [d] + [e] + [f]) == Apply(Apply(Apply(w, d), e), f) && Run(w, [d] + [e]) == Apply(Apply(w, d), e)
  {
    assert Run(w, []) == w && [] + [d] == [d];
    RunPush(w, [], d);
    RunPush(w, [d], e);
    RunPush(w, [d] + [e], f);
  }

  lemma LostNow(h: Graph, r: Result)
    requires r in h.scheduled && r in h.acked && !h.HasTask(r)
    ensures r in Collect(h).scheduled && r !in Collect(h).results
  {
    CollectMembers(h);
    CollectFields(h);
    hide Collect, Filter;
    assert r !in SetOf(Collect(h).results);
  }

  lemma ScheduleOne(g: Graph, r: Result)
    requires r in g.results
    ensures Schedule(g, [r]) == g.(scheduled := [r])
  {
    assert SetOf([r]) <= SetOf(g.results);
  }

  /** In every world with a result that no task runs: when it is scheduled and then acknowledged,
      the collection that follows leaves the schedule with a deleted result. */
  lemma AckedIsLost(w: World, r: Result, platforms: seq<string>) returns (es: seq<Event>)
    requires r in w.g.results && !w.g.HasTask(r) && r.project in w.g.projects && |platforms| > 0
    ensures es == [DoSchedule([r])] + [DoReply(r.project, AckReply([r.name]), platforms)] + [DoCollect]
    ensures r in Run(w, es).g.scheduled && r !in Run(w, es).g.results
  {
    var d, e := DoSchedule([r]), DoReply(r.project, AckReply([r.name]), platforms);
    es := [d] + [e] + [DoCollect];
    RunThree(w, d, e, DoCollect);
    hide Run, Merged, Schedule, AckReply, Collect, Graph.HasTask, Named;
    var g := w.g.(scheduled := [r]);
    var h := g.(acked := g.acked + Named(g.results, r.project, [r.name]));
    ScheduleOne(w.g, r);
    AckReplyIs(g, r.project, [r.name], platforms, w.next);
    AckedNow(w.g, r);
    LostNow(h, r);
  }

  lemma AckedNow(g: Graph, r: Result)
    requires r in g.results && !g.HasTask(r)
    ensures r in Named(g.results, r.project, [r.name])
    ensures forall h: Graph :: h.activeTasks == g.activeTasks ==> !h.HasTask(r)
  {
  }

  /** The first reply of a project: an application, a version, a workunit and a result. */
  const FIRST: Reply :=
    Reply(["app"], [], [], [ReplyVersion("app", "", 1, "", [])], [ReplyWorkunit("wu", "app", [])],
          [ReplyResult("result", "wu", "", 0, "", [])], [], [])

  function FirstApp(p: Project): App { App(0, p, "app") }

  function FirstVersion(p: Project, platform: string): AppVersion { AppVersion(1, p, FirstApp(p), platform, 1, "", []) }

  function FirstWorkunit(p: Project): Workunit { Workunit(2, p, FirstApp(p), "wu", []) }

  function FirstResult(p: Project, platform: string): Result {
    Result(3, p, "result", FirstWorkunit(p), FirstApp(p), FirstVersion(p, platform), [])
  }

  lemma FirstFiles(g: Graph, p: Project)
    requires g.apps == []
    ensures MergedFiles(g, p, FIRST, 0) == g.(apps := [FirstApp(p)])
  {
    var a := g.(apps := [FirstApp(p)]);
    assert AddApps(g, p, ["app"][..0], 0) == g;
    assert AddApps(g, p, ["app"], 0) == a;
    NoNames(a.fileInfos, p);
    assert a.(markedForDelete := a.markedForDelete + {}) == a;
  }

  lemma FirstVersions(g: Graph, p: Project, platform: string)
    requires g.apps == [FirstApp(p)] && g.appVersions == []
    ensures AddVersions(g, p, FIRST.versions, [platform], 1) == g.(appVersions := [FirstVersion(p, platform)])
  {
    assert AddVersions(g, p, FIRST.versions[..0], [platform], 1) == g;
    assert LookupApp(g.apps, p, "app") == Some(FirstApp(p));
  }

  lemma FirstWorkunits(g: Graph, p: Project)
    requires g.apps == [FirstApp(p)] && g.workunits == [] && g.status == map[]
    ensures AddWorkunits(g, p, FIRST.workunits, 2) == g.(workunits := [FirstWorkunit(p)])
  {
    assert AddWorkunits(g, p, FIRST.workunits[..0], 2) == g;
    assert LookupApp(g.apps, p, "app") == Some(FirstApp(p));
    var c := g.(workunits := [FirstWorkunit(p)]);
    assert ClearErrors(c, []).status == map[];
  }

  lemma FirstResults(g: Graph, p: Project, platform: string)
    requires g.appVersions == [FirstVersion(p, platform)] && g.workunits == [FirstWorkunit(p)] && g.results == []
    ensures AddResults(g, p, FIRST.results, [platform], 3) == g.(results := [FirstResult(p, platform)])
  {
    assert AddResults(g, p, FIRST.results[..0], [platform], 3) == g;
    assert LookupWorkunit(g.workunits, p, "wu") == Some(FirstWorkunit(p));
    assert LatestVersionNum(g.appVersions[..0], FirstApp(p), platform) == -1;
    assert LatestVersionNum(g.appVersions, FirstApp(p), platform) == 1;
    assert LookupVersion(g.appVersions, FirstApp(p), platform, 1, "") == Some(FirstVersion(p, platform));
  }

  lemma FirstFlags(g: Graph, p: Project)
    ensures MergedFlags(g, p, FIRST).results == g.results && MergedFlags(g, p, FIRST).activeTasks == g.activeTasks
    ensures MergedFlags(g, p, FIRST).projects == g.projects
  {
  }

  lemma FirstReply(p: Project, platform: string)
    ensures var h := Merged(Attach(EMPTY, p), p, FIRST, [platform], 0);
            h.results == [FirstResult(p, platform)] && h.activeTasks == [] && h.projects == [p]
  {
    var g := EMPTY.(projects := [p]);
    assert Attach(EMPTY, p) == g;
    hide MergedFiles, MergedRecords, MergedFlags, FirstApp, FirstResult, Attach;
    FirstFiles(g, p);
    FirstRecords(g.(apps := [FirstApp(p)]), p, platform);
    FirstFlags(MergedRecords(g.(apps := [FirstApp(p)]), p, FIRST, [platform], 1), p);
  }

  lemma FirstRecords(a: Graph, p: Project, platform: string)
    requires a.apps == [FirstApp(p)] && a.appVersions == [] && a.workunits == [] && a.results == [] && a.status == map[]
    ensures MergedRecords(a, p, FIRST, [platform], 1)
         == a.(appVersions := [FirstVersion(p, platform)], workunits := [FirstWorkunit(p)],
               results := [FirstResult(p, platform)])
  {
    var b := a.(appVersions := [FirstVersion(p, platform)]);
    var c := b.(workunits := [FirstWorkunit(p)]);
    hide AddVersions, AddWorkunits, AddResults, FirstApp, FirstVersion, FirstWorkunit, FirstResult;
    FirstVersions(a, p, platform);
    FirstWorkunits(b, p);
    FirstResults(c, p, platform);
  }

  /** So a client that starts without projects can be left with a schedule that refers to a deleted
      result. */
  lemma ScheduleCanDangle(p: Project, platform: string) returns (es: seq<Event>, r: Result)
    ensures |es| == 5 && var g := Run(World(EMPTY, 0), es).g; r in g.scheduled && r !in g.results
  {
    var w, d, e := World(EMPTY, 0), DoAttach(p), DoReply(p, FIRST, [platform]);
    RunThree(w, d, e, DoCollect);
    FirstReply(p, platform);
    r := FirstResult(p, platform);
    assert r.project == p;
    AttachFirst(p);
    hide Run, Merged, FirstResult, Attach;
    var v := Run(w, [d] + [e]);
    assert v.g == Merged(Attach(EMPTY, p), p, FIRST, [platform], 0);
    assert r in v.g.results && !v.g.HasTask(r) && p in v.g.projects;
    var gs := AckedIsLost(v, r, [platform]);
    RunConcat(w, [d] + [e], gs);
    es := [d] + [e] + gs;
  }

  lemma AttachFirst(p: Project)
    ensures Attach(EMPTY, p).projects == [p]
  {
  }
}
