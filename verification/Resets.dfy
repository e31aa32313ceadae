/** What CLIENT_STATE::reset_project (client/client_state.C) leaves of the project, and of the others. */
module Resets {
  import opened Vectors
  import opened Records
  import opened Collector
  import opened Detach

  /** No result, workunit, task or transfer of the project is left, and nothing scheduled; the other
      projects keep their tasks and transfers, and their results and workunits as after an ordinary
      collection. */
  lemma ResetRecords(g: Graph, p: Project, keepApps: bool)
    requires Detachable(g)
    ensures var h := WasReset(g, p, keepApps);
            && (forall r :: r in h.results <==> r in Collect(g).results && r.project != p)
            && (forall w :: w in h.workunits <==> w in Collect(g).workunits && w.project != p)
            && (forall t :: t in h.activeTasks <==> t in g.activeTasks && t.result.project != p)
            && (forall x :: x in h.persXfers <==> x in g.persXfers && x.fip.project != p)
            && (forall x :: x in h.fileXfers <==> x in g.fileXfers && x.fip.project != p)
            && h.scheduled == [] && h.projects == g.projects && h.FilesOf(p) == []
  {
    StoppedMembers(g, p);
    ResetKept(g, p, keepApps);
    hide Detachable, KeptResults, KeptWorkunits, KeptAppVersions, KeptFiles, Filter;
  }

  lemma ResetKept(g: Graph, p: Project, keepApps: bool)
    requires Detachable(g)
    ensures var h := WasReset(g, p, keepApps);
            && (forall r :: r in h.results <==> r in Collect(g).results && r.project != p)
            && (forall w :: w in h.workunits <==> w in Collect(g).workunits && w.project != p)
  {
    hide *;
    StopKept(g, p);
    MiddleKept(g, p);
    SameRecords(g, p, keepApps);
  }

  lemma SameRecords(g: Graph, p: Project, keepApps: bool)
    ensures var h, k := WasReset(g, p, keepApps), Collect(if keepApps then Stopped(g, p) else Middle(g, p));
            h.results == k.results && h.workunits == k.workunits
  {
    hide Collect, Stopped, Middle;
  }

  lemma StopKept(g: Graph, p: Project)
    requires Detachable(g)
    ensures forall r :: r in Collect(Stopped(g, p)).results <==> r in Collect(g).results && r.project != p
    ensures forall w :: w in Collect(Stopped(g, p)).workunits <==> w in Collect(g).workunits && w.project != p
  {
    assert g.CheckAll() && g.Linked();
    hide *;
    StoppedKeeps(g, p);
    StoppedSafe(g, p);
    KeptAre(g);
    KeptAre(Stopped(g, p));
  }

  lemma MiddleKept(g: Graph, p: Project)
    requires Detachable(g)
    ensures forall r :: r in Collect(Middle(g, p)).results <==> r in Collect(Stopped(g, p)).results
    ensures forall w :: w in Collect(Middle(g, p)).workunits <==> w in Collect(Stopped(g, p)).workunits
  {
    hide *;
    MiddleKeeps(g, p);
    MiddleSafe(g, p);
    StoppedSafe(g, p);
    KeptAre(Middle(g, p));
    KeptAre(Stopped(g, p));
  }

  lemma KeptAre(g: Graph)
    requires g.CheckAll() && g.Linked()
    ensures forall r :: r in Collect(g).results <==> r in KeptResults(g)
    ensures forall w :: w in Collect(g).workunits <==> w in KeptWorkunits(g)
  {
    hide Graph.CheckAll, Graph.Linked, Collect, KeptResults, KeptWorkunits;
    CollectMembers(g);
    RecordRefsStay(g);
    SetMembers(Collect(g).results);
    SetMembers(Collect(g).workunits);
    assert SetOf(g.workunits) * KeptWorkunits(g) == KeptWorkunits(g);
  }

  /** The applications of the project stay exactly if they are to be kept, and its versions exactly if,
      besides, no listed version of the same application and plan class has a higher number. The other
      projects keep their applications, and their versions as after an ordinary collection. */
  lemma ResetVersions(g: Graph, p: Project, keepApps: bool)
    requires Detachable(g)
    ensures var h := WasReset(g, p, keepApps);
            && (forall a :: a in h.apps <==> a in g.apps && (keepApps || a.project != p))
            && (forall v: AppVersion :: v.project != p ==> (v in h.appVersions <==> v in Collect(g).appVersions))
            && (forall v: AppVersion :: v.project == p ==>
                  (v in h.appVersions <==>
                     keepApps && v in g.appVersions
                     && !(exists b <- g.appVersions ::
                            b.app == v.app && b.planClass == v.planClass && b.versionNum > v.versionNum)))
  {
    OwnVersions(g, p);
    OtherVersions(g, p);
    WithoutAppsMembers(Collect(Stopped(g, p)), p);
    SameApps(g, p, keepApps);
    if !keepApps {
      hide Detachable, Collect, Stopped, Middle, WithoutApps, WasReset;
      MiddleFixed(g, p);
    }
    hide Detachable, Collect, Stopped, Middle, WithoutApps, WasReset;
  }

  lemma SameApps(g: Graph, p: Project, keepApps: bool)
    ensures var h, s, m := WasReset(g, p, keepApps), Stopped(g, p), Middle(g, p);
            && Collect(s).apps == g.apps && m == WithoutApps(Collect(s), p)
            && (keepApps ==> h.apps == Collect(s).apps && h.appVersions == Collect(s).appVersions)
            && (!keepApps ==> h.apps == m.apps && h.appVersions == Collect(m).appVersions)
  {
    hide Filter, KeptResults, KeptWorkunits, KeptAppVersions, KeptFiles, WithoutApps;
  }

  lemma OtherVersions(g: Graph, p: Project)
    requires Detachable(g)
    ensures forall v: AppVersion :: v.project != p ==>
            (v in Collect(Stopped(g, p)).appVersions <==> v in Collect(g).appVersions)
  {
    StoppedVersions(g, p);
    StoppedKeeps(g, p);
    hide Detachable, Stopped;
    KeptVersions(g);
    KeptVersions(Stopped(g, p));
    hide Collect, KeptAppVersions;
  }

  lemma KeptVersions(g: Graph)
    ensures forall v :: v in Collect(g).appVersions <==> v in g.appVersions && v in KeptAppVersions(g)
  {
    FilterIn(g.appVersions, KeptAppVersions(g));
    hide KeptResults, KeptWorkunits, KeptAppVersions, KeptFiles, Filter;
  }

  lemma OwnVersions(g: Graph, p: Project)
    requires Detachable(g)
    ensures forall v: AppVersion :: v.project == p ==>
              (v in Collect(Stopped(g, p)).appVersions <==>
                 v in g.appVersions
                 && !(exists b <- g.appVersions ::
                        b.app == v.app && b.planClass == v.planClass && b.versionNum > v.versionNum))
  {
    var s := Stopped(g, p);
    StoppedVersions(g, p);
    StoppedSafe(g, p);
    hide *;
    RecordsLeft(s);
    NoOwnResults(g, p);
    KeptVersions(s);
  }

  lemma NoOwnResults(g: Graph, p: Project)
    requires Detachable(g)
    ensures forall r <- Collect(Stopped(g, p)).results :: r.project != p && r.avp.project != p && SeparateResult(r)
  {
    assert forall r <- g.results :: SeparateResult(r);
    assert g.CheckAll() && g.Linked();
    hide Detachable, Stopped, Collect, KeptResults, Graph.CheckAll, Graph.Linked;
    StopKept(g, p);
    KeptAre(g);
    KeptListed(g);
  }

  lemma KeptListed(g: Graph)
    ensures forall r :: r in KeptResults(g) ==> r in g.results
  {
  }

  /** The files of the project that stay are those of its versions that stay, and the sticky ones with a
      status of 0 or more that are not marked for deletion; its own lists of files are forgotten. The
      other projects keep their files as after an ordinary collection. */
  lemma ResetFiles(g: Graph, p: Project, keepApps: bool, f: FileInfo)
    requires Detachable(g) && f in g.fileInfos
    ensures var h := WasReset(g, p, keepApps);
            f in h.fileInfos <==>
              if f.project != p then f in Collect(g).fileInfos
              else (exists v <- h.appVersions :: f in v.appFiles)
                   || (f.sticky && g.Status(f) >= 0 && f !in g.markedForDelete)
  {
    if f.project == p { OwnFilesLeft(g, p, keepApps, f); } else { OtherFiles(g, p, keepApps, f); }
  }

  lemma OtherFiles(g: Graph, p: Project, keepApps: bool, f: FileInfo)
    requires Detachable(g) && f in g.fileInfos && f.project != p
    ensures f in WasReset(g, p, keepApps).fileInfos <==> f in Collect(g).fileInfos
  {
    var s, m := Stopped(g, p), Middle(g, p);
    FilterIn(g.fileInfos, KeptFiles(g));
    FilterIn(g.fileInfos, KeptFiles(s));
    FilterIn(m.fileInfos, KeptFiles(m));
    DetachedFiles(g, p);
    SameFiles(g, p, keepApps);
    hide Detachable, Stopped, Middle, Collect, KeptFiles, WasReset, Filter;
    StoppedRefs(g, p);
    MiddleRefs(g, p);
  }

  lemma SameFiles(g: Graph, p: Project, keepApps: bool)
    ensures var h, s, m := WasReset(g, p, keepApps), Stopped(g, p), Middle(g, p);
            && Collect(g).fileInfos == Filter(g.fileInfos, KeptFiles(g))
            && Collect(s).fileInfos == Filter(g.fileInfos, KeptFiles(s)) && m.fileInfos == Collect(s).fileInfos
            && h.fileInfos == if keepApps then Collect(s).fileInfos else Collect(m).fileInfos
  {
    hide Filter, KeptResults, KeptWorkunits, KeptAppVersions, KeptFiles;
  }

  lemma OwnFilesLeft(g: Graph, p: Project, keepApps: bool, f: FileInfo)
    requires Detachable(g) && f in g.fileInfos && f.project == p
    ensures var h := WasReset(g, p, keepApps);
            f in h.fileInfos <==>
              (exists v <- h.appVersions :: f in v.appFiles)
              || (f.sticky && g.Status(f) >= 0 && f !in g.markedForDelete)
  {
    var s, m, h := Stopped(g, p), Middle(g, p), WasReset(g, p, keepApps);
    SameFiles(g, p, keepApps);
    SameMarks(g, p, f);
    StoppedSafe(g, p);
    MiddleSafe(g, p);
    ResetRecords(g, p, keepApps);
    ResetVersions(g, p, keepApps);
    ResetSeparate(g, p, keepApps);
    FilterIn(m.fileInfos, KeptFiles(m));
    assert Collect(m).fileInfos == Filter(m.fileInfos, KeptFiles(m)) by { SameFiles(g, p, false); }
    hide *;
    OwnRefs(h, p, f);
    FilesLeft(s, f);
    if keepApps {
      SameRefs(g, p, f);
    } else {
      assert h == Collect(m) by { IsReset(g, p); }
      NoOwnVersions(h, p, f);
      if f in m.fileInfos { FilesLeft(m, f); }
    }
  }

  lemma IsReset(g: Graph, p: Project)
    ensures WasReset(g, p, false) == Collect(Middle(g, p))
  {
  }

  lemma SameRefs(g: Graph, p: Project, f: FileInfo)
    ensures Referenced(WasReset(g, p, true), f) <==> Referenced(Collect(Stopped(g, p)), f)
  {
    hide Collect, Stopped;
    assert forall q :: WasReset(g, p, true).FilesOf(q) == Collect(Stopped(g, p)).FilesOf(q);
  }

  lemma SameMarks(g: Graph, p: Project, f: FileInfo)
    ensures Stopped(g, p).fileInfos == g.fileInfos
    ensures forall h <- [Stopped(g, p), Middle(g, p)] ::
              h.Status(f) == g.Status(f) && h.markedForDelete == g.markedForDelete
  {
    hide KeptResults, KeptWorkunits, KeptAppVersions, KeptFiles, Filter;
  }

  lemma OwnRefs(h: Graph, p: Project, f: FileInfo)
    requires Separate(h) && f.project == p && h.FilesOf(p) == []
    requires (forall r <- h.results :: r.project != p) && (forall w <- h.workunits :: w.project != p)
    requires (forall x <- h.persXfers :: x.fip.project != p) && (forall x <- h.fileXfers :: x.fip.project != p)
    ensures Referenced(h, f) <==> exists v <- h.appVersions :: f in v.appFiles
  {
    hide Graph.FilesOf;
  }

  lemma NoOwnVersions(h: Graph, p: Project, f: FileInfo)
    requires Separate(h) && f.project == p && forall v <- h.appVersions :: v.project != p
    ensures !(exists v <- h.appVersions :: f in v.appFiles)
  {
    hide Graph.FilesOf;
  }

  lemma ResetSeparate(g: Graph, p: Project, keepApps: bool)
    requires Detachable(g)
    ensures Separate(WasReset(g, p, keepApps))
  {
    var s := Stopped(g, p);
    assert Separate(g);
    StoppedSeparate(g, p);
    hide Detachable, Stopped, Collect, Middle, Separate;
    CollectSeparate(s);
    MiddleSeparate(g, p);
    CollectSeparate(Middle(g, p));
    if keepApps { UnscheduledSeparate(Collect(s)); }
  }

  lemma StoppedSeparate(g: Graph, p: Project)
    requires Separate(g)
    ensures Separate(Stopped(g, p))
  {
    var s := Stopped(g, p);
    assert forall q <- s.projects :: s.FilesOf(q) == if q == p then [] else g.FilesOf(q);
    hide Filter;
  }

  lemma UnscheduledSeparate(g: Graph)
    requires Separate(g)
    ensures Separate(g.(scheduled := []))
  {
    assert forall q :: g.(scheduled := []).FilesOf(q) == g.FilesOf(q);
  }
}
