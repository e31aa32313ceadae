/** Persistent file transfers and the transfers that are going on: client/cs_files.C,
    client/pers_file_xfer.C and FILE_XFER_SET (client/file_xfer.C). A pointer to a transfer is
    its address. */
module Transfers {
  import opened Options

  /** A FILE_INFO: its project, and pers_file_xfer. */
  datatype File = File(project: nat, transfer: Option<nat>)

  /** A PERS_FILE_XFER: fip, is_upload, fxp, pers_xfer_done. */
  datatype Pers = Pers(addr: nat, file: nat, upload: bool, fxp: Option<nat>, done: bool)

  /** A FILE_XFER in the set: fip, the project of fip, is_upload. */
  datatype Xfer = Xfer(addr: nat, file: nat, project: nat, upload: bool)

  /** max_file_xfers and max_file_xfers_per_project. */
  datatype Limits = Limits(total: nat, perProject: nat)

  /** The files, both sets, and the first unused address. */
  datatype Net = Net(files: seq<File>, pers: seq<Pers>, xfers: seq<Xfer>, next: nat)

  // ---- The limits -----------------------------------------------------------------------

  /** How many transfers of a set go in a direction, and how many of them for one project. */
  function Busy(xs: seq<Xfer>, upload: bool): nat {
    if xs == [] then 0 else Busy(xs[..|xs| - 1], upload) + if xs[|xs| - 1].upload == upload then 1 else 0
  }

  function BusyFor(xs: seq<Xfer>, upload: bool, project: nat): nat {
    if xs == [] then 0
    else BusyFor(xs[..|xs| - 1], upload, project) + if xs[|xs| - 1].upload == upload
        && xs[|xs| - 1].project == project then 1 else 0
  }

  ghost predicate InLimits(lim: Limits, xs: seq<Xfer>) {
    && (forall u :: Busy(xs, u) <= lim.total)
    && (forall u, p :: BusyFor(xs, u, p) <= lim.perProject)
  }

  predicate MayStart(lim: Limits, xs: seq<Xfer>, upload: bool, project: nat) {
    BusyFor(xs, upload, project) < lim.perProject && Busy(xs, upload) < lim.total
  }

  lemma BusyPush(xs: seq<Xfer>, x: Xfer, u: bool, p: nat)
    ensures Busy(xs + [x], u) == Busy(xs, u) + if x.upload == u then 1 else 0
    ensures BusyFor(xs + [x], u, p) == BusyFor(xs, u, p) + if x.upload == u && x.project == p then 1 else 0
  {
    assert (xs + [x])[..|xs|] == xs;
  }

  /** Taking a transfer out takes it out of the counts. */
  lemma {:induction false} BusyErase(xs: seq<Xfer>, i: nat, u: bool, p: nat)
    requires i < |xs|
    ensures Busy(xs[..i] + xs[i + 1..], u) == Busy(xs, u) - if xs[i].upload == u then 1 else 0
    ensures BusyFor(xs[..i] + xs[i + 1..], u, p) == BusyFor(xs, u, p) - if xs[i].upload == u
            && xs[i].project == p then 1 else 0
  {
    var n := |xs| - 1;
    if i == n {
      assert xs[..i] + xs[i + 1..] == xs[..n];
    } else {
      BusyErase(xs[..n], i, u, p);
      assert (xs[..i] + xs[i + 1..])[..n - 1] == xs[..n][..i] + xs[..n][i + 1..];
    }
  }

  lemma StartInLimits(lim: Limits, xs: seq<Xfer>, x: Xfer)
    requires InLimits(lim, xs) && MayStart(lim, xs, x.upload, x.project)
    ensures InLimits(lim, xs + [x])
  {
    forall u ensures Busy(xs + [x], u) <= lim.total { BusyPush(xs, x, u, 0); }
    forall u, p: nat ensures BusyFor(xs + [x], u, p) <= lim.perProject { BusyPush(xs, x, u, p); }
  }

  lemma EraseInLimits(lim: Limits, xs: seq<Xfer>, i: nat)
    requires InLimits(lim, xs) && i < |xs|
    ensures InLimits(lim, xs[..i] + xs[i + 1..])
    // There is room for the same transfer again.
    ensures MayStart(lim, xs[..i] + xs[i + 1..], xs[i].upload, xs[i].project)
  {
    var ys := xs[..i] + xs[i + 1..];
    BusyErase(xs, i, xs[i].upload, xs[i].project);
    forall u ensures Busy(ys, u) <= lim.total { BusyErase(xs, i, u, 0); }
    forall u, p: nat ensures BusyFor(ys, u, p) <= lim.perProject { BusyErase(xs, i, u, p); }
  }

  // ---- The links -------------------------------------------------------------------------------

  /** The file of a persistent transfer points back at it, and a finished one runs no transfer. */
  ghost predicate PersLinked(n: Net) {
    forall p :: p in n.pers ==>
      && p.file < |n.files| && n.files[p.file].transfer == Some(p.addr) && p.addr < n.next
      && (p.done ==> p.fxp.None?) && (p.fxp.Some? ==> p.fxp.value < n.next)
  }

  /** A file points at a persistent transfer of its own in the set. */
  ghost predicate FilesLinked(n: Net) {
    forall f :: 0 <= f < |n.files| && n.files[f].transfer.Some? ==>
      exists p :: p in n.pers && p.addr == n.files[f].transfer.value && p.file == f
  }

  /** No persistent transfer is in the set twice, and no two run the same transfer. */
  ghost predicate PersApart(ps: seq<Pers>) {
    forall j, k :: 0 <= j < k < |ps| ==> ps[j].addr != ps[k].addr && (ps[j].fxp.Some? ==> ps[j].fxp != ps[k].fxp)
  }

  predicate Owns(p: Pers, x: Xfer) { p.fxp == Some(x.addr) && p.file == x.file && p.upload == x.upload }

  /** Every transfer in the set is run by a persistent transfer of the same file and direction. */
  ghost predicate Owned(ps: seq<Pers>, xs: seq<Xfer>) { forall x :: x in xs ==> exists p :: p in ps && Owns(p, x) }

  ghost predicate XfersApart(xs: seq<Xfer>) { forall i, j :: 0 <= i < j < |xs| ==> xs[i].addr != xs[j].addr }

  ghost predicate Projects(n: Net) {
    forall x :: x in n.xfers ==> x.addr < n.next && x.file < |n.files| && x.project == n.files[x.file].project
  }

  ghost predicate Valid(lim: Limits, n: Net) {
    && PersLinked(n) && FilesLinked(n) && PersApart(n.pers) && Owned(n.pers, n.xfers)
    && XfersApart(n.xfers) && Projects(n) && InLimits(lim, n.xfers)
  }

  /** So every file has at most one persistent transfer, linked both ways. */
  lemma OnePerFile(lim: Limits, n: Net, f: nat)
    requires Valid(lim, n) && f < |n.files|
    ensures n.files[f].transfer.None? ==> forall p :: p in n.pers ==> p.file != f
    ensures n.files[f].transfer.Some? ==>
            exists k :: 0 <= k < |n.pers| && n.pers[k].addr == n.files[f].transfer.value && n.pers[k].file == f
    ensures forall j, k :: 0 <= j < k < |n.pers| ==> !(n.pers[j].file == f && n.pers[k].file == f)
  {
    hide InLimits, Owned, XfersApart, Projects;
    forall j, k | 0 <= j < k < |n.pers| ensures !(n.pers[j].file == f && n.pers[k].file == f) {
      assert n.pers[j] in n.pers && n.pers[k] in n.pers;
    }
    if n.files[f].transfer.Some? {
      var p :| p in n.pers && p.addr == n.files[f].transfer.value && p.file == f;
      var k :| 0 <= k < |n.pers| && n.pers[k] == p;
    }
  }

  // ---- The moves -----------------------------------------------------------------------------------

  /** Position of a transfer in the set. */
  function Find(xs: seq<Xfer>, addr: nat): (i: nat)
    ensures i <= |xs| && (i < |xs| ==> xs[i].addr == addr)
    ensures i == |xs| ==> forall j :: 0 <= j < |xs| ==> xs[j].addr != addr
  {
    if xs == [] then 0
    else
      var i := Find(xs[..|xs| - 1], addr);
      if i < |xs| - 1 then i else if xs[|xs| - 1].addr == addr then |xs| - 1 else |xs|
  }

  /** FILE_XFER_SET::remove. */
  function Removed(xs: seq<Xfer>, addr: nat): seq<Xfer> {
    var i := Find(xs, addr);
    if i < |xs| then xs[..i] + xs[i + 1..] else xs
  }

  /** A new persistent transfer for a file without one. */
  function Make(n: Net, f: nat, upload: bool): Net {
    if f < |n.files| && n.files[f].transfer.None? then
      n.(files := n.files[f := n.files[f].(transfer := Some(n.next))],
         pers := n.pers + [Pers(n.next, f, upload, None, false)], next := n.next + 1)
    else n
  }

  /** Erase and delete a finished persistent transfer. */
  function Erase(n: Net, k: nat): Net {
    if k < |n.pers| && n.pers[k].done && n.pers[k].file < |n.files| then
      n.(files := n.files[n.pers[k].file := n.files[n.pers[k].file].(transfer := None)],
          pers := n.pers[..k] + n.pers[k + 1..])
    else n
  }

  /** create_xfer: the network may be suspended, the file may be there already, and starting may
      fail. */
  datatype Start = Exists | Fails | Begins

  function Create(lim: Limits, suspended: bool, n: Net, k: nat, s: Start): Net {
    if suspended || k >= |n.pers| || n.pers[k].done || n.pers[k].fxp.Some? || n.pers[k].file >= |n.files| then n
    else
      var p := n.pers[k];
      var project := n.files[p.file].project;
      if !MayStart(lim, n.xfers, p.upload, project) then n
      else if s.Exists? && !p.upload then n.(pers := n.pers[k := p.(done := true)])
      else if s.Begins? then
        n.(pers := n.pers[k := p.(fxp := Some(n.next))], xfers := n.xfers + [Xfer(n.next, p.file, project, p.upload)],
            next := n.next + 1)
      else n
  }

  /** A persistent transfer lets go of its transfer: after success, permanent or transient failure
      (poll), on suspend, or on abort; `done` says whether it is finished. */
  function Release(n: Net, k: nat, done: bool): Net {
    if k >= |n.pers| then n
    else
      var p := n.pers[k];
      n.(pers := n.pers[k := p.(fxp := None, done := p.done || done)],
         xfers := if p.fxp.Some? then Removed(n.xfers, p.fxp.value) else n.xfers)
  }

  /** After a file size query an upload is removed from the set and inserted again (FILE_XFER_SET::
      poll); inserting may fail. */
  function Restart(n: Net, i: nat, inserted: bool): Net {
    if i < |n.xfers| then
      n.(xfers := n.xfers[..i] + n.xfers[i + 1..] + if inserted then [n.xfers[i]] else [])
    else n
  }

  // ---- Members of the changed sets ------------------------------------------------------------------

  lemma SetMembers(ps: seq<Pers>, k: nat, q: Pers)
    requires k < |ps| && PersApart(ps)
    ensures forall p :: p in ps[k := q] <==> p == q || (p in ps && p != ps[k])
  {
    forall p | p in ps && p != ps[k] ensures p in ps[k := q] {
      var j :| 0 <= j < |ps| && ps[j] == p;
      assert ps[k := q][j] == p;
    }
    assert ps[k := q][k] == q;
  }

  lemma EraseMembers(ps: seq<Pers>, k: nat)
    requires k < |ps| && PersApart(ps)
    ensures forall p :: p in ps[..k] + ps[k + 1..] <==> p in ps && p != ps[k]
    ensures PersApart(ps[..k] + ps[k + 1..])
  {
    forall p | p in ps && p != ps[k] ensures p in ps[..k] + ps[k + 1..] {
      var j :| 0 <= j < |ps| && ps[j] == p;
      assert (ps[..k] + ps[k + 1..])[if j < k then j else j - 1] == p;
    }
  }

  lemma ErasedXfers(xs: seq<Xfer>, i: nat)
    requires XfersApart(xs) && i < |xs|
    ensures XfersApart(xs[..i] + xs[i + 1..])
    ensures forall x :: x in xs[..i] + xs[i + 1..] <==> x in xs && x.addr != xs[i].addr
  {
    var ys := xs[..i] + xs[i + 1..];
    assert forall j :: 0 <= j < |ys| ==> ys[j] == xs[if j < i then j else j + 1];
    forall x | x in xs && x.addr != xs[i].addr ensures x in ys {
      var j :| 0 <= j < |xs| && xs[j] == x;
      assert ys[if j < i then j else j - 1] == x;
    }
  }

  lemma XfersPush(xs: seq<Xfer>, x: Xfer)
    requires XfersApart(xs) && forall y :: y in xs ==> y.addr != x.addr
    ensures XfersApart(xs + [x])
  {
  }

  lemma RemovedMembers(lim: Limits, xs: seq<Xfer>, addr: nat)
    requires InLimits(lim, xs) && XfersApart(xs)
    ensures InLimits(lim, Removed(xs, addr)) && XfersApart(Removed(xs, addr))
    ensures forall x :: x in Removed(xs, addr) <==> x in xs && x.addr != addr
  {
    hide InLimits, XfersApart;
    var i := Find(xs, addr);
    if i < |xs| {
      EraseInLimits(lim, xs, i);
      ErasedXfers(xs, i);
    }
  }

  // ---- Every move keeps everything --------------------------------------------------------------------

  lemma MakeKeeps(lim: Limits, n: Net, f: nat, upload: bool)
    requires Valid(lim, n)
    ensures Valid(lim, Make(n, f, upload))
  {
    var m := Make(n, f, upload);
    hide InLimits, XfersApart;
    assert FilesLinked(m) by {
      assert m != n ==> m.pers[|n.pers|] in m.pers;
      hide Owned, Projects, PersApart, PersLinked;
    }
    hide FilesLinked;
    forall k | 0 <= k < |n.pers| ensures n.pers[k] in n.pers {}
    hide Owns;
  }

  lemma MakeFiles(n: Net, f: nat, upload: bool)
    requires f < |n.files| && n.files[f].transfer.None?
    ensures Make(n, f, upload).xfers == n.xfers && |Make(n, f, upload).files| == |n.files|
    ensures Make(n, f, upload).files[f].transfer.Some?
    ensures forall g :: 0 <= g < |n.files| && g != f ==> Make(n, f, upload).files[g] == n.files[g]
  {
  }

  lemma EraseKeeps(lim: Limits, n: Net, k: nat)
    requires Valid(lim, n)
    ensures Valid(lim, Erase(n, k))
  {
    if k < |n.pers| && n.pers[k].done {
      EraseMembers(n.pers, k);
      hide InLimits, XfersApart, PersApart;
    }
  }

  lemma EraseFacts(lim: Limits, n: Net, k: nat)
    requires Valid(lim, n) && k < |n.pers| && n.pers[k].done
    ensures Valid(lim, Erase(n, k)) && Erase(n, k).xfers == n.xfers && |Erase(n, k).files| == |n.files|
    ensures Erase(n, k).pers == n.pers[..k] + n.pers[k + 1..]
    ensures forall p :: p in Erase(n, k).pers <==> p in n.pers && p != n.pers[k]
  {
    EraseKeeps(lim, n, k);
    EraseMembers(n.pers, k);
    assert n.pers[k] in n.pers;
    hide InLimits, FilesLinked, Projects, XfersApart, Owned, PersApart;
  }

  /** Changing what a persistent transfer runs. */
  lemma SetApart(ps: seq<Pers>, k: nat, q: Pers)
    requires PersApart(ps) && k < |ps| && q.addr == ps[k].addr
    requires q.fxp.Some? ==> forall p :: p in ps ==> p.fxp != q.fxp
    ensures PersApart(ps[k := q])
  {
    forall j | 0 <= j < |ps| ensures ps[j] in ps {}
  }

  lemma ReleaseKeeps(lim: Limits, n: Net, k: nat, done: bool)
    requires Valid(lim, n)
    ensures Valid(lim, Release(n, k, done))
  {
    if k < |n.pers| {
      var p := n.pers[k];
      var m := Release(n, k, done);
      SetMembers(n.pers, k, m.pers[k]);
      SetApart(n.pers, k, m.pers[k]);
      if p.fxp.Some? { RemovedMembers(lim, n.xfers, p.fxp.value); }
      assert p in n.pers && m.pers[k] in m.pers;
      hide InLimits, PersApart, XfersApart, Removed;
    }
  }

  lemma RestartKeeps(lim: Limits, n: Net, i: nat, inserted: bool)
    requires Valid(lim, n)
    ensures Valid(lim, Restart(n, i, inserted))
  {
    if i < |n.xfers| {
      var ys := n.xfers[..i] + n.xfers[i + 1..];
      EraseInLimits(lim, n.xfers, i);
      ErasedXfers(n.xfers, i);
      StartAgain(lim, ys, n.xfers[i], inserted);
      XfersPush(ys, n.xfers[i]);
      assert ys + [] == ys;
      FewerXfers(n, Restart(n, i, inserted));
      hide InLimits, XfersApart, PersLinked, FilesLinked, Owned, Projects, PersApart;
    }
  }

  /** Fewer transfers in the set. */
  lemma FewerXfers(n: Net, m: Net)
    requires PersLinked(n) && FilesLinked(n) && Owned(n.pers, n.xfers) && Projects(n)
    requires m == n.(xfers := m.xfers) && forall x :: x in m.xfers ==> x in n.xfers
    ensures PersLinked(m) && FilesLinked(m) && Owned(m.pers, m.xfers) && Projects(m)
  {
    hide Owns;
  }

  lemma StartAgain(lim: Limits, ys: seq<Xfer>, x: Xfer, inserted: bool)
    requires InLimits(lim, ys) && MayStart(lim, ys, x.upload, x.project)
    ensures InLimits(lim, ys + if inserted then [x] else [])
  {
    StartInLimits(lim, ys, x);
    assert ys + [] == ys;
  }

  lemma CreateKeeps(lim: Limits, suspended: bool, n: Net, k: nat, s: Start)
    requires Valid(lim, n)
    ensures Valid(lim, Create(lim, suspended, n, k, s))
  {
    var m := Create(lim, suspended, n, k, s);
    if m != n {
      SetMembers(n.pers, k, m.pers[k]);
      assert n.pers[k] in n.pers && m.pers[k] in m.pers;
      if m.xfers == n.xfers {
        SetApart(n.pers, k, m.pers[k]);
        hide InLimits, PersApart, MayStart;
      } else {
        CreateBegins(lim, n, k, m);
      }
    }
  }

  lemma CreateBegins(lim: Limits, n: Net, k: nat, m: Net)
    requires Valid(lim, n) && k < |n.pers| && n.pers[k].file < |n.files| && n.pers[k].fxp.None? && !n.pers[k].done
    requires MayStart(lim, n.xfers, n.pers[k].upload, n.files[n.pers[k].file].project)
    requires m.files == n.files && m.next == n.next + 1 && m.pers == n.pers[k := n.pers[k].(fxp := Some(n.next))]
    requires m.xfers == n.xfers + [Xfer(n.next, n.pers[k].file, n.files[n.pers[k].file].project, n.pers[k].upload)]
    ensures Valid(lim, m)
  {
    var x := m.xfers[|n.xfers|];
    SetMembers(n.pers, k, m.pers[k]);
    BeginsApart(n, k, m);
    hide PersApart;
    StartInLimits(lim, n.xfers, x);
    hide InLimits, MayStart;
    XfersPush(n.xfers, x);
    hide XfersApart;
    BeginsOwned(n.pers, k, m.pers, n.xfers, m.xfers);
    hide Owned, Owns;
    BeginsLinked(n, k, m);
    hide PersLinked, FilesLinked;
    assert Projects(m);
  }

  lemma BeginsApart(n: Net, k: nat, m: Net)
    requires PersLinked(n) && PersApart(n.pers) && k < |n.pers|
    requires m.pers == n.pers[k := n.pers[k].(fxp := Some(n.next))]
    ensures PersApart(m.pers) && m.pers[k] in m.pers && n.pers[k] in n.pers
  {
    assert forall p :: p in n.pers ==> p.fxp != Some(n.next);
    SetApart(n.pers, k, m.pers[k]);
    assert m.pers[k] in m.pers && n.pers[k] in n.pers;
  }

  lemma BeginsLinked(n: Net, k: nat, m: Net)
    requires PersLinked(n) && FilesLinked(n) && k < |n.pers| && !n.pers[k].done && n.pers[k] in n.pers
    requires m.files == n.files && m.next == n.next + 1 && m.pers == n.pers[k := n.pers[k].(fxp := Some(n.next))]
    requires forall p :: p in m.pers <==> p == m.pers[k] || (p in n.pers && p != n.pers[k])
    ensures PersLinked(m) && FilesLinked(m)
  {
  }

  lemma BeginsOwned(ps: seq<Pers>, k: nat, qs: seq<Pers>, xs: seq<Xfer>, ys: seq<Xfer>)
    requires Owned(ps, xs) && k < |ps| && |qs| == |ps| && ps[k].fxp.None? && |ys| == |xs| + 1 && ys[..|xs|] == xs
    requires forall p :: p in ps && p != ps[k] ==> p in qs
    requires qs[k] in qs && Owns(qs[k], ys[|xs|])
    ensures Owned(qs, ys)
  {
    assert ys == xs + [ys[|xs|]];
  }

  // ---- Over whole runs ------------------------------------------------------------------------------------

  datatype Event =
    | DoMake(f: nat, upload: bool)
    | DoErase(k: nat)
    | DoCreate(suspended: bool, k: nat, s: Start)
    | DoRelease(k: nat, done: bool)
    | DoRestart(i: nat, inserted: bool)

  function Apply(lim: Limits, n: Net, e: Event): Net {
    match e
    case DoMake(f, upload) => Make(n, f, upload)
    case DoErase(k) => Erase(n, k)
    case DoCreate(suspended, k, s) => Create(lim, suspended, n, k, s)
    case DoRelease(k, done) => Release(n, k, done)
    case DoRestart(i, inserted) => Restart(n, i, inserted)
  }

  function RunAll(lim: Limits, n: Net, es: seq<Event>): Net {
    if es == [] then n else Apply(lim, RunAll(lim, n, es[..|es| - 1]), es[|es| - 1])
  }

  /** Over any run, every direction stays within the limits, overall and for every project, and
      files and persistent transfers stay linked both ways, one to one. */
  lemma {:induction false} RunKeeps(lim: Limits, n: Net, es: seq<Event>)
    requires Valid(lim, n)
    ensures Valid(lim, RunAll(lim, n, es))
  {
    hide Valid;
    if es != [] {
      var m := RunAll(lim, n, es[..|es| - 1]);
      RunKeeps(lim, n, es[..|es| - 1]);
      match es[|es| - 1]
      case DoMake(f, upload) => MakeKeeps(lim, m, f, upload);
      case DoErase(k) => EraseKeeps(lim, m, k);
      case DoCreate(suspended, k, s) => CreateKeeps(lim, suspended, m, k, s);
      case DoRelease(k, done) => ReleaseKeeps(lim, m, k, done);
      case DoRestart(i, inserted) => RestartKeeps(lim, m, i, inserted);
    }
  }

  // ---- What the moves bring about ---------------------------------------------------------------------------

  /** The transfers that go in a direction, for all projects or for one. */
  function Going(xs: seq<Xfer>, u: bool): set<nat> { set i: nat | i < |xs| && xs[i].upload == u }

  function GoingFor(xs: seq<Xfer>, u: bool, p: nat): set<nat> {
    set i: nat | i < |xs| && xs[i].upload == u && xs[i].project == p
  }

  lemma GoingLast(xs: seq<Xfer>, u: bool, p: nat)
    requires xs != []
    ensures var n := |xs| - 1;
            && Going(xs, u) == Going(xs[..n], u) + (if xs[n].upload == u then {n} else {})
            && GoingFor(xs, u, p) == GoingFor(xs[..n], u, p)
                + (if xs[n].upload == u && xs[n].project == p then {n} else {})
            && n !in Going(xs[..n], u) && n !in GoingFor(xs[..n], u, p)
  {
  }

  /** What Busy counts. */
  lemma {:induction false} BusyIs(xs: seq<Xfer>, u: bool, p: nat)
    ensures Busy(xs, u) == |Going(xs, u)| && BusyFor(xs, u, p) == |GoingFor(xs, u, p)|
  {
    if xs == [] {
      assert Going(xs, u) == {} && GoingFor(xs, u, p) == {};
    } else {
      BusyIs(xs[..|xs| - 1], u, p);
      GoingLast(xs, u, p);
      hide Going, GoingFor;
    }
  }

  /** When the network is not suspended and both limits leave room, a persistent transfer that runs
      nothing starts a transfer for its file, in its direction, which is then in the set; otherwise
      nothing changes, but for a download whose file is there already: that is finished. */
  lemma CreateStarts(lim: Limits, suspended: bool, n: Net, k: nat, s: Start)
    requires Valid(lim, n) && k < |n.pers| && !n.pers[k].done && n.pers[k].fxp.None?
    ensures var p, m := n.pers[k], Create(lim, suspended, n, k, s);
            var room := && !suspended && Busy(n.xfers, p.upload) < lim.total
                        && BusyFor(n.xfers, p.upload, n.files[p.file].project) < lim.perProject;
            && |m.pers| == |n.pers| && m.files == n.files
            && (forall j :: 0 <= j < |n.pers| && j != k ==> m.pers[j] == n.pers[j])
            && (room && s.Begins? ==>
                  && |m.xfers| == |n.xfers| + 1 && m.xfers[..|n.xfers|] == n.xfers
                  && m.pers[k].fxp == Some(m.xfers[|n.xfers|].addr)
                  && m.xfers[|n.xfers|].file == p.file && m.xfers[|n.xfers|].upload == p.upload)
            && (!(room && s.Begins?) ==> m.xfers == n.xfers)
            && (m.pers[k].done <==> room && s.Exists? && !p.upload)
  {
    assert n.pers[k] in n.pers;
    hide InLimits, PersApart, FilesLinked, Owned, XfersApart, Projects;
  }

  /** A persistent transfer that lets go runs nothing afterwards, and what it ran is not in the set
      any more; all others run on. */
  lemma ReleaseEnds(lim: Limits, n: Net, k: nat, done: bool)
    requires Valid(lim, n) && k < |n.pers|
    ensures var p, m := n.pers[k], Release(n, k, done);
            && |m.pers| == |n.pers| && m.files == n.files
            && m.pers[k].fxp == None && (m.pers[k].done <==> p.done || done)
            && (forall j :: 0 <= j < |n.pers| && j != k ==> m.pers[j] == n.pers[j])
            && (forall x :: x in m.xfers <==> x in n.xfers && p.fxp != Some(x.addr))
  {
    if n.pers[k].fxp.Some? { RemovedMembers(lim, n.xfers, n.pers[k].fxp.value); }
    hide InLimits, PersApart, FilesLinked, Owned, XfersApart, Projects, PersLinked, Removed;
  }

  /** A file without a persistent transfer gets one, in the given direction. */
  lemma MakeLinks(n: Net, f: nat, upload: bool)
    requires f < |n.files| && n.files[f].transfer.None?
    ensures var m := Make(n, f, upload);
            && |m.pers| == |n.pers| + 1 && m.pers[..|n.pers|] == n.pers && m.xfers == n.xfers
            && m.pers[|n.pers|].file == f && m.pers[|n.pers|].upload == upload && !m.pers[|n.pers|].done
            && m.pers[|n.pers|].fxp.None? && m.files[f].transfer == Some(m.pers[|n.pers|].addr)
  {
  }

  /** An upload that is restarted stays in the set if inserting it works, and leaves it if not. */
  lemma RestartMoves(lim: Limits, n: Net, i: nat, inserted: bool)
    requires Valid(lim, n) && i < |n.xfers|
    ensures var m := Restart(n, i, inserted);
            m.pers == n.pers && m.files == n.files && forall x :: x in m.xfers <==>
                x in n.xfers && (inserted || x != n.xfers[i])
  {
    ErasedXfers(n.xfers, i);
    hide InLimits, PersApart, FilesLinked, Owned, Projects, PersLinked;
    assert forall x :: x in n.xfers && x.addr == n.xfers[i].addr ==> x == n.xfers[i];
    var ys := n.xfers[..i] + n.xfers[i + 1..];
    assert Restart(n, i, inserted).xfers == if inserted then ys + [n.xfers[i]] else ys;
  }

  // ---- When a transfer is in the set ------------------------------------------------------------------------

  /** The transfer that `p` runs is in the set. */
  ghost predicate Listed(n: Net, p: Pers) { exists x :: x in n.xfers && Owns(p, x) }

  /** In some step of the run the transfer at `addr` was taken out for a restart, and inserting it
      again failed. */
  predicate Lost(lim: Limits, n: Net, es: seq<Event>, addr: nat) {
    es != [] && (Lost(lim, n, es[..|es| - 1], addr) || LostBy(RunAll(lim, n, es[..|es| - 1]), es[|es| - 1], addr))
  }

  predicate LostBy(n: Net, e: Event, addr: nat) {
    e.DoRestart? && !e.inserted && e.i < |n.xfers| && n.xfers[e.i].addr == addr
  }

  /** Where every transfer that is run stands after the run `es`. */
  ghost predicate Standing(lim: Limits, n: Net, es: seq<Event>, m: Net) {
    && (forall p :: p in m.pers && p.fxp.Some? ==> (Listed(m, p) <==> !Lost(lim, n, es, p.fxp.value)))
    && (forall addr: nat :: addr >= m.next ==> !Lost(lim, n, es, addr))
  }

  /** One move carries that over: whoever runs a transfer after it ran it before, and it is in the
      set as before unless this move has lost it; or the transfer is new and in the set. */
  ghost predicate Carries(n: Net, e: Event, m: Net) {
    && m.next >= n.next && (forall addr: nat :: LostBy(n, e, addr) ==> addr < n.next)
    && (forall p :: p in m.pers && p.fxp.Some? ==> CarriedFrom(n, e, m, p))
  }

  ghost predicate CarriedFrom(n: Net, e: Event, m: Net, p: Pers)
    requires p.fxp.Some?
  {
    || (p.fxp.value >= n.next && Listed(m, p) && !LostBy(n, e, p.fxp.value))
    || (exists q :: q in n.pers && q.fxp == p.fxp && (Listed(m, p) <==> Listed(n, q) && !LostBy(n, e, p.fxp.value)))
  }

  lemma StandingNext(lim: Limits, n: Net, es: seq<Event>, m: Net, w: Net)
    requires es != [] && m == RunAll(lim, n, es[..|es| - 1])
    requires Standing(lim, n, es[..|es| - 1], m) && Carries(m, es[|es| - 1], w)
    ensures Standing(lim, n, es, w)
  {
    assert forall addr: nat :: Lost(lim, n, es, addr) <==>
        Lost(lim, n, es[..|es| - 1], addr) || LostBy(m, es[|es| - 1], addr);
    hide Lost, LostBy, Listed, RunAll;
  }

  lemma SameListed(n: Net, m: Net, p: Pers)
    requires m.xfers == n.xfers
    ensures Listed(m, p) <==> Listed(n, p)
  {
  }

  lemma MakeCarries(n: Net, f: nat, upload: bool)
    ensures Carries(n, DoMake(f, upload), Make(n, f, upload))
  {
    var m := Make(n, f, upload);
    forall p | p in m.pers && p.fxp.Some? ensures CarriedFrom(n, DoMake(f, upload), m, p) { SameListed(n, m, p); }
  }

  lemma EraseCarries(n: Net, k: nat)
    ensures Carries(n, DoErase(k), Erase(n, k))
  {
    var m := Erase(n, k);
    forall p | p in m.pers && p.fxp.Some? ensures CarriedFrom(n, DoErase(k), m, p) { SameListed(n, m, p); }
  }

  lemma CreateCarries(lim: Limits, suspended: bool, n: Net, k: nat, s: Start)
    requires Valid(lim, n)
    ensures Carries(n, DoCreate(suspended, k, s), Create(lim, suspended, n, k, s))
  {
    var e, m := DoCreate(suspended, k, s), Create(lim, suspended, n, k, s);
    hide InLimits, MayStart, FilesLinked, Projects, XfersApart, Owned;
    if m != n { SetMembers(n.pers, k, m.pers[k]); }
    hide PersApart;
    forall p | p in m.pers && p.fxp.Some? ensures CarriedFrom(n, e, m, p) {
      if p in n.pers {
        ListedBeside(n, m, p);
      } else {
        assert Owns(p, m.xfers[|n.xfers|]) && m.xfers[|n.xfers|] in m.xfers;
      }
    }
  }

  /** A new transfer does not change whether another one is in the set. */
  lemma ListedBeside(n: Net, m: Net, p: Pers)
    requires PersLinked(n) && p in n.pers
    requires m.xfers == n.xfers || (|m.xfers| == |n.xfers| + 1 && m.xfers[..|n.xfers|] == n.xfers
            && m.xfers[|n.xfers|].addr == n.next)
    ensures Listed(m, p) <==> Listed(n, p)
  {
    assert m.xfers == n.xfers || m.xfers == n.xfers + [m.xfers[|n.xfers|]];
  }

  lemma ReleaseCarries(lim: Limits, n: Net, k: nat, done: bool)
    requires Valid(lim, n)
    ensures Carries(n, DoRelease(k, done), Release(n, k, done))
  {
    var e, m := DoRelease(k, done), Release(n, k, done);
    if k < |n.pers| {
      SetMembers(n.pers, k, m.pers[k]);
      if n.pers[k].fxp.Some? { RemovedMembers(lim, n.xfers, n.pers[k].fxp.value); }
      forall p | p in n.pers && p != n.pers[k] ensures p.fxp.Some? ==> p.fxp != n.pers[k].fxp {
        ApartMembers(n.pers, k, p);
      }
    }
    hide InLimits, FilesLinked, Projects, XfersApart, Owned, PersApart, PersLinked, Removed;
    forall p | p in m.pers && p.fxp.Some? ensures CarriedFrom(n, e, m, p) {
      assert p in n.pers;
      assert Listed(m, p) <==> Listed(n, p);
    }
  }

  lemma ApartMembers(ps: seq<Pers>, k: nat, p: Pers)
    requires PersApart(ps) && k < |ps| && p in ps && p != ps[k]
    ensures p.fxp.Some? ==> p.fxp != ps[k].fxp
  {
  }

  lemma RestartCarries(lim: Limits, n: Net, i: nat, inserted: bool)
    requires Valid(lim, n)
    ensures Carries(n, DoRestart(i, inserted), Restart(n, i, inserted))
  {
    var e, m := DoRestart(i, inserted), Restart(n, i, inserted);
    if i < |n.xfers| {
      ErasedXfers(n.xfers, i);
      assert n.xfers[i] in n.xfers;
      assert n.xfers[i].addr < n.next;
      var ys := n.xfers[..i] + n.xfers[i + 1..];
      assert m.xfers == if inserted then ys + [n.xfers[i]] else ys;
      RestartMembers(n.xfers, i, ys, m.xfers, inserted);
    }
    hide InLimits, FilesLinked, Projects, XfersApart, Owned, PersApart, PersLinked, Restart;
    assert m.pers == n.pers && m.next == n.next && (i >= |n.xfers| ==> m.xfers == n.xfers);
    forall p | p in m.pers && p.fxp.Some? ensures CarriedFrom(n, e, m, p) {
      assert Listed(m, p) <==> Listed(n, p) && !LostBy(n, e, p.fxp.value);
    }
  }

  lemma RestartMembers(xs: seq<Xfer>, i: nat, ys: seq<Xfer>, zs: seq<Xfer>, inserted: bool)
    requires i < |xs| && XfersApart(xs) && (forall x :: x in ys <==> x in xs && x.addr != xs[i].addr)
    requires zs == if inserted then ys + [xs[i]] else ys
    ensures forall x :: x in zs <==> x in xs && (inserted || x.addr != xs[i].addr)
  {
  }

  /** After any run from a state in which every transfer that is run is in the set, such a transfer
      is in the set exactly if it has not been taken out for a restart whose insertion failed. */
  lemma {:induction false} RunListed(lim: Limits, n: Net, es: seq<Event>)
    requires Valid(lim, n) && forall p :: p in n.pers && p.fxp.Some? ==> Listed(n, p)
    ensures Standing(lim, n, es, RunAll(lim, n, es))
  {
    hide Valid, Carries, Standing;
    if es == [] {
      StandsAtFirst(lim, n);
    } else {
      var m := RunAll(lim, n, es[..|es| - 1]);
      RunListed(lim, n, es[..|es| - 1]);
      RunKeeps(lim, n, es[..|es| - 1]);
      match es[|es| - 1] {
        case DoMake(f, upload) => MakeCarries(m, f, upload);
        case DoErase(k) => EraseCarries(m, k);
        case DoCreate(suspended, k, s) => CreateCarries(lim, suspended, m, k, s);
        case DoRelease(k, done) => ReleaseCarries(lim, m, k, done);
        case DoRestart(i, inserted) => RestartCarries(lim, m, i, inserted);
      }
      StandingNext(lim, n, es, m, RunAll(lim, n, es));
    }
  }

  lemma StandsAtFirst(lim: Limits, n: Net)
    requires forall p :: p in n.pers && p.fxp.Some? ==> Listed(n, p)
    ensures Standing(lim, n, [], n)
  {
  }

  lemma {:induction false} FindFirst(xs: seq<Xfer>, i: nat, addr: nat)
    requires i < |xs| && xs[i].addr == addr && forall j :: 0 <= j < i ==> xs[j].addr != addr
    ensures Find(xs, addr) == i
  {
    if i < |xs| - 1 { FindFirst(xs[..|xs| - 1], i, addr); }
  }

  // ---- The code ---------------------------------------------------------------------------------------------

  /** What a finished transfer reports: file_xfer_retval. */
  datatype Result = Succeeded | Permanent | Transient

  class Client {
    const lim: Limits
    var n: Net

    /** start_new_file_xfer; `suspended` is network_suspended. */
    method StartNewFileXfer(suspended: bool, k: nat) returns (start: bool)
      requires k < |n.pers| && n.pers[k].file < |n.files|
      ensures start == (!suspended && MayStart(lim, n.xfers, n.pers[k].upload, n.files[n.pers[k].file].project))
      ensures suspended ==> !start
      ensures !suspended ==> (start <==>
                && Busy(n.xfers, n.pers[k].upload) < lim.total
                && BusyFor(n.xfers, n.pers[k].upload, n.files[n.pers[k].file].project) < lim.perProject)
    {
      if suspended { return false; }
      var total, forProject := 0, 0;
      var upload, project := n.pers[k].upload, n.files[n.pers[k].file].project;
      for i := 0 to |n.xfers|
        invariant total == Busy(n.xfers[..i], upload) && forProject == BusyFor(n.xfers[..i], upload, project)
      {
        assert n.xfers[..i + 1] == n.xfers[..i] + [n.xfers[i]];
        BusyPush(n.xfers[..i], n.xfers[i], upload, project);
        if n.xfers[i].upload == upload {
          total := total + 1;
          if n.xfers[i].project == project { forProject := forProject + 1; }
        }
      }
      assert n.xfers[..|n.xfers|] == n.xfers;
      start := forProject < lim.perProject && total < lim.total;
    }

    /** FILE_XFER_SET::remove. */
    method Remove(addr: nat) returns (found: bool)
      modifies this
      ensures n == old(n).(xfers := Removed(old(n).xfers, addr))
              && (found <==> exists x :: x in old(n).xfers && x.addr == addr)
    {
      var i := 0;
      while i < |n.xfers|
        invariant i <= |n.xfers| && forall j :: 0 <= j < i ==> n.xfers[j].addr != addr
      {
        if n.xfers[i].addr == addr {
          FindFirst(n.xfers, i, addr);
          assert n.xfers[i] in n.xfers;
          n := n.(xfers := n.xfers[..i] + n.xfers[i + 1..]);
          return true;
        }
        i := i + 1;
      }
      found := false;
    }

    /** PERS_FILE_XFER::poll; `s` says how create_xfer fares, `finished` how the transfer ended. */
    method Poll(k: nat, due: bool, suspended: bool, s: Start, finished: Option<Result>)
      requires Valid(lim, n) && k < |n.pers|
      modifies this
      ensures Valid(lim, n)
      ensures old(n).pers[k].done ==> n == old(n)
      ensures !old(n).pers[k].done && old(n).pers[k].fxp.None? ==>
              n == if due then Create(lim, suspended, old(n), k, s) else old(n)
      ensures !old(n).pers[k].done && old(n).pers[k].fxp.Some? ==>
                n == if finished.Some? then Release(old(n), k, !finished.value.Transient?) else old(n)
    {
      var p := n.pers[k];
      assert p in n.pers;
      if p.done { return; }
      if p.fxp.None? {
        if !due { return; }
        var start := StartNewFileXfer(suspended, k);
        CreateKeeps(lim, suspended, n, k, s);
        if !start { return; }
        n := Create(lim, suspended, n, k, s);
      } else if finished.Some? {
        ReleaseKeeps(lim, n, k, !finished.value.Transient?);
        n := Release(n, k, !finished.value.Transient?);
      }
    }

    /** Suspend and abort of a persistent transfer. */
    method Suspend(k: nat)
      requires Valid(lim, n) && k < |n.pers|
      modifies this
      ensures Valid(lim, n) && n == Release(old(n), k, false)
    {
      ReleaseKeeps(lim, n, k, false);
      n := Release(n, k, false);
    }

    method Abort(k: nat)
      requires Valid(lim, n) && k < |n.pers|
      modifies this
      ensures Valid(lim, n) && n == Release(old(n), k, true)
    {
      ReleaseKeeps(lim, n, k, true);
      n := Release(n, k, true);
    }

    /** The first loop of handle_pers_file_xfers: every file that needs one gets a persistent
        transfer. */
    method MakeTransfers(download: seq<bool>, upload: seq<bool>)
      requires Valid(lim, n) && |download| == |upload| == |n.files|
      modifies this
      ensures Valid(lim, n) && |n.files| == |old(n).files| && n.xfers == old(n).xfers
      ensures forall f :: 0 <= f < |n.files| ==>
                if old(n).files[f].transfer.None? && !download[f]
                    && !upload[f] then n.files[f] == old(n).files[f] else n.files[f].transfer.Some?
      ensures forall f :: 0 <= f < |n.files| && old(n).files[f].transfer.Some? ==> n.files[f] == old(n).files[f]
    {
      hide Valid, Make;
      for f := 0 to |n.files|
        invariant Valid(lim, n) && |n.files| == |old(n).files| && n.xfers == old(n).xfers
        invariant forall g :: f <= g < |n.files| ==> n.files[g] == old(n).files[g]
        invariant forall g :: 0 <= g < f ==>
                    if old(n).files[g].transfer.None? && !download[g]
                        && !upload[g] then n.files[g] == old(n).files[g] else n.files[g].transfer.Some?
        invariant forall g :: 0 <= g < |n.files| && old(n).files[g].transfer.Some? ==> n.files[g] == old(n).files[g]
      {
        if n.files[f].transfer.Some? { continue; }
        MakeFiles(n, f, false);
        MakeFiles(n, f, true);
        if download[f] {
          MakeKeeps(lim, n, f, false);
          n := Make(n, f, false);
        } else if upload[f] {
          MakeKeeps(lim, n, f, true);
          n := Make(n, f, true);
        }
      }
    }

    /** The second loop: the finished ones are erased and deleted. */
    method EraseDone()
      requires Valid(lim, n)
      modifies this
      ensures Valid(lim, n) && n.xfers == old(n).xfers && |n.files| == |old(n).files|
      ensures forall p :: p in n.pers <==> p in old(n).pers && !p.done
    {
      hide Valid, Erase;
      var k := 0;
      while k < |n.pers|
        invariant k <= |n.pers| && Valid(lim, n) && n.xfers == old(n).xfers && |n.files| == |old(n).files|
        invariant forall p :: p in old(n).pers && !p.done ==> p in n.pers
        invariant forall p :: p in n.pers ==> p in old(n).pers
        invariant forall j :: 0 <= j < k ==> !n.pers[j].done
        decreases |n.pers| - k
      {
        if n.pers[k].done {
          EraseFacts(lim, n, k);
          n := Erase(n, k);
        } else {
          k := k + 1;
        }
      }
    }
  }
}
