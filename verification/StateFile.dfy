/** The state file and its two companions: write_state_file and the choice that
    parse_state_file makes (client/cs_statefile.C), with failures and crashes at every step. */
module StateFile {
  import opened Options

  /** A file as recovery sees it: only complete files pass validation. The version of a state is
      the number of the call that wrote it. */
  datatype File = Absent | Partial | Complete(version: nat)

  /** STATE_FILE_NEXT, STATE_FILE_NAME and STATE_FILE_PREV. */
  datatype Disk = Disk(next: File, name: File, prev: File)

  const MAX_ATTEMPTS: nat := 2

  /** The file operation that comes next; Idle between calls. */
  datatype Pc = Idle | Open | Write | Delete | RenameOld | RenameNew

  datatype Outcome = Pending | Stored | ErrOpen | ErrWrite | ErrRename

  /** Does a file operation work? A write may also report an error after everything has been
      written. */
  datatype Fate = Works | Fails | FailsLate

  datatype State = State(disk: Disk, pc: Pc, attempt: nat, version: nat, outcome: Outcome, durable: Option<nat>)

  // ---- The machine --------------------------------------------------------------------

  /** A call begins; it stores a state newer than all before. */
  function Begin(s: State): State {
    s.(pc := Open, attempt := 1, version := s.version + 1, outcome := Pending)
  }

  /** Start over if an attempt is left, and return an error if not. */
  function RetryOr(s: State, error: Outcome): State {
    if s.attempt < MAX_ATTEMPTS then s.(pc := Open, attempt := s.attempt + 1)
    else s.(pc := Idle, outcome := error)
  }

  /** Start over if an attempt is left, and go on regardless if not. */
  function RetryOrGo(s: State, pc: Pc): State {
    if s.attempt < MAX_ATTEMPTS then s.(pc := Open, attempt := s.attempt + 1) else s.(pc := pc)
  }

  /** Lines 491-492: what to do once the new file has been written. */
  function AfterWrite(s: State): State {
    s.(pc := if s.disk.name == Absent then RenameNew else if s.disk.prev == Absent then RenameOld else Delete)
  }

  function Step(s: State, fate: Fate): State {
    match s.pc
    case Idle => s
    case Open =>
      if fate.Works? then s.(disk := s.disk.(next := Partial), pc := Write) else RetryOr(s, ErrOpen)
    case Write =>
      if fate.Works? then AfterWrite(s.(disk := s.disk.(next := Complete(s.version))))
      else RetryOr(if fate.FailsLate? then s.(disk := s.disk.(next := Complete(s.version))) else s, ErrWrite)
    case Delete =>
      if fate.Works? then s.(disk := s.disk.(prev := Absent), pc := RenameOld) else RetryOrGo(s, RenameOld)
    case RenameOld =>
      if fate.Works? then s.(disk := s.disk.(prev := s.disk.name, name := Absent), pc := RenameNew)
      else RetryOrGo(s, RenameNew)
    case RenameNew =>
      if fate.Works? then
        s.(disk := s.disk.(name := s.disk.next, next := Absent), pc := Idle, outcome := Stored,
            durable := Some(s.version))
      else RetryOr(s, ErrRename)
  }

  /** The call until it returns, or until the machine is switched off: then `fates` has run out. */
  function Call(s: State, fates: seq<Fate>): State
    decreases |fates|
  {
    if s.pc.Idle? || fates == [] then s else Call(Step(s, fates[0]), fates[1..])
  }

  // ---- Recovery --------------------------------------------------------------------------

  function FilesOf(d: Disk): set<File> { {d.next, d.name, d.prev} }

  /** The head of parse_state_file. */
  function Recover(d: Disk): Option<nat> {
    if d.next.Complete? then Some(d.next.version)
    else if d.name.Complete? then Some(d.name.version)
    else if d.prev.Complete? then Some(d.prev.version)
    else None
  }

  // ---- The code ----------------------------------------------------------------------------

  lemma Unroll(g: State, fates: seq<Fate>, k: nat)
    requires k < |fates| && !g.pc.Idle?
    ensures Call(g, fates[k..]) == Call(Step(g, fates[k]), fates[k + 1..])
  {
    assert fates[k..][1..] == fates[k + 1..];
  }

  /** The state of the machine when the code is at `pc`. */
  ghost function At(b: State, disk: Disk, pc: Pc, attempt: nat): State {
    b.(disk := disk, pc := pc, attempt := attempt)
  }

  /** How a part of an attempt ends: the next part follows, another attempt does, the call
      returns, or power is lost. */
  datatype Verdict = GoOn | Retry | Return(outcome: Outcome) | Off

  class Files {
    var disk: Disk

    /** The parts of an attempt: `k` operations have been done when it starts, `n` when it ends. */
    ghost predicate Reached(c: State, fates: seq<Fate>, end: State, attempt: nat, pc: Pc, n: nat)
      reads this
    {
      n <= |fates| && Call(At(c, disk, pc, attempt), fates[n..]) == end
    }

    /** Lines 462-488: write the new file. */
    method WriteNew(ghost c: State, version: nat, fates: seq<Fate>, k: nat, attempt: nat, ghost end: State)
        returns (v: Verdict, n: nat)
      requires c.version == version && Reached(c, fates, end, attempt, Open, k)
      modifies this
      ensures n <= |fates|
      ensures v.Off? ==> disk == end.disk && !end.pc.Idle? && end.outcome == c.outcome
      ensures v.Return? ==> disk == end.disk && end.pc.Idle? && end.outcome == v.outcome && v.outcome != Pending
      ensures v.Retry? ==> attempt < MAX_ATTEMPTS && Reached(c, fates, end, attempt + 1, Open, n)
      ensures v.GoOn? ==> Reached(c, fates, end, attempt, AfterWrite(At(c, disk, Write, attempt)).pc, n)
    {
      n := k;
      if n == |fates| { return Off, n; }
      Unroll(At(c, disk, Open, attempt), fates, n);
      n := n + 1;
      if !fates[n - 1].Works? { return if attempt < MAX_ATTEMPTS then Retry else Return(ErrOpen), n; }
      disk := disk.(next := Partial);

      if n == |fates| { return Off, n; }
      Unroll(At(c, disk, Write, attempt), fates, n);
      n := n + 1;
      if !fates[n - 1].Fails? { disk := disk.(next := Complete(version)); }
      if !fates[n - 1].Works? { return if attempt < MAX_ATTEMPTS then Retry else Return(ErrWrite), n; }
      v := GoOn;
    }

    /** Lines 491-530: make room under the name of the state file. */
    method MoveOld(ghost c: State, fates: seq<Fate>, k: nat, attempt: nat, ghost end: State)
        returns (v: Verdict, n: nat)
      requires Reached(c, fates, end, attempt, AfterWrite(At(c, disk, Write, attempt)).pc, k)
      modifies this
      ensures n <= |fates| && !v.Return?
      ensures v.Off? ==> disk == end.disk && !end.pc.Idle? && end.outcome == c.outcome
      ensures v.Retry? ==> attempt < MAX_ATTEMPTS && Reached(c, fates, end, attempt + 1, Open, n)
      ensures v.GoOn? ==> Reached(c, fates, end, attempt, RenameNew, n)
    {
      n := k;
      if disk.name != Absent {
        if disk.prev != Absent {
          if n == |fates| { return Off, n; }
          Unroll(At(c, disk, Delete, attempt), fates, n);
          n := n + 1;
          if fates[n - 1].Works? {
            disk := disk.(prev := Absent);
          } else if attempt < MAX_ATTEMPTS { return Retry, n; }
        }
        if n == |fates| { return Off, n; }
        Unroll(At(c, disk, RenameOld, attempt), fates, n);
        n := n + 1;
        if fates[n - 1].Works? {
          disk := disk.(prev := disk.name, name := Absent);
        } else if attempt < MAX_ATTEMPTS { return Retry, n; }
      }
      v := GoOn;
    }

    /** Lines 490-566: put the files in their places. */
    method Rotate(ghost c: State, fates: seq<Fate>, k: nat, attempt: nat, ghost end: State) returns (v: Verdict, n: nat)
      requires Reached(c, fates, end, attempt, AfterWrite(At(c, disk, Write, attempt)).pc, k)
      modifies this
      ensures n <= |fates|
      ensures v.Off? ==> disk == end.disk && !end.pc.Idle? && end.outcome == c.outcome
      ensures v.Return? ==> disk == end.disk && end.pc.Idle? && end.outcome == v.outcome && v.outcome != Pending
      ensures !v.GoOn?
      ensures v.Retry? ==> attempt < MAX_ATTEMPTS && Reached(c, fates, end, attempt + 1, Open, n)
    {
      v, n := MoveOld(c, fates, k, attempt, end);
      if !v.GoOn? { return; }
      if n == |fates| { return Off, n; }
      Unroll(At(c, disk, RenameNew, attempt), fates, n);
      n := n + 1;
      if fates[n - 1].Works? {
        disk := disk.(name := disk.next, next := Absent);
        return Return(Stored), n;
      }
      v := if attempt < MAX_ATTEMPTS then Retry else Return(ErrRename);
    }

    /** write_state_file, storing version `version`; `fates` says how the file operations fare,
        and ends where power is lost (result Pending). */
    method WriteStateFile(ghost b: State, version: nat, fates: seq<Fate>) returns (r: Outcome)
      requires b.disk == disk && version == b.version + 1
      modifies this
      ensures disk == Call(Begin(b), fates).disk && r == Call(Begin(b), fates).outcome
      ensures r == Pending <==> !Call(Begin(b), fates).pc.Idle?
    {
      ghost var c := Begin(b);
      ghost var end := Call(c, fates);
      var attempt, k := 1, 0;
      assert fates[0..] == fates && At(c, disk, Open, 1) == c;
      hide Call;
      while attempt <= MAX_ATTEMPTS
        invariant 1 <= attempt <= MAX_ATTEMPTS && Reached(c, fates, end, attempt, Open, k)
      {
        var v;
        v, k := WriteNew(c, version, fates, k, attempt, end);
        if v.GoOn? { v, k := Rotate(c, fates, k, attempt, end); }
        match v
        case Off => return Pending;
        case Return(outcome) => return outcome;
        case Retry => attempt := attempt + 1;
      }
      assert false;
    }

    /** The choice of parse_state_file: none exactly if no file is complete, and the newest state if
        the files are in the order that every run keeps. */
    method ChooseStateFile() returns (v: Option<nat>)
      ensures v.None? <==> forall f <- FilesOf(disk) :: !f.Complete?
      ensures v.Some? ==> Complete(v.value) in FilesOf(disk)
      ensures v.Some? && Ordered(disk) ==> forall f <- FilesOf(disk) :: f.Complete? ==> f.version <= v.value
      ensures v == Recover(disk)
    {
      if disk.next.Complete? { return Some(disk.next.version); }
      if disk.name.Complete? { return Some(disk.name.version); }
      if disk.prev.Complete? { return Some(disk.prev.version); }
      v := None;
    }
  }

  // ---- What every reachable state keeps -----------------------------------------------------

  predicate Below(f: File, v: nat) { f.Complete? ==> f.version < v }

  /** Complete files are newer in the order of recovery. */
  predicate Ordered(d: Disk) {
    && (d.next.Complete? && d.name.Complete? ==> d.next.version > d.name.version)
    && (d.name.Complete? && d.prev.Complete? ==> d.name.version > d.prev.version)
    && (d.next.Complete? && d.prev.Complete? ==> d.next.version > d.prev.version)
  }

  /** The last state stored is on the disk, or a later one, in a file that recovery can reach:
      under the name of the state file or, without such a file, under that of the previous one. */
  predicate Kept(s: State) {
    s.durable.Some? ==>
      var f := if s.disk.name.Complete? then s.disk.name else s.disk.prev;
      f.Complete? && f.version >= s.durable.value
  }

  predicate Inv(s: State) {
    && !s.disk.name.Partial? && !s.disk.prev.Partial?
    && Ordered(s.disk) && Kept(s) && (s.durable.Some? ==> s.durable.value <= s.version)
    // Files under the two old names are older than the state being written.
    && Below(s.disk.next, s.version + 1) && Below(s.disk.name, s.version + 1) && Below(s.disk.prev, s.version + 1)
    && (!s.pc.Idle? ==> Below(s.disk.name, s.version) && Below(s.disk.prev, s.version))
    && (s.pc in {Delete, RenameOld} ==> s.disk.name.Complete?)
    && (s.pc in {Delete, RenameOld, RenameNew} ==> s.disk.next == Complete(s.version))
  }

  lemma StepKeeps(s: State, fate: Fate)
    requires Inv(s)
    ensures Inv(Step(s, fate)) && Step(s, fate).version == s.version
    ensures s.durable.Some? ==> Step(s, fate).durable.Some? && Step(s, fate).durable.value >= s.durable.value
  {
  }

  /** In every state that keeps the invariant, recovery finds the newest complete file, and that
      is the last state stored or a later one. */
  lemma RecoverFinds(s: State)
    requires Inv(s)
    ensures s.durable.Some? ==> Recover(s.disk).Some? && s.durable.value <= Recover(s.disk).value <= s.version
    ensures forall f <- FilesOf(s.disk) :: f.Complete? ==>
              Recover(s.disk).Some? && f.version <= Recover(s.disk).value
  {
  }

  // ---- Over whole runs ------------------------------------------------------------------------

  /** A call begins; a file operation; the machine is switched off and on again. */
  datatype Event = Start | Op(fate: Fate) | Crash

  function Apply(s: State, e: Event): State {
    match e
    case Start => if s.pc.Idle? then Begin(s) else s
    case Op(fate) => Step(s, fate)
    case Crash => s.(pc := Idle)
  }

  function Run(s: State, es: seq<Event>): State
    decreases |es|
  {
    if es == [] then s else Apply(Run(s, es[..|es| - 1]), es[|es| - 1])
  }

  lemma {:induction false} RunKeeps(s: State, es: seq<Event>)
    requires Inv(s)
    ensures Inv(Run(s, es)) && Run(s, es).version >= s.version
    ensures s.durable.Some? ==> Run(s, es).durable.Some? && Run(s, es).durable.value >= s.durable.value
  {
    if es != [] {
      var t := Run(s, es[..|es| - 1]);
      RunKeeps(s, es[..|es| - 1]);
      match es[|es| - 1]
      case Op(fate) => StepKeeps(t, fate);
      case _ =>
    }
  }

  lemma {:induction false} RunConcat(s: State, es: seq<Event>, fs: seq<Event>)
    ensures Run(s, es + fs) == Run(Run(s, es), fs)
  {
    if fs == [] {
      assert es + fs == es;
    } else {
      RunConcat(s, es, fs[..|fs| - 1]);
      assert (es + fs)[..|es + fs| - 1] == es + fs[..|fs| - 1];
    }
  }

  /** A fresh installation. */
  const FRESH: State := State(Disk(Absent, Absent, Absent), Idle, 0, 0, Pending, None)

  lemma StepStores(s: State, fate: Fate)
    requires !s.pc.Idle? && Step(s, fate).pc.Idle? && Step(s, fate).outcome == Stored
    ensures Step(s, fate).durable == Some(Step(s, fate).version)
  {
  }

  /** Once a call that stores version `v` has returned 0, recovery finds that version or a later
      one, whatever happens afterwards. */
  lemma StoredIsDurable(s: State, es: seq<Event>, fs: seq<Event>)
    requires Inv(s) && es != [] && es[|es| - 1].Op? && Run(s, es).pc.Idle? && !Run(s, es[..|es| - 1]).pc.Idle?
    requires Run(s, es).outcome == Stored
    ensures Recover(Run(s, es + fs).disk).Some?
    ensures Recover(Run(s, es + fs).disk).value >= Run(s, es).version
  {
    var t := Run(s, es[..|es| - 1]);
    assert Run(s, es) == Step(t, es[|es| - 1].fate);
    StepStores(t, es[|es| - 1].fate);
    hide *;
    RunKeeps(s, es);
    RunKeeps(Run(s, es), fs);
    RunConcat(s, es, fs);
    RecoverFinds(Run(s, es + fs));
  }

  // ---- What a call leaves behind -----------------------------------------------------------

  /** Where the two old files are during a call that began with `name` and `prev`: untouched, the
      previous file deleted, or the state file moved to it. */
  predicate Moved(d: Disk, name: File, prev: File) { name != Absent && d.name == Absent && d.prev == name }

  predicate Unmoved(d: Disk, name: File, prev: File) {
    d.name == name && (d.prev == prev || (name != Absent && d.prev == Absent))
  }

  predicate During(s: State, name: File, prev: File) {
    && (Moved(s.disk, name, prev) || Unmoved(s.disk, name, prev))
    && (s.pc in {Delete, RenameOld} ==> Unmoved(s.disk, name, prev) && name != Absent)
    // Only the last attempt goes on without having moved the old state file.
    && (s.pc.RenameNew? && s.attempt < 2 ==> name == Absent || Moved(s.disk, name, prev))
    && (name == Absent ==> s.disk.prev == prev)
  }

  /** After a call that has stored its state: what is under the name of the previous file. */
  predicate LeftBehind(s: State, name: File, prev: File) {
    if name == Absent then s.disk.prev == prev
    else s.disk.prev == name || (s.attempt == 2 && (s.disk.prev == prev || s.disk.prev == Absent))
  }

  lemma {:induction false} CallLeaves(s: State, fates: seq<Fate>, name: File, prev: File)
    requires 1 <= s.attempt <= 2
    requires if s.pc.Idle? then s.outcome == Stored ==> LeftBehind(s, name, prev) else During(s, name, prev)
    ensures var t := Call(s, fates); t.pc.Idle? && t.outcome == Stored ==> LeftBehind(t, name, prev)
    decreases |fates|
  {
    if !s.pc.Idle? && fates != [] {
      CallLeaves(Step(s, fates[0]), fates[1..], name, prev);
    }
  }

  /** A call that stores its state on its first attempt has moved the old state file to the previous
      one. On the second attempt that can have failed: then the previous file is the old one or gone. */
  lemma StoredLeavesPrevious(s: State, fates: seq<Fate>)
    ensures var t := Call(Begin(s), fates);
            t.pc.Idle? && t.outcome == Stored ==>
              if s.disk.name == Absent then t.disk.prev == s.disk.prev
              else || t.disk.prev == s.disk.name
                   || (t.attempt == 2 && (t.disk.prev == s.disk.prev || t.disk.prev == Absent))
  {
    CallLeaves(Begin(s), fates, s.disk.name, s.disk.prev);
  }

  function Failures(fates: seq<Fate>): nat
    decreases |fates|
  {
    if fates == [] then 0 else (if fates[0].Works? then 0 else 1) + Failures(fates[1..])
  }

  /** How many operations an attempt still takes at most. */
  function Ahead(pc: Pc): nat {
    match pc
    case Idle => 0
    case Open => 5
    case Write => 4
    case Delete => 3
    case RenameOld => 2
    case RenameNew => 1
  }

  lemma {:induction false} CallSucceeds(s: State, fates: seq<Fate>, name: File, prev: File)
    requires !s.pc.Idle? && 1 <= s.attempt <= 2 && During(s, name, prev)
    requires s.attempt - 1 + Failures(fates) <= 1 && |fates| >= Ahead(s.pc) + (2 - s.attempt) * 5
    requires s.pc in {Delete, RenameOld, RenameNew} ==> s.disk.next == Complete(s.version)
    requires s.pc.RenameNew? ==> name == Absent || Moved(s.disk, name, prev)
    ensures var t := Call(s, fates);
            && t.pc.Idle? && t.outcome == Stored
            && t.disk == Disk(Absent, Complete(s.version), if name == Absent then prev else name)
    decreases |fates|
  {
    var t := Step(s, fates[0]);
    if t.pc.Idle? {
      assert Call(t, fates[1..]) == t;
    } else {
      CallSucceeds(t, fates[1..], name, prev);
    }
  }

  /** A call of whose operations at most one fails stores its state: it is under the name of the state
      file, the old one under that of the previous file, and nothing is left of the new file. */
  lemma OneFailureIsMended(s: State, fates: seq<Fate>)
    requires Failures(fates) <= 1 && |fates| >= 10
    ensures var t := Call(Begin(s), fates);
            && t.pc.Idle? && t.outcome == Stored
            && t.disk == Disk(Absent, Complete(s.version + 1),
                if s.disk.name == Absent then s.disk.prev else s.disk.name)
  {
    CallSucceeds(Begin(s), fates, s.disk.name, s.disk.prev);
  }

  /** Two failures can be enough for an error: when the new file cannot be opened twice. */
  lemma TwoFailuresAreNot(s: State, fates: seq<Fate>)
    requires |fates| >= 2 && !fates[0].Works? && !fates[1].Works?
    ensures var t := Call(Begin(s), fates); t.pc.Idle? && t.outcome == ErrOpen && t.disk == s.disk
  {
    var t := Step(Begin(s), fates[0]);
    var u := Step(t, fates[1]);
    assert fates[1..][0] == fates[1] && Call(u, fates[1..][1..]) == u;
    assert Call(t, fates[1..]) == u;
  }

  // ---- When a recovered state is safe ---------------------------------------------------------

  /** What recovery finds in `s`, or something newer, is found again after every continuation. */
  ghost predicate Safe(s: State) {
    Recover(s.disk).Some? && forall fs: seq<Event> :: FoundAfter(s, fs, Recover(s.disk).value)
  }

  ghost predicate FoundAfter(s: State, fs: seq<Event>, v: nat) {
    Recover(Run(s, fs).disk).Some? && Recover(Run(s, fs).disk).value >= v
  }

  /** Nothing that happens depends on what has been stored before. */
  lemma {:induction false} RunForgets(s: State, d: Option<nat>, fs: seq<Event>)
    ensures Run(s.(durable := d), fs).disk == Run(s, fs).disk
    ensures Run(s.(durable := d), fs) == Run(s, fs).(durable := Run(s.(durable := d), fs).durable)
  {
    if fs != [] { RunForgets(s, d, fs[..|fs| - 1]); }
  }

  lemma OldNameIsSafe(s: State, fs: seq<Event>)
    requires Inv(s) && Recover(s.disk).Some? && !s.disk.next.Complete?
    ensures FoundAfter(s, fs, Recover(s.disk).value)
  {
    var t := s.(durable := Recover(s.disk));
    assert Inv(t);
    hide Inv, Run, Recover;
    RunForgets(s, Recover(s.disk), fs);
    RunKeeps(t, fs);
    RecoverFinds(Run(t, fs));
  }

  /** A call that begins by opening the new file, and a crash after that. */
  lemma NextIsLost(s: State) returns (fs: seq<Event>)
    requires Inv(s) && s.disk.next.Complete?
    ensures !FoundAfter(s, fs, Recover(s.disk).value)
    ensures Run(s, fs) == s.(disk := s.disk.(next := Partial), pc := Idle, attempt := 1, version := s.version + 1,
            outcome := Pending)
  {
    fs := [Crash] + [Start] + [Op(Works)] + [Crash];
    assert Run(s, []) == s;
    RunPush(s, [], Crash);
    assert [] + [Crash] == [Crash];
    RunPush(s, [Crash], Start);
    RunPush(s, [Crash] + [Start], Op(Works));
    RunPush(s, [Crash] + [Start] + [Op(Works)], Crash);
    hide Run;
  }

  /** A recovered state is safe, exactly if recovery did not find it in the new file. */
  lemma RecoveredIsSafe(s: State)
    requires Inv(s) && Recover(s.disk).Some?
    ensures Safe(s) <==> !s.disk.next.Complete?
  {
    if s.disk.next.Complete? {
      var fs := NextIsLost(s);
    } else {
      forall fs: seq<Event> ensures FoundAfter(s, fs, Recover(s.disk).value) { OldNameIsSafe(s, fs); }
    }
  }

  /** It can be lost altogether: the first call on a fresh installation is cut short after it has
      written everything, and so is the next one, after it has opened the new file. */
  lemma RecoveredCanBeLost() returns (es: seq<Event>, fs: seq<Event>)
    ensures Recover(Run(FRESH, es).disk) == Some(1) && Run(FRESH, es).pc.Idle?
    ensures Recover(Run(FRESH, es + fs).disk) == None
  {
    es := [Start] + [Op(Works)] + [Op(Works)] + [Crash];
    assert Run(FRESH, []) == FRESH;
    RunPush(FRESH, [], Start);
    assert [] + [Start] == [Start];
    RunPush(FRESH, [Start], Op(Works));
    RunPush(FRESH, [Start] + [Op(Works)], Op(Works));
    RunPush(FRESH, [Start] + [Op(Works)] + [Op(Works)], Crash);
    var t := Run(FRESH, es);
    assert t.disk == Disk(Complete(1), Absent, Absent) && t.pc.Idle?;
    hide Run;
    RunKeeps(FRESH, es);
    fs := NextIsLost(t);
    RunConcat(FRESH, es, fs);
  }

  lemma RunPush(s: State, es: seq<Event>, e: Event)
    ensures Run(s, es + [e]) == Apply(Run(s, es), e)
  {
    assert (es + [e])[..|es|] == es;
  }

  // ---- Single calls -------------------------------------------------------------------------

  /** However a call ends, it keeps the invariant; if it returns 0, the new state is in the state
      file, and if not, recovery still finds something at least as new as what was stored before. */
  lemma {:induction false} CallKeeps(s: State, fates: seq<Fate>)
    requires Inv(s) && (s.pc.Idle? && s.outcome == Stored ==>
            s.disk.name == Complete(s.version) && s.durable == Some(s.version))
    ensures Inv(Call(s, fates)) && Call(s, fates).version == s.version
    ensures Call(s, fates).pc.Idle? && Call(s, fates).outcome == Stored ==>
              Call(s, fates).disk.name == Complete(s.version) && Call(s, fates).durable == Some(s.version)
    decreases |fates|
  {
    if !s.pc.Idle? && fates != [] {
      StepKeeps(s, fates[0]);
      CallKeeps(Step(s, fates[0]), fates[1..]);
    }
  }
}
