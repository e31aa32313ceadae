/** Process control messages: MSG_QUEUE (client/app.C), the one-message channel
    (lib/app_ipc.C), and the suspend/resume protocol (client/app_control.C, client/cpu_sched.C). */
module Messages {
  import opened Options

  /** <suspend/>, <resume/>, and everything else that is sent to an application. */
  datatype Msg = Suspend | Resume | Other(text: string)

  const QUIT: Msg := Other("<quit/>")

  /** The task states that matter here. */
  datatype TaskState = Executing | Suspended | Quitting

  // ---- The queue and the channel --------------------------------------------------------

  /** A channel holds one message; the queue holds what did not fit. */
  datatype Line = Line(slot: Option<Msg>, msgs: seq<Msg>)

  /** What has been sent and not been taken by the application, oldest first. */
  function InFlight(l: Line): seq<Msg> { (if l.slot.Some? then [l.slot.value] else []) + l.msgs }

  /** msg_queue_send. */
  function Sent(l: Line, m: Msg): Line {
    if l.msgs == [] && l.slot.None? then l.(slot := Some(m)) else l.(msgs := l.msgs + [m])
  }

  /** msg_queue_poll. */
  function Polled(l: Line): Line {
    if l.msgs != [] && l.slot.None? then Line(Some(l.msgs[0]), l.msgs[1..]) else l
  }

  /** msg_queue_purge: is `m` the last message of the queue? */
  predicate CanPurge(l: Line, m: Msg) { l.msgs != [] && l.msgs[|l.msgs| - 1] == m }

  function Purged(l: Line, m: Msg): Line {
    if CanPurge(l, m) then l.(msgs := l.msgs[..|l.msgs| - 1]) else l
  }

  /** The application takes the message in the channel. */
  function Taken(l: Line): Line { l.(slot := None) }

  class Queue {
    var slot: Option<Msg>         // the buffer of the channel
    var msgs: seq<Msg>

    ghost function Get(): Line
      reads this
    {
      Line(slot, msgs)
    }

    /** MSG_CHANNEL::send_msg. */
    method SendMsg(m: Msg) returns (sent: bool)
      modifies this`slot
      ensures sent == old(slot).None? && slot == if sent then Some(m) else old(slot)
    {
      if slot.Some? { return false; }
      slot := Some(m);
      sent := true;
    }

    method Send(m: Msg)
      modifies this
      ensures Get() == Sent(old(Get()), m)
      ensures InFlight(Get()) == InFlight(old(Get())) + [m]
    {
      if msgs == [] {
        var sent := SendMsg(m);
        if sent { return; }
      }
      msgs := msgs + [m];
    }

    method Poll()
      modifies this
      ensures Get() == Polled(old(Get()))
      ensures InFlight(Get()) == InFlight(old(Get()))
    {
      if msgs != [] {
        var sent := SendMsg(msgs[0]);
        if sent { msgs := msgs[1..]; }
      }
    }

    method Purge(m: Msg) returns (n: nat)
      modifies this`msgs
      ensures Get() == Purged(old(Get()), m) && n == if CanPurge(old(Get()), m) then 1 else 0
    {
      var count := |msgs|;
      if count == 0 { return 0; }
      if msgs[count - 1] == m {
        msgs := msgs[..count - 1];
        return 1;
      }
      n := 0;
    }
  }

  // ---- A task and its application ----------------------------------------------------------

  /** The client's view of the task, the line, and the application: whether it is suspended, and
      what it has taken. `asked` are all messages that the client wanted to send. */
  datatype System = System(state: TaskState, line: Line, suspended: bool, taken: seq<Msg>, asked: seq<Msg>)

  datatype Event = DoSuspend | DoUnsuspend | DoSend(m: Msg) | DoPoll | DoTake | DoQuit(text: string)

  function Opposite(m: Msg): Msg {
    match m
    case Suspend => Resume
    case Resume => Suspend
    case Other(_) => m
  }

  /** Cancel the opposite message if it is the last one queued, and send this one if it is not. */
  function SendOrCancel(l: Line, m: Msg): Line {
    if CanPurge(l, Opposite(m)) then Purged(l, Opposite(m)) else Sent(l, m)
  }

  /** What an event does. Every caller of suspend and unsuspend looks at the state first. */
  function Apply(s: System, e: Event): System {
    match e
    case DoSuspend =>
      if s.state.Executing?
      then s.(state := Suspended, line := SendOrCancel(s.line, Suspend), asked := s.asked + [Suspend])
      else s
    case DoUnsuspend =>
      if s.state.Suspended?
      then s.(state := Executing, line := SendOrCancel(s.line, Resume), asked := s.asked + [Resume])
      else s
    case DoSend(m) =>
      if m.Other? then s.(line := Sent(s.line, m), asked := s.asked + [m]) else s
    case DoPoll => s.(line := Polled(s.line))
    case DoTake =>
      if s.line.slot.None? then s
      else s.(line := Taken(s.line), taken := s.taken + [s.line.slot.value],
          suspended := After(s.suspended, [s.line.slot.value]))
    case DoQuit(text) =>
      s.(state := Quitting, line := Sent(s.line, Other(text)), asked := s.asked + [Other(text)])
  }

  /** Is the application suspended after taking these messages? */
  function After(suspended: bool, ms: seq<Msg>): bool {
    if ms == [] then suspended
    else
      match ms[|ms| - 1]
      case Suspend => true
      case Resume => false
      case Other(_) => After(suspended, ms[..|ms| - 1])
  }

  /** The suspend and resume messages among `ms`. */
  function Control(ms: seq<Msg>): seq<Msg> {
    if ms == [] then []
    else Control(ms[..|ms| - 1]) + if ms[|ms| - 1].Other? then [] else [ms[|ms| - 1]]
  }

  predicate Alternates(ms: seq<Msg>) { forall i :: 0 <= i < |ms| - 1 ==> ms[i] != ms[i + 1] }

  class Task {
    const queue: Queue
    var state: TaskState
    const attached: bool          // app_client_shm.shm != NULL

    constructor (queue: Queue, attached: bool)
      ensures this.queue == queue && this.attached == attached && state == Executing
    {
      this.queue := queue;
      this.attached := attached;
      state := Executing;
    }

    /** ACTIVE_TASK::suspend. */
    method DoSuspend()
      modifies this, queue
      ensures if attached then state == Suspended && queue.Get() == SendOrCancel(old(queue.Get()), Suspend)
              else state == old(state) && queue.Get() == old(queue.Get())
    {
      if !attached { return; }
      var n := queue.Purge(Resume);
      if n == 0 { queue.Send(Suspend); }
      state := Suspended;
    }

    /** ACTIVE_TASK::preempt: quit if asked to and something has been saved, suspend if not. */
    method Preempt(quit: bool, checkpoint: real)
      modifies this, queue
      ensures quit && checkpoint > 0.0 ==> state == Quitting
      ensures quit && checkpoint > 0.0 ==>
              queue.Get() == if attached then Sent(old(queue.Get()), QUIT) else old(queue.Get())
      ensures !(quit && checkpoint > 0.0) && attached ==>
              state == Suspended && queue.Get() == SendOrCancel(old(queue.Get()), Suspend)
      ensures !(quit && checkpoint > 0.0) && !attached ==> state == old(state) && queue.Get() == old(queue.Get())
    {
      if quit && checkpoint > 0.0 {
        state := Quitting;
        if attached { queue.Send(QUIT); }
      } else {
        DoSuspend();
      }
    }

    /** ACTIVE_TASK::unsuspend. */
    method DoUnsuspend()
      modifies this, queue
      ensures if attached then state == Executing && queue.Get() == SendOrCancel(old(queue.Get()), Resume)
              else state == old(state) && queue.Get() == old(queue.Get())
    {
      if !attached { return; }
      var n := queue.Purge(Suspend);
      if n == 0 { queue.Send(Resume); }
      state := Executing;
    }
  }

  // ---- What every reachable state keeps ---------------------------------------------------------

  lemma {:induction false} ControlConcat(a: seq<Msg>, b: seq<Msg>)
    ensures Control(a + b) == Control(a) + Control(b)
  {
    if b == [] {
      assert a + b == a;
    } else {
      ControlConcat(a, b[..|b| - 1]);
      assert (a + b)[..|a + b| - 1] == a + b[..|b| - 1];
    }
  }

  lemma ControlPush(ms: seq<Msg>, m: Msg)
    ensures Control(ms + [m]) == Control(ms) + if m.Other? then [] else [m]
  {
    assert (ms + [m])[..|ms|] == ms;
  }

  lemma ControlOne(m: Msg, suspended: bool)
    ensures Control([m]) == if m.Other? then [] else [m]
    ensures After(suspended, [m]) == if m.Other? then suspended else m.Suspend?
  {
    assert [m][..0] == [];
  }

  lemma {:induction false} AfterControl(suspended: bool, ms: seq<Msg>)
    ensures After(suspended, ms) == if Control(ms) == [] then suspended else Control(ms)[|Control(ms)| - 1] == Suspend
    ensures forall m :: m in Control(ms) ==> !m.Other?
  {
    if ms != [] { AfterControl(suspended, ms[..|ms| - 1]); }
  }

  /** The undelivered suspend and resume messages `c` alternate, starting with the opposite of
      what the application is, and the last one says how the client has the task. */
  predicate Steps(state: TaskState, suspended: bool, c: seq<Msg>) {
    && Alternates(c)
    && (c != [] ==> c[0] == if suspended then Resume else Suspend)
    && (!state.Quitting? ==> (if c == [] then suspended else c[|c| - 1] == Suspend) == state.Suspended?)
  }

  predicate InStep(s: System) { Steps(s.state, s.suspended, Control(InFlight(s.line))) }

  /** If the application took everything in flight, it would be suspended exactly if the client
      has the task suspended. */
  lemma TakingAllAgrees(s: System)
    requires InStep(s) && !s.state.Quitting?
    ensures After(s.suspended, InFlight(s.line)) <==> s.state.Suspended?
  {
    AfterControl(s.suspended, InFlight(s.line));
  }

  const START: System := System(Executing, Line(None, []), false, [], [])

  /** Cancelling or sending, seen from the flight. */
  lemma SendOrCancelFlight(l: Line, m: Msg)
    requires !m.Other?
    ensures InFlight(SendOrCancel(l, m)) ==
            if CanPurge(l, Opposite(m)) then InFlight(l)[..|InFlight(l)| - 1] else InFlight(l) + [m]
    ensures CanPurge(l, Opposite(m)) ==> InFlight(l) != [] && InFlight(l)[|InFlight(l)| - 1] == Opposite(m)
  {
  }

  lemma TurnKeeps(s: System, m: Msg, t: System)
    requires InStep(s) && !m.Other? && !s.state.Quitting? && s.state.Suspended? == m.Resume?
    requires t.line == SendOrCancel(s.line, m) && t.suspended == s.suspended
            && t.state == if m.Suspend? then Suspended else Executing
    ensures InStep(t)
  {
    var f, g := InFlight(s.line), InFlight(t.line);
    SendOrCancelFlight(s.line, m);
    AfterControl(s.suspended, f);
    hide SendOrCancel, CanPurge, InFlight, Control, Steps, After;
    if CanPurge(s.line, Opposite(m)) {
      FrontPush(f, Opposite(m));
      ControlPush(g, Opposite(m));
    } else {
      ControlPush(f, m);
    }
    StepsTurn(s.state, s.suspended, Control(f), m, Control(g), t.state);
  }

  lemma FrontPush(f: seq<Msg>, m: Msg)
    requires f != [] && f[|f| - 1] == m
    ensures f == f[..|f| - 1] + [m]
  {
  }

  lemma StepsTurn(state: TaskState, suspended: bool, c: seq<Msg>, m: Msg, d: seq<Msg>, next: TaskState)
    requires Steps(state, suspended, c) && !m.Other? && !state.Quitting? && state.Suspended? == m.Resume?
    requires forall x :: x in c ==> !x.Other?
    requires d == c + [m] || c == d + [Opposite(m)]
    requires next == if m.Suspend? then Suspended else Executing
    ensures Steps(next, suspended, d)
  {
    if d == c + [m] {
      assert forall i :: 0 <= i < |c| ==> d[i] == c[i];
    } else {
      assert forall i :: 0 <= i < |d| ==> d[i] == c[i];
    }
  }

  lemma SendKeeps(s: System, m: Msg, t: System)
    requires InStep(s) && m.Other? && t.line == Sent(s.line, m) && t.suspended == s.suspended
    requires t.state == s.state || t.state == Quitting
    ensures InStep(t)
  {
    SentFlight(s.line, m);
    hide InFlight, Control, Sent;
    ControlPush(InFlight(s.line), m);
    assert Control(InFlight(s.line)) + [] == Control(InFlight(s.line));
  }

  lemma TakeKeeps(s: System)
    requires InStep(s) && s.line.slot.Some?
    ensures InStep(Apply(s, DoTake))
    ensures InFlight(s.line) == [s.line.slot.value] + InFlight(Apply(s, DoTake).line)
  {
    TakenFlight(s.line);
    hide InFlight, Taken, Steps, Control, After;
    StepsTake(s.state, s.suspended, s.line.slot.value, InFlight(Taken(s.line)));
  }

  lemma StepsTake(state: TaskState, suspended: bool, m: Msg, f: seq<Msg>)
    requires Steps(state, suspended, Control([m] + f))
    ensures Steps(state, After(suspended, [m]), Control(f))
  {
    hide Control, After, Steps;
    ControlConcat([m], f);
    ControlOne(m, suspended);
    AfterControl(suspended, f);
    StepsTail(state, suspended, m, Control(f), After(suspended, [m]));
  }

  lemma TakenFlight(l: Line)
    requires l.slot.Some?
    ensures InFlight(l) == [l.slot.value] + InFlight(Taken(l))
  {
  }

  lemma SentFlight(l: Line, m: Msg)
    ensures InFlight(Sent(l, m)) == InFlight(l) + [m]
  {
  }

  lemma PolledFlight(l: Line)
    ensures InFlight(Polled(l)) == InFlight(l) && (InFlight(l) != [] ==> Polled(l).slot.Some?)
  {
  }

  lemma StepsTail(state: TaskState, suspended: bool, m: Msg, c: seq<Msg>, next: bool)
    requires Steps(state, suspended, (if m.Other? then [] else [m]) + c)
            && next == if m.Other? then suspended else m.Suspend?
    requires forall x :: x in c ==> !x.Other?
    ensures Steps(state, next, c)
  {
    if m.Other? {
      assert [] + c == c;
    } else {
      var d := [m] + c;
      assert forall i :: 0 <= i < |c| ==> d[i + 1] == c[i];
    }
  }

  lemma ApplyKeeps(s: System, e: Event)
    requires InStep(s)
    ensures InStep(Apply(s, e))
  {
    match e
    case DoSuspend => if s.state.Executing? { TurnKeeps(s, Suspend, Apply(s, e)); }
    case DoUnsuspend => if s.state.Suspended? { TurnKeeps(s, Resume, Apply(s, e)); }
    case DoSend(m) => if m.Other? { SendKeeps(s, m, Apply(s, e)); }
    case DoQuit(text) => SendKeeps(s, Other(text), Apply(s, e));
    case DoPoll => PolledFlight(s.line);
    case DoTake => if s.line.slot.Some? { TakeKeeps(s); }
  }

  // ---- Order and loss -------------------------------------------------------------------------------

  /** `ys` are the messages `xs` in order, without some pairs of opposite messages that cancelled
      each other; between the two of a pair everything else has been cancelled too. */
  predicate Reduces(xs: seq<Msg>, ys: seq<Msg>)
    decreases |xs|
  {
    if xs == [] then ys == []
    else
      var n := |xs| - 1;
      || (ys != [] && ys[|ys| - 1] == xs[n] && Reduces(xs[..n], ys[..|ys| - 1]))
      || (!xs[n].Other?
          && exists k ::
               0 <= k < n && xs[k] == Opposite(xs[n]) && Reduces(xs[k + 1..n], []) && Reduces(xs[..k], ys))
  }

  /** A sent message. */
  lemma ReducesPush(xs: seq<Msg>, ys: seq<Msg>, m: Msg)
    requires Reduces(xs, ys)
    ensures Reduces(xs + [m], ys + [m])
  {
    assert (xs + [m])[..|xs|] == xs && (ys + [m])[..|ys|] == ys;
  }

  /** Two opposite messages with nothing left between them. */
  lemma ReducesPair(xs: seq<Msg>, a: Msg, mid: seq<Msg>, b: Msg, ys: seq<Msg>)
    requires Reduces(xs, ys) && Reduces(mid, []) && a == Opposite(b) && !b.Other?
    ensures Reduces(xs + [a] + mid + [b], ys)
  {
    var all := xs + [a] + mid + [b];
    var k, n := |xs|, |all| - 1;
    assert all[..k] == xs && all[k + 1..n] == mid && all[k] == a && all[n] == b;
  }

  /** The last message has been cancelled by one before. */
  lemma UnPair(xs: seq<Msg>, ys: seq<Msg>) returns (p: seq<Msg>, a: Msg, mid: seq<Msg>, b: Msg)
    requires xs != [] && Reduces(xs, ys)
    requires !(ys != [] && ys[|ys| - 1] == xs[|xs| - 1] && Reduces(xs[..|xs| - 1], ys[..|ys| - 1]))
    ensures xs == p + [a] + mid + [b] && Reduces(p, ys) && Reduces(mid, []) && a == Opposite(b) && !b.Other?
  {
    var n := |xs| - 1;
    var k :| 0 <= k < n && xs[k] == Opposite(xs[n]) && Reduces(xs[k + 1..n], []) && Reduces(xs[..k], ys);
    p, a, mid, b := xs[..k], xs[k], xs[k + 1..n], xs[n];
    hide Reduces;
    SplitAt(xs, k);
  }

  lemma SplitAt(xs: seq<Msg>, k: nat)
    requires k < |xs| - 1
    ensures xs == xs[..k] + [xs[k]] + xs[k + 1..|xs| - 1] + [xs[|xs| - 1]]
  {
  }

  lemma PairShorter(p: seq<Msg>, a: Msg, mid: seq<Msg>, b: Msg)
    ensures |p| < |p + [a] + mid + [b]|
  {
  }

  lemma Regroup(xs: seq<Msg>, p: seq<Msg>, a: Msg, mid: seq<Msg>, b: Msg)
    ensures xs + (p + [a] + mid + [b]) == xs + p + [a] + mid + [b]
  {
  }

  /** The last message that is left can be traced back to where it was sent. */
  lemma {:induction false} LastOf(xs: seq<Msg>, ys: seq<Msg>) returns (p: seq<Msg>, q: seq<Msg>)
    requires Reduces(xs, ys) && ys != []
    ensures xs == p + [ys[|ys| - 1]] + q && Reduces(p, ys[..|ys| - 1]) && Reduces(q, [])
    decreases |xs|
  {
    var n := |xs| - 1;
    if ys[|ys| - 1] == xs[n] && Reduces(xs[..n], ys[..|ys| - 1]) {
      p, q := xs[..n], [];
    } else {
      var o, a, mid, b := UnPair(xs, ys);
      assert Reduces([], []);
      hide Reduces;
      PairShorter(o, a, mid, b);
      var r;
      p, r := LastOf(o, ys);
      ReducesPair(r, a, mid, b, []);
      q := r + [a] + mid + [b];
      Regroup(p + [ys[|ys| - 1]], r, a, mid, b);
    }
  }

  /** A cancelled message: it takes the last message, its opposite, with it. */
  lemma ReducesCancel(xs: seq<Msg>, ys: seq<Msg>, m: Msg)
    requires Reduces(xs, ys) && ys != [] && ys[|ys| - 1] == Opposite(m) && !m.Other?
    ensures Reduces(xs + [m], ys[..|ys| - 1])
  {
    hide Reduces;
    var p, q := LastOf(xs, ys);
    ReducesPair(p, Opposite(m), q, m, ys[..|ys| - 1]);
  }

  /** The messages other than suspend and resume. */
  function Others(ms: seq<Msg>): seq<Msg> {
    if ms == [] then []
    else Others(ms[..|ms| - 1]) + if ms[|ms| - 1].Other? then [ms[|ms| - 1]] else []
  }

  lemma {:induction false} OthersConcat(a: seq<Msg>, b: seq<Msg>)
    ensures Others(a + b) == Others(a) + Others(b)
  {
    if b == [] {
      assert a + b == a;
    } else {
      OthersConcat(a, b[..|b| - 1]);
      assert (a + b)[..|a + b| - 1] == a + b[..|b| - 1];
    }
  }

  /** Only suspend and resume messages are ever cancelled. */
  lemma {:induction false} OthersKept(xs: seq<Msg>, ys: seq<Msg>)
    requires Reduces(xs, ys)
    ensures Others(xs) == Others(ys)
    decreases |xs|
  {
    if xs != [] {
      var n := |xs| - 1;
      if ys != [] && ys[|ys| - 1] == xs[n] && Reduces(xs[..n], ys[..|ys| - 1]) {
        OthersKept(xs[..n], ys[..|ys| - 1]);
      } else {
        var p, a, mid, b := UnPair(xs, ys);
        hide Reduces;
        PairShorter(p, a, mid, b);
        OthersKept(p, ys);
        OthersKept(mid, []);
        OthersPair(p, a, mid, b);
      }
    }
  }

  lemma OthersPair(p: seq<Msg>, a: Msg, mid: seq<Msg>, b: Msg)
    requires a == Opposite(b) && !b.Other? && Others(mid) == []
    ensures |mid| < |p + [a] + mid + [b]| && Others(p + [a] + mid + [b]) == Others(p)
  {
    assert (p + [a] + mid + [b])[..|p + [a] + mid|] == p + [a] + mid;
    OthersConcat(p + [a], mid);
    assert (p + [a])[..|p|] == p;
  }

  // ---- Over whole runs --------------------------------------------------------------------------------

  /** What holds in every reachable state. */
  predicate Inv(s: System) { InStep(s) && InOrder(s) }

  /** What has been taken and what is in flight are the messages that were asked for, in order,
      less cancelled pairs; and the application is as the messages taken say. */
  predicate InOrder(s: System) {
    s.suspended == After(false, s.taken) && Reduces(s.asked, s.taken + InFlight(s.line))
  }

  lemma TurnOrder(s: System, m: Msg)
    requires Inv(s) && !m.Other?
    ensures Reduces(s.asked + [m], s.taken + InFlight(SendOrCancel(s.line, m)))
  {
    var f := InFlight(s.line);
    SendOrCancelFlight(s.line, m);
    hide Reduces, SendOrCancel, InFlight, InStep, After, CanPurge;
    if CanPurge(s.line, Opposite(m)) {
      LastDrops(s.taken, f);
      ReducesCancel(s.asked, s.taken + f, m);
    } else {
      ReducesPush(s.asked, s.taken + f, m);
      Append(s.taken, f, m);
    }
  }

  lemma LastDrops(a: seq<Msg>, b: seq<Msg>)
    requires b != []
    ensures (a + b)[..|a + b| - 1] == a + b[..|b| - 1] && (a + b)[|a + b| - 1] == b[|b| - 1]
  {
  }

  lemma Append(a: seq<Msg>, b: seq<Msg>, m: Msg)
    ensures a + b + [m] == a + (b + [m])
  {
  }

  lemma SentOrder(s: System, m: Msg)
    requires Inv(s)
    ensures Reduces(s.asked + [m], s.taken + InFlight(Sent(s.line, m)))
  {
    hide Reduces, InFlight, InStep, After, Sent;
    var f := InFlight(s.line);
    SentFlight(s.line, m);
    ReducesPush(s.asked, s.taken + f, m);
    Append(s.taken, f, m);
  }

  lemma InvKeeps(s: System, e: Event)
    requires Inv(s)
    ensures Inv(Apply(s, e))
  {
    hide InStep, InOrder;
    ApplyKeeps(s, e);
    hide Inv;
    ApplyOrders(s, e);
  }

  lemma ApplyOrders(s: System, e: Event)
    requires Inv(s)
    ensures InOrder(Apply(s, e))
  {
    match e
    case DoSuspend => TurnOrder(s, Suspend); hide SendOrCancel, InFlight, Reduces, After, InStep;
    case DoUnsuspend => TurnOrder(s, Resume); hide SendOrCancel, InFlight, Reduces, After, InStep;
    case DoSend(m) => SentOrder(s, m); hide Sent, InFlight, Reduces, After, InStep;
    case DoQuit(text) => SentOrder(s, Other(text)); hide Sent, InFlight, Reduces, After, InStep;
    case DoPoll => PolledFlight(s.line); hide Polled, InFlight, Reduces, After, InStep;
    case DoTake =>
      if s.line.slot.Some? { TakeOrder(s); }
      hide Taken, InFlight, Reduces, After, InStep;
  }

  lemma TakeOrder(s: System)
    requires Inv(s) && s.line.slot.Some?
    ensures Apply(s, DoTake).suspended == After(false, Apply(s, DoTake).taken)
    ensures Apply(s, DoTake).taken + InFlight(Apply(s, DoTake).line) == s.taken + InFlight(s.line)
  {
    var m := s.line.slot.value;
    TakeKeeps(s);
    AfterPush(s.suspended, [], m);
    AfterPush(false, s.taken, m);
    assert [] + [m] == [m];
    hide Reduces, InStep, InFlight, After;
    Shift(s.taken, m, InFlight(Apply(s, DoTake).line));
  }

  lemma AfterPush(suspended: bool, ms: seq<Msg>, m: Msg)
    ensures After(suspended, ms + [m]) == if m.Other? then After(suspended, ms) else m.Suspend?
  {
    assert (ms + [m])[..|ms|] == ms;
  }

  lemma Shift(a: seq<Msg>, m: Msg, b: seq<Msg>)
    ensures a + [m] + b == a + ([m] + b)
  {
  }

  function Run(s: System, es: seq<Event>): System {
    if es == [] then s else Apply(Run(s, es[..|es| - 1]), es[|es| - 1])
  }

  /** Whatever the client, the poll and the application do: undelivered suspend and resume
      messages alternate, an application that took everything in flight would be suspended exactly
      if the client has the task suspended, and messages are taken in the order in which they were
      asked for, with nothing lost but cancelled pairs. */
  lemma {:induction false} EveryRun(es: seq<Event>)
    ensures Inv(Run(START, es))
    ensures Alternates(Control(InFlight(Run(START, es).line)))
    ensures !Run(START, es).state.Quitting? ==>
              (After(Run(START, es).suspended, InFlight(Run(START, es).line)) <==> Run(START, es).state.Suspended?)
    ensures Others(Run(START, es).asked) == Others(Run(START, es).taken) + Others(InFlight(Run(START, es).line))
  {
    if es == [] {
      assert InFlight(START.line) == [] && Reduces([], [] + []);
    } else {
      EveryRun(es[..|es| - 1]);
      InvKeeps(Run(START, es[..|es| - 1]), es[|es| - 1]);
    }
    var s := Run(START, es);
    hide Run, Apply;
    if !s.state.Quitting? { TakingAllAgrees(s); }
    OthersKept(s.asked, s.taken + InFlight(s.line));
    OthersConcat(s.taken, InFlight(s.line));
  }

  /** When the client falls silent, the polls and the application bring the two into agreement. */
  lemma {:induction false} Drains(s: System, n: nat) returns (es: seq<Event>)
    requires Inv(s) && !s.state.Quitting? && n == |InFlight(s.line)|
    ensures forall e :: e in es ==> e == DoPoll || e == DoTake
    ensures InFlight(Run(s, es).line) == [] && Run(s, es).state == s.state
    ensures Run(s, es).suspended <==> s.state.Suspended?
    decreases n
  {
    if n == 0 {
      es := [];
      TakingAllAgrees(s);
      assert InFlight(s.line) == [] && Run(s, es) == s;
    } else {
      RoundKeeps(s);
      hide Inv, InFlight, Apply, Run;
      var fs := Drains(Apply(Apply(s, DoPoll), DoTake), n - 1);
      es := [DoPoll] + [DoTake] + fs;
      RunFront(s, DoPoll, DoTake, fs);
    }
  }

  /** A poll and a take move one message. */
  lemma RoundKeeps(s: System)
    requires Inv(s) && InFlight(s.line) != []
    ensures Inv(Apply(Apply(s, DoPoll), DoTake)) && Apply(Apply(s, DoPoll), DoTake).state == s.state
    ensures |InFlight(Apply(Apply(s, DoPoll), DoTake).line)| == |InFlight(s.line)| - 1
  {
    hide Inv, InFlight, Polled, Taken;
    InvKeeps(s, DoPoll);
    InvKeeps(Apply(s, DoPoll), DoTake);
    PolledFlight(s.line);
    TakenFlight(Polled(s.line));
  }

  lemma {:induction false} RunConcat(s: System, es: seq<Event>, fs: seq<Event>)
    ensures Run(s, es + fs) == Run(Run(s, es), fs)
  {
    if fs == [] {
      assert es + fs == es;
    } else {
      RunConcat(s, es, fs[..|fs| - 1]);
      assert (es + fs)[..|es + fs| - 1] == es + fs[..|fs| - 1];
    }
  }

  lemma RunFront(s: System, d: Event, e: Event, fs: seq<Event>)
    ensures Run(s, [d] + [e] + fs) == Run(Apply(Apply(s, d), e), fs)
  {
    RunConcat(s, [d] + [e], fs);
    RunConcat(s, [d], [e]);
    RunOne(s, d);
    RunOne(Run(s, [d]), e);
  }

  lemma RunOne(s: System, e: Event)
    ensures Run(s, [e]) == Apply(s, e)
  {
    assert [e][..0] == [] && Run(s, []) == s;
  }

  // ---- Cancelling --------------------------------------------------------------------------------------

  /** Behind a full channel, asking for a suspension and taking it back leaves the line as it was;
      likewise for a resumption. */
  lemma SuspendAndBack(s: System)
    requires s.line.slot.Some? && (s.line.msgs == [] || s.line.msgs[|s.line.msgs| - 1].Other?)
    ensures s.state.Executing? ==>
              var t := Apply(Apply(s, DoSuspend), DoUnsuspend);
              t.line == s.line && t.state == s.state && t.taken == s.taken
    ensures s.state.Suspended? ==>
              var t := Apply(Apply(s, DoUnsuspend), DoSuspend);
              t.line == s.line && t.state == s.state && t.taken == s.taken
  {
  }

  /** In general: a suspension is queued exactly if no resumption is the last message of the queue,
      and otherwise that resumption goes; likewise for a resumption. */
  lemma SuspendSends(s: System)
    requires s.state.Executing?
    ensures var t, ms := Apply(s, DoSuspend), s.line.msgs;
            && t.state == Suspended
            && InFlight(t.line) == if ms != [] && ms[|ms| - 1] == Resume then InFlight(s.line)[..|InFlight(s.line)| - 1]
                                   else InFlight(s.line) + [Suspend]
  {
    SendOrCancelFlight(s.line, Suspend);
  }

  lemma ResumeSends(s: System)
    requires s.state.Suspended?
    ensures var t, ms := Apply(s, DoUnsuspend), s.line.msgs;
            && t.state == Executing
            && InFlight(t.line) == if ms != [] && ms[|ms| - 1] == Suspend
                                   then InFlight(s.line)[..|InFlight(s.line)| - 1]
                                   else InFlight(s.line) + [Resume]
  {
    SendOrCancelFlight(s.line, Resume);
  }
}
