/** The event loops of src/EventLoop.cc as a step system: each loop has a program point, a functor
    queue, the batch it swapped out and an eventfd counter; threads queue functors and call `quit`,
    and the `wakeup` that may follow is a step of its own. */
module Loops {
  import Connections
  import Epoll

  type LoopId = nat

  /** A connection object: its place in the accept order, the loop it was given, its descriptor. */
  datatype Handle = Handle(id: nat, io: LoopId, fd: int)

  datatype Functor =
    | Established(c: Handle)
    | Destroyed(c: Handle)
    | RemoveConn(c: Handle)
    | Notify(c: Handle, note: Connections.Note)
    | User(k: nat)

  /** An entry of activeChannels_. */
  datatype Source = WakeupFd | Listener | ReadyConn(c: Handle, revents: Epoll.Mask)

  /** What a thread still has to do for a loop: a `queueInLoop` or a `quit`. */
  datatype Task = Queue(target: LoopId, f: Functor) | QuitLoop(target: LoopId)

  datatype Tid = OfLoop(l: LoopId) | Foreign(k: nat)

  datatype Owed = Nothing | Wakeup(target: LoopId)

  /** `owed` is the `wakeup()` a thread is about to call. */
  datatype Thread = Thread(owed: Owed, todo: seq<Task>) {
    predicate Idle() { owed.Nothing? && todo == [] }
  }

  /** At the loop test (line 72), in poll, in the dispatch loop, past `callingPendingFunctors_ = true`
      but before the swap, running the swapped batch, out of the loop. */
  datatype Pc = AtTest | AtPoll | Dispatching | Calling | Running | Exited

  datatype Loop = Loop(
    pc: Pc, quit: bool, calling: bool, efd: nat,
    pending: seq<Functor>, batch: seq<Functor>, next: nat,
    active: seq<Source>, at: nat,
    pushed: seq<Functor>, executed: seq<Functor>)

  const EFD_MAX: nat := 0xffff_ffff_ffff_fffe

  // ---------------------------------------------------------------------------------------------
  // Atomic actions on one loop.

  function Push(l: Loop, f: Functor): Loop { l.(pending := l.pending + [f], pushed := l.pushed + [f]) }

  /** A write that would overflow the counter is refused and leaves it positive. */
  function WakeUp(l: Loop): Loop { if l.efd < EFD_MAX then l.(efd := l.efd + 1) else l }

  function SetQuit(l: Loop): Loop { l.(quit := true) }

  function TestQuit(l: Loop): Loop {
    if l.quit then l.(pc := Exited) else l.(pc := AtPoll, active := [], at := 0)
  }

  function PollReturns(l: Loop, active: seq<Source>): Loop { l.(pc := Dispatching, active := active, at := 0) }

  /** Reading the eventfd resets its counter. */
  function Handled(l: Loop): Loop
    requires l.at < |l.active|
  {
    l.(at := l.at + 1, efd := if l.active[l.at].WakeupFd? then 0 else l.efd)
  }

  function StartCalling(l: Loop): Loop { l.(pc := Calling, calling := true) }

  function Swap(l: Loop): Loop { l.(pc := Running, batch := l.pending, pending := [], next := 0) }

  function RanNext(l: Loop): Loop
    requires l.next < |l.batch|
  {
    l.(next := l.next + 1, executed := l.executed + [l.batch[l.next]])
  }

  function StopCalling(l: Loop): Loop { l.(pc := AtTest, calling := false, batch := [], next := 0) }

  /** A loop about to enter `while (!quit_)` with nothing queued. */
  predicate Started(l: Loop) {
    l.pc.AtTest? && !l.calling && l.pending == [] && l.batch == [] && l.next == 0 && l.active == [] && l.at == 0
    && l.pushed == [] && l.executed == []
  }

  // ---------------------------------------------------------------------------------------------
  // All loops and threads.

  datatype Core = Core(loops: map<LoopId, Loop>, threads: map<Tid, Thread>)

  datatype Action =
    | Wake(t: Tid)
    | DoTask(t: Tid)
    | Plan(t: Tid, tasks: seq<Task>)
    | Test(l: LoopId)
    | Poll(l: LoopId, active: seq<Source>)
    | Dispatch(l: LoopId, tasks: seq<Task>)
    | EndDispatch(l: LoopId)
    | SwapBatch(l: LoopId)
    | RunNext(l: LoopId, tasks: seq<Task>)
    | EndBatch(l: LoopId)

  ghost predicate AtPc(c: Core, l: LoopId, pc: Pc) {
    l in c.loops && c.loops[l].pc == pc && OfLoop(l) in c.threads && c.threads[OfLoop(l)].Idle()
  }

  ghost predicate Targeted(c: Core, tasks: seq<Task>) {
    forall i :: 0 <= i < |tasks| ==> tasks[i].target in c.loops
  }

  ghost predicate Can(c: Core, a: Action) {
    match a
    case Wake(t) => t in c.threads && c.threads[t].owed.Wakeup? && c.threads[t].owed.target in c.loops
    case DoTask(t) =>
      && t in c.threads && c.threads[t].owed.Nothing? && c.threads[t].todo != []
      && c.threads[t].todo[0].target in c.loops
    case Plan(t, tasks) => t in c.threads && t.Foreign? && c.threads[t].Idle() && Targeted(c, tasks)
    case Test(l) => AtPc(c, l, AtTest)
    // level-triggered: the eventfd is reported only while its counter is positive
    case Poll(l, active) => AtPc(c, l, AtPoll) && (WakeupFd in active ==> c.loops[l].efd > 0)
    case Dispatch(l, tasks) => AtPc(c, l, Dispatching) && c.loops[l].at < |c.loops[l].active| && Targeted(c, tasks)
    case EndDispatch(l) => AtPc(c, l, Dispatching) && c.loops[l].at == |c.loops[l].active|
    case SwapBatch(l) => AtPc(c, l, Calling)
    case RunNext(l, tasks) => AtPc(c, l, Running) && c.loops[l].next < |c.loops[l].batch| && Targeted(c, tasks)
    case EndBatch(l) => AtPc(c, l, Running) && c.loops[l].next == |c.loops[l].batch|
  }

  function SetLoop(c: Core, l: LoopId, v: Loop): Core { c.(loops := c.loops[l := v]) }

  function SetThread(c: Core, t: Tid, v: Thread): Core { c.(threads := c.threads[t := v]) }

  /** queueInLoop and quit wake the loop from any other thread; queueInLoop also wakes it from its
      own thread while `callingPendingFunctors_` is set. */
  function Owes(t: Tid, task: Task, l: Loop): Owed {
    if t != OfLoop(task.target) || (task.Queue? && l.calling) then Wakeup(task.target) else Nothing
  }

  function DoneTo(l: Loop, task: Task): Loop {
    if task.Queue? then Push(l, task.f) else SetQuit(l)
  }

  ghost function Apply(c: Core, a: Action): Core
    requires Can(c, a)
  {
    match a
    case Wake(t) =>
      var l := c.threads[t].owed.target;
      SetThread(SetLoop(c, l, WakeUp(c.loops[l])), t, c.threads[t].(owed := Nothing))
    case DoTask(t) =>
      var th := c.threads[t];
      var task := th.todo[0];
      var l := c.loops[task.target];
      SetThread(SetLoop(c, task.target, DoneTo(l, task)), t, Thread(Owes(t, task, l), th.todo[1..]))
    case Plan(t, tasks) => SetThread(c, t, Thread(Nothing, tasks))
    case Test(l) => SetLoop(c, l, TestQuit(c.loops[l]))
    case Poll(l, active) => SetLoop(c, l, PollReturns(c.loops[l], active))
    case Dispatch(l, tasks) => SetThread(SetLoop(c, l, Handled(c.loops[l])), OfLoop(l), Thread(Nothing, tasks))
    case EndDispatch(l) => SetLoop(c, l, StartCalling(c.loops[l]))
    case SwapBatch(l) => SetLoop(c, l, Swap(c.loops[l]))
    case RunNext(l, tasks) => SetThread(SetLoop(c, l, RanNext(c.loops[l])), OfLoop(l), Thread(Nothing, tasks))
    case EndBatch(l) => SetLoop(c, l, StopCalling(c.loops[l]))
  }

  ghost predicate CanAll(c: Core, acts: seq<Action>)
    decreases |acts|
  {
    acts == [] || (Can(c, acts[0]) && CanAll(Apply(c, acts[0]), acts[1..]))
  }

  ghost function ApplyAll(c: Core, acts: seq<Action>): Core
    requires CanAll(c, acts)
    decreases |acts|
  {
    if acts == [] then c else ApplyAll(Apply(c, acts[0]), acts[1..])
  }

  ghost predicate InitialCore(c: Core) {
    && (forall l :: l in c.loops ==> Started(c.loops[l]) && OfLoop(l) in c.threads)
    && (forall t :: t in c.threads ==> c.threads[t].Idle())
  }

  // ---------------------------------------------------------------------------------------------
  // The invariant.

  /** First in, first out, each exactly once: what was executed, then the rest of the batch, then the
      queue, is everything ever queued, in order. */
  predicate LoopOk(l: Loop) {
    && l.next <= |l.batch| && l.at <= |l.active|
    && l.executed + l.batch[l.next..] + l.pending == l.pushed
    && (!l.pc.Running? ==> l.batch == [] && l.next == 0)
    && (l.calling <==> l.pc.Calling? || l.pc.Running?)
  }

  ghost predicate SomeoneOwes(c: Core, l: LoopId) {
    exists t :: t in c.threads && c.threads[t].owed == Wakeup(l)
  }

  /** Past its swap and until poll returns, a loop with something queued has a positive eventfd
      counter, or a thread that has queued and is about to call wakeup. */
  ghost predicate NoLostWakeup(c: Core, l: LoopId)
    requires l in c.loops
  {
    (c.loops[l].pc.AtTest? || c.loops[l].pc.AtPoll? || c.loops[l].pc.Running?) && c.loops[l].pending != [] ==>
      c.loops[l].efd > 0 || SomeoneOwes(c, l)
  }

  /** A loop told to quit is not asleep: the eventfd counter is positive or the quitter has yet to
      call wakeup. */
  ghost predicate NoMissedQuit(c: Core, l: LoopId)
    requires l in c.loops
  {
    c.loops[l].pc.AtPoll? && c.loops[l].quit ==> c.loops[l].efd > 0 || SomeoneOwes(c, l)
  }

  ghost predicate Targets(c: Core, th: Thread) {
    Targeted(c, th.todo) && (th.owed.Wakeup? ==> th.owed.target in c.loops)
  }

  /** A loop's thread has something to do only inside a handler or a functor. */
  ghost predicate Busy(c: Core, t: Tid)
    requires t in c.threads
  {
    t.OfLoop? && !c.threads[t].Idle() ==>
      t.l in c.loops && (c.loops[t.l].pc.Dispatching? || c.loops[t.l].pc.Running?)
  }

  ghost predicate ThreadOk(c: Core, t: Tid)
    requires t in c.threads
  {
    Targets(c, c.threads[t]) && Busy(c, t)
  }

  ghost predicate CoreInv(c: Core) {
    && (forall l :: l in c.loops ==> OfLoop(l) in c.threads && LoopOk(c.loops[l]))
    && (forall t :: t in c.threads ==> ThreadOk(c, t))
    && (forall l :: l in c.loops ==> NoLostWakeup(c, l) && NoMissedQuit(c, l))
  }

  lemma InitialCoreInv(c: Core)
    requires InitialCore(c)
    ensures CoreInv(c)
  {
  }

  /** What an action can do to one loop. */
  ghost predicate LoopStep(l: Loop, m: Loop) {
    || m == l || m == WakeUp(l) || m == SetQuit(l)
    || (exists f :: m == Push(l, f))
    || (l.pc.AtTest? && m == TestQuit(l))
    || (l.pc.AtPoll? && m == PollReturns(l, m.active))
    || (l.pc.Dispatching? && l.at < |l.active| && m == Handled(l))
    || (l.pc.Dispatching? && m == StartCalling(l))
    || (l.pc.Calling? && m == Swap(l))
    || (l.pc.Running? && l.next < |l.batch| && m == RanNext(l))
    || (l.pc.Running? && l.next == |l.batch| && m == StopCalling(l))
  }

  lemma ActionOnLoop(c: Core, a: Action, l: LoopId)
    requires Can(c, a) && l in c.loops
    ensures l in Apply(c, a).loops && LoopStep(c.loops[l], Apply(c, a).loops[l])
  {
    if a.DoTask? && c.threads[a.t].todo[0].Queue? && c.threads[a.t].todo[0].target == l {
      assert Apply(c, a).loops[l] == Push(c.loops[l], c.threads[a.t].todo[0].f);
    }
  }

  lemma PushOk(l: Loop, f: Functor)
    requires LoopOk(l)
    ensures LoopOk(Push(l, f))
  {
    assert l.executed + l.batch[l.next..] + (l.pending + [f]) == l.executed + l.batch[l.next..] + l.pending + [f];
  }

  lemma SwapOk(l: Loop)
    requires LoopOk(l) && l.pc.Calling?
    ensures LoopOk(Swap(l))
  {
    FullyRun(l);
    assert l.pending[0..] == l.pending;
    assert l.executed + l.pending + [] == l.executed + l.pending;
  }

  lemma RanNextOk(l: Loop)
    requires LoopOk(l) && l.pc.Running? && l.next < |l.batch|
    ensures LoopOk(RanNext(l))
  {
    assert l.batch[l.next..] == [l.batch[l.next]] + l.batch[l.next + 1..];
    assert l.executed + ([l.batch[l.next]] + l.batch[l.next + 1..])
        == (l.executed + [l.batch[l.next]]) + l.batch[l.next + 1..];
  }

  lemma StopCallingOk(l: Loop)
    requires LoopOk(l) && l.next == |l.batch|
    ensures LoopOk(StopCalling(l))
  {
    assert l.batch[l.next..] == [];
    assert StopCalling(l).batch[0..] == [];
  }

  lemma LoopStepKeepsOk(l: Loop, m: Loop)
    requires LoopOk(l) && LoopStep(l, m)
    ensures LoopOk(m)
  {
    if f :| m == Push(l, f) {
      PushOk(l, f);
    } else if l.pc.Calling? && m == Swap(l) {
      SwapOk(l);
    } else if l.pc.Running? && l.next < |l.batch| && m == RanNext(l) {
      RanNextOk(l);
    } else if l.pc.Running? && l.next == |l.batch| && m == StopCalling(l) {
      StopCallingOk(l);
    }
  }

  lemma ActionKeepsLoops(c: Core, a: Action)
    requires CoreInv(c) && Can(c, a)
    ensures var d := Apply(c, a);
            && d.loops.Keys == c.loops.Keys && d.threads.Keys == c.threads.Keys
            && forall l :: l in d.loops ==> LoopOk(d.loops[l])
  {
    var d := Apply(c, a);
    assert d.loops.Keys == c.loops.Keys && d.threads.Keys == c.threads.Keys by {
      ActionKeepsKeys(c, a);
    }
    forall l | l in d.loops
      ensures LoopOk(d.loops[l])
    {
      ActionOnLoop(c, a, l);
      LoopStepKeepsOk(c.loops[l], d.loops[l]);
    }
  }

  lemma ActionKeepsKeys(c: Core, a: Action)
    requires CoreInv(c) && Can(c, a)
    ensures Apply(c, a).loops.Keys == c.loops.Keys && Apply(c, a).threads.Keys == c.threads.Keys
  {
  }

  lemma ActionKeepsThreads(c: Core, a: Action)
    requires CoreInv(c) && Can(c, a)
    ensures forall t :: t in Apply(c, a).threads ==> ThreadOk(Apply(c, a), t)
  {
    ActionKeepsKeys(c, a);
    forall t | t in Apply(c, a).threads
      ensures ThreadOk(Apply(c, a), t)
    {
      ActionKeepsThread(c, a, t);
    }
  }

  lemma ActionKeepsThread(c: Core, a: Action, t: Tid)
    requires CoreInv(c) && Can(c, a) && t in c.threads && t in Apply(c, a).threads
    ensures ThreadOk(Apply(c, a), t)
  {
    ActionKeepsKeys(c, a);
    assert ThreadOk(c, t);
    hide CoreInv;
    ActionKeepsTargets(c, a, t);
    ActionKeepsBusy(c, a, t);
    hide Apply, Can, Targeted, Targets, Busy;
  }

  lemma ActionKeepsTargets(c: Core, a: Action, t: Tid)
    requires Can(c, a) && t in c.threads && t in Apply(c, a).threads && Targets(c, c.threads[t])
    requires Apply(c, a).loops.Keys == c.loops.Keys
    ensures Targets(Apply(c, a), Apply(c, a).threads[t])
  {
  }

  /** While a loop's thread has something to do, only that thread moves the loop. */
  lemma ActionKeepsBusy(c: Core, a: Action, t: Tid)
    requires Can(c, a) && t in c.threads && t in Apply(c, a).threads && Busy(c, t)
    ensures Busy(Apply(c, a), t)
  {
    if a.DoTask? || a.Wake? {
      assert t.OfLoop? && t.l in c.loops ==> Apply(c, a).loops[t.l].pc == c.loops[t.l].pc;
    }
  }

  /** Whoever owed a loop a wakeup still does, unless it was just paid and the counter is positive. */
  lemma DebtsArePaid(c: Core, a: Action, l: LoopId)
    requires CoreInv(c) && Can(c, a) && l in c.loops && SomeoneOwes(c, l)
    ensures SomeoneOwes(Apply(c, a), l) || Apply(c, a).loops[l].efd > 0
  {
    var t :| t in c.threads && c.threads[t].owed == Wakeup(l);
    var d := Apply(c, a);
    assert t in d.threads;
    if a != Wake(t) {
      assert d.threads[t].owed == Wakeup(l);
    }
  }

  lemma ActionKeepsWakeups(c: Core, a: Action, l: LoopId)
    requires CoreInv(c) && Can(c, a) && l in c.loops
    ensures NoLostWakeup(Apply(c, a), l) && NoMissedQuit(Apply(c, a), l)
  {
    var d := Apply(c, a);
    if SomeoneOwes(c, l) {
      DebtsArePaid(c, a, l);
    }
    if a.DoTask? && c.threads[a.t].todo[0].target == l {
      assert a.t in d.threads;
      assert ThreadOk(c, a.t);
    }
  }

  lemma ActionKeepsInv(c: Core, a: Action)
    requires CoreInv(c) && Can(c, a)
    ensures CoreInv(Apply(c, a))
    ensures Apply(c, a).loops.Keys == c.loops.Keys && Apply(c, a).threads.Keys == c.threads.Keys
  {
    ActionKeepsLoops(c, a);
    ActionKeepsThreads(c, a);
    forall l | l in c.loops
      ensures NoLostWakeup(Apply(c, a), l) && NoMissedQuit(Apply(c, a), l)
    {
      ActionKeepsWakeups(c, a, l);
    }
  }

  /** In every interleaving, from loops that enter `while (!quit_)` with empty queues: first-in
      first-out exactly-once execution, no lost wakeup and no missed quit, for every loop. */
  lemma {:induction false} LoopsAreSafe(c: Core, acts: seq<Action>)
    requires CoreInv(c) && CanAll(c, acts)
    ensures CoreInv(ApplyAll(c, acts))
    ensures ApplyAll(c, acts).loops.Keys == c.loops.Keys
    decreases |acts|
  {
    if acts != [] {
      ActionKeepsInv(c, acts[0]);
      LoopsAreSafe(Apply(c, acts[0]), acts[1..]);
    }
  }

  // ---------------------------------------------------------------------------------------------
  // Bounded response.

  function Polls(acts: seq<Action>, l: LoopId): nat {
    if acts == [] then 0 else (if acts[0].Poll? && acts[0].l == l then 1 else 0) + Polls(acts[1..], l)
  }

  lemma QuitStep(c: Core, a: Action, l: LoopId)
    requires Can(c, a) && l in c.loops && c.loops[l].quit
    ensures var d := Apply(c, a);
            && l in d.loops && d.loops[l].quit
            && (a.Poll? && a.l == l ==> c.loops[l].pc.AtPoll? && !d.loops[l].pc.AtPoll?)
            && (d.loops[l].pc.AtPoll? ==> c.loops[l].pc.AtPoll?)
            && (c.loops[l].pc.Exited? ==> d.loops[l].pc.Exited? && d.loops[l].executed == c.loops[l].executed)
  {
  }

  /** A loop told to quit polls at most once more, and not at all unless it was already in poll;
      once out it runs nothing. */
  lemma {:induction false} QuitEndsTheLoop(c: Core, acts: seq<Action>, l: LoopId)
    requires CanAll(c, acts) && l in c.loops && c.loops[l].quit
    ensures var d := ApplyAll(c, acts);
            && l in d.loops && d.loops[l].quit
            && Polls(acts, l) <= (if c.loops[l].pc.AtPoll? then 1 else 0)
            && (Polls(acts, l) == 1 ==> !d.loops[l].pc.AtPoll?)
            && (d.loops[l].pc.AtPoll? ==> c.loops[l].pc.AtPoll?)
            && (c.loops[l].pc.Exited? ==> d.loops[l].pc.Exited? && d.loops[l].executed == c.loops[l].executed)
    decreases |acts|
  {
    if acts != [] {
      QuitStep(c, acts[0], l);
      QuitEndsTheLoop(Apply(c, acts[0]), acts[1..], l);
    }
  }

  /** How many of the functors queued so far will certainly have run when the loop next polls. */
  function Committed(l: Loop): nat
    requires LoopOk(l)
  {
    if l.pc.AtPoll? || l.pc.Dispatching? || l.pc.Calling? then |l.executed| + |l.pending|
    else |l.executed| + |l.batch| - l.next
  }

  lemma LoopStepCommitment(l: Loop, m: Loop)
    requires LoopOk(l) && LoopOk(m) && LoopStep(l, m) && (l.pc.AtTest? ==> !m.pc.AtPoll?)
    ensures Committed(m) >= Committed(l)
  {
  }

  /** Only a loop test lets a loop into poll, and only the end of a batch stops it running functors. */
  lemma WhoMovesALoop(c: Core, a: Action, l: LoopId)
    requires Can(c, a) && l in c.loops
    ensures l in Apply(c, a).loops
    ensures var m := Apply(c, a).loops[l];
            && (c.loops[l].pc.AtTest? && m.pc.AtPoll? ==> a == Test(l) && !c.loops[l].quit)
            && (c.loops[l].pc.Running? && !m.pc.Running? ==> a == EndBatch(l))
  {
  }

  lemma CommitmentStands(c: Core, a: Action, l: LoopId)
    requires CoreInv(c) && Can(c, a) && l in c.loops && !(a == Test(l) && !c.loops[l].quit)
    ensures l in Apply(c, a).loops && LoopOk(Apply(c, a).loops[l])
    ensures Committed(Apply(c, a).loops[l]) >= Committed(c.loops[l])
  {
    assert LoopOk(c.loops[l]);
    hide CoreInv, LoopStep, LoopOk, Committed, Can, Apply;
    WhoMovesALoop(c, a, l);
    ActionOnLoop(c, a, l);
    LoopStepKeepsOk(c.loops[l], Apply(c, a).loops[l]);
    LoopStepCommitment(c.loops[l], Apply(c, a).loops[l]);
  }

  ghost predicate PassesTest(c: Core, acts: seq<Action>, l: LoopId)
    requires CanAll(c, acts)
    decreases |acts|
  {
    acts != [] && ((acts[0] == Test(l) && !c.loops[l].quit) || PassesTest(Apply(c, acts[0]), acts[1..], l))
  }

  lemma {:induction false} CommitmentKept(c: Core, acts: seq<Action>, l: LoopId)
    requires CoreInv(c) && CanAll(c, acts) && l in c.loops && !PassesTest(c, acts, l)
    ensures var d := ApplyAll(c, acts);
            CoreInv(d) && l in d.loops && Committed(d.loops[l]) >= Committed(c.loops[l])
    decreases |acts|
  {
    if acts != [] {
      ActionKeepsInv(c, acts[0]);
      CommitmentStands(c, acts[0], l);
      CommitmentKept(Apply(c, acts[0]), acts[1..], l);
    }
  }

  lemma FullyRun(l: Loop)
    requires LoopOk(l) && !l.pc.Running?
    ensures l.executed + l.pending == l.pushed && l.executed <= l.pushed
  {
    assert l.batch[l.next..] == [];
    assert l.executed + [] + l.pending == l.executed + l.pending;
  }

  /** Everything queued when a poll returns has run, in order, by the next loop test. */
  lemma QueuedRunsBeforeNextTest(c: Core, acts: seq<Action>, l: LoopId)
    requires CoreInv(c) && CanAll(c, acts) && l in c.loops && c.loops[l].pc.AtPoll?
    requires !PassesTest(c, acts, l)
    requires l in ApplyAll(c, acts).loops && ApplyAll(c, acts).loops[l].pc.AtTest?
    ensures c.loops[l].executed + c.loops[l].pending <= ApplyAll(c, acts).loops[l].executed
  {
    CommitmentKept(c, acts, l);
    HistoryGrows(c, acts, l);
    FullyRun(c.loops[l]);
    FullyRun(ApplyAll(c, acts).loops[l]);
    PrefixesNest(c.loops[l].pushed, ApplyAll(c, acts).loops[l].executed, ApplyAll(c, acts).loops[l].pushed);
  }

  lemma PrefixesNest(a: seq<Functor>, b: seq<Functor>, whole: seq<Functor>)
    requires a <= whole && b <= whole && |a| <= |b|
    ensures a <= b
  {
  }

  lemma {:induction false} HistoryGrows(c: Core, acts: seq<Action>, l: LoopId)
    requires CanAll(c, acts) && l in c.loops
    ensures l in ApplyAll(c, acts).loops
    ensures c.loops[l].pushed <= ApplyAll(c, acts).loops[l].pushed
    ensures c.loops[l].executed <= ApplyAll(c, acts).loops[l].executed
    decreases |acts|
  {
    if acts != [] {
      var d := Apply(c, acts[0]);
      assert l in d.loops && c.loops[l].pushed <= d.loops[l].pushed && c.loops[l].executed <= d.loops[l].executed;
      HistoryGrows(d, acts[1..], l);
    }
  }

  /** Running a batch runs exactly what was queued at the swap, however much is queued meanwhile. */
  lemma {:induction false} BatchRunsExactlyTheSwap(c: Core, acts: seq<Action>, l: LoopId)
    requires CoreInv(c) && CanAll(c, acts) && AtPc(c, l, Calling)
    requires |acts| > 0 && acts[0] == SwapBatch(l)
    requires forall i :: 0 < i < |acts| ==> acts[i] != EndBatch(l)
    requires l in ApplyAll(c, acts).loops && Can(ApplyAll(c, acts), EndBatch(l))
    ensures ApplyAll(c, acts).loops[l].executed == c.loops[l].executed + c.loops[l].pending
  {
    ActionKeepsInv(c, acts[0]);
    BatchStays(Apply(c, acts[0]), acts[1..], l);
    var d, e := Apply(c, acts[0]), ApplyAll(c, acts);
    assert c.loops[l].pending[..|c.loops[l].pending|] == c.loops[l].pending;
  }

  lemma {:induction false} BatchStays(c: Core, acts: seq<Action>, l: LoopId)
    requires CoreInv(c) && CanAll(c, acts) && l in c.loops && c.loops[l].pc.Running?
    requires forall i :: 0 <= i < |acts| ==> acts[i] != EndBatch(l)
    ensures var d := ApplyAll(c, acts);
            && l in d.loops && d.loops[l].batch == c.loops[l].batch && d.loops[l].pc.Running?
            && c.loops[l].next <= d.loops[l].next <= |d.loops[l].batch|
            && d.loops[l].executed == c.loops[l].executed + c.loops[l].batch[c.loops[l].next..d.loops[l].next]
    decreases |acts|
  {
    if acts != [] {
      ActionKeepsInv(c, acts[0]);
      BatchStaysOneStep(c, acts[0], l);
      var d := Apply(c, acts[0]);
      BatchStays(d, acts[1..], l);
      Stitch(c.loops[l].executed, c.loops[l].batch, c.loops[l].next, d.loops[l].next,
             ApplyAll(d, acts[1..]).loops[l].next);
    }
  }

  lemma BatchStaysOneStep(c: Core, a: Action, l: LoopId)
    requires CoreInv(c) && Can(c, a) && l in c.loops && c.loops[l].pc.Running? && a != EndBatch(l)
    ensures var d := Apply(c, a);
            && l in d.loops && d.loops[l].batch == c.loops[l].batch && d.loops[l].pc.Running?
            && c.loops[l].next <= d.loops[l].next <= |d.loops[l].batch|
            && d.loops[l].executed == c.loops[l].executed + c.loops[l].batch[c.loops[l].next..d.loops[l].next]
  {
    assert LoopOk(c.loops[l]);
    WhoMovesALoop(c, a, l);
    ActionOnLoop(c, a, l);
    hide CoreInv, Can, Apply;
  }

  lemma Stitch(ran: seq<Functor>, s: seq<Functor>, i: nat, j: nat, k: nat)
    requires i <= j <= k <= |s|
    ensures ran + s[i..k] == ran + s[i..j] + s[j..k]
  {
  }
}
