/** What each action does to the loop and the thread it concerns, that a loop can always go on, and
    what becomes of a quit and of a wakeup. */
module LoopEffects {
  import opened Loops

  ghost predicate OnlyLoop(c: Core, d: Core, l: LoopId) {
    d.loops.Keys == c.loops.Keys && forall k :: k in c.loops && k != l ==> d.loops[k] == c.loops[k]
  }

  ghost predicate OnlyThread(c: Core, d: Core, t: Tid) {
    d.threads.Keys == c.threads.Keys && forall u :: u in c.threads && u != t ==> d.threads[u] == c.threads[u]
  }

  /** queueInLoop: the functor, of whatever kind, is at the end of the target's queue, and the caller is
      about to wake the target exactly if it is another thread or the target is running functors. */
  lemma QueueEffect(c: Core, t: Tid, l: LoopId, f: Functor)
    requires Can(c, DoTask(t)) && c.threads[t].todo[0] == Queue(l, f)
    ensures var d, v := Apply(c, DoTask(t)), c.loops[l];
            && OnlyLoop(c, d, l) && OnlyThread(c, d, t)
            && d.loops[l] == v.(pending := v.pending + [f], pushed := v.pushed + [f])
            && d.threads[t].todo == c.threads[t].todo[1..]
            && d.threads[t].owed == if t != OfLoop(l) || v.calling then Wakeup(l) else Nothing
  {
  }

  /** quit: `quit_` is set, and the caller is about to wake the loop exactly if it is another thread. */
  lemma QuitEffect(c: Core, t: Tid, l: LoopId)
    requires Can(c, DoTask(t)) && c.threads[t].todo[0] == QuitLoop(l)
    ensures var d := Apply(c, DoTask(t));
            && OnlyLoop(c, d, l) && OnlyThread(c, d, t)
            && d.loops[l] == c.loops[l].(quit := true)
            && d.threads[t].todo == c.threads[t].todo[1..]
            && d.threads[t].owed == if t != OfLoop(l) then Wakeup(l) else Nothing
  {
  }

  /** wakeup: the eventfd counter goes up by one, short of its maximum of 2^64 - 2. */
  lemma WakeEffect(c: Core, t: Tid)
    requires Can(c, Wake(t))
    ensures var d, l := Apply(c, Wake(t)), c.threads[t].owed.target;
            && OnlyLoop(c, d, l) && OnlyThread(c, d, t)
            && d.loops[l] == c.loops[l].(efd := d.loops[l].efd)
            && d.loops[l].efd == (if c.loops[l].efd < 0xffff_ffff_ffff_fffe then c.loops[l].efd + 1 else c.loops[l].efd)
            && d.threads[t] == c.threads[t].(owed := Nothing)
  {
  }

  /** The loop test leaves the loop exactly if it was told to quit, and else goes to poll, whose return
      hands the dispatch loop just the active list. */
  lemma TestAndPollEffect(c: Core, l: LoopId, active: seq<Source>)
    ensures Can(c, Test(l)) ==>
              var d := Apply(c, Test(l));
              && OnlyLoop(c, d, l) && d.threads == c.threads
              && d.loops[l] == if c.loops[l].quit then c.loops[l].(pc := Exited)
                               else c.loops[l].(pc := AtPoll, active := [], at := 0)
    ensures Can(c, Poll(l, active)) ==>
              var d := Apply(c, Poll(l, active));
              && OnlyLoop(c, d, l) && d.threads == c.threads
              && d.loops[l] == c.loops[l].(pc := Dispatching, active := active, at := 0)
  {
  }

  /** A dispatched channel is done with, and what its handler asks for is what the thread does next;
      the wakeup channel's handler leaves the eventfd counter at zero, others leave it alone. */
  lemma DispatchEffect(c: Core, l: LoopId, tasks: seq<Task>)
    requires Can(c, Dispatch(l, tasks))
    ensures var d, v := Apply(c, Dispatch(l, tasks)), c.loops[l];
            && OnlyLoop(c, d, l) && OnlyThread(c, d, OfLoop(l))
            && d.loops[l] == v.(at := v.at + 1, efd := d.loops[l].efd)
            && d.loops[l].efd == (if v.active[v.at] == WakeupFd then 0 else v.efd)
            && d.threads[OfLoop(l)] == Thread(Nothing, tasks)
  {
  }

  /** A batch is what was queued at the swap; its functors run one by one; when all have run the loop is
      at its test. */
  lemma BatchEffect(c: Core, l: LoopId, tasks: seq<Task>)
    ensures Can(c, EndDispatch(l)) ==>
              var d := Apply(c, EndDispatch(l));
              OnlyLoop(c, d, l) && d.threads == c.threads && d.loops[l] == c.loops[l].(pc := Calling, calling := true)
    ensures Can(c, SwapBatch(l)) ==>
              var d := Apply(c, SwapBatch(l));
              && OnlyLoop(c, d, l) && d.threads == c.threads
              && d.loops[l] == c.loops[l].(pc := Running, batch := c.loops[l].pending, pending := [], next := 0)
    ensures Can(c, RunNext(l, tasks)) ==>
              var d, v := Apply(c, RunNext(l, tasks)), c.loops[l];
              && OnlyLoop(c, d, l) && OnlyThread(c, d, OfLoop(l))
              && d.loops[l] == v.(next := v.next + 1, executed := v.executed + [v.batch[v.next]])
              && d.threads[OfLoop(l)] == Thread(Nothing, tasks)
    ensures Can(c, EndBatch(l)) ==>
              var d := Apply(c, EndBatch(l));
              && OnlyLoop(c, d, l) && d.threads == c.threads
              && d.loops[l] == c.loops[l].(pc := AtTest, calling := false, batch := [], next := 0)
  {
  }

  // ---------------------------------------------------------------------------------------------
  // Going on.

  /** The action by which the loop itself goes on. */
  ghost function NextAction(c: Core, l: LoopId): Action
    requires l in c.loops && OfLoop(l) in c.threads
  {
    var v, th := c.loops[l], c.threads[OfLoop(l)];
    if th.owed.Wakeup? then Wake(OfLoop(l))
    else if th.todo != [] then DoTask(OfLoop(l))
    else match v.pc
      case AtTest => Test(l)
      case AtPoll => Poll(l, if v.efd > 0 then [WakeupFd] else [])
      case Dispatching => if v.at < |v.active| then Dispatch(l, []) else EndDispatch(l)
      case Calling => SwapBatch(l)
      case Running => if v.next < |v.batch| then RunNext(l, []) else EndBatch(l)
      case Exited => Test(l)
  }

  /** A loop that has not left its loop can always go on, and one whose counter is positive is woken. */
  lemma LoopsNeverStick(c: Core, l: LoopId)
    requires CoreInv(c) && l in c.loops && !c.loops[l].pc.Exited?
    ensures OfLoop(l) in c.threads && Can(c, NextAction(c, l))
  {
    assert LoopOk(c.loops[l]) && ThreadOk(c, OfLoop(l));
  }

  /** Poll may return any channels, the eventfd among them only while its counter is positive, and a
      handler or a functor may ask for anything of any loops. */
  lemma AnythingMayHappen(c: Core, l: LoopId, active: seq<Source>, tasks: seq<Task>)
    requires CoreInv(c) && l in c.loops && c.threads[OfLoop(l)].Idle() && Targeted(c, tasks)
    ensures c.loops[l].pc.AtPoll? && (WakeupFd in active ==> c.loops[l].efd > 0) ==> Can(c, Poll(l, active))
    ensures c.loops[l].pc.Dispatching? && c.loops[l].at < |c.loops[l].active| ==> Can(c, Dispatch(l, tasks))
    ensures c.loops[l].pc.Running? && c.loops[l].next < |c.loops[l].batch| ==> Can(c, RunNext(l, tasks))
  {
  }

  /** Another thread can always finish what it has begun, and then begin anything. */
  lemma ThreadsNeverStick(c: Core, t: Tid, tasks: seq<Task>)
    requires CoreInv(c) && t in c.threads && t.Foreign? && Targeted(c, tasks)
    ensures Can(c, Wake(t)) || Can(c, DoTask(t)) || Can(c, Plan(t, tasks))
    ensures Can(c, Plan(t, tasks)) ==> Apply(c, Plan(t, tasks)) == c.(threads := c.threads[t := Thread(Nothing, tasks)])
  {
    assert ThreadOk(c, t);
  }

  // ---------------------------------------------------------------------------------------------
  // A quit.

  /** Once any thread has called quit, the loop polls at most once more, and not at all unless it was
      already in poll. */
  lemma QuitIsObeyed(c: Core, t: Tid, l: LoopId, acts: seq<Action>)
    requires Can(c, DoTask(t)) && c.threads[t].todo[0] == QuitLoop(l) && CanAll(Apply(c, DoTask(t)), acts)
    ensures var d := ApplyAll(Apply(c, DoTask(t)), acts);
            && l in d.loops && d.loops[l].quit
            && Polls(acts, l) <= if c.loops[l].pc.AtPoll? then 1 else 0
  {
    QuitEffect(c, t, l);
    QuitEndsTheLoop(Apply(c, DoTask(t)), acts, l);
  }

  /** The first test after a quit leaves the loop, for good. */
  lemma {:induction false} TestAfterQuitExits(c: Core, acts: seq<Action>, l: LoopId)
    requires CanAll(c, acts) && l in c.loops && c.loops[l].quit && Test(l) in acts
    ensures l in ApplyAll(c, acts).loops && ApplyAll(c, acts).loops[l].pc.Exited?
    decreases |acts|
  {
    QuitStep(c, acts[0], l);
    if acts[0] == Test(l) {
      QuitEndsTheLoop(Apply(c, acts[0]), acts[1..], l);
    } else {
      TestAfterQuitExits(Apply(c, acts[0]), acts[1..], l);
    }
  }

  // ---------------------------------------------------------------------------------------------
  // The eventfd counter.

  /** Nobody wakes the loop during these actions. */
  ghost predicate NobodyWakes(c: Core, acts: seq<Action>, l: LoopId)
    requires CanAll(c, acts)
    decreases |acts|
  {
    acts == [] ||
    (&& !(acts[0].Wake? && c.threads[acts[0].t].owed.target == l)
     && NobodyWakes(Apply(c, acts[0]), acts[1..], l))
  }

  lemma {:induction false} CounterRisesOnlyByWakeups(c: Core, acts: seq<Action>, l: LoopId)
    requires CanAll(c, acts) && l in c.loops && NobodyWakes(c, acts, l)
    ensures l in ApplyAll(c, acts).loops && ApplyAll(c, acts).loops[l].efd <= c.loops[l].efd
    decreases |acts|
  {
    if acts != [] {
      assert l in Apply(c, acts[0]).loops && Apply(c, acts[0]).loops[l].efd <= c.loops[l].efd;
      CounterRisesOnlyByWakeups(Apply(c, acts[0]), acts[1..], l);
    }
  }

  /** A wakeup is used up: after its handler has run and until the loop is woken again, no poll reports
      the eventfd, so the loop sleeps. */
  lemma WakeupIsUsedUp(c: Core, l: LoopId, tasks: seq<Task>, acts: seq<Action>, active: seq<Source>)
    requires Can(c, Dispatch(l, tasks)) && c.loops[l].active[c.loops[l].at] == WakeupFd
    requires CanAll(Apply(c, Dispatch(l, tasks)), acts) && NobodyWakes(Apply(c, Dispatch(l, tasks)), acts, l)
    requires Can(ApplyAll(Apply(c, Dispatch(l, tasks)), acts), Poll(l, active))
    ensures WakeupFd !in active
  {
    DispatchEffect(c, l, tasks);
    CounterRisesOnlyByWakeups(Apply(c, Dispatch(l, tasks)), acts, l);
  }
}
