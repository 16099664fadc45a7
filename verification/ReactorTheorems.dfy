/** What every run of the server guarantees, in every interleaving, whether a connection is served by
    the base loop or by another. */
module ReactorTheorems {
  import ConnName
  import ConnectionTheorems
  import Epoll
  import ReactorSteps
  import opened Connections
  import opened Loops
  import opened Reactor
  import opened Tokens
  import opened ReactorInvariant

  lemma StartsWithInv(states: seq<System>, steps: seq<SysStep>)
    requires IsRun(states, steps)
    ensures SysInv(states[0])
  {
    hide SysInv, Initial, Next;
    ReactorSteps.InitialSysInv(states[0]);
  }

  lemma {:induction false} RunKeepsSysInv(states: seq<System>, steps: seq<SysStep>, n: nat)
    requires IsRun(states, steps) && n < |states|
    ensures SysInv(states[n])
  {
    hide SysInv, Next, Initial;
    if n == 0 {
      StartsWithInv(states, steps);
    } else {
      RunKeepsSysInv(states, steps, n - 1);
      ReactorSteps.StepKeepsSysInv(states[n - 1], steps[n - 1], states[n]);
    }
  }

  // ---------------------------------------------------------------------------------------------
  // Memory and descriptors.

  /** No freed connection is registered: in every reachable state each channel in a poller's
      `channels_` or kernel set belongs to a connection of that loop with that descriptor which the
      server itself still owns, whatever user code holds; and no epoll_ctl has failed. */
  lemma NoFreedChannelIsRegistered(states: seq<System>, steps: seq<SysStep>, n: nat, l: LoopId, fd: int)
    requires IsRun(states, steps) && n < |states| && l in states[n].pollers
    ensures var s := states[n];
            var p := s.pollers[l];
            && !p.failed
            && (fd in p.channels ==>
                  p.channels[fd] in s.conns && Owned(s, p.channels[fd])
                  && p.channels[fd].io == l && p.channels[fd].fd == fd)
            && (fd in p.kernel ==>
                  p.kernel[fd].channel in s.conns && Owned(s, p.kernel[fd].channel)
                  && Epoll.InMap(p, p.kernel[fd].channel, fd))
  {
    RunKeepsSysInv(states, steps, n);
    var s := states[n];
    RegisteredHaveOwners(s, l, fd);
  }

  lemma RegisteredHaveOwners(s: System, l: LoopId, fd: int)
    requires SysInv(s) && l in s.pollers
    ensures var p := s.pollers[l];
            && !p.failed
            && (fd in p.channels ==>
                  p.channels[fd] in s.conns && Owned(s, p.channels[fd])
                  && p.channels[fd].io == l && p.channels[fd].fd == fd)
            && (fd in p.kernel ==>
                  p.kernel[fd].channel in s.conns && Owned(s, p.kernel[fd].channel)
                  && Epoll.InMap(p, p.kernel[fd].channel, fd))
  {
    hide CoreInv, WellPlaced, Bound, FdsDistinct, MapOk, ActivesOk, Owned, AccountedIn;
    var p := s.pollers[l];
    assert PollerOk(s.conns.Keys, l, p);
    RegisteredIsUnfinished(s, l, fd);
    WatchedIsUnfinished(s, l, fd);
    if fd in p.channels {
      UnfinishedHasOwner(s, p.channels[fd]);
    }
    if fd in p.kernel {
      var c := p.kernel[fd].channel;
      UnfinishedHasOwner(s, c);
      assert ConnOkIn(s, c);
    }
  }

  /** A descriptor is reused only after its old entries are gone: an accepted descriptor is in no
      poller's `channels_` and in no kernel set, and no connection still to be destroyed has it. */
  lemma AcceptedFdIsUnused(states: seq<System>, steps: seq<SysStep>, n: nat)
    requires IsRun(states, steps) && n < |steps| && steps[n].Accept?
    ensures ReactorSteps.UnusedFd(states[n], steps[n].fd)
  {
    RunKeepsSysInv(states, steps, n);
    assert Next(states[n], steps[n], states[n + 1]);
    AcceptUnused(states[n], steps[n], states[n + 1]);
  }

  lemma AcceptUnused(s: System, step: SysStep, t: System)
    requires SysInv(s) && step.Accept? && Next(s, step, t)
    ensures ReactorSteps.UnusedFd(s, step.fd)
  {
    hide SysInv, HasOwner, Run, Apply, Can, Current;
    ReactorSteps.FreshFd(s, step.fd);
  }

  /** From poll to the end of dispatch no active channel is unregistered or freed: each is still in
      `channels_` and owned, and those not yet dispatched are still in the kernel's set. */
  lemma ActiveChannelsStayRegistered(states: seq<System>, steps: seq<SysStep>, n: nat, l: LoopId, i: nat)
    requires IsRun(states, steps) && n < |states| && l in states[n].core.loops
    requires states[n].core.loops[l].pc.Dispatching? && i < |states[n].core.loops[l].active|
    requires states[n].core.loops[l].active[i].ReadyConn?
    ensures var s := states[n];
            var c := s.core.loops[l].active[i].c;
            && c in s.conns && l in s.pollers && Owned(s, c) && Epoll.InMap(s.pollers[l], c, c.fd)
            && (i >= s.core.loops[l].at ==> Epoll.InKernel(s.pollers[l], c, c.fd))
  {
    RunKeepsSysInv(states, steps, n);
    ActiveIsRegistered(states[n], l, i);
  }

  lemma ActiveIsRegistered(s: System, l: LoopId, i: nat)
    requires SysInv(s) && l in s.core.loops && s.core.loops[l].pc.Dispatching?
    requires i < |s.core.loops[l].active| && s.core.loops[l].active[i].ReadyConn?
    ensures var c := s.core.loops[l].active[i].c;
            && c in s.conns && l in s.pollers && Owned(s, c) && Epoll.InMap(s.pollers[l], c, c.fd)
            && (i >= s.core.loops[l].at ==> Epoll.InKernel(s.pollers[l], c, c.fd))
  {
    hide CoreInv, WellPlaced, Bound, FdsDistinct, MapOk, PollersOk, Owned, AccountedIn;
    var v := s.core.loops[l];
    assert ActiveOk(s.conns, l, v);
    assert ActiveConn(s.conns, l, v.active[i], i >= v.at);
    var c := v.active[i].c;
    assert ConnOkIn(s, c);
    UnfinishedHasOwner(s, c);
  }

  // ---------------------------------------------------------------------------------------------
  // Loops.

  /** In every reachable state, for every loop: functors run first-in first-out and exactly once, no
      wakeup is lost, and no quit is slept through. */
  lemma LoopsStaySafe(states: seq<System>, steps: seq<SysStep>, n: nat, l: LoopId)
    requires IsRun(states, steps) && n < |states| && l in states[n].core.loops
    ensures var c := states[n].core;
            LoopOk(c.loops[l]) && NoLostWakeup(c, l) && NoMissedQuit(c, l)
  {
    RunKeepsSysInv(states, steps, n);
    assert CoreInv(states[n].core);
  }

  lemma OneAction(c: Core, a: Action)
    requires Can(c, a)
    ensures CanAll(c, [a]) && ApplyAll(c, [a]) == Apply(c, a)
  {
    assert [a][1..] == [] && CanAll(Apply(c, a), [a][1..]);
  }

  lemma CoreOfStep(s: System, step: SysStep, t: System)
    requires Next(s, step, t)
    ensures |CoreActions(s, step)| <= 1
    ensures CanAll(s.core, CoreActions(s, step)) && ApplyAll(s.core, CoreActions(s, step)) == t.core
  {
    hide Run, HasOwner, EventOps, Apply, TasksOf, Can, ServeAction, FunctorAction, AcceptAction;
    var acts := CoreActions(s, step);
    if acts != [] {
      OneAction(s.core, acts[0]);
      assert acts == [acts[0]];
    }
  }

  /** The actions the loops take during steps m to n of a run, in order. */
  ghost function RunActions(states: seq<System>, steps: seq<SysStep>, m: nat, n: nat): seq<Action>
    requires |states| == |steps| + 1 && m <= n <= |steps|
    decreases n - m
  {
    if m == n then [] else CoreActions(states[m], steps[m]) + RunActions(states, steps, m + 1, n)
  }

  lemma FirstAction(states: seq<System>, steps: seq<SysStep>, m: nat, n: nat)
    requires IsRun(states, steps) && m < n <= |steps|
    ensures var first, acts := CoreActions(states[m], steps[m]), RunActions(states, steps, m, n);
            if first == [] then acts == RunActions(states, steps, m + 1, n) && states[m + 1].core == states[m].core
            else && acts != [] && first == [acts[0]] && acts[1..] == RunActions(states, steps, m + 1, n)
                 && Can(states[m].core, acts[0]) && states[m + 1].core == Apply(states[m].core, acts[0])
  {
    var first := CoreActions(states[m], steps[m]);
    assert Next(states[m], steps[m], states[m + 1]);
    CoreOfStep(states[m], steps[m], states[m + 1]);
    hide Next, Initial, CoreActions, Can, Apply;
    if first == [] {
      assert [] + RunActions(states, steps, m + 1, n) == RunActions(states, steps, m + 1, n);
    } else {
      assert first[1..] == [];
    }
  }

  /** A run of the server is a run of its loops: the actions of its steps, in order, lead each core it
      passes to the next. */
  lemma {:induction false} ServerRunsItsLoops(states: seq<System>, steps: seq<SysStep>, m: nat, n: nat)
    requires IsRun(states, steps) && m <= n <= |steps|
    ensures var acts := RunActions(states, steps, m, n);
            CanAll(states[m].core, acts) && ApplyAll(states[m].core, acts) == states[n].core
    decreases n - m
  {
    hide Next, Initial, CoreActions, Can, Apply;
    if m < n {
      FirstAction(states, steps, m, n);
      ServerRunsItsLoops(states, steps, m + 1, n);
    }
  }

  /** A step of the server that takes this very action. */
  lemma PlainSteps(s: System, step: SysStep, t: System, a: Action)
    requires Next(s, step, t) && CoreActions(s, step) == [a] && !a.Dispatch? && !a.RunNext?
    ensures step == Plain(a)
  {
    hide Run, HasOwner, EventOps, Apply, TasksOf, Can, NextServe, NextAccept, NextFunctor;
  }

  lemma {:induction false} ActionsComeFromSteps(states: seq<System>, steps: seq<SysStep>, m: nat, n: nat, a: Action)
    requires IsRun(states, steps) && m <= n <= |steps| && !a.Dispatch? && !a.RunNext?
    requires a in RunActions(states, steps, m, n)
    ensures exists i :: m <= i < n && steps[i] == Plain(a)
    decreases n - m
  {
    FirstAction(states, steps, m, n);
    assert Next(states[m], steps[m], states[m + 1]);
    hide Next, Initial, CoreActions, Can, Apply;
    var acts := RunActions(states, steps, m, n);
    if CoreActions(states[m], steps[m]) == [a] {
      PlainSteps(states[m], steps[m], states[m + 1], a);
    } else {
      assert a in RunActions(states, steps, m + 1, n);
      ActionsComeFromSteps(states, steps, m + 1, n, a);
    }
  }

  /** A batch of the server runs exactly what was queued at its swap, in order, however much is queued
      before it ends. */
  lemma ServerBatchRunsTheSwap(states: seq<System>, steps: seq<SysStep>, m: nat, n: nat, l: LoopId)
    requires IsRun(states, steps) && m < n < |steps|
    requires steps[m] == Plain(SwapBatch(l)) && steps[n] == Plain(EndBatch(l))
    requires forall i :: m < i < n ==> steps[i] != Plain(EndBatch(l))
    ensures l in states[m].core.loops && l in states[n].core.loops
    ensures states[n].core.loops[l].executed == states[m].core.loops[l].executed + states[m].core.loops[l].pending
  {
    RunKeepsSysInv(states, steps, m);
    assert CoreInv(states[m].core);
    assert Next(states[m], steps[m], states[m + 1]) && Next(states[n], steps[n], states[n + 1]);
    assert Can(states[m].core, SwapBatch(l)) && Can(states[n].core, EndBatch(l));
    hide SysInv, CoreInv, Next, Initial, Can, Apply;
    FirstAction(states, steps, m, n);
    ServerRunsItsLoops(states, steps, m, n);
    var acts := RunActions(states, steps, m, n);
    forall i | 0 < i < |acts|
      ensures acts[i] != EndBatch(l)
    {
      if acts[i] == EndBatch(l) {
        assert acts[1..][i - 1] == acts[i];
        ActionsComeFromSteps(states, steps, m + 1, n, EndBatch(l));
      }
    }
    BatchEnds(states[m].core, acts, l);
  }

  lemma BatchEnds(c: Core, acts: seq<Action>, l: LoopId)
    requires CoreInv(c) && CanAll(c, acts) && |acts| > 0 && acts[0] == SwapBatch(l)
    requires forall i :: 0 < i < |acts| ==> acts[i] != EndBatch(l)
    requires Can(ApplyAll(c, acts), EndBatch(l))
    ensures l in c.loops && l in ApplyAll(c, acts).loops
    ensures ApplyAll(c, acts).loops[l].executed == c.loops[l].executed + c.loops[l].pending
  {
    BatchRunsExactlyTheSwap(c, acts, l);
  }

  /** A loop that is not told to quit passes its test and goes to poll. */
  ghost predicate PassesTestAt(s: System, step: SysStep, l: LoopId) {
    step == Plain(Test(l)) && l in s.core.loops && !s.core.loops[l].quit
  }

  lemma {:induction false} TestsComeFromSteps(states: seq<System>, steps: seq<SysStep>, m: nat, n: nat, l: LoopId)
    requires IsRun(states, steps) && m <= n <= |steps|
    requires forall i :: m <= i < n ==> !PassesTestAt(states[i], steps[i], l)
    ensures var acts := RunActions(states, steps, m, n);
            CanAll(states[m].core, acts) && !PassesTest(states[m].core, acts, l)
    decreases n - m
  {
    ServerRunsItsLoops(states, steps, m, n);
    if m < n {
      assert Next(states[m], steps[m], states[m + 1]);
      FirstAction(states, steps, m, n);
      TestsComeFromSteps(states, steps, m + 1, n, l);
      var first := CoreActions(states[m], steps[m]);
      hide Next, Initial, CoreActions, Apply;
      if first == [Test(l)] {
        PlainSteps(states[m], steps[m], states[m + 1], Test(l));
        assert !PassesTestAt(states[m], steps[m], l);
      }
    }
  }

  /** Everything queued on a loop when its poll returns has run, in order, when it is next at its
      test, whatever the other loops and threads do in between. */
  lemma ServerRunsQueueBeforeNextTest(states: seq<System>, steps: seq<SysStep>, m: nat, n: nat, l: LoopId)
    requires IsRun(states, steps) && m <= n <= |steps|
    requires l in states[m].core.loops && states[m].core.loops[l].pc.AtPoll?
    requires l in states[n].core.loops && states[n].core.loops[l].pc.AtTest?
    requires forall i :: m <= i < n ==> !PassesTestAt(states[i], steps[i], l)
    ensures states[m].core.loops[l].executed + states[m].core.loops[l].pending <= states[n].core.loops[l].executed
  {
    RunKeepsSysInv(states, steps, m);
    assert CoreInv(states[m].core);
    hide SysInv, CoreInv, Next, Initial, Can, Apply;
    ServerRunsItsLoops(states, steps, m, n);
    TestsComeFromSteps(states, steps, m, n, l);
    QueuedRunsBeforeNextTest(states[m].core, RunActions(states, steps, m, n), l);
  }

  predicate PollsAt(step: SysStep, l: LoopId) { step.Plain? && step.a.Poll? && step.a.l == l }

  function CountPolls(steps: seq<SysStep>, l: LoopId): nat {
    if steps == [] then 0 else (if PollsAt(steps[0], l) then 1 else 0) + CountPolls(steps[1..], l)
  }

  lemma PollOfStep(s: System, step: SysStep, t: System, l: LoopId)
    requires Next(s, step, t)
    ensures |CoreActions(s, step)| <= 1 && Polls(CoreActions(s, step), l) == if PollsAt(step, l) then 1 else 0
  {
    hide Run, HasOwner, EventOps, Apply, TasksOf, Can, NextServe, NextAccept, NextFunctor;
  }

  lemma {:induction false} PollsComeFromSteps(states: seq<System>, steps: seq<SysStep>, m: nat, n: nat, l: LoopId)
    requires IsRun(states, steps) && m <= n <= |steps|
    ensures Polls(RunActions(states, steps, m, n), l) == CountPolls(steps[m..n], l)
    decreases n - m
  {
    if m < n {
      assert Next(states[m], steps[m], states[m + 1]);
      PollOfStep(states[m], steps[m], states[m + 1], l);
      FirstAction(states, steps, m, n);
      hide Next, Initial, CoreActions, Can, Apply;
      PollsComeFromSteps(states, steps, m + 1, n, l);
      assert steps[m..n][1..] == steps[m + 1..n];
    }
  }

  /** A loop of the server told to quit polls at most once more, and not at all unless it was already
      in poll; once out it runs nothing. */
  lemma ServerQuitEndsTheLoop(states: seq<System>, steps: seq<SysStep>, m: nat, n: nat, l: LoopId)
    requires IsRun(states, steps) && m <= n <= |steps|
    requires l in states[m].core.loops && states[m].core.loops[l].quit
    ensures l in states[n].core.loops && states[n].core.loops[l].quit
    ensures CountPolls(steps[m..n], l) <= if states[m].core.loops[l].pc.AtPoll? then 1 else 0
    ensures CountPolls(steps[m..n], l) == 1 ==> !states[n].core.loops[l].pc.AtPoll?
    ensures states[m].core.loops[l].pc.Exited? ==>
              && states[n].core.loops[l].pc.Exited?
              && states[n].core.loops[l].executed == states[m].core.loops[l].executed
  {
    hide Next, Initial, Can, Apply;
    ServerRunsItsLoops(states, steps, m, n);
    PollsComeFromSteps(states, steps, m, n, l);
    QuitEndsTheLoop(states[m].core, RunActions(states, steps, m, n), l);
  }

  // ---------------------------------------------------------------------------------------------
  // Lifecycle.

  /** connectEstablished is waiting or has run, exactly once, and always before any close or
      connectDestroyed; every close request is waiting as a functor or has been answered by one
      connectDestroyed; a connection with no close outstanding and not erased is in `connections_`. */
  lemma LifecycleIsConserved(states: seq<System>, steps: seq<SysStep>, n: nat, c: Handle)
    requires IsRun(states, steps) && n < |states| && c in states[n].conns
    ensures var s := states[n];
            var k := s.conns[c];
            && HousedConn(s.core, c)
            && Waiting(s.core, Established(c)) + k.ups == 1
            && Waiting(s.core, RemoveConn(c)) + Waiting(s.core, Destroyed(c)) + k.destroyed == k.downs
            && (k.downs > 0 || k.destroyed > 0 ==> k.ups == 1)
            && (k.state.Disconnected? <==> k.downs > 0)
            && (c in s.erased <==> Waiting(s.core, Destroyed(c)) + k.destroyed > 0)
  {
    RunKeepsSysInv(states, steps, n);
    var s := states[n];
    assert AccountedIn(s, c) && ConnOkIn(s, c);
  }

  ghost predicate ClosesTwiceAt(s: System, step: SysStep, c: Handle) {
    && step.Serve? && step.l in s.core.loops && s.core.loops[step.l].at < |s.core.loops[step.l].active|
    && var src := s.core.loops[step.l].active[s.core.loops[step.l].at];
       src.ReadyConn? && src.c == c && ConnectionTheorems.ClosesTwice(src.revents, step.env)
  }

  lemma DoubledByStep(s: System, step: SysStep, t: System, c: Handle)
    requires Next(s, step, t)
    ensures c in t.doubled <==> c in s.doubled || ClosesTwiceAt(s, step, c)
  {
    hide Run, HasOwner, EventOps, Apply, TasksOf, Can;
  }

  lemma {:induction false} DoubledByRun(states: seq<System>, steps: seq<SysStep>, n: nat, c: Handle)
    requires IsRun(states, steps) && n < |states|
    ensures c in states[n].doubled <==> exists i :: 0 <= i < n && ClosesTwiceAt(states[i], steps[i], c)
  {
    if n > 0 {
      DoubledByRun(states, steps, n - 1, c);
      assert Next(states[n - 1], steps[n - 1], states[n]);
      DoubledByStep(states[n - 1], steps[n - 1], states[n], c);
    }
  }

  /** A connection closes at most once exactly when it met no event of kind ClosesTwice; each
      connectDestroyed answers a close, and once no close is still waiting to be answered the
      connection has been destroyed as often as it closed, so that the same condition decides whether
      it is destroyed at most once. */
  lemma ClosesAtMostOnce(states: seq<System>, steps: seq<SysStep>, n: nat, c: Handle)
    requires IsRun(states, steps) && n < |states| && c in states[n].conns
    ensures var s := states[n];
            var once := forall i :: 0 <= i < n ==> !ClosesTwiceAt(states[i], steps[i], c);
            && HousedConn(s.core, c)
            && (s.conns[c].downs <= 1 <==> once)
            && s.conns[c].destroyed <= s.conns[c].downs
            && (Waiting(s.core, RemoveConn(c)) == 0 && Waiting(s.core, Destroyed(c)) == 0 ==>
                  s.conns[c].destroyed == s.conns[c].downs && (s.conns[c].destroyed <= 1 <==> once))
  {
    RunKeepsSysInv(states, steps, n);
    assert AccountedIn(states[n], c);
    hide SysInv;
    DoubledByRun(states, steps, n, c);
  }

  // ---------------------------------------------------------------------------------------------
  // connections_.

  /** `connections_` holds exactly the accepted connections that have not been erased, each under its
      own name. */
  lemma ConnectionsAreAcceptedLessErased(states: seq<System>, steps: seq<SysStep>, n: nat)
    requires IsRun(states, steps) && n < |states|
    ensures var s := states[n];
            && s.server.connections.Values == s.conns.Keys - s.erased
            && (forall name :: name in s.server.connections ==> name == NameOf(s.server, s.server.connections[name]))
  {
    RunKeepsSysInv(states, steps, n);
    var s := states[n];
    assert MapOk(s.conns.Keys, s.server, s.erased);
    hide SysInv, IsRun;
    MapHoldsTheRest(s.conns.Keys, s.server, s.erased);
  }

  lemma MapHoldsTheRest(known: set<Handle>, server: Server, erased: set<Handle>)
    requires MapOk(known, server, erased)
    ensures server.connections.Values == known - erased
  {
    forall c
      ensures c in server.connections.Values <==> c in known - erased
    {
      if c in known - erased {
        assert InConnections(server, c);
        assert server.connections[NameOf(server, c)] == c;
      } else if c in server.connections.Values {
        var n :| n in server.connections && server.connections[n] == c;
        assert n == NameOf(server, c);
        assert InConnections(server, c);
      }
    }
  }

  /** Accepting never overwrites an entry of `connections_`. */
  lemma AcceptNeverOverwrites(states: seq<System>, steps: seq<SysStep>, n: nat)
    requires IsRun(states, steps) && n < |steps| && steps[n].Accept?
    ensures var s, c := states[n], Handle(states[n].server.nextConnId, steps[n].io, steps[n].fd);
            NameOf(s.server, c) !in s.server.connections
  {
    RunKeepsSysInv(states, steps, n);
    assert Next(states[n], steps[n], states[n + 1]);
    hide SysInv;
    NewNameIsFree(states[n], steps[n], states[n + 1]);
  }

  lemma NewNameIsFree(s: System, step: SysStep, t: System)
    requires SysInv(s) && step.Accept? && Next(s, step, t)
    ensures NameOf(s.server, Handle(s.server.nextConnId, step.io, step.fd)) !in s.server.connections
  {
    assert s.server.nextConnId <= ConnName.INT_MAX by {
      hide SysInv, Run, Apply, Can, HasOwner, Current;
    }
    hide SysInv, Next;
    ReactorSteps.MapByInv(s);
    var c := Handle(s.server.nextConnId, step.io, step.fd);
    if NameOf(s.server, c) in s.server.connections {
      var d := s.server.connections[NameOf(s.server, c)];
      ConnName.DistinctIdsDistinctNames(s.server.name, s.server.ipPort, c.id, d.id);
      assert false;
    }
  }

  // ---------------------------------------------------------------------------------------------
  // The guards of the model never hold a handler back.

  lemma {:induction false} TasksOfTargets(core: Core, c: Handle, notes: seq<Note>)
    requires BASE in core.loops && c.io in core.loops
    ensures Targeted(core, TasksOf(c, notes))
    decreases |notes|
  {
    if notes != [] {
      TasksOfTargets(core, c, notes[1..]);
    }
  }

  lemma LoopsOfConn(s: System, c: Handle)
    requires SysInv(s) && c in s.conns
    ensures BASE in s.core.loops && c.io in s.core.loops
  {
    hide CoreInv, WellPlaced, Bound, ConnsOk, PollersOk, FdsDistinct, MapOk, ActivesOk, AccountedIn;
    assert Known(s);
  }

  lemma CanServe(core: Core, l: LoopId, c: Handle, notes: seq<Note>, extra: seq<Task>)
    requires BASE in core.loops && c.io in core.loops && AtPc(core, l, Dispatching)
    requires core.loops[l].at < |core.loops[l].active| && Targeted(core, extra)
    ensures Can(core, Dispatch(l, TasksOf(c, notes) + extra))
  {
    TasksOfTargets(core, c, notes);
  }

  /** Whatever channel a dispatching loop has reached, its handler can run, for everything the kernel
      and the user code may do. */
  lemma EveryEventIsServed(s: System, l: LoopId, env: Env, extra: seq<Task>) returns (t: System)
    requires SysInv(s) && AtPc(s.core, l, Dispatching) && s.core.loops[l].at < |s.core.loops[l].active|
    requires s.core.loops[l].active[s.core.loops[l].at].ReadyConn?
    requires UserTasks(extra) && Targeted(s.core, extra)
    ensures Next(s, Serve(l, env, extra), t)
  {
    hide SysInv, Run, EventOps, Apply, Can, AccountedIn, ConnOkIn, ActiveOk, TasksOf, Targeted;
    hide ConnectionTheorems.ClosesTwice;
    ReactorSteps.ServeFacts(s, l);
    var c := CurrentConn(s, l);
    var ops := EventOps(CurrentEvents(s, l), env);
    var notes := NotesOf(s, c, ops);
    LoopsOfConn(s, c);
    CanServe(s.core, l, c, notes, extra);
    var u := if ConnectionTheorems.ClosesTwice(CurrentEvents(s, l), env) then s.(doubled := s.doubled + {c}) else s;
    t := Move(u, ServeAction(s, l, env, extra), c, ops, c.io == BASE && CloseRequest in notes);
  }

  lemma CanRunFunctor(s: System, l: LoopId, calls: seq<UserOp>, extra: seq<Task>)
    requires Known(s) && AtFunctor(s, l) && Targeted(s.core, extra)
    ensures Can(s.core, FunctorAction(s, l, calls, extra))
  {
    hide Run, FunctorOps, TasksOf;
    var f := CurrentFunctor(s, l);
    if !f.User? {
      TasksOfTargets(s.core, f.c, NotesOf(s, f.c, FunctorOps(f, calls)));
    }
  }

  lemma FunctorIsReached(s: System, l: LoopId)
    requires SysInv(s) && AtPc(s.core, l, Running) && s.core.loops[l].next < |s.core.loops[l].batch|
    ensures AtFunctor(s, l) && Known(s)
  {
    ReactorSteps.PartsOfInv(s);
    hide SysInv, Known;
    if !CurrentFunctor(s, l).User? {
      ReactorSteps.RunsInPlace(s, l, CurrentFunctor(s, l));
    }
  }

  /** Whatever functor a loop has reached in its batch, it can run, for everything the user code may
      do. */
  lemma EveryFunctorRuns(s: System, l: LoopId, calls: seq<UserOp>, extra: seq<Task>) returns (t: System)
    requires SysInv(s) && AtPc(s.core, l, Running) && s.core.loops[l].next < |s.core.loops[l].batch|
    requires UserTasks(extra) && Targeted(s.core, extra)
    ensures Next(s, RunFunctor(l, calls, extra), t)
  {
    hide SysInv, AtFunctor, UserTasks, Targeted, NextFunctor;
    FunctorIsReached(s, l);
    hide Known;
    t := FunctorCanRun(s, l, calls, extra);
  }

  lemma FunctorCanRun(s: System, l: LoopId, calls: seq<UserOp>, extra: seq<Task>) returns (t: System)
    requires Known(s) && AtFunctor(s, l) && UserTasks(extra) && Targeted(s.core, extra)
    ensures NextFunctor(s, l, calls, extra, t)
  {
    CanRunFunctor(s, l, calls, extra);
    hide Known, Apply, Can, FunctorOps, Move, FunctorAction, UserTasks, Targeted;
    var f, a := CurrentFunctor(s, l), FunctorAction(s, l, calls, extra);
    if f.User? {
      t := s.(core := Apply(s.core, a));
    } else {
      t := Move(s, a, f.c, FunctorOps(f, calls), f.RemoveConn?);
    }
  }
}
