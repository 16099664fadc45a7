/** What each step of the server does to the connection it concerns, to `connections_` and to what the
    running thread does next; that no loop of the server ever sticks; and what becomes of a quit. */
module ReactorEffects {
  import Buffers
  import ConnName
  import ConnectionTheorems
  import LoopEffects
  import ReactorSteps
  import ReactorTheorems
  import opened Epoll
  import opened Connections
  import opened Loops
  import opened Reactor
  import opened ReactorInvariant
  import opened Tokens

  /** Connection `c` is now as `v`, its notes handed on; no other connection has changed. */
  ghost predicate Became(s: System, t: System, c: Handle, v: World<Handle>)
    requires c in s.conns
  {
    && c.io in t.pollers && t.conns == s.conns[c := v.conn.(outbox := [])]
    && t.pollers == s.pollers[c.io := v.poller]
  }

  /** What the thread of loop `l` does next. */
  ghost predicate Left(t: System, l: LoopId, tasks: seq<Task>) {
    OfLoop(l) in t.core.threads && t.core.threads[OfLoop(l)] == Thread(Nothing, tasks)
  }

  /** What a connection asks for is queued in the order it asked: callbacks on its own loop, and a close
      request as the removal of its entry by the base loop, or, when it is the base loop's own
      connection, where the entry goes at once, as its destruction. */
  lemma {:induction false} NotesAreQueuedInOrder(c: Handle, notes: seq<Note>)
    ensures |TasksOf(c, notes)| == |notes|
    ensures forall i :: 0 <= i < |notes| ==>
              TasksOf(c, notes)[i] ==
                if notes[i] != CloseRequest then Queue(c.io, Notify(c, notes[i]))
                else if c.io == 0 then Queue(0, Destroyed(c))
                else Queue(0, RemoveConn(c))
    decreases |notes|
  {
    if notes != [] {
      NotesAreQueuedInOrder(c, notes[1..]);
      assert forall i :: 0 < i < |notes| ==> notes[i] == notes[1..][i - 1];
    }
  }

  lemma MoveEffect(s: System, a: Action, c: Handle, ops: seq<Op>, erase: bool)
    requires Movable(s, c) && Can(s.core, a) && (a.Dispatch? || a.RunNext?)
    ensures var t, v := Move(s, a, c, ops, erase), Run(s.cfg, WorldOf(s, c), ops);
            && Became(s, t, c, v) && Left(t, a.l, a.tasks)
            && t.server.connections
               == (if erase then s.server.connections - {NameOf(s.server, c)} else s.server.connections)
            && t.server.nextConnId == s.server.nextConnId
  {
    hide Run;
  }

  /** A connection's entry is under the server's own name, the listening address and the id. */
  lemma EntryName(server: Server, c: Handle)
    requires |server.ipPort| <= 51 && c.id <= ConnName.INT_MAX
    ensures NameOf(server, c) == server.name + "-" + server.ipPort + "#" + ConnName.Decimal(c.id)
  {
    ConnName.NameIsWhole(server.name, server.ipPort, c.id);
  }

  // ---------------------------------------------------------------------------------------------
  // Functors.

  /** connectEstablished establishes the connection and runs the up callback's code. */
  lemma EstablishedRuns(s: System, l: LoopId, c: Handle, calls: seq<UserOp>, extra: seq<Task>, t: System)
    requires NextFunctor(s, l, calls, extra, t) && CurrentFunctor(s, l) == Established(c)
    ensures var v := Run(s.cfg, Step(s.cfg, WorldOf(s, c), Establish), calls);
            && Became(s, t, c, v) && Left(t, l, TasksOf(c, v.conn.outbox) + extra)
            && t.server.connections == s.server.connections
  {
    FirstThenRest(s.cfg, WorldOf(s, c), Establish, calls);
    hide Run, Step, Can, Apply, Move, Became, Left, TasksOf;
    MoveEffect(s, FunctorAction(s, l, calls, extra), c, [Establish] + calls, false);
  }

  /** A callback runs the user's code. */
  lemma NotifyRuns(s: System, l: LoopId, c: Handle, note: Note, calls: seq<UserOp>, extra: seq<Task>, t: System)
    requires NextFunctor(s, l, calls, extra, t) && CurrentFunctor(s, l) == Notify(c, note)
    ensures var v := Run(s.cfg, WorldOf(s, c), calls);
            && Became(s, t, c, v) && Left(t, l, TasksOf(c, v.conn.outbox) + extra)
            && t.server.connections == s.server.connections
  {
    hide Run, Can, Apply, Move, Became, Left, TasksOf;
    MoveEffect(s, FunctorAction(s, l, calls, extra), c, calls, false);
  }

  /** connectDestroyed destroys the connection. */
  lemma DestroyedRuns(s: System, l: LoopId, c: Handle, calls: seq<UserOp>, extra: seq<Task>, t: System)
    requires NextFunctor(s, l, calls, extra, t) && CurrentFunctor(s, l) == Destroyed(c)
    ensures var v := Step(s.cfg, WorldOf(s, c), Destroy);
            && Became(s, t, c, v) && Left(t, l, TasksOf(c, v.conn.outbox) + extra)
            && t.server.connections == s.server.connections
  {
    FirstThenRest(s.cfg, WorldOf(s, c), Destroy, []);
    assert [Destroy] + [] == [Destroy];
    assert Run(s.cfg, Step(s.cfg, WorldOf(s, c), Destroy), []) == Step(s.cfg, WorldOf(s, c), Destroy);
    hide Run, Step, Can, Apply, Move, Became, Left, TasksOf;
    MoveEffect(s, FunctorAction(s, l, calls, extra), c, [Destroy], false);
  }

  /** removeConnectionInLoop erases the connection's entry, and no other, and queues connectDestroyed on
      the connection's loop. */
  lemma RemoveRuns(s: System, l: LoopId, c: Handle, calls: seq<UserOp>, extra: seq<Task>, t: System)
    requires NextFunctor(s, l, calls, extra, t) && CurrentFunctor(s, l) == RemoveConn(c)
    ensures var n := NameOf(s.server, c);
            && Became(s, t, c, WorldOf(s, c)) && Left(t, l, [Queue(c.io, Destroyed(c))] + extra)
            && t.server.connections == s.server.connections - {n}
  {
    assert Run(s.cfg, WorldOf(s, c), []) == WorldOf(s, c);
    hide Run, Can, Apply, Move, Became, Left;
    MoveEffect(s, FunctorAction(s, l, calls, extra), c, [], true);
  }

  /** A functor of user code leaves every connection alone. */
  lemma UserRuns(s: System, l: LoopId, calls: seq<UserOp>, extra: seq<Task>, t: System)
    requires NextFunctor(s, l, calls, extra, t) && CurrentFunctor(s, l).User?
    ensures t == s.(core := t.core) && Left(t, l, extra)
  {
  }

  lemma FirstThenRest(cfg: Config, w: World<Handle>, op: Op, ops: seq<Op>)
    ensures Run(cfg, w, [op] + ops) == Run(cfg, Step(cfg, w, op), ops)
  {
    assert ([op] + ops)[1..] == ops;
  }

  // ---------------------------------------------------------------------------------------------
  // Events and new connections.

  /** A dispatched channel's events are handled; a connection of the base loop that closes is erased at
      once, any other keeps its entry until the base loop gets to it. */
  lemma ServeRuns(s: System, l: LoopId, env: Env, extra: seq<Task>, t: System)
    requires NextServe(s, l, env, extra, t)
    ensures var c := CurrentConn(s, l);
            var v := Run(s.cfg, WorldOf(s, c), EventOps(CurrentEvents(s, l), env));
            && Became(s, t, c, v) && Left(t, l, TasksOf(c, v.conn.outbox) + extra)
            && t.server.connections == (if c.io == 0 && CloseRequest in v.conn.outbox
                                        then s.server.connections - {NameOf(s.server, c)} else s.server.connections)
  {
    var c, ops := CurrentConn(s, l), EventOps(CurrentEvents(s, l), env);
    var u := if ConnectionTheorems.ClosesTwice(CurrentEvents(s, l), env) then s.(doubled := s.doubled + {c}) else s;
    hide Run, Can, Apply, Move, EventOps, ConnectionTheorems.ClosesTwice, TasksOf, Left, Became;
    MoveEffect(u, ServeAction(s, l, env, extra), c, ops, c.io == BASE && CloseRequest in NotesOf(s, c, ops));
    assert WorldOf(u, c) == WorldOf(s, c);
    SameBecame(s, u, t, c, Run(s.cfg, WorldOf(s, c), ops));
  }

  lemma SameBecame(s: System, u: System, t: System, c: Handle, v: World<Handle>)
    requires c in s.conns && u.conns == s.conns && u.pollers == s.pollers && Became(u, t, c, v)
    ensures Became(s, t, c, v)
  {
  }

  /** A new connection gets the next id and an entry of its own. Given to the base loop it is established
      at once; given to another it is new, and its connectEstablished is about to be queued there. */
  lemma AcceptRuns(s: System, fd: int, io: LoopId, calls: seq<UserOp>, extra: seq<Task>, t: System)
    requires Next(s, Accept(fd, io, calls, extra), t)
    ensures var c := Handle(s.server.nextConnId, io, fd);
            && io in s.pollers && t.server.nextConnId == s.server.nextConnId + 1
            && t.server.connections == s.server.connections[NameOf(s.server, c) := c]
            && var w := World(c, fd, s.pollers[io], FRESH);
               var v := if io == 0 then Run(s.cfg, Step(s.cfg, w, Establish), calls) else w;
               && t.conns == s.conns[c := v.conn.(outbox := [])] && t.pollers == s.pollers[io := v.poller]
               && Left(t, 0, (if io == 0 then TasksOf(c, v.conn.outbox) else [Queue(io, Established(c))]) + extra)
  {
    var c := Handle(s.server.nextConnId, io, fd);
    var u, a, ops := Admit(s, c), AcceptAction(s, c, calls, extra), AcceptOps(io, calls);
    var w := WorldOf(u, c);
    assert w == World(c, fd, s.pollers[io], FRESH);
    FirstThenRest(s.cfg, w, Establish, calls);
    assert Run(s.cfg, w, []) == w;
    assert NextAccept(s, c, calls, extra, t);
    hide Run, Step, Can, Apply, Move, HasOwner, Current, TasksOf, Left;
    MoveEffect(u, a, c, ops, false);
    assert (s.conns[c := FRESH])[c := Run(s.cfg, w, ops).conn.(outbox := [])]
        == s.conns[c := Run(s.cfg, w, ops).conn.(outbox := [])];
  }

  lemma CanAccept(s: System, c: Handle, calls: seq<UserOp>, extra: seq<Task>)
    requires Current(s, BASE, Listener) && BASE in s.core.loops && c.io in s.core.loops && c.io in s.pollers
    requires Targeted(s.core, extra)
    ensures Can(s.core, AcceptAction(s, c, calls, extra))
  {
    hide Run, AcceptOps, TasksOf;
    ReactorTheorems.TasksOfTargets(s.core, c, NotesOf(Admit(s, c), c, AcceptOps(c.io, calls)));
  }

  /** A new connection can be accepted on any descriptor that is not open, one that a freed connection had
      included, and be given to any loop, whatever the user code does. */
  lemma AnyConnectionMayBeAccepted(s: System, fd: int, io: LoopId, calls: seq<UserOp>, extra: seq<Task>)
    returns (t: System)
    requires SysInv(s) && Current(s, BASE, Listener) && io in s.core.loops && s.server.nextConnId <= 2147483647
    requires forall d :: d in s.conns && d.fd == fd ==> !HasOwner(s, d)
    requires UserTasks(extra) && Targeted(s.core, extra)
    ensures Next(s, Accept(fd, io, calls, extra), t)
  {
    hide SysInv, HasOwner, UserTasks, Targeted, Run, AcceptOps, AcceptTasks, Apply, Can, Known;
    ConnsByInv(s);
    HasPoller(s, io);
    var c := Handle(s.server.nextConnId, io, fd);
    CanAccept(s, c, calls, extra);
    t := Move(Admit(s, c), AcceptAction(s, c, calls, extra), c, AcceptOps(io, calls), false);
  }

  lemma NewKeyCounts<K, V>(m: map<K, V>, k: K, v: V)
    requires k !in m
    ensures |m[k := v]| == |m| + 1
  {
    assert m[k := v].Keys == m.Keys + {k};
    assert |m[k := v].Keys| == |m[k := v]| && |m.Keys| == |m|;
  }

  lemma SameKeysCount<K, V>(m: map<K, V>, n: map<K, V>)
    requires m.Keys == n.Keys
    ensures |m| == |n|
  {
    assert |m.Keys| == |m| && |n.Keys| == |n|;
  }

  lemma NextIdIsNew(s: System, c: Handle)
    requires Known(s) && c.id == s.server.nextConnId
    ensures c !in s.conns
  {
  }

  lemma StepCounts(s: System, step: SysStep, t: System)
    requires SysInv(s) && Next(s, step, t) && |s.conns| + 1 == s.server.nextConnId
    ensures |t.conns| + 1 == t.server.nextConnId
  {
    hide SysInv, Next, Known, MapOk, Run, Left, TasksOf;
    ReactorSteps.MapByInv(s);
    if step.Accept? {
      var c := Handle(s.server.nextConnId, step.io, step.fd);
      NextIdIsNew(s, c);
      AcceptRuns(s, step.fd, step.io, step.calls, step.extra, t);
      NewKeyCounts(s.conns, c, t.conns[c]);
    } else {
      OthersAdmitNobody(s, step, t);
      SameKeysCount(s.conns, t.conns);
    }
  }

  lemma OthersAdmitNobody(s: System, step: SysStep, t: System)
    requires Next(s, step, t) && !step.Accept?
    ensures t.conns.Keys == s.conns.Keys && t.server.nextConnId == s.server.nextConnId
  {
    hide NextServe, NextFunctor, PlainAction, HasOwner, Apply, Current, Can;
    match step {
      case Serve(l, env, extra) => ServeAdmitsNobody(s, l, env, extra, t);
      case RunFunctor(l, calls, extra) => FunctorAdmitsNobody(s, l, calls, extra, t);
      case Plain(_) =>
      case DrainWakeup(_) =>
      case AcceptFails =>
      case Pin(_) =>
      case Unpin(_) =>
    }
  }

  lemma ServeAdmitsNobody(s: System, l: LoopId, env: Env, extra: seq<Task>, t: System)
    requires NextServe(s, l, env, extra, t)
    ensures t.conns.Keys == s.conns.Keys && t.server.nextConnId == s.server.nextConnId
  {
    hide Run, Apply, Can, EventOps, ServeAction, ConnectionTheorems.ClosesTwice;
  }

  lemma FunctorAdmitsNobody(s: System, l: LoopId, calls: seq<UserOp>, extra: seq<Task>, t: System)
    requires NextFunctor(s, l, calls, extra, t)
    ensures t.conns.Keys == s.conns.Keys && t.server.nextConnId == s.server.nextConnId
  {
    hide Run, Apply, Can, FunctorOps, FunctorAction;
  }

  lemma StartsEmpty(s: System)
    requires Initial(s)
    ensures |s.conns| == 0 && s.server.nextConnId == 1
  {
  }

  /** Ids are given out in order and none is skipped: the next id is one more than the number of
      connections accepted so far. */
  lemma {:induction false} IdsCountConnections(states: seq<System>, steps: seq<SysStep>, n: nat)
    requires IsRun(states, steps) && n < |states|
    ensures states[n].server.nextConnId == |states[n].conns| + 1
  {
    hide SysInv, Next, Initial;
    if n == 0 {
      StartsEmpty(states[0]);
    } else {
      IdsCountConnections(states, steps, n - 1);
      ReactorTheorems.RunKeepsSysInv(states, steps, n - 1);
      StepCounts(states[n - 1], steps[n - 1], states[n]);
    }
  }

  // ---------------------------------------------------------------------------------------------
  // Going on.

  /** Is this a step of loop `l` itself, or of its thread? */
  predicate OwnStep(step: SysStep, l: LoopId) {
    match step
    case Plain(a) =>
      (match a
       case Wake(t) => t == OfLoop(l)
       case DoTask(t) => t == OfLoop(l)
       case Plan(_, _) => false
       case Test(k) => k == l
       case Poll(k, _) => k == l
       case Dispatch(_, _) => false
       case EndDispatch(k) => k == l
       case SwapBatch(k) => k == l
       case RunNext(_, _) => false
       case EndBatch(k) => k == l)
    case DrainWakeup(k) => k == l
    case Accept(_, _, _, _) => l == BASE
    case AcceptFails => l == BASE
    case Serve(k, _, _) => k == l
    case RunFunctor(k, _, _) => k == l
    case Pin(_) => false
    case Unpin(_) => false
  }

  const QUIET := Env([], Buffers.ReadFailed(11), [], Buffers.WriteFailed(Buffers.EWouldBlock))

  lemma PlainGoesOn(s: System, a: Action) returns (t: System)
    requires PlainAction(s, a)
    ensures Next(s, Plain(a), t)
  {
    hide Can, Apply, MayReport;
    t := s.(core := Apply(s.core, a));
  }

  lemma SourceGoesOn(s: System, l: LoopId, src: Source) returns (step: SysStep, t: System)
    requires Current(s, l, src) && !src.ReadyConn? && (src == Listener ==> l == BASE)
    ensures Next(s, step, t) && OwnStep(step, l)
  {
    assert Can(s.core, Dispatch(l, []));
    hide Can, Apply, Current;
    step := if src == Listener then AcceptFails else DrainWakeup(l);
    t := s.(core := Apply(s.core, Dispatch(l, [])));
  }

  lemma DispatchGoesOn(s: System, l: LoopId) returns (step: SysStep, t: System)
    requires SysInv(s) && AtPc(s.core, l, Dispatching) && s.core.loops[l].at < |s.core.loops[l].active|
    ensures Next(s, step, t) && OwnStep(step, l)
  {
    hide SysInv, Next;
    var src := s.core.loops[l].active[s.core.loops[l].at];
    if src.ReadyConn? {
      NoTasks(s.core);
      step := Serve(l, QUIET, []);
      t := ReactorTheorems.EveryEventIsServed(s, l, QUIET, []);
    } else {
      ListenerIsOnBase(s, l);
      step, t := SourceGoesOn(s, l, src);
    }
  }

  lemma NoTasks(core: Core)
    ensures UserTasks([]) && Targeted(core, [])
  {
  }

  lemma ListenerIsOnBase(s: System, l: LoopId)
    requires SysInv(s) && l in s.core.loops && s.core.loops[l].pc.Dispatching?
    ensures Listener in s.core.loops[l].active ==> l == BASE
  {
    hide SysInv, CoreInv, WellPlaced, Known, ConnsOk, Sound;
    ReactorSteps.PartsOfInv(s);
    assert ActiveOk(s.conns, l, s.core.loops[l]);
  }

  lemma PlainIsAllowed(s: System, l: LoopId)
    requires SysInv(s) && l in s.core.loops && !s.core.loops[l].pc.Exited?
    ensures OfLoop(l) in s.core.threads && LoopEffects.NextAction.requires(s.core, l)
    ensures var a := LoopEffects.NextAction(s.core, l);
            && (!a.Dispatch? && !a.RunNext? ==> PlainAction(s, a) && OwnStep(Plain(a), l))
            && (a.Dispatch? ==> AtPc(s.core, l, Dispatching) && s.core.loops[l].at < |s.core.loops[l].active|)
            && (a.RunNext? ==> AtPc(s.core, l, Running) && s.core.loops[l].next < |s.core.loops[l].batch|)
  {
    hide SysInv, CoreInv, WellPlaced, Known, ConnsOk, ActivesOk, Sound;
    ReactorSteps.PartsOfInv(s);
    HasPoller(s, l);
    LoopEffects.LoopsNeverStick(s.core, l);
  }

  lemma HasPoller(s: System, l: LoopId)
    requires Known(s) && l in s.core.loops
    ensures l in s.pollers
  {
  }

  /** No loop of the server ever sticks: until it has left its loop it can take a step of its own. */
  lemma EveryLoopGoesOn(s: System, l: LoopId) returns (step: SysStep, t: System)
    requires SysInv(s) && l in s.core.loops && !s.core.loops[l].pc.Exited?
    ensures Next(s, step, t) && OwnStep(step, l)
  {
    hide SysInv, Next, PlainAction;
    PlainIsAllowed(s, l);
    var a := LoopEffects.NextAction(s.core, l);
    hide LoopEffects.NextAction;
    if a.Dispatch? {
      step, t := DispatchGoesOn(s, l);
    } else if a.RunNext? {
      NoTasks(s.core);
      step := RunFunctor(l, [], []);
      t := ReactorTheorems.EveryFunctorRuns(s, l, [], []);
    } else {
      step := Plain(a);
      t := PlainGoesOn(s, a);
    }
  }

  /** Poll may report any connection its loop's kernel set holds, with any of the events it is watched
      for, an error or a hang-up, or nothing at all. */
  lemma AnyEventMayBeReported(s: System, l: LoopId, fd: int, revents: Mask)
    requires SysInv(s) && AtPc(s.core, l, AtPoll) && l in s.pollers && fd in s.pollers[l].kernel
    requires revents <= s.pollers[l].kernel[fd].mask + {Err, Hup}
    ensures PlainAction(s, Poll(l, [ReadyConn(s.pollers[l].kernel[fd].channel, revents)]))
    ensures PlainAction(s, Poll(l, []))
  {
    hide SysInv, Known, ConnsOk, PollersOk, Run;
    ConnsByInv(s);
    WatchedIsUnfinished(s, l, fd);
  }

  lemma ConnsByInv(s: System)
    requires SysInv(s)
    ensures Known(s) && ConnsOk(s) && PollersOk(s)
  {
    hide CoreInv, WellPlaced, Bound, Known, ConnsOk, PollersOk, FdsDistinct, MapOk, ActivesOk, AccountedIn;
  }

  // ---------------------------------------------------------------------------------------------
  // A quit.

  /** Once any thread of the server has called quit on a loop, that loop polls at most once more, and not
      at all unless it was already in poll. */
  lemma ServerQuitIsObeyed(states: seq<System>, steps: seq<SysStep>, m: nat, n: nat, t: Tid, l: LoopId)
    requires IsRun(states, steps) && m < n <= |steps| && steps[m] == Plain(DoTask(t))
    requires Can(states[m].core, DoTask(t)) && states[m].core.threads[t].todo[0] == QuitLoop(l)
    ensures l in states[m].core.loops && l in states[n].core.loops && states[n].core.loops[l].quit
    ensures ReactorTheorems.CountPolls(steps[m + 1..n], l) <= if states[m].core.loops[l].pc.AtPoll? then 1 else 0
  {
    assert Next(states[m], steps[m], states[m + 1]);
    assert states[m + 1].core == Apply(states[m].core, DoTask(t));
    LoopEffects.QuitEffect(states[m].core, t, l);
    hide Next, Initial, Can, Apply;
    ReactorTheorems.ServerQuitEndsTheLoop(states, steps, m + 1, n, l);
  }
}
