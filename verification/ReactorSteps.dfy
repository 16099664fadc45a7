/** Every step of the server keeps its invariant. */
module ReactorSteps {
  import ConnName
  import Epoll
  import opened Connections
  import opened ConnectionTheorems
  import opened Loops
  import opened Reactor
  import opened Tokens
  import opened ReactorInvariant

  // ---------------------------------------------------------------------------------------------
  // Steps that move no connection.

  ghost predicate CoreOnly(s: System, a: Action) {
    && Can(s.core, a) && PlacedAction(a)
    && (a.Dispatch? ==> UserTasks(a.tasks) && !s.core.loops[a.l].active[s.core.loops[a.l].at].ReadyConn?)
    && (a.RunNext? ==> UserTasks(a.tasks) && s.core.loops[a.l].batch[s.core.loops[a.l].next].User?)
    && (a.Poll? ==> a.l in s.pollers && MayReport(s, a.l, a.active))
  }

  lemma PollIsActiveOk(s: System, l: LoopId, active: seq<Source>, v: Loop)
    requires Known(s) && ConnsOk(s) && PollersOk(s) && l in s.pollers && MayReport(s, l, active)
    ensures ActiveOk(s.conns, l, PollReturns(v, active))
  {
    forall i | 0 <= i < |active|
      ensures ActiveConn(s.conns, l, active[i], true)
    {
      if active[i].ReadyConn? {
        WatchedIsUnfinished(s, l, active[i].c.fd);
      }
    }
  }

  lemma OtherActionOnLoop(core: Core, a: Action, l: LoopId)
    requires Can(core, a) && l in core.loops && !(a.Poll? && a.l == l)
    ensures l in Apply(core, a).loops
    ensures var v, u := core.loops[l], Apply(core, a).loops[l];
            u.pc.Dispatching? ==> v.pc.Dispatching? && u.active == v.active && v.at <= u.at
  {
  }

  lemma SameConnsStayActive(conns: map<Handle, Conn>, l: LoopId, v: Loop, u: Loop)
    requires ActiveOk(conns, l, v)
    requires u.pc.Dispatching? ==> v.pc.Dispatching? && u.active == v.active && v.at <= u.at
    ensures ActiveOk(conns, l, u)
  {
    if u.pc.Dispatching? {
      forall i | 0 <= i < |u.active|
        ensures ActiveConn(conns, l, u.active[i], i >= u.at)
      {
        assert ActiveConn(conns, l, v.active[i], i >= v.at);
      }
    }
  }

  lemma CoreOnlyKeepsActives(s: System, a: Action)
    requires CoreInv(s.core) && Known(s) && ConnsOk(s) && PollersOk(s) && ActivesOk(s) && CoreOnly(s, a)
    ensures ActivesOk(s.(core := Apply(s.core, a)))
  {
    ActionKeepsKeys(s.core, a);
    assert a.Poll? ==> Apply(s.core, a).loops[a.l] == PollReturns(s.core.loops[a.l], a.active);
    hide CoreInv, Apply, Can, Known, ConnsOk, PollersOk, ActiveOk, PlacedAction, MayReport;
    var d := Apply(s.core, a);
    forall l | l in d.loops
      ensures ActiveOk(s.conns, l, d.loops[l])
    {
      if a.Poll? && a.l == l {
        PollIsActiveOk(s, l, a.active, s.core.loops[l]);
      } else {
        OtherActionOnLoop(s.core, a, l);
        SameConnsStayActive(s.conns, l, s.core.loops[l], d.loops[l]);
      }
    }
  }

  lemma UserTasksAskNothing(a: Action, f: Functor)
    requires Lifecycle(f) && (a.Dispatch? || a.RunNext? ==> UserTasks(a.tasks))
    ensures Asked(a, f) == 0
  {
    if a.Dispatch? || a.RunNext? {
      UserTasksCount([], a.tasks, f);
      assert [] + a.tasks == a.tasks;
    }
  }

  lemma CoreOnlyKeepsCore(s: System, a: Action)
    requires SoundCore(s) && CoreOnly(s, a)
    ensures var d := Apply(s.core, a); CoreInv(d) && WellPlaced(d) && Bound(s.conns.Keys, d)
  {
    ActionKeepsInv(s.core, a);
    ActionKeepsPlaces(s.core, a);
    if a.Dispatch? || a.RunNext? {
      forall i | 0 <= i < |a.tasks|
        ensures BoundTask(s.conns.Keys, a.tasks[i])
      {
        assert IsUserTask(a.tasks[i]);
      }
    }
    ActionKeepsBound(s.conns.Keys, s.core, a);
  }

  lemma CoreOnlyKeepsAccounted(s: System, a: Action, c: Handle)
    requires CoreInv(s.core) && WellPlaced(s.core) && CoreOnly(s, a) && c in s.conns && AccountedIn(s, c)
    ensures AccountedIn(s.(core := Apply(s.core, a)), c)
  {
    hide CoreInv, WellPlaced;
    forall f | Lifecycle(f) && f.c == c
      ensures Asked(a, f) == 0 && Ran(s.core, a, f) == 0
    {
      UserTasksAskNothing(a, f);
    }
    OthersStayAccounted(s.core, a, c, s.conns[c], c in s.erased, c in s.doubled);
  }

  lemma CoreOnlyKeepsInv(s: System, a: Action)
    requires SysInv(s) && CoreOnly(s, a)
    ensures SysInv(s.(core := Apply(s.core, a)))
  {
    hide CoreInv, WellPlaced, Known, Bound, ConnsOk, PollersOk, FdsDistinct, MapOk, ActivesOk;
    var t := s.(core := Apply(s.core, a));
    CoreOnlyKeepsCore(s, a);
    CoreOnlyKeepsActives(s, a);
    CoreOnlyKeepsConns(s, a);
    forall c | c in t.conns
      ensures AccountedIn(t, c)
    {
      CoreOnlyKeepsAccounted(s, a, c);
    }
  }

  lemma CoreOnlyKeepsConns(s: System, a: Action)
    requires SoundCore(s) && SoundConns(s) && Can(s.core, a)
    ensures var t := s.(core := Apply(s.core, a)); Known(t) && SoundConns(t)
  {
    var t := s.(core := Apply(s.core, a));
    ActionKeepsKeys(s.core, a);
    forall c | c in t.conns
      ensures ConnOkIn(t, c)
    {
      assert ConnOkIn(s, c);
      assert WorldOf(t, c) == WorldOf(s, c);
    }
  }

  // ---------------------------------------------------------------------------------------------
  // What a handler's tasks amount to.

  ghost predicate HandlerTasks(tasks: seq<Task>, c: Handle, from: LoopId, notes: seq<Note>, extra: seq<Task>) {
    UserTasks(extra) && from == c.io && tasks == TasksOf(c, notes) + extra
  }

  lemma NoteTasks(a: Action, c: Handle, notes: seq<Note>, extra: seq<Task>)
    requires (a.Dispatch? || a.RunNext?) && HandlerTasks(a.tasks, c, a.l, notes, extra)
    ensures PlacedAction(a) && TasksBind(a, c)
    ensures forall f :: Lifecycle(f) ==> Asked(a, f) == if f == RequestOf(c) then CloseRequests(notes) else 0
  {
    TasksOfPlaced(c, notes);
    UserTasksPlaced(OfLoop(c.io), TasksOf(c, notes), extra, c);
    forall f | Lifecycle(f)
      ensures Asked(a, f) == if f == RequestOf(c) then CloseRequests(notes) else 0
    {
      TasksOfCount(c, notes, f);
      UserTasksCount(TasksOf(c, notes), extra, f);
    }
  }

  lemma OneTask(a: Action, c: Handle, f: Functor, extra: seq<Task>)
    requires a.Dispatch? || a.RunNext?
    requires Lifecycle(f) && f.c == c && a.l == Src(f) && UserTasks(extra) && a.tasks == [Queue(Tgt(f), f)] + extra
    ensures PlacedAction(a) && TasksBind(a, c)
    ensures forall g :: Lifecycle(g) ==> Asked(a, g) == if f == g then 1 else 0
  {
    var one := [Queue(Tgt(f), f)];
    assert AllPlaced(OfLoop(a.l), one) && OnlyBinds(one, c);
    UserTasksPlaced(OfLoop(a.l), one, extra, c);
    forall g | Lifecycle(g)
      ensures Asked(a, g) == if f == g then 1 else 0
    {
      UserTasksCount(one, extra, g);
      assert multiset(one)[Queue(Tgt(g), g)] == if f == g then 1 else 0;
    }
  }

  /** The moved connection's own functors still balance, from what the action asked for and ran. */
  lemma MovedAccounted(s: System, a: Action, c: Handle, ops: seq<Op>, erase: bool, est: int, rem: int, des: int)
    requires CoreInv(s.core) && WellPlaced(s.core) && Movable(s, c) && Can(s.core, a)
    requires HousedConn(s.core, c) && Tallied(s.core, c, s.conns[c], c in s.erased)
    requires Asked(a, Established(c)) - Ran(s.core, a, Established(c)) == est
    requires Asked(a, RemoveConn(c)) - Ran(s.core, a, RemoveConn(c)) == rem
    requires Asked(a, Destroyed(c)) - Ran(s.core, a, Destroyed(c)) == des
    requires var k, v := s.conns[c], Run(s.cfg, WorldOf(s, c), ops).conn;
             && v.ups + est == k.ups && rem + des + v.destroyed - k.destroyed == v.downs - k.downs
             && (if erase then des > 0 else des + v.destroyed == k.destroyed)
             && (c in s.doubled <==> v.downs >= 2)
    ensures AccountedIn(Move(s, a, c, ops, erase), c)
  {
    hide CoreInv, WellPlaced, Run, Waiting, Asked, Ran, Housed, Apply, Can;
    FunctorsFlow(s.core, a, Established(c));
    FunctorsFlow(s.core, a, RemoveConn(c));
    FunctorsFlow(s.core, a, Destroyed(c));
  }

  // ---------------------------------------------------------------------------------------------
  // Dispatching an event.

  lemma ServeRun(s: System, c: Handle, revents: Epoll.Mask, env: Env)
    requires Known(s) && ConnsOk(s) && c in s.conns && s.conns[c].ups == 1 && s.conns[c].destroyed == 0
    ensures var ops := EventOps(revents, env);
            var v := Run(s.cfg, WorldOf(s, c), ops);
            && AllEnabled(s.cfg, WorldOf(s, c), ops)
            && v.conn.ups == 1 && v.conn.destroyed == 0
            && v.conn.downs == s.conns[c].downs + Closes(revents, env)
            && CloseRequests(v.conn.outbox) == Closes(revents, env)
            && Closes(revents, env) <= 2 && (Closes(revents, env) == 2 <==> ClosesTwice(revents, env))
  {
    assert ConnOkIn(s, c);
    EventIsARun(s.cfg, WorldOf(s, c), revents, env);
    DownsAreRequested(s.cfg, WorldOf(s, c), EventOps(revents, env));
  }

  lemma ServeOwnLoop(s: System, c: Handle, v: Loop, k: Conn)
    requires ActiveOk(s.conns, c.io, v) && v.pc.Dispatching? && v.at < |v.active|
    requires v.active[v.at].ReadyConn? && v.active[v.at].c == c && k.ups == 1 && k.destroyed == 0
    ensures ActiveOk(s.conns[c := k], c.io, Handled(v))
  {
    forall i | 0 <= i < |v.active|
      ensures ActiveConn(s.conns[c := k], c.io, v.active[i], i >= v.at + 1)
    {
      assert ActiveConn(s.conns, c.io, v.active[i], i >= v.at);
    }
  }

  lemma ServeProper(s: System, l: LoopId, c: Handle, revents: Epoll.Mask, env: Env, extra: seq<Task>)
    requires Sound(s) && c in s.conns && c.io == l && s.conns[c].ups == 1 && s.conns[c].destroyed == 0
    requires Movable(s, c) && UserTasks(extra)
    requires var ops := EventOps(revents, env);
             Can(s.core, Dispatch(l, TasksOf(c, NotesOf(s, c, ops)) + extra))
    ensures var ops := EventOps(revents, env);
            var a := Dispatch(l, TasksOf(c, NotesOf(s, c, ops)) + extra);
            && Proper(s, a, c, ops)
            && Asked(a, Established(c)) == 0
            && Asked(a, RequestOf(c)) == Closes(revents, env)
            && Asked(a, if c.io == BASE then RemoveConn(c) else Destroyed(c)) == 0
  {
    hide CoreInv, WellPlaced, Known, Bound, ConnsOk, PollersOk, FdsDistinct, MapOk, ActivesOk;
    hide Run, AllEnabled, EventOps, Closes, ClosesTwice, PlacedAction, TasksBind;
    var ops := EventOps(revents, env);
    var notes := NotesOf(s, c, ops);
    var a := Dispatch(l, TasksOf(c, notes) + extra);
    ServeRun(s, c, revents, env);
    NoteTasks(a, c, notes, extra);
  }

  /** The parts of a Serve step, from its current channel. */
  lemma ServeFacts(s: System, l: LoopId)
    requires SysInv(s) && l in s.core.loops && s.core.loops[l].pc.Dispatching?
    requires s.core.loops[l].at < |s.core.loops[l].active|
    requires s.core.loops[l].active[s.core.loops[l].at].ReadyConn?
    ensures var c := CurrentConn(s, l);
            && c in s.conns && c.io == l && Movable(s, c) && AccountedIn(s, c) && ConnOkIn(s, c)
            && s.conns[c].ups == 1 && s.conns[c].destroyed == 0 && s.conns[c].downs != 1
            && ActiveOk(s.conns, l, s.core.loops[l])
  {
    hide CoreInv, WellPlaced, Bound, FdsDistinct, MapOk, PollersOk;
    var v := s.core.loops[l];
    assert ActiveOk(s.conns, l, v);
    assert ActiveConn(s.conns, l, v.active[v.at], true);
    var c := CurrentConn(s, l);
    assert AccountedIn(s, c) && ConnOkIn(s, c);
  }

  lemma PartsOfSound(u: System)
    requires Sound(u)
    ensures CoreInv(u.core) && WellPlaced(u.core) && Known(u) && ConnsOk(u) && ActivesOk(u)
  {
    hide CoreInv, WellPlaced, Bound, Known, ConnsOk, PollersOk, FdsDistinct, MapOk, ActivesOk;
  }

  /** The functors of a served connection still balance. */
  lemma ServeAccounted(
    u: System, l: LoopId, c: Handle, revents: Epoll.Mask, env: Env, extra: seq<Task>, a: Action, erase: bool)
    requires Sound(u) && c in u.conns && c.io == l && Movable(u, c) && UserTasks(extra)
    requires u.conns[c].ups == 1 && u.conns[c].destroyed == 0 && u.conns[c].downs != 1
    requires var notes := NotesOf(u, c, EventOps(revents, env));
             && a == Dispatch(l, TasksOf(c, notes) + extra) && Can(u.core, a)
             && erase == (c.io == BASE && CloseRequest in notes)
    requires HousedConn(u.core, c) && Tallied(u.core, c, u.conns[c], c in u.erased)
    requires c in u.doubled <==> u.conns[c].downs >= 2 || ClosesTwice(revents, env)
    ensures Proper(u, a, c, EventOps(revents, env))
    ensures AccountedIn(Move(u, a, c, EventOps(revents, env), erase), c)
  {
    hide Sound, CoreInv, WellPlaced, Known, ConnsOk, ActivesOk, AllEnabled, WorldOf, TasksOf;
    hide Run, EventOps, ClosesTwice, Closes, Tallied, Proper, HousedConn, Move, Asked, Ran, UserTasks;
    PartsOfSound(u);
    var ops, n := EventOps(revents, env), Closes(revents, env);
    ServeProper(u, l, c, revents, env, extra);
    ServeRun(u, c, revents, env);
    CloseRequestsMember(NotesOf(u, c, ops));
    DispatchRunsNothing(u.core, a, c);
    MovedAccounted(u, a, c, ops, erase, 0, if c.io == BASE then 0 else n, if c.io == BASE then n else 0);
  }

  lemma DispatchRunsNothing(core: Core, a: Action, c: Handle)
    requires Can(core, a) && a.Dispatch?
    ensures Ran(core, a, Established(c)) == 0 && Ran(core, a, RemoveConn(c)) == 0 && Ran(core, a, Destroyed(c)) == 0
  {
  }

  lemma ServeOwnLoopOk(
    u: System, l: LoopId, c: Handle, revents: Epoll.Mask, env: Env, a: Action, erase: bool)
    requires Known(u) && ConnsOk(u) && c in u.conns && c.io == l && l in u.core.loops
    requires u.conns[c].ups == 1 && u.conns[c].destroyed == 0 && ActiveOk(u.conns, l, u.core.loops[l])
    requires a.Dispatch? && a.l == l && Can(u.core, a) && Proper(u, a, c, EventOps(revents, env))
    requires u.core.loops[l].active[u.core.loops[l].at] == ReadyConn(c, revents)
    ensures OwnLoopOk(u, a, c, EventOps(revents, env), erase)
  {
    ServeRun(u, c, revents, env);
    hide Known, ConnsOk, Run, AllEnabled, EventOps, ClosesTwice, Closes, ActiveOk, Proper;
    ServeOwnLoop(u, c, u.core.loops[l], Move(u, a, c, EventOps(revents, env), erase).conns[c]);
  }

  lemma ServeMove(
    u: System, l: LoopId, c: Handle, revents: Epoll.Mask, env: Env, extra: seq<Task>, a: Action, erase: bool)
    requires Sound(u) && c in u.conns && c.io == l && Movable(u, c) && UserTasks(extra)
    requires u.conns[c].ups == 1 && u.conns[c].destroyed == 0 && u.conns[c].downs != 1
    requires var notes := NotesOf(u, c, EventOps(revents, env));
             && a == Dispatch(l, TasksOf(c, notes) + extra) && Can(u.core, a)
             && erase == (c.io == BASE && CloseRequest in notes)
    requires u.core.loops[l].active[u.core.loops[l].at] == ReadyConn(c, revents)
    requires HousedConn(u.core, c) && Tallied(u.core, c, u.conns[c], c in u.erased)
    requires c in u.doubled <==> u.conns[c].downs >= 2 || ClosesTwice(revents, env)
    requires forall d :: d in u.conns && d != c ==> AccountedIn(u, d)
    requires ActiveOk(u.conns, l, u.core.loops[l])
    ensures SysInv(Move(u, a, c, EventOps(revents, env), erase))
  {
    hide Sound, CoreInv, WellPlaced, Known, ConnsOk, ActivesOk, AllEnabled, ActiveOk, OwnLoopOk, AccountedIn;
    hide Run, EventOps, ClosesTwice, Closes, Tallied, Proper, HousedConn, Move, SysInv;
    PartsOfSound(u);
    assert l in u.core.loops;
    ServeAccounted(u, l, c, revents, env, extra, a, erase);
    ServeOwnLoopOk(u, l, c, revents, env, a, erase);
    MoveKeepsInv(u, a, c, EventOps(revents, env), erase);
  }

  lemma ServeKeepsInv(s: System, l: LoopId, env: Env, extra: seq<Task>, t: System)
    requires SysInv(s) && Next(s, Serve(l, env, extra), t)
    ensures SysInv(t)
  {
    hide SysInv, Sound;
    hide Run, EventOps, ClosesTwice, ActiveOk, Tallied, HousedConn;
    var c, revents := CurrentConn(s, l), CurrentEvents(s, l);
    var notes := NotesOf(s, c, EventOps(revents, env));
    var a := ServeAction(s, l, env, extra);
    var u := if ClosesTwice(revents, env) then s.(doubled := s.doubled + {c}) else s;
    ServeFacts(s, l);
    DoubledChange(s, u, c);
    assert NotesOf(u, c, EventOps(revents, env)) == notes;
    ServeMove(u, l, c, revents, env, extra, a, c.io == BASE && CloseRequest in notes);
  }

  lemma DoubledChange(s: System, u: System, c: Handle)
    requires SysInv(s) && c in s.conns && (u == s || u == s.(doubled := s.doubled + {c}))
    ensures Sound(u) && forall d :: d in u.conns && d != c ==> AccountedIn(u, d)
  {
    hide CoreInv, WellPlaced, Bound, FdsDistinct, MapOk;
    hide ConnLocal, PollerOk, ActiveOk, Accounted;
    assert ConnsOk(u) by {
      forall d | d in u.conns
        ensures ConnOkIn(u, d)
      {
        assert ConnOkIn(s, d) && WorldOf(u, d) == WorldOf(s, d);
      }
    }
    forall d | d in u.conns && d != c
      ensures AccountedIn(u, d)
    {
      assert AccountedIn(s, d);
    }
  }

  // ---------------------------------------------------------------------------------------------
  // Running a functor about a connection.

  ghost predicate RunsAt(s: System, l: LoopId, f: Functor) {
    && l in s.core.loops && s.core.loops[l].pc.Running? && s.core.loops[l].next < |s.core.loops[l].batch|
    && s.core.loops[l].batch[s.core.loops[l].next] == f
  }

  lemma BatchIsPlaced(s: System, l: LoopId, f: Functor)
    requires SoundCore(s) && RunsAt(s, l, f) && !f.User?
    ensures f.c in s.conns && f.c.io in s.core.loops && Movable(s, f.c) && l == Tgt(f)
  {
    hide CoreInv;
    assert f in s.core.loops[l].batch;
    assert PlacedFunctor(l, f) && BoundFunctor(s.conns.Keys, f);
  }

  lemma RunsInPlace(s: System, l: LoopId, f: Functor)
    requires SysInv(s) && RunsAt(s, l, f) && !f.User?
    ensures f.c in s.conns && f.c.io in s.core.loops && Movable(s, f.c) && l == Tgt(f)
    ensures AccountedIn(s, f.c) && ConnOkIn(s, f.c)
    ensures Lifecycle(f) ==> Housed(s.core, f) && Waiting(s.core, f) > 0
  {
    PartsOfInv(s);
    hide SysInv, CoreInv, WellPlaced, Bound, Known, PollersOk, FdsDistinct, MapOk, ActivesOk;
    hide ConnOkIn, Accounted, Waiting;
    BatchIsPlaced(s, l, f);
    if Lifecycle(f) {
      HeadWaits(s.core, l);
    }
  }

  lemma QuietRun(s: System, c: Handle, calls: seq<UserOp>)
    requires ConnsOk(s) && c in s.conns && c.io in s.pollers
    ensures var v := Run(s.cfg, WorldOf(s, c), calls);
            && AllEnabled(s.cfg, WorldOf(s, c), calls)
            && v.conn.downs == s.conns[c].downs && v.conn.ups == s.conns[c].ups
            && v.conn.destroyed == s.conns[c].destroyed && CloseRequests(v.conn.outbox) == 0
            && (Unfinished(s.conns[c]) || v.poller == s.pollers[c.io])
  {
    assert ConnOkIn(s, c);
    UserOpsKeepQuiet(s.cfg, WorldOf(s, c), calls);
    DownsAreRequested(s.cfg, WorldOf(s, c), calls);
  }

  lemma EstablishRun(s: System, c: Handle, calls: seq<UserOp>)
    requires ConnsOk(s) && c in s.conns && c.io in s.pollers && s.conns[c].ups == 0
    ensures var v := Run(s.cfg, WorldOf(s, c), [Establish] + calls);
            && AllEnabled(s.cfg, WorldOf(s, c), [Establish] + calls)
            && v.conn.downs == 0 && v.conn.ups == 1 && v.conn.destroyed == 0 && CloseRequests(v.conn.outbox) == 0
            && s.conns[c] == FRESH
  {
    assert ConnOkIn(s, c);
    var w := WorldOf(s, c);
    StepKeepsInv(s.cfg, w, Establish);
    assert ([Establish] + calls)[1..] == calls;
    UserOpsKeepQuiet(s.cfg, Step(s.cfg, w, Establish), calls);
    DownsAreRequested(s.cfg, w, [Establish] + calls);
  }

  lemma DestroyRun(s: System, c: Handle)
    requires ConnsOk(s) && c in s.conns && c.io in s.pollers && s.conns[c].destroyed < s.conns[c].downs
    ensures var v := Run(s.cfg, WorldOf(s, c), [Destroy]);
            && AllEnabled(s.cfg, WorldOf(s, c), [Destroy])
            && v.conn.downs == s.conns[c].downs && v.conn.ups == s.conns[c].ups
            && v.conn.destroyed == s.conns[c].destroyed + 1 && v.conn.outbox == []
  {
    assert ConnOkIn(s, c);
    assert [Destroy][1..] == [];
    assert Run(s.cfg, WorldOf(s, c), [Destroy]) == Step(s.cfg, WorldOf(s, c), Destroy);
  }

  lemma RanSelf(s: System, l: LoopId, f: Functor, a: Action)
    requires RunsAt(s, l, f) && a.RunNext? && a.l == l && Can(s.core, a)
    ensures forall g :: Lifecycle(g) ==> Ran(s.core, a, g) == if f == g then 1 else 0
  {
  }

  /** The loop running a functor is not dispatching. */
  lemma RunningOwnLoop(s: System, l: LoopId, a: Action, c: Handle, ops: seq<Op>)
    requires l == c.io && l in s.core.loops && s.core.loops[l].pc.Running? && Proper(s, a, c, ops)
    ensures OwnLoopOk(s, a, c, ops, false)
  {
    hide Proper, Apply, Move, ActiveOk;
  }

  lemma PartsOfInv(s: System)
    requires SysInv(s)
    ensures Sound(s) && CoreInv(s.core) && WellPlaced(s.core) && Known(s) && ConnsOk(s) && ActivesOk(s)
    ensures forall c :: c in s.conns ==> AccountedIn(s, c)
  {
    hide CoreInv, WellPlaced, Bound, Known, ConnsOk, PollersOk, FdsDistinct, MapOk, ActivesOk, AccountedIn;
  }

  lemma PlacedByInv(s: System)
    requires SysInv(s)
    ensures WellPlaced(s.core)
  {
    hide CoreInv, WellPlaced, Bound, Known, ConnsOk, PollersOk, FdsDistinct, MapOk, ActivesOk, AccountedIn;
  }

  lemma MapByInv(s: System)
    requires SysInv(s)
    ensures Known(s) && MapOk(s.conns.Keys, s.server, s.erased)
  {
    hide CoreInv, WellPlaced, Bound, Known, ConnsOk, PollersOk, FdsDistinct, MapOk, ActivesOk, AccountedIn;
  }

  /** A handler on a connection's own running loop keeps the invariant if its functors balance. */
  lemma RunningMoveKeepsInv(s: System, l: LoopId, c: Handle, ops: seq<Op>, a: Action)
    requires SysInv(s) && Proper(s, a, c, ops) && l == c.io && l in s.core.loops && s.core.loops[l].pc.Running?
    requires AccountedIn(Move(s, a, c, ops, false), c)
    ensures SysInv(Move(s, a, c, ops, false))
  {
    PartsOfInv(s);
    hide SysInv, Sound, CoreInv, WellPlaced, Known, ConnsOk, ActivesOk, AccountedIn, Move, Proper, OwnLoopOk, Apply;
    RunningOwnLoop(s, l, a, c, ops);
    MoveKeepsInv(s, a, c, ops, false);
  }

  lemma EstablishedProper(s: System, l: LoopId, c: Handle, calls: seq<UserOp>, extra: seq<Task>, a: Action)
    requires ConnsOk(s) && RunsAt(s, l, Established(c)) && UserTasks(extra) && Movable(s, c) && s.conns[c].ups == 0
    requires l == c.io && a == RunNext(l, TasksOf(c, NotesOf(s, c, [Establish] + calls)) + extra) && Can(s.core, a)
    ensures Proper(s, a, c, [Establish] + calls)
    ensures Asked(a, Established(c)) == 0 && Asked(a, RemoveConn(c)) == 0 && Asked(a, Destroyed(c)) == 0
  {
    hide ConnsOk, Run, AllEnabled, PlacedAction, TasksBind;
    EstablishRun(s, c, calls);
    NoteTasks(a, c, NotesOf(s, c, [Establish] + calls), extra);
    RanSelf(s, l, Established(c), a);
  }

  lemma WaitingToEstablish(s: System, c: Handle)
    requires c in s.conns && AccountedIn(s, c) && Waiting(s.core, Established(c)) > 0
    ensures s.conns[c].ups == 0
  {
  }

  lemma EstablishedKeepsInv(s: System, l: LoopId, c: Handle, calls: seq<UserOp>, extra: seq<Task>, a: Action)
    requires SysInv(s) && RunsAt(s, l, Established(c)) && UserTasks(extra) && c in s.conns && Movable(s, c)
    requires a == RunNext(l, TasksOf(c, NotesOf(s, c, [Establish] + calls)) + extra) && Can(s.core, a)
    ensures SysInv(Move(s, a, c, [Establish] + calls, false))
  {
    hide SysInv, Sound, CoreInv, WellPlaced, Known, ConnsOk, ActivesOk, Run, AllEnabled, Proper, HousedConn, Move;
    hide Waiting, Asked, Ran, NotesOf;
    PartsOfInv(s);
    RunsInPlace(s, l, Established(c));
    WaitingToEstablish(s, c);
    EstablishRun(s, c, calls);
    EstablishedProper(s, l, c, calls, extra, a);
    RanSelf(s, l, Established(c), a);
    MovedAccounted(s, a, c, [Establish] + calls, false, -1, 0, 0);
    RunningMoveKeepsInv(s, l, c, [Establish] + calls, a);
  }

  lemma DestroyedProper(s: System, l: LoopId, c: Handle, extra: seq<Task>, a: Action)
    requires ConnsOk(s) && RunsAt(s, l, Destroyed(c)) && UserTasks(extra) && Movable(s, c)
    requires s.conns[c].destroyed < s.conns[c].downs
    requires l == c.io && a == RunNext(l, TasksOf(c, NotesOf(s, c, [Destroy])) + extra) && Can(s.core, a)
    ensures Proper(s, a, c, [Destroy])
    ensures Asked(a, Established(c)) == 0 && Asked(a, RemoveConn(c)) == 0 && Asked(a, Destroyed(c)) == 0
  {
    hide ConnsOk, Run, AllEnabled, PlacedAction, TasksBind;
    DestroyRun(s, c);
    NoteTasks(a, c, NotesOf(s, c, [Destroy]), extra);
    RanSelf(s, l, Destroyed(c), a);
  }

  lemma WaitingToBeDestroyed(s: System, c: Handle)
    requires c in s.conns && AccountedIn(s, c) && Waiting(s.core, Destroyed(c)) > 0
    ensures s.conns[c].destroyed < s.conns[c].downs
  {
  }

  lemma DestroyedKeepsInv(s: System, l: LoopId, c: Handle, extra: seq<Task>, a: Action)
    requires SysInv(s) && RunsAt(s, l, Destroyed(c)) && UserTasks(extra) && c in s.conns && Movable(s, c)
    requires a == RunNext(l, TasksOf(c, NotesOf(s, c, [Destroy])) + extra) && Can(s.core, a)
    ensures SysInv(Move(s, a, c, [Destroy], false))
  {
    hide SysInv, Sound, CoreInv, WellPlaced, Known, ConnsOk, ActivesOk, Run, AllEnabled, Proper, HousedConn, Move;
    hide Waiting, Asked, Ran, NotesOf;
    PartsOfInv(s);
    RunsInPlace(s, l, Destroyed(c));
    WaitingToBeDestroyed(s, c);
    DestroyRun(s, c);
    DestroyedProper(s, l, c, extra, a);
    RanSelf(s, l, Destroyed(c), a);
    MovedAccounted(s, a, c, [Destroy], false, 0, 0, -1);
    RunningMoveKeepsInv(s, l, c, [Destroy], a);
  }

  lemma RemoveProper(s: System, l: LoopId, c: Handle, extra: seq<Task>, a: Action)
    requires ConnsOk(s) && RunsAt(s, l, RemoveConn(c)) && UserTasks(extra) && Movable(s, c) && l == BASE
    requires a == RunNext(l, [Queue(c.io, Destroyed(c))] + extra) && Can(s.core, a)
    ensures Proper(s, a, c, [])
    ensures Asked(a, Established(c)) == 0 && Asked(a, RemoveConn(c)) == 0 && Asked(a, Destroyed(c)) == 1
  {
    hide ConnsOk, Run, AllEnabled, PlacedAction, TasksBind;
    RunNothing(s, c);
    OneTask(a, c, Destroyed(c), extra);
    RanSelf(s, l, RemoveConn(c), a);
  }

  lemma RemoveKeepsInv(s: System, l: LoopId, c: Handle, extra: seq<Task>, a: Action)
    requires SysInv(s) && RunsAt(s, l, RemoveConn(c)) && UserTasks(extra) && c in s.conns && Movable(s, c)
    requires a == RunNext(l, [Queue(c.io, Destroyed(c))] + extra) && Can(s.core, a)
    ensures SysInv(Move(s, a, c, [], true))
  {
    hide SysInv, Sound, CoreInv, WellPlaced, Known, ConnsOk, ActivesOk, Run, AllEnabled, Proper, HousedConn, Move;
    hide Waiting, Asked, Ran, ActiveOk, Apply;
    PartsOfInv(s);
    RunsInPlace(s, l, RemoveConn(c));
    RunNothing(s, c);
    RemoveProper(s, l, c, extra, a);
    RanSelf(s, l, RemoveConn(c), a);
    RemoveOwnLoop(s, l, c, a);
    MovedAccounted(s, a, c, [], true, 0, -1, 1);
    MoveKeepsInv(s, a, c, [], true);
  }

  lemma NotifyProper(s: System, l: LoopId, c: Handle, note: Note, calls: seq<UserOp>, extra: seq<Task>, a: Action)
    requires ConnsOk(s) && RunsAt(s, l, Notify(c, note)) && UserTasks(extra) && c in s.conns && Movable(s, c)
    requires l == c.io && a == RunNext(l, TasksOf(c, NotesOf(s, c, calls)) + extra) && Can(s.core, a)
    ensures Proper(s, a, c, calls)
    ensures Asked(a, Established(c)) == 0 && Asked(a, RemoveConn(c)) == 0 && Asked(a, Destroyed(c)) == 0
  {
    hide ConnsOk, Run, AllEnabled, PlacedAction, TasksBind;
    QuietRun(s, c, calls);
    NoteTasks(a, c, NotesOf(s, c, calls), extra);
    RanSelf(s, l, Notify(c, note), a);
  }

  lemma NotifyKeepsInv(s: System, l: LoopId, c: Handle, note: Note, calls: seq<UserOp>, extra: seq<Task>, a: Action)
    requires SysInv(s) && RunsAt(s, l, Notify(c, note)) && UserTasks(extra) && c in s.conns && Movable(s, c)
    requires a == RunNext(l, TasksOf(c, NotesOf(s, c, calls)) + extra) && Can(s.core, a)
    ensures SysInv(Move(s, a, c, calls, false))
  {
    hide SysInv, Sound, CoreInv, WellPlaced, Known, ConnsOk, ActivesOk, Run, AllEnabled, Proper, HousedConn, Move;
    hide Waiting, Asked, Ran, NotesOf;
    PartsOfInv(s);
    RunsInPlace(s, l, Notify(c, note));
    QuietRun(s, c, calls);
    NotifyProper(s, l, c, note, calls, extra, a);
    RanSelf(s, l, Notify(c, note), a);
    MovedAccounted(s, a, c, calls, false, 0, 0, 0);
    RunningMoveKeepsInv(s, l, c, calls, a);
  }

  lemma RunNothing(s: System, c: Handle)
    requires ConnsOk(s) && c in s.conns && c.io in s.pollers
    ensures Run(s.cfg, WorldOf(s, c), []) == WorldOf(s, c) && AllEnabled(s.cfg, WorldOf(s, c), [])
    ensures s.conns[c].outbox == []
  {
    assert ConnOkIn(s, c);
  }

  lemma RemoveOwnLoop(s: System, l: LoopId, c: Handle, a: Action)
    requires RunsAt(s, l, RemoveConn(c)) && Movable(s, c) && c.io in s.core.loops && ActivesOk(s)
    requires a.RunNext? && a.l == l && Can(s.core, a)
    requires Run(s.cfg, WorldOf(s, c), []) == WorldOf(s, c) && s.conns[c].outbox == []
    ensures s.core.loops[c.io].pc.Dispatching? ==>
              c.io in Apply(s.core, a).loops &&
              ActiveOk(Move(s, a, c, [], true).conns, c.io, Apply(s.core, a).loops[c.io])
  {
    assert Move(s, a, c, [], true).conns == s.conns;
    assert ActiveOk(s.conns, c.io, s.core.loops[c.io]);
  }

  lemma FunctorKeepsInv(s: System, l: LoopId, calls: seq<UserOp>, extra: seq<Task>, t: System)
    requires SysInv(s) && Next(s, RunFunctor(l, calls, extra), t)
    ensures SysInv(t)
  {
    hide SysInv, Run, Apply;
    var f, a := CurrentFunctor(s, l), FunctorAction(s, l, calls, extra);
    if f.User? {
      CoreOnlyKeepsInv(s, a);
    } else {
      match f {
        case Established(c) => EstablishedKeepsInv(s, l, c, calls, extra, a);
        case Destroyed(c) => DestroyedKeepsInv(s, l, c, extra, a);
        case RemoveConn(c) => RemoveKeepsInv(s, l, c, extra, a);
        case Notify(c, note) => NotifyKeepsInv(s, l, c, note, calls, extra, a);
      }
    }
  }

  // ---------------------------------------------------------------------------------------------
  // Accepting a connection.

  lemma UnfinishedFdsDiffer(s: System, fd: int, c: Handle)
    requires SysInv(s) && (forall d :: d in s.conns && HasOwner(s, d) ==> d.fd != fd)
    requires c in s.conns && Unfinished(s.conns[c])
    ensures c.fd != fd
  {
    hide SysInv, Owned;
    UnfinishedHasOwner(s, c);
  }

  /** The new descriptor is in no poller map and belongs to no unfinished connection. */
  lemma FreshFd(s: System, fd: int)
    requires SysInv(s) && forall c :: c in s.conns && HasOwner(s, c) ==> c.fd != fd
    ensures forall l :: l in s.pollers ==> fd !in s.pollers[l].channels && fd !in s.pollers[l].kernel
    ensures forall c :: c in s.conns && Unfinished(s.conns[c]) ==> c.fd != fd
  {
    hide CoreInv, WellPlaced, Known, Bound, ConnsOk, PollersOk, FdsDistinct, MapOk, ActivesOk, HasOwner, AccountedIn;
    assert Known(s) && ConnsOk(s) && PollersOk(s);
    hide SysInv;
    forall c | c in s.conns && Unfinished(s.conns[c])
      ensures c.fd != fd
    {
      UnfinishedFdsDiffer(s, fd, c);
    }
    forall l | l in s.pollers
      ensures fd !in s.pollers[l].channels && fd !in s.pollers[l].kernel
    {
      RegisteredIsUnfinished(s, l, fd);
      WatchedIsUnfinished(s, l, fd);
    }
  }

  ghost predicate Acceptable(s: System, c: Handle) {
    && SysInv(s) && c.id == s.server.nextConnId && c.id <= ConnName.INT_MAX && c.io in s.core.loops
    && (forall d :: d in s.conns && HasOwner(s, d) ==> d.fd != c.fd)
  }

  lemma AdmitKeepsMap(s: System, c: Handle)
    requires Known(s) && MapOk(s.conns.Keys, s.server, s.erased)
    requires c.id == s.server.nextConnId && c.id <= ConnName.INT_MAX
    ensures var u := Admit(s, c); MapOk(u.conns.Keys, u.server, u.erased)
  {
    var u := Admit(s, c);
    assert c !in s.conns;
    forall d | d in u.conns
      ensures d in u.erased <==> !InConnections(u.server, d)
    {
      if d != c {
        ConnName.DistinctIdsDistinctNames(s.server.name, s.server.ipPort, c.id, d.id);
        assert d in s.erased <==> !InConnections(s.server, d);
      }
    }
  }

  ghost predicate UnusedFd(s: System, fd: int) {
    && (forall l :: l in s.pollers ==> fd !in s.pollers[l].channels && fd !in s.pollers[l].kernel)
    && (forall c :: c in s.conns && Unfinished(s.conns[c]) ==> c.fd != fd)
  }

  lemma NewHandle(known: set<Handle>, loops: set<LoopId>, c: Handle)
    requires KnownHandles(known, loops, c.id) && c.io in loops
    ensures c !in known && KnownHandles(known + {c}, loops, c.id + 1)
  {
  }

  lemma AdmitKeepsKnown(s: System, c: Handle)
    requires Known(s) && c.id == s.server.nextConnId && c.id <= ConnName.INT_MAX && c.io in s.pollers
    ensures Known(Admit(s, c)) && c !in s.conns
  {
    NewHandle(s.conns.Keys, s.core.loops.Keys, c);
    hide KnownHandles;
    assert Admit(s, c).conns.Keys == s.conns.Keys + {c};
    assert Admit(s, c).history.Keys == s.history.Keys + {c};
  }

  lemma AdmitKeepsConns(s: System, c: Handle)
    requires ConnsOk(s) && UnusedFd(s, c.fd) && c !in s.conns && c.io in s.pollers
    ensures ConnsOk(Admit(s, c))
  {
    NewcomerIsOk(s, c);
    hide ConnLocal, UnusedFd;
    var u := Admit(s, c);
    forall d | d in u.conns
      ensures ConnOkIn(u, d)
    {
      if d != c {
        assert ConnOkIn(s, d) && WorldOf(u, d) == WorldOf(s, d);
      }
    }
  }

  lemma NewcomerIsOk(s: System, c: Handle)
    requires UnusedFd(s, c.fd) && c.io in s.pollers
    ensures ConnOkIn(Admit(s, c), c)
  {
    assert Inv(WorldOf(Admit(s, c), c));
  }

  lemma AdmitKeepsPollers(s: System, c: Handle)
    requires PollersOk(s)
    ensures PollersOk(Admit(s, c))
  {
    var u := Admit(s, c);
    forall l | l in u.pollers
      ensures PollerOk(u.conns.Keys, l, u.pollers[l])
    {
      assert PollerOk(s.conns.Keys, l, s.pollers[l]);
    }
  }

  lemma AdmitKeepsFds(s: System, c: Handle)
    requires FdsDistinct(s.conns) && UnusedFd(s, c.fd)
    ensures FdsDistinct(Admit(s, c).conns)
  {
  }

  lemma AdmitKeepsActives(s: System, c: Handle)
    requires ActivesOk(s) && c !in s.conns
    ensures ActivesOk(Admit(s, c))
  {
    var u := Admit(s, c);
    forall l | l in u.core.loops
      ensures ActiveOk(u.conns, l, u.core.loops[l])
    {
      var v := u.core.loops[l];
      assert ActiveOk(s.conns, l, v);
      if v.pc.Dispatching? {
        forall i | 0 <= i < |v.active|
          ensures ActiveConn(u.conns, l, v.active[i], i >= v.at)
        {
          assert ActiveConn(s.conns, l, v.active[i], i >= v.at);
        }
      }
    }
  }

  lemma AdmitKeepsBound(s: System, c: Handle)
    requires Bound(s.conns.Keys, s.core)
    ensures Bound(Admit(s, c).conns.Keys, s.core)
  {
    var known := s.conns.Keys;
    forall t, i | t in s.core.threads && 0 <= i < |s.core.threads[t].todo|
      ensures BoundTask(Admit(s, c).conns.Keys, s.core.threads[t].todo[i])
    {
      assert BoundTask(known, s.core.threads[t].todo[i]);
    }
    forall l, f | l in s.core.loops && f in s.core.loops[l].pending
      ensures BoundFunctor(Admit(s, c).conns.Keys, f)
    {
      assert BoundFunctor(known, f);
    }
    forall l, f | l in s.core.loops && f in s.core.loops[l].batch
      ensures BoundFunctor(Admit(s, c).conns.Keys, f)
    {
      assert BoundFunctor(known, f);
    }
  }

  lemma NewcomerIsNotWaiting(s: System, f: Functor)
    requires Bound(s.conns.Keys, s.core) && Lifecycle(f) && f.c !in s.conns && Housed(s.core, f)
    ensures Waiting(s.core, f) == 0
  {
    var known := s.conns.Keys;
    forall t, i | t in s.core.threads && 0 <= i < |s.core.threads[t].todo|
      ensures !(s.core.threads[t].todo[i].Queue? && s.core.threads[t].todo[i].f == f)
    {
      assert BoundTask(known, s.core.threads[t].todo[i]);
    }
    forall l, g | l in s.core.loops && g in s.core.loops[l].pending
      ensures g != f
    {
      assert BoundFunctor(known, g);
    }
    forall l, g | l in s.core.loops && g in s.core.loops[l].batch
      ensures g != f
    {
      assert BoundFunctor(known, g);
    }
    NoneWaiting(s.core, f);
  }

  lemma AcceptableFacts(s: System, c: Handle)
    requires Acceptable(s, c)
    ensures Known(s) && ConnsOk(s) && PollersOk(s) && FdsDistinct(s.conns) && ActivesOk(s)
    ensures MapOk(s.conns.Keys, s.server, s.erased) && Bound(s.conns.Keys, s.core)
    ensures CoreInv(s.core) && WellPlaced(s.core)
    ensures c.io in s.pollers && UnusedFd(s, c.fd) && c.id == s.server.nextConnId && c.id <= ConnName.INT_MAX
    ensures forall d :: d in s.conns ==> AccountedIn(s, d)
  {
    hide CoreInv, WellPlaced, Known, Bound, ConnsOk, PollersOk, FdsDistinct, MapOk, ActivesOk, HasOwner, AccountedIn;
    PartsOfInv(s);
    FreshFd(s, c.fd);
    LoopHasPoller(s, c);
  }

  lemma LoopHasPoller(s: System, c: Handle)
    requires Known(s) && c.io in s.core.loops
    ensures c.io in s.pollers
  {
  }

  lemma AdmitIsSound(s: System, c: Handle)
    requires Acceptable(s, c)
    ensures var u := Admit(s, c);
            Sound(u) && c in u.conns && Movable(u, c) && c !in s.conns
            && forall d :: d in u.conns && d != c ==> AccountedIn(u, d)
  {
    hide CoreInv, WellPlaced, Known, Bound, ConnsOk, PollersOk, FdsDistinct, MapOk, ActivesOk;
    hide Acceptable, UnusedFd, HousedConn, Accounted;
    AcceptableFacts(s, c);
    AdmitKeepsKnown(s, c);
    AdmitKeepsMap(s, c);
    AdmitKeepsConns(s, c);
    AdmitKeepsPollers(s, c);
    AdmitKeepsFds(s, c);
    AdmitKeepsActives(s, c);
    AdmitKeepsBound(s, c);
    var u := Admit(s, c);
    assert c !in s.conns && u.conns.Keys == s.conns.Keys + {c};
    forall d | d in u.conns && d != c
      ensures AccountedIn(u, d)
    {
      assert AccountedIn(s, d);
    }
  }

  lemma AcceptOwnLoop(s: System, c: Handle, v: Loop, u: Loop, k: Conn)
    requires ActiveOk(s.conns, c.io, v) && c !in s.conns
    requires u == v || (v.pc.Dispatching? && v.at < |v.active| && u == Handled(v))
    ensures ActiveOk(Admit(s, c).conns[c := k], c.io, u)
  {
    if v.pc.Dispatching? {
      forall i | 0 <= i < |u.active|
        ensures ActiveConn(Admit(s, c).conns[c := k], c.io, u.active[i], i >= u.at)
      {
        assert ActiveConn(s.conns, c.io, v.active[i], i >= v.at);
      }
    }
  }

  lemma AcceptProper(u: System, c: Handle, calls: seq<UserOp>, extra: seq<Task>, a: Action)
    requires Known(u) && ConnsOk(u) && c in u.conns && Movable(u, c) && u.conns[c] == FRESH && UserTasks(extra)
    requires a == Dispatch(BASE, AcceptTasks(c, NotesOf(u, c, AcceptOps(c.io, calls))) + extra) && Can(u.core, a)
    ensures var ops, v := AcceptOps(c.io, calls), Run(u.cfg, WorldOf(u, c), AcceptOps(c.io, calls)).conn;
            && Proper(u, a, c, ops) && v.downs == 0 && v.destroyed == 0
            && v.ups == (if c.io == BASE then 1 else 0)
            && Asked(a, Established(c)) == (if c.io == BASE then 0 else 1)
            && Asked(a, RemoveConn(c)) == 0 && Asked(a, Destroyed(c)) == 0
  {
    hide Known, ConnsOk;
    var ops := AcceptOps(c.io, calls);
    if c.io == BASE {
      hide Run;
      EstablishRun(u, c, calls);
      NoteTasks(a, c, NotesOf(u, c, ops), extra);
    } else {
      RunNothing(u, c);
      OneTask(a, c, Established(c), extra);
    }
  }

  lemma AcceptFlow(s: System, c: Handle, a: Action, f: Functor)
    requires CoreInv(s.core) && WellPlaced(s.core) && Bound(s.conns.Keys, s.core) && c !in s.conns
    requires Lifecycle(f) && f.c == c && Housed(s.core, f) && Can(s.core, a) && a.Dispatch?
    ensures Housed(Apply(s.core, a), f) && Waiting(Apply(s.core, a), f) == Asked(a, f)
  {
    hide CoreInv, WellPlaced, Bound, Waiting, Housed, Apply, Can;
    NewcomerIsNotWaiting(s, f);
    FunctorsFlow(s.core, a, f);
  }

  lemma NewTally(core: Core, c: Handle, k: Conn)
    requires HousedConn(core, c) && k.downs == 0 && k.destroyed == 0 && k.ups == (if c.io == BASE then 1 else 0)
    requires Waiting(core, Established(c)) == (if c.io == BASE then 0 else 1)
    requires Waiting(core, RemoveConn(c)) == 0 && Waiting(core, Destroyed(c)) == 0
    ensures Accounted(core, c, k, false, false)
  {
    hide Waiting, HousedConn, Housed;
  }

  lemma AcceptAccounted(s: System, c: Handle, calls: seq<UserOp>, extra: seq<Task>, a: Action)
    requires SoundCore(s) && c !in s.conns && c.io in s.core.loops && Movable(Admit(s, c), c)
    requires s.erased <= s.conns.Keys && Can(s.core, a)
    requires var ops, v := AcceptOps(c.io, calls), Run(s.cfg, WorldOf(Admit(s, c), c), AcceptOps(c.io, calls)).conn;
             && v.downs == 0 && v.destroyed == 0 && v.ups == (if c.io == BASE then 1 else 0)
    requires Asked(a, Established(c)) == (if c.io == BASE then 0 else 1) && a.Dispatch?
    requires Asked(a, RemoveConn(c)) == 0 && Asked(a, Destroyed(c)) == 0
    ensures AccountedIn(Move(Admit(s, c), a, c, AcceptOps(c.io, calls), false), c)
  {
    assert c !in s.erased && c !in s.doubled;
    AllHoused(s.core, c);
    hide CoreInv, WellPlaced, Bound, Known, Run, Waiting, Asked, Housed, Apply, Can, WorldOf, Accounted;
    AcceptFlow(s, c, a, Established(c));
    AcceptFlow(s, c, a, RemoveConn(c));
    AcceptFlow(s, c, a, Destroyed(c));
    NewTally(Apply(s.core, a), c, Move(Admit(s, c), a, c, AcceptOps(c.io, calls), false).conns[c]);
  }

  lemma AcceptLoop(s: System, c: Handle, a: Action, k: Conn)
    requires ActivesOk(s) && c !in s.conns && c.io in s.core.loops && Current(s, BASE, Listener)
    requires a.Dispatch? && a.l == BASE && Can(s.core, a)
    ensures c.io in Apply(s.core, a).loops
    ensures ActiveOk(Admit(s, c).conns[c := k], c.io, Apply(s.core, a).loops[c.io])
  {
    assert ActiveOk(s.conns, c.io, s.core.loops[c.io]);
    AcceptOwnLoop(s, c, s.core.loops[c.io], Apply(s.core, a).loops[c.io], k);
  }

  lemma AcceptKeepsInv(s: System, c: Handle, calls: seq<UserOp>, extra: seq<Task>, a: Action)
    requires Acceptable(s, c) && c.io in s.pollers && UserTasks(extra) && Current(s, BASE, Listener)
    requires var u := Admit(s, c);
             && a == Dispatch(BASE, AcceptTasks(c, NotesOf(u, c, AcceptOps(c.io, calls))) + extra)
             && Can(u.core, a)
    ensures SysInv(Move(Admit(s, c), a, c, AcceptOps(c.io, calls), false))
  {
    assert s.erased <= s.conns.Keys;
    hide CoreInv, WellPlaced, Known, Bound, ConnsOk, PollersOk, FdsDistinct, MapOk, ActivesOk;
    hide Run, AllEnabled, ActiveOk, HousedConn, Current, HasOwner;
    var u, ops := Admit(s, c), AcceptOps(c.io, calls);
    AdmitIsSound(s, c);
    AcceptProper(u, c, calls, extra, a);
    AcceptAccounted(s, c, calls, extra, a);
    AcceptLoop(s, c, a, Move(u, a, c, ops, false).conns[c]);
    MoveKeepsInv(u, a, c, ops, false);
  }

  // ---------------------------------------------------------------------------------------------

  lemma DispatchNothing(s: System, l: LoopId, src: Source)
    requires SysInv(s) && Current(s, l, src) && !src.ReadyConn?
    ensures Can(s.core, Dispatch(l, [])) && SysInv(s.(core := Apply(s.core, Dispatch(l, []))))
  {
    hide SysInv, Apply;
    CoreOnlyKeepsInv(s, Dispatch(l, []));
  }

  lemma AcceptStep(s: System, fd: int, io: LoopId, calls: seq<UserOp>, extra: seq<Task>, t: System)
    requires SysInv(s) && Next(s, Accept(fd, io, calls, extra), t)
    ensures SysInv(t)
  {
    hide SysInv, Run, HasOwner, Apply, Current;
    var c := Handle(s.server.nextConnId, io, fd);
    AcceptKeepsInv(s, c, calls, extra, AcceptAction(s, c, calls, extra));
  }

  lemma PlainStep(s: System, a: Action)
    requires SysInv(s) && PlainAction(s, a)
    ensures SysInv(s.(core := Apply(s.core, a)))
  {
    hide SysInv, Apply;
    CoreOnlyKeepsInv(s, a);
  }

  /** Every step of the server keeps the invariant. */
  lemma StepKeepsSysInv(s: System, step: SysStep, t: System)
    requires SysInv(s) && Next(s, step, t)
    ensures SysInv(t)
  {
    hide SysInv, Apply, Run, HasOwner, Current, PlainAction, Can;
    match step {
      case Plain(a) => PlainStep(s, a);
      case DrainWakeup(l) => DispatchNothing(s, l, WakeupFd);
      case AcceptFails => DispatchNothing(s, BASE, Listener);
      case Accept(fd, io, calls, extra) => AcceptStep(s, fd, io, calls, extra, t);
      case Serve(l, env, extra) => ServeKeepsInv(s, l, env, extra, t);
      case RunFunctor(l, calls, extra) => FunctorKeepsInv(s, l, calls, extra, t);
      case Pin(_) => PinsDoNotMatter(s, t);
      case Unpin(_) => PinsDoNotMatter(s, t);
    }
  }

  lemma PinsDoNotMatter(s: System, t: System)
    requires SysInv(s) && t == s.(pinned := t.pinned)
    ensures SysInv(t)
  {
    forall c | c in t.conns
      ensures ConnOkIn(t, c) && AccountedIn(t, c)
    {
      assert ConnOkIn(s, c) && AccountedIn(s, c);
      assert WorldOf(t, c) == WorldOf(s, c);
    }
  }

  lemma InitialSysInv(s: System)
    requires Initial(s)
    ensures SysInv(s)
  {
    InitialCoreInv(s.core);
  }
}
