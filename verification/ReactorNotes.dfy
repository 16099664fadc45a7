/** Notifications inside the server: every write-complete and high-water callback a connection asks for
    is queued exactly once, on the connection's own loop, in every interleaving. */
module ReactorNotes {
  import ReactorSteps
  import ReactorTheorems
  import Sequences
  import opened Connections
  import opened ConnectionTheorems
  import opened Loops
  import opened Reactor
  import opened Tokens
  import opened ReactorInvariant
  import opened ReactorData

  /** Close requests become functors of their own (see Tokens); the others become a Notify functor. */
  type Callback = note: Note | !note.CloseRequest? witness WriteComplete

  function NotifyTask(c: Handle, note: Note): Task { Queue(c.io, Notify(c, note)) }

  /** How often a callback has been queued on its loop, or is about to be by the running handler. */
  ghost function Raised(core: Core, c: Handle, note: Note): nat
    requires OfLoop(c.io) in core.threads && c.io in core.loops
  {
    multiset(core.threads[OfLoop(c.io)].todo)[NotifyTask(c, note)] + multiset(core.loops[c.io].pushed)[Notify(c, note)]
  }

  /** How often these steps of a new connection ask for it. */
  ghost function TimesAsked(cfg: Config, c: Handle, ops: seq<Op>, note: Note): nat {
    multiset(Run(cfg, Alone(c), ops).conn.outbox)[note]
  }

  // ---------------------------------------------------------------------------------------------
  // What a connection asks for does not depend on its surroundings.

  lemma StepAsksAlike(cfg: Config, w: World<Handle>, v: World<Handle>, op: Op, note: Note)
    requires Inv(w) && Inv(v) && SameConn(w, v) && Enabled(w.conn, op)
    ensures multiset(Step(cfg, w, op).conn.outbox)[note] + multiset(v.conn.outbox)[note]
         == multiset(Step(cfg, v, op).conn.outbox)[note] + multiset(w.conn.outbox)[note]
  {
    NotesOfStep(cfg, w, op);
    NotesOfStep(cfg, v, op);
    StepIgnoresSurroundings(cfg, w, v, op);
    assert Completes(cfg, w, op) == Completes(cfg, v, op) && CrossesUp(cfg, w, op) == CrossesUp(cfg, v, op);
    hide Step, Inv, Enabled, Completes, CrossesUp;
  }

  lemma {:induction false} RunAsksAlike(cfg: Config, w: World<Handle>, v: World<Handle>, ops: seq<Op>, note: Note)
    requires Inv(w) && Inv(v) && SameConn(w, v) && AllEnabled(cfg, w, ops)
    ensures multiset(Run(cfg, w, ops).conn.outbox)[note] + multiset(v.conn.outbox)[note]
         == multiset(Run(cfg, v, ops).conn.outbox)[note] + multiset(w.conn.outbox)[note]
    decreases |ops|
  {
    if ops != [] {
      StepAsksAlike(cfg, w, v, ops[0], note);
      StepIgnoresSurroundings(cfg, w, v, ops[0]);
      StepKeepsInv(cfg, w, ops[0]);
      StepKeepsInv(cfg, v, ops[0]);
      hide Step, SameConn, Inv;
      RunAsksAlike(cfg, Step(cfg, w, ops[0]), Step(cfg, v, ops[0]), ops[1..], note);
    }
  }

  /** What a served connection asks for in some steps is what its record then asks for in addition. */
  lemma RecordAsks(cfg: Config, w: World<Handle>, before: seq<Op>, ops: seq<Op>, note: Note)
    requires ConnLocal(cfg, w, before) && AllEnabled(cfg, Alone(w.me), before + ops)
    ensures TimesAsked(cfg, w.me, before + ops, note)
         == TimesAsked(cfg, w.me, before, note) + multiset(Run(cfg, w, ops).conn.outbox)[note]
  {
    var alone := Run(cfg, Alone(w.me), before);
    RunSplits(cfg, Alone(w.me), before, ops);
    RunKeepsInv(cfg, Alone(w.me), before);
    RunAsksAlike(cfg, alone, w, ops, note);
  }

  // ---------------------------------------------------------------------------------------------
  // What the loops do with the tasks.

  /** How many of the tasks a handler leaves behind queue this callback. */
  ghost function Planned(a: Action, c: Handle, note: Note): nat {
    if (a.Dispatch? || a.RunNext?) && a.l == c.io then multiset(a.tasks)[NotifyTask(c, note)] else 0
  }

  /** A task a thread carries out leaves its list and, if it queues the callback, reaches the queue. */
  lemma NotifyLeavesThread(core: Core, t: Tid, c: Handle, note: Note)
    requires WellPlaced(core) && Can(core, DoTask(t)) && OfLoop(c.io) in core.threads && c.io in core.loops
    ensures var d := Apply(core, DoTask(t));
            OfLoop(c.io) in d.threads && c.io in d.loops && Raised(d, c, note) == Raised(core, c, note)
  {
    assert PlacedTask(t, core.threads[t].todo[0]);
    hide WellPlaced;
    NotifyOfThread(core, t, c, note);
    NotifyOfLoop(core, t, c, note);
    hide Apply, Can;
  }

  lemma NotifyOfThread(core: Core, t: Tid, c: Handle, note: Note)
    requires Can(core, DoTask(t)) && OfLoop(c.io) in core.threads
    ensures var d, u := Apply(core, DoTask(t)), OfLoop(c.io);
            && u in d.threads
            && multiset(core.threads[u].todo)[NotifyTask(c, note)] == multiset(d.threads[u].todo)[NotifyTask(c, note)]
               + if t == u && core.threads[t].todo[0] == NotifyTask(c, note) then 1 else 0
  {
    Sequences.CountHead(core.threads[t].todo, NotifyTask(c, note));
  }

  lemma NotifyOfLoop(core: Core, t: Tid, c: Handle, note: Note)
    requires Can(core, DoTask(t)) && c.io in core.loops
    ensures var d := Apply(core, DoTask(t));
            && c.io in d.loops
            && multiset(d.loops[c.io].pushed)[Notify(c, note)] == multiset(core.loops[c.io].pushed)[Notify(c, note)]
               + if core.threads[t].todo[0] == NotifyTask(c, note) then 1 else 0
  {
    var head := core.threads[t].todo[0];
    if head.Queue? && head.target == c.io {
      PushRaises(core.loops[c.io], head.f, Notify(c, note));
    }
  }

  lemma PushRaises(l: Loop, g: Functor, f: Functor)
    ensures multiset(Push(l, g).pushed)[f] == multiset(l.pushed)[f] + if g == f then 1 else 0
  {
  }

  lemma NotifyStays(core: Core, a: Action, c: Handle, note: Note)
    requires Can(core, a) && OfLoop(c.io) in core.threads && c.io in core.loops && !a.DoTask?
    ensures var d := Apply(core, a);
            && OfLoop(c.io) in d.threads && c.io in d.loops && d.loops[c.io].pushed == core.loops[c.io].pushed
            && d.threads[OfLoop(c.io)].todo
               == if (a.Dispatch? || a.RunNext?) && a.l == c.io then a.tasks else core.threads[OfLoop(c.io)].todo
    ensures (a.Dispatch? || a.RunNext?) && a.l == c.io ==> core.threads[OfLoop(c.io)].todo == []
  {
  }

  /** No action loses or copies a callback. */
  lemma NotifyFlow(core: Core, a: Action, c: Handle, note: Note)
    requires WellPlaced(core) && Can(core, a) && OfLoop(c.io) in core.threads && c.io in core.loops
    ensures var d := Apply(core, a);
            && OfLoop(c.io) in d.threads && c.io in d.loops
            && Raised(d, c, note) == Raised(core, c, note) + Planned(a, c, note)
  {
    hide WellPlaced, Apply, Can;
    if a.DoTask? {
      NotifyLeavesThread(core, a.t, c, note);
    } else {
      NotifyStays(core, a, c, note);
    }
  }

  lemma {:induction false} NotesBecomeTasks(c0: Handle, notes: seq<Note>, c: Handle, note: Callback)
    ensures multiset(TasksOf(c0, notes))[NotifyTask(c, note)] == if c0 == c then multiset(notes)[note] else 0
    decreases |notes|
  {
    if notes == [] {
    } else {
      NotesBecomeTasks(c0, notes[1..], c, note);
      Sequences.CountHead(notes, note);
      assert TasksOf(c0, notes)[1..] == TasksOf(c0, notes[1..]);
      Sequences.CountHead(TasksOf(c0, notes), NotifyTask(c, note));
    }
  }

  lemma UserTasksNotifyNobody(tasks: seq<Task>, extra: seq<Task>, c: Handle, note: Note)
    requires UserTasks(extra)
    ensures multiset(tasks + extra)[NotifyTask(c, note)] == multiset(tasks)[NotifyTask(c, note)]
  {
    assert NotifyTask(c, note) !in extra;
  }

  lemma HandlerPlans(a: Action, c0: Handle, notes: seq<Note>, extra: seq<Task>, c: Handle, note: Callback)
    requires (a.Dispatch? || a.RunNext?) && ReactorSteps.HandlerTasks(a.tasks, c0, a.l, notes, extra)
    ensures Planned(a, c, note) == if c0 == c then multiset(notes)[note] else 0
  {
    NotesBecomeTasks(c0, notes, c, note);
    UserTasksNotifyNobody(TasksOf(c0, notes), extra, c, note);
  }

  /** A lone lifecycle functor, or nothing at all, plans no callback. */
  lemma OtherPlans(a: Action, tasks: seq<Task>, extra: seq<Task>, c: Handle, note: Note)
    requires (a.Dispatch? || a.RunNext?) && a.tasks == tasks + extra && UserTasks(extra)
    requires |tasks| <= 1 && (tasks != [] ==> tasks[0].Queue? && !tasks[0].f.Notify?)
    ensures Planned(a, c, note) == 0
  {
    UserTasksNotifyNobody(tasks, extra, c, note);
  }

  // ---------------------------------------------------------------------------------------------
  // Steps of the server.

  lemma ServePlans(s: System, l: LoopId, env: Env, extra: seq<Task>, c: Handle, note: Callback)
    requires SysInv(s) && AtConn(s, l) && UserTasks(extra)
    ensures Planned(ServeAction(s, l, env, extra), c, note)
         == if CurrentConn(s, l) == c then multiset(NotesOf(s, c, OpsOf(s, Serve(l, env, extra), c)))[note] else 0
  {
    hide SysInv, Run, EventOps, TasksOf, Planned;
    ReactorSteps.ServeFacts(s, l);
    var c0 := CurrentConn(s, l);
    HandlerPlans(ServeAction(s, l, env, extra), c0, NotesOf(s, c0, EventOps(CurrentEvents(s, l), env)), extra, c, note);
  }

  lemma FunctorPlans(s: System, l: LoopId, calls: seq<UserOp>, extra: seq<Task>, c: Handle, note: Callback)
    requires SysInv(s) && AtFunctor(s, l) && UserTasks(extra)
    ensures Planned(FunctorAction(s, l, calls, extra), c, note)
         == if BindsConn(CurrentFunctor(s, l), c)
            then multiset(NotesOf(s, c, OpsOf(s, RunFunctor(l, calls, extra), c)))[note] else 0
  {
    hide SysInv, Run, TasksOf, Planned, ConnOkIn, AccountedIn, Waiting;
    var f, a := CurrentFunctor(s, l), FunctorAction(s, l, calls, extra);
    if f.User? {
      assert [] + extra == extra;
      OtherPlans(a, [], extra, c, note);
    } else {
      ReactorSteps.RunsInPlace(s, l, f);
      hide AtFunctor;
      if f.RemoveConn? {
        OtherPlans(a, [Queue(f.c.io, Destroyed(f.c))], extra, c, note);
        RemovalAsksNothing(s, f.c);
      } else {
        HandlerPlans(a, f.c, NotesOf(s, f.c, FunctorOps(f, calls)), extra, c, note);
      }
    }
  }

  lemma RemovalAsksNothing(s: System, c: Handle)
    requires c in s.conns && ConnOkIn(s, c)
    ensures NotesOf(s, c, []) == []
  {
  }

  lemma AcceptPlans(s: System, c0: Handle, calls: seq<UserOp>, extra: seq<Task>, c: Handle, note: Callback)
    requires c0.io in s.pollers && UserTasks(extra)
    ensures Planned(AcceptAction(s, c0, calls, extra), c, note)
         == if c0 == c then multiset(NotesOf(Admit(s, c), c, AcceptOps(c.io, calls)))[note] else 0
  {
    hide Planned, TasksOf;
    var a, notes := AcceptAction(s, c0, calls, extra), NotesOf(Admit(s, c0), c0, AcceptOps(c0.io, calls));
    if c0.io == BASE {
      hide Run;
      HandlerPlans(a, c0, notes, extra, c, note);
    } else {
      OtherPlans(a, [Queue(c0.io, Established(c0))], extra, c, note);
      assert notes == [];
    }
  }

  /** What a step of the server queues is what the connection's steps ask for. */
  ghost predicate StepBalances(s: System, step: SysStep, t: System, c: Handle, note: Note)
    requires OfLoop(c.io) in s.core.threads && c.io in s.core.loops
  {
    && OfLoop(c.io) in t.core.threads && c.io in t.core.loops
    && Raised(t.core, c, note) + TimesAsked(s.cfg, c, Record(s, c), note)
       == Raised(s.core, c, note) + TimesAsked(s.cfg, c, Record(s, c) + OpsOf(s, step, c), note)
  }

  ghost predicate Takes(s: System, a: Action, t: System, c: Handle) {
    && WellPlaced(s.core) && Can(s.core, a) && t.core == Apply(s.core, a)
    && OfLoop(c.io) in s.core.threads && c.io in s.core.loops
  }

  lemma BystanderBalances(s: System, step: SysStep, t: System, a: Action, c: Handle, note: Note)
    requires Takes(s, a, t, c) && OpsOf(s, step, c) == [] && Planned(a, c, note) == 0
    ensures StepBalances(s, step, t, c, note)
  {
    NotifyFlow(s.core, a, c, note);
    hide Takes, OpsOf, Raised, Apply, Can;
    assert Record(s, c) + [] == Record(s, c);
  }

  /** `u` is the server as the moving connection finds it. */
  lemma MoverBalances(s: System, u: System, step: SysStep, t: System, a: Action, c: Handle, note: Note)
    requires Takes(s, a, t, c) && c in u.conns && ConnOkIn(u, c) && u.cfg == s.cfg && Record(u, c) == Record(s, c)
    requires AllEnabled(s.cfg, Alone(c), Record(s, c) + OpsOf(s, step, c))
    requires Planned(a, c, note) == multiset(NotesOf(u, c, OpsOf(s, step, c)))[note]
    ensures StepBalances(s, step, t, c, note)
  {
    NotifyFlow(s.core, a, c, note);
    hide OpsOf, Raised, Apply, Can, ConnLocal;
    RecordAsks(s.cfg, WorldOf(u, c), Record(s, c), OpsOf(s, step, c), note);
  }

  lemma NumberedByInv(s: System)
    requires SysInv(s)
    ensures Numbered(s)
  {
    ReactorSteps.PartsOfInv(s);
    hide SysInv;
  }

  /** The steps a connection makes in the server extend a run of its own. */
  lemma ExtendsItsRun(s: System, step: SysStep, t: System, c: Handle)
    requires SysInv(s) && SysInv(t) && Next(s, step, t) && c in t.conns
    ensures AllEnabled(s.cfg, Alone(c), Record(s, c) + OpsOf(s, step, c))
  {
    LocalOf(t, c);
    NumberedByInv(s);
    hide SysInv, Next, OpsOf, Numbered;
    StepExtendsRecord(s, step, t, c);
  }

  lemma TakesItsAction(s: System, step: SysStep, t: System, c: Handle)
    requires WellPlaced(s.core) && Next(s, step, t) && CoreActions(s, step) != []
    requires OfLoop(c.io) in s.core.threads && c.io in s.core.loops
    ensures Takes(s, CoreActions(s, step)[0], t, c)
  {
    hide Next, CoreActions, WellPlaced, Apply, Can;
    ReactorTheorems.CoreOfStep(s, step, t);
    assert CoreActions(s, step)[1..] == [];
  }

  lemma QuietBalances(s: System, step: SysStep, t: System, c: Handle, note: Note)
    requires SysInv(s) && Next(s, step, t) && OfLoop(c.io) in s.core.threads && c.io in s.core.loops
    requires step.Plain? || step.DrainWakeup? || step.AcceptFails?
    ensures StepBalances(s, step, t, c, note)
  {
    hide SysInv, Apply, Current, Takes, WellPlaced, Can;
    ReactorSteps.PlacedByInv(s);
    TakesItsAction(s, step, t, c);
    BystanderBalances(s, step, t, CoreActions(s, step)[0], c, note);
  }

  lemma LocalOf(s: System, c: Handle)
    requires SysInv(s)
    ensures c in s.conns ==> ConnOkIn(s, c)
  {
    ReactorSteps.PartsOfInv(s);
    hide SysInv, ConnOkIn;
  }

  lemma ServeMoves(s: System, l: LoopId, env: Env, extra: seq<Task>, t: System)
    requires NextServe(s, l, env, extra, t)
    ensures AtConn(s, l) && CurrentConn(s, l) in s.conns && CurrentConn(s, l) in t.conns && UserTasks(extra)
    ensures CoreActions(s, Serve(l, env, extra)) == [ServeAction(s, l, env, extra)]
  {
    hide Run, Apply, Can, EventOps, ServeAction, ClosesTwice;
  }

  lemma FunctorMoves(s: System, l: LoopId, calls: seq<UserOp>, extra: seq<Task>, t: System)
    requires NextFunctor(s, l, calls, extra, t)
    ensures AtFunctor(s, l) && UserTasks(extra)
    ensures var f := CurrentFunctor(s, l); !f.User? ==> f.c in s.conns && f.c in t.conns
    ensures CoreActions(s, RunFunctor(l, calls, extra)) == [FunctorAction(s, l, calls, extra)]
  {
    hide Run, Apply, Can, FunctorOps, FunctorAction;
  }

  lemma ServeTakes(s: System, l: LoopId, env: Env, extra: seq<Task>, t: System, c: Handle)
    requires SysInv(s) && NextServe(s, l, env, extra, t)
    requires OfLoop(c.io) in s.core.threads && c.io in s.core.loops
    ensures Next(s, Serve(l, env, extra), t) && UserTasks(extra) && AtConn(s, l)
    ensures Takes(s, ServeAction(s, l, env, extra), t, c)
    ensures var c0 := CurrentConn(s, l);
            && c0 in t.conns && c0 in s.conns && ConnOkIn(s, c0)
            && (c0 != c ==> OpsOf(s, Serve(l, env, extra), c) == [])
  {
    hide SysInv, NextServe, EventOps, ServeAction, NotesOf, Takes, Planned, ConnOkIn, CoreActions, WellPlaced;
    ReactorSteps.PlacedByInv(s);
    assert Next(s, Serve(l, env, extra), t);
    hide Next;
    ServeMoves(s, l, env, extra, t);
    TakesItsAction(s, Serve(l, env, extra), t, c);
    LocalOf(s, CurrentConn(s, l));
  }

  lemma ServeBalances(s: System, l: LoopId, env: Env, extra: seq<Task>, t: System, c: Handle, note: Callback)
    requires SysInv(s) && SysInv(t) && NextServe(s, l, env, extra, t)
    requires OfLoop(c.io) in s.core.threads && c.io in s.core.loops
    ensures StepBalances(s, Serve(l, env, extra), t, c, note)
  {
    hide SysInv, EventOps, ServeAction, NotesOf, Takes, Planned, ConnOkIn, NextServe, OpsOf, CurrentConn, UserTasks;
    hide TimesAsked, Run, AllEnabled, StepBalances, Record, Raised, Apply, Can, WorldOf, Move;
    ServeTakes(s, l, env, extra, t, c);
    var step, a := Serve(l, env, extra), ServeAction(s, l, env, extra);
    ServePlans(s, l, env, extra, c, note);
    if CurrentConn(s, l) == c {
      ServedBalances(s, step, t, a, c, note);
    } else {
      BystanderBalances(s, step, t, a, c, note);
    }
  }

  /** The connection a step moves, if it was there before. */
  lemma ServedBalances(s: System, step: SysStep, t: System, a: Action, c: Handle, note: Callback)
    requires SysInv(s) && SysInv(t) && Next(s, step, t) && Takes(s, a, t, c) && c in s.conns && c in t.conns
    requires Movable(s, c) && Planned(a, c, note) == multiset(NotesOf(s, c, OpsOf(s, step, c)))[note]
    ensures StepBalances(s, step, t, c, note)
  {
    hide SysInv, EventOps, NotesOf, Takes, Planned, ConnOkIn, Next, OpsOf;
    hide TimesAsked, Run, AllEnabled, StepBalances, Record, Raised, Apply, Can, WorldOf, Move;
    LocalOf(s, c);
    ExtendsItsRun(s, step, t, c);
    MoverBalances(s, s, step, t, a, c, note);
  }

  lemma FunctorTakes(s: System, l: LoopId, calls: seq<UserOp>, extra: seq<Task>, t: System, c: Handle)
    requires SysInv(s) && NextFunctor(s, l, calls, extra, t)
    requires OfLoop(c.io) in s.core.threads && c.io in s.core.loops
    ensures Next(s, RunFunctor(l, calls, extra), t) && UserTasks(extra) && AtFunctor(s, l)
    ensures !BindsConn(CurrentFunctor(s, l), c) ==> OpsOf(s, RunFunctor(l, calls, extra), c) == []
    ensures Takes(s, FunctorAction(s, l, calls, extra), t, c)
    ensures BindsConn(CurrentFunctor(s, l), c) ==> c in s.conns && c in t.conns && Movable(s, c)
  {
    hide SysInv, NextFunctor, FunctorOps, FunctorAction, NotesOf, Takes, Planned, ConnOkIn, CoreActions, WellPlaced;
    ReactorSteps.PlacedByInv(s);
    assert Next(s, RunFunctor(l, calls, extra), t);
    hide Next;
    FunctorMoves(s, l, calls, extra, t);
    TakesItsAction(s, RunFunctor(l, calls, extra), t, c);
  }

  lemma FunctorBalances(
    s: System, l: LoopId, calls: seq<UserOp>, extra: seq<Task>, t: System, c: Handle, note: Callback)
    requires SysInv(s) && SysInv(t) && NextFunctor(s, l, calls, extra, t)
    requires OfLoop(c.io) in s.core.threads && c.io in s.core.loops
    ensures StepBalances(s, RunFunctor(l, calls, extra), t, c, note)
  {
    hide SysInv, FunctorOps, FunctorAction, NotesOf, Takes, Planned, ConnOkIn, NextFunctor, OpsOf, UserTasks, BindsConn;
    hide TimesAsked, Run, AllEnabled, StepBalances, Record, Raised, Apply, Can, WorldOf, Move;
    FunctorTakes(s, l, calls, extra, t, c);
    var step, a := RunFunctor(l, calls, extra), FunctorAction(s, l, calls, extra);
    FunctorPlans(s, l, calls, extra, c, note);
    if BindsConn(CurrentFunctor(s, l), c) {
      ServedBalances(s, step, t, a, c, note);
    } else {
      BystanderBalances(s, step, t, a, c, note);
    }
  }

  lemma AdmittedIsLocal(s: System, c: Handle, calls: seq<UserOp>, extra: seq<Task>, t: System)
    requires SysInv(s) && NextAccept(s, c, calls, extra, t)
    ensures c in Admit(s, c).conns && ConnOkIn(Admit(s, c), c) && Record(Admit(s, c), c) == Record(s, c) == []
    ensures c in t.conns && Movable(Admit(s, c), c) && Admit(s, c).cfg == s.cfg
  {
    assert Admit(s, c).cfg == s.cfg;
    NewcomerIsUnknown(s, c);
    AdmittedStays(s, c, calls, extra, t);
    hide Run, Apply, Can, Current, HasOwner, Sound, SysInv, ConnOkIn, Admit;
    assert ReactorSteps.Acceptable(s, c);
    ReactorSteps.AdmitIsSound(s, c);
    SoundConn(Admit(s, c), c);
  }

  lemma SoundConn(s: System, c: Handle)
    requires Sound(s) && c in s.conns
    ensures ConnOkIn(s, c)
  {
    hide SoundCore, SoundServer, Known, PollersOk, FdsDistinct, ConnOkIn;
  }

  lemma NewcomerIsUnknown(s: System, c: Handle)
    requires SysInv(s) && c.id == s.server.nextConnId
    ensures c !in s.conns && c !in s.history && Record(Admit(s, c), c) == []
    ensures c.io in s.pollers ==> c.io in s.core.loops
  {
    ReactorSteps.PartsOfInv(s);
    hide SysInv;
  }

  lemma AdmittedStays(s: System, c: Handle, calls: seq<UserOp>, extra: seq<Task>, t: System)
    requires NextAccept(s, c, calls, extra, t)
    ensures c in t.conns && c in Admit(s, c).conns
  {
    hide Run, Apply, Can, Current, HasOwner, AcceptAction, AcceptOps;
  }

  lemma AcceptMoves(s: System, step: SysStep, t: System)
    requires step.Accept? && Next(s, step, t)
    ensures var c0 := Handle(s.server.nextConnId, step.io, step.fd);
            && c0.io in s.pollers && UserTasks(step.extra)
            && CoreActions(s, step) == [AcceptAction(s, c0, step.calls, step.extra)]
  {
    hide Run, Apply, Can, Current, HasOwner, AcceptAction;
  }

  lemma AcceptTakes(s: System, step: SysStep, t: System, c: Handle)
    requires SysInv(s) && step.Accept? && Next(s, step, t)
    requires OfLoop(c.io) in s.core.threads && c.io in s.core.loops
    ensures var c0 := Handle(s.server.nextConnId, step.io, step.fd);
            && c0.io in s.pollers && UserTasks(step.extra)
            && Takes(s, AcceptAction(s, c0, step.calls, step.extra), t, c)
            && NextAccept(s, c0, step.calls, step.extra, t)
            && (c0 != c ==> OpsOf(s, step, c) == [])
            && (c0 == c ==> OpsOf(s, step, c) == AcceptOps(c.io, step.calls))
  {
    hide SysInv, NextAccept, AcceptOps, AcceptAction, NotesOf, Takes, Planned, ConnOkIn, CoreActions, WellPlaced;
    ReactorSteps.PlacedByInv(s);
    AcceptMoves(s, step, t);
    TakesItsAction(s, step, t, c);
  }

  lemma AcceptBalances(s: System, step: SysStep, t: System, c: Handle, note: Callback)
    requires SysInv(s) && SysInv(t) && step.Accept? && Next(s, step, t)
    requires OfLoop(c.io) in s.core.threads && c.io in s.core.loops
    ensures StepBalances(s, step, t, c, note)
  {
    hide SysInv, Next, NextAccept, AcceptOps, AcceptAction, NotesOf, Takes, Planned, ConnOkIn, OpsOf, UserTasks, Admit;
    hide TimesAsked, Run, AllEnabled, StepBalances, Record, Raised, Apply, Can, WorldOf, Move;
    AcceptTakes(s, step, t, c);
    var c0 := Handle(s.server.nextConnId, step.io, step.fd);
    var a := AcceptAction(s, c0, step.calls, step.extra);
    AcceptPlans(s, c0, step.calls, step.extra, c, note);
    if c0 == c {
      AdmittedIsLocal(s, c, step.calls, step.extra, t);
      ExtendsItsRun(s, step, t, c);
      MoverBalances(s, Admit(s, c), step, t, a, c, note);
    } else {
      BystanderBalances(s, step, t, a, c, note);
    }
  }

  lemma StepKeepsBalance(s: System, step: SysStep, t: System, c: Handle, note: Callback)
    requires SysInv(s) && SysInv(t) && Next(s, step, t) && OfLoop(c.io) in s.core.threads && c.io in s.core.loops
    ensures StepBalances(s, step, t, c, note)
  {
    hide SysInv, NextAccept, NextServe, NextFunctor, PlainAction, HasOwner, Takes, Apply, Current;
    match step {
      case Accept(_, _, _, _) => AcceptBalances(s, step, t, c, note);
      case Serve(l, env, extra) => ServeBalances(s, l, env, extra, t, c, note);
      case RunFunctor(l, calls, extra) => FunctorBalances(s, l, calls, extra, t, c, note);
      case Plain(_) => QuietBalances(s, step, t, c, note);
      case DrainWakeup(_) => QuietBalances(s, step, t, c, note);
      case AcceptFails => QuietBalances(s, step, t, c, note);
      case Pin(_) => assert Record(s, c) + [] == Record(s, c);
      case Unpin(_) => assert Record(s, c) + [] == Record(s, c);
    }
  }

  // ---------------------------------------------------------------------------------------------
  // Runs of the server.

  lemma LoopsStay(states: seq<System>, steps: seq<SysStep>, n: nat, l: LoopId)
    requires IsRun(states, steps) && 0 < n < |states| && l in states[n].core.loops
    ensures l in states[n - 1].core.loops && OfLoop(l) in states[n - 1].core.threads
    ensures OfLoop(l) in states[n].core.threads
  {
    hide SysInv, Next, Initial, CoreActions, CanAll, ApplyAll;
    ReactorTheorems.RunKeepsSysInv(states, steps, n - 1);
    ReactorTheorems.RunKeepsSysInv(states, steps, n);
    LoopsHaveThreads(states[n - 1]);
    LoopsHaveThreads(states[n]);
    ReactorTheorems.ServerRunsItsLoops(states, steps, n - 1, n);
    LoopsAreSafe(states[n - 1].core, ReactorTheorems.RunActions(states, steps, n - 1, n));
  }

  lemma LoopsHaveThreads(s: System)
    requires SysInv(s)
    ensures CoreInv(s.core) && forall l :: l in s.core.loops ==> OfLoop(l) in s.core.threads
  {
    ReactorSteps.PartsOfInv(s);
    hide SysInv;
  }

  lemma NothingRaisedYet(s: System, c: Handle, note: Note)
    requires Initial(s) && c.io in s.core.loops
    ensures OfLoop(c.io) in s.core.threads && Raised(s.core, c, note) == 0
    ensures Record(s, c) == [] && TimesAsked(s.cfg, c, [], note) == 0
  {
  }

  lemma {:induction false} RunKeepsBalance(states: seq<System>, steps: seq<SysStep>, n: nat, c: Handle, note: Callback)
    requires IsRun(states, steps) && n < |states| && c.io in states[n].core.loops
    ensures OfLoop(c.io) in states[n].core.threads
    ensures Raised(states[n].core, c, note) == TimesAsked(states[n].cfg, c, Record(states[n], c), note)
  {
    hide SysInv, Next, Initial, Record, OpsOf, Raised, TimesAsked, Numbered;
    if n == 0 {
      NothingRaisedYet(states[0], c, note);
    } else {
      LoopsStay(states, steps, n, c.io);
      RunKeepsBalance(states, steps, n - 1, c, note);
      ReactorTheorems.RunKeepsSysInv(states, steps, n - 1);
      ReactorTheorems.RunKeepsSysInv(states, steps, n);
      NumberedInRun(states, steps, n - 1);
      StepKeepsBalance(states[n - 1], steps[n - 1], states[n], c, note);
      StepExtendsRecord(states[n - 1], steps[n - 1], states[n], c);
    }
  }

  /** Every callback a connection asks for over the steps it makes is queued exactly once on the
      connection's own loop, or is one of the tasks of its running handler; by `LoopsStaySafe` what is
      queued is run once, in order. */
  lemma CallbacksAreConserved(states: seq<System>, steps: seq<SysStep>, n: nat, c: Handle, note: Callback)
    requires IsRun(states, steps) && n < |states| && c in states[n].conns
    ensures var s := states[n];
            && c in s.history && c.io in s.core.loops && OfLoop(c.io) in s.core.threads
            && multiset(s.core.threads[OfLoop(c.io)].todo)[Queue(c.io, Notify(c, note))]
               + multiset(s.core.loops[c.io].pushed)[Notify(c, note)]
               == multiset(Run(s.cfg, Alone(c), s.history[c]).conn.outbox)[note]
  {
    ReactorTheorems.RunKeepsSysInv(states, steps, n);
    ReactorTheorems.LoopsOfConn(states[n], c);
    assert ConnOkIn(states[n], c);
    hide SysInv, IsRun;
    RunKeepsBalance(states, steps, n, c, note);
  }

  lemma {:induction false} CountsAsMultiset(notes: seq<Note>)
    ensures CountWriteComplete(notes) == multiset(notes)[WriteComplete]
    decreases |notes|
  {
    if notes != [] {
      CountsAsMultiset(notes[1..]);
      Sequences.CountHead(notes, WriteComplete);
    }
  }

  /** With the callback installed, write-complete is queued on the connection's loop once for each time
      its buffer drains or a direct write takes a whole message, and never otherwise. */
  lemma WriteCompletesAreQueued(states: seq<System>, steps: seq<SysStep>, n: nat, c: Handle)
    requires IsRun(states, steps) && n < |states| && c in states[n].conns && states[n].cfg.writeComplete
    ensures var s := states[n];
            && c in s.history && c.io in s.core.loops && OfLoop(c.io) in s.core.threads
            && Raised(s.core, c, WriteComplete) == Completions(s.cfg, Alone(c), s.history[c])
  {
    hide SysInv, IsRun, ConnLocal;
    CallbacksAreConserved(states, steps, n, c, WriteComplete);
    ServedIsLocal(states, steps, n, c);
    LocalCompletions(states[n].cfg, WorldOf(states[n], c), states[n].history[c]);
    CountsAsMultiset(Run(states[n].cfg, Alone(c), states[n].history[c]).conn.outbox);
  }

  lemma LocalCompletions(cfg: Config, w: World<Handle>, history: seq<Op>)
    requires ConnLocal(cfg, w, history) && cfg.writeComplete
    ensures CountWriteComplete(Run(cfg, Alone(w.me), history).conn.outbox) == Completions(cfg, Alone(w.me), history)
  {
    WriteCompleteCounts(cfg, Alone(w.me), history);
  }
}
