/** Where the lifecycle functors are: each belongs to one queue, and no action loses or copies one. */
module Tokens {
  import ConnectionTheorems
  import Sequences
  import opened Connections
  import opened Loops
  import opened Reactor

  /** The functors that carry a connection through its life. */
  predicate Lifecycle(f: Functor) { f.Established? || f.Destroyed? || f.RemoveConn? }

  /** The loop whose thread queues a functor about a connection, and the loop it is queued on. */
  function Src(f: Functor): LoopId
    requires !f.User?
  {
    if f.RemoveConn? || f.Notify? then f.c.io else BASE
  }

  function Tgt(f: Functor): LoopId
    requires !f.User?
  {
    if f.RemoveConn? then BASE else f.c.io
  }

  predicate PlacedTask(t: Tid, task: Task) {
    task.Queue? && !task.f.User? ==> t == OfLoop(Src(task.f)) && task.target == Tgt(task.f)
  }

  predicate PlacedFunctor(l: LoopId, f: Functor) { !f.User? ==> l == Tgt(f) }

  ghost predicate WellPlaced(core: Core) {
    && (forall t, i :: t in core.threads && 0 <= i < |core.threads[t].todo| ==>
          PlacedTask(t, core.threads[t].todo[i]))
    && (forall l, f :: l in core.loops && f in core.loops[l].pending ==> PlacedFunctor(l, f))
    && (forall l, f :: l in core.loops && f in core.loops[l].batch ==> PlacedFunctor(l, f))
  }

  ghost predicate PlacedAction(a: Action) {
    match a
    case Dispatch(l, tasks) => forall i :: 0 <= i < |tasks| ==> PlacedTask(OfLoop(l), tasks[i])
    case RunNext(l, tasks) => forall i :: 0 <= i < |tasks| ==> PlacedTask(OfLoop(l), tasks[i])
    case Plan(_, tasks) => UserTasks(tasks)
    case Wake(_) => true
    case DoTask(_) => true
    case Test(_) => true
    case Poll(_, _) => true
    case EndDispatch(_) => true
    case SwapBatch(_) => true
    case EndBatch(_) => true
  }

  ghost predicate Housed(core: Core, f: Functor)
    requires Lifecycle(f)
  {
    && OfLoop(Src(f)) in core.threads && Tgt(f) in core.loops
    && core.loops[Tgt(f)].next <= |core.loops[Tgt(f)].batch|
  }

  ghost function InTodoOf(th: Thread, f: Functor): nat
    requires Lifecycle(f)
  {
    multiset(th.todo)[Queue(Tgt(f), f)]
  }

  ghost function InLoop(l: Loop, f: Functor): nat
    requires l.next <= |l.batch|
  {
    multiset(l.pending)[f] + multiset(l.batch[l.next..])[f]
  }

  /** How many times a lifecycle functor is waiting: about to be queued, queued, or in a batch and not
      yet run. */
  ghost function Waiting(core: Core, f: Functor): nat
    requires Lifecycle(f) && Housed(core, f)
  {
    InTodoOf(core.threads[OfLoop(Src(f))], f) + InLoop(core.loops[Tgt(f)], f)
  }

  ghost function Asked(a: Action, f: Functor): nat
    requires Lifecycle(f)
  {
    match a
    case Dispatch(l, tasks) => if l == Src(f) then multiset(tasks)[Queue(Tgt(f), f)] else 0
    case RunNext(l, tasks) => if l == Src(f) then multiset(tasks)[Queue(Tgt(f), f)] else 0
    case Plan(_, _) => 0
    case Wake(_) => 0
    case DoTask(_) => 0
    case Test(_) => 0
    case Poll(_, _) => 0
    case EndDispatch(_) => 0
    case SwapBatch(_) => 0
    case EndBatch(_) => 0
  }

  ghost function Ran(core: Core, a: Action, f: Functor): nat
    requires Can(core, a)
  {
    if a.RunNext? && core.loops[a.l].batch[core.loops[a.l].next] == f then 1 else 0
  }

  lemma ActionKeepsPlacedTasks(core: Core, a: Action, t: Tid, i: nat)
    requires Can(core, a) && WellPlaced(core) && PlacedAction(a)
    requires t in core.threads && t in Apply(core, a).threads && i < |Apply(core, a).threads[t].todo|
    ensures PlacedTask(t, Apply(core, a).threads[t].todo[i])
  {
    var d := Apply(core, a);
    if a.DoTask? && a.t == t {
      assert PlacedTask(t, core.threads[t].todo[i + 1]);
    } else if d.threads[t].todo == core.threads[t].todo {
      assert PlacedTask(t, core.threads[t].todo[i]);
    }
  }

  lemma ActionKeepsPlacedFunctors(core: Core, a: Action, l: LoopId, f: Functor)
    requires Can(core, a) && WellPlaced(core) && l in core.loops && l in Apply(core, a).loops
    requires f in Apply(core, a).loops[l].pending || f in Apply(core, a).loops[l].batch
    ensures PlacedFunctor(l, f)
  {
    if a.DoTask? {
      assert PlacedTask(a.t, core.threads[a.t].todo[0]);
    }
    if f !in core.loops[l].pending && f !in core.loops[l].batch {
      assert a.DoTask? && f == core.threads[a.t].todo[0].f;
    }
  }

  lemma ActionKeepsPlaces(core: Core, a: Action)
    requires CoreInv(core) && Can(core, a) && WellPlaced(core) && PlacedAction(a)
    ensures WellPlaced(Apply(core, a))
  {
    ActionKeepsKeys(core, a);
    hide CoreInv, Can, Apply, PlacedAction, PlacedTask, PlacedFunctor;
    var d := Apply(core, a);
    forall t, i | t in d.threads && 0 <= i < |d.threads[t].todo|
      ensures PlacedTask(t, d.threads[t].todo[i])
    {
      ActionKeepsPlacedTasks(core, a, t, i);
    }
    forall l, f | l in d.loops && (f in d.loops[l].pending || f in d.loops[l].batch)
      ensures PlacedFunctor(l, f)
    {
      ActionKeepsPlacedFunctors(core, a, l, f);
    }
  }

  lemma PushCount(l: Loop, g: Functor, f: Functor)
    requires l.next <= |l.batch|
    ensures InLoop(Push(l, g), f) == InLoop(l, f) + if g == f then 1 else 0
  {
  }

  /** What waits afterwards is what waited, less what ran, plus what the running handler asks for. */
  ghost predicate Flows(core: Core, a: Action, f: Functor)
    requires Can(core, a) && Lifecycle(f) && Housed(core, f) && Housed(Apply(core, a), f)
  {
    Waiting(Apply(core, a), f) + Ran(core, a, f) == Waiting(core, f) + Asked(a, f)
  }

  lemma TaskLeavesThread(core: Core, t: Tid, f: Functor)
    requires Can(core, DoTask(t)) && Lifecycle(f) && Housed(core, f) && Housed(Apply(core, DoTask(t)), f)
    ensures var d, u, mine := Apply(core, DoTask(t)), OfLoop(Src(f)), core.threads[t].todo[0] == Queue(Tgt(f), f);
            InTodoOf(core.threads[u], f) == InTodoOf(d.threads[u], f) + if t == u && mine then 1 else 0
  {
    Sequences.CountHead(core.threads[t].todo, Queue(Tgt(f), f));
  }

  lemma TaskReachesLoop(core: Core, t: Tid, f: Functor)
    requires Can(core, DoTask(t)) && Lifecycle(f) && Housed(core, f) && Housed(Apply(core, DoTask(t)), f)
    ensures InLoop(Apply(core, DoTask(t)).loops[Tgt(f)], f)
         == InLoop(core.loops[Tgt(f)], f) + if core.threads[t].todo[0] == Queue(Tgt(f), f) then 1 else 0
  {
    var todo := core.threads[t].todo;
    if todo[0].Queue? && todo[0].target == Tgt(f) {
      PushCount(core.loops[todo[0].target], todo[0].f, f);
    }
  }

  lemma DoTaskFlow(core: Core, t: Tid, f: Functor)
    requires Can(core, DoTask(t)) && Lifecycle(f) && Housed(core, f) && Housed(Apply(core, DoTask(t)), f)
    requires WellPlaced(core)
    ensures Flows(core, DoTask(t), f)
  {
    assert PlacedTask(t, core.threads[t].todo[0]);
    TaskLeavesThread(core, t, f);
    TaskReachesLoop(core, t, f);
    hide WellPlaced, Apply, Housed, InTodoOf, InLoop;
  }

  lemma RanCount(l: Loop, f: Functor)
    requires l.next < |l.batch|
    ensures InLoop(l, f) == InLoop(RanNext(l), f) + if l.batch[l.next] == f then 1 else 0
  {
    Sequences.CountHead(l.batch[l.next..], f);
    assert l.batch[l.next..][1..] == l.batch[l.next + 1..];
  }

  lemma RunNextFlow(core: Core, l: LoopId, tasks: seq<Task>, f: Functor)
    requires Can(core, RunNext(l, tasks)) && Lifecycle(f)
    requires Housed(core, f) && Housed(Apply(core, RunNext(l, tasks)), f)
    requires WellPlaced(core)
    ensures Flows(core, RunNext(l, tasks), f)
  {
    assert core.loops[l].batch[core.loops[l].next] in core.loops[l].batch;
    RanCount(core.loops[l], f);
  }

  lemma SwapFlow(core: Core, l: LoopId, f: Functor)
    requires Can(core, SwapBatch(l)) && Lifecycle(f) && LoopOk(core.loops[l])
    requires Housed(core, f) && Housed(Apply(core, SwapBatch(l)), f)
    ensures Flows(core, SwapBatch(l), f)
  {
    var v := core.loops[l];
    assert v.batch[v.next..] == [] && v.pending[0..] == v.pending;
  }

  lemma EndBatchFlow(core: Core, l: LoopId, f: Functor)
    requires Can(core, EndBatch(l)) && Lifecycle(f)
    requires Housed(core, f) && Housed(Apply(core, EndBatch(l)), f)
    ensures Flows(core, EndBatch(l), f)
  {
    var v := core.loops[l];
    assert v.batch[v.next..] == [] && Apply(core, EndBatch(l)).loops[l].batch[0..] == [];
  }

  lemma OtherFlow(core: Core, a: Action, f: Functor)
    requires Can(core, a) && Lifecycle(f)
    requires !a.DoTask? && !a.RunNext? && !a.SwapBatch? && !a.EndBatch?
    requires Housed(core, f) && Housed(Apply(core, a), f)
    ensures Flows(core, a, f)
  {
  }

  lemma StaysHoused(core: Core, a: Action, f: Functor)
    requires CoreInv(core) && Can(core, a) && Lifecycle(f) && Housed(core, f)
    ensures CoreInv(Apply(core, a)) && Housed(Apply(core, a), f)
  {
    ActionKeepsInv(core, a);
    hide Apply, Can;
    assert LoopOk(Apply(core, a).loops[Tgt(f)]);
  }

  /** Lifecycle functors are neither lost nor copied: what waits afterwards is what waited, less the
      one that ran, plus those the running handler asks for. */
  lemma FunctorsFlow(core: Core, a: Action, f: Functor)
    requires CoreInv(core) && Can(core, a) && WellPlaced(core) && Lifecycle(f) && Housed(core, f)
    ensures CoreInv(Apply(core, a)) && Housed(Apply(core, a), f)
    ensures Waiting(Apply(core, a), f) + Ran(core, a, f) == Waiting(core, f) + Asked(a, f)
  {
    StaysHoused(core, a, f);
    assert a.SwapBatch? ==> LoopOk(core.loops[a.l]);
    assert Flows(core, a, f) by {
      hide CoreInv, WellPlaced, Apply, Can, Housed, Waiting, Asked, Ran, LoopOk, Flows;
      match a {
        case DoTask(t) => DoTaskFlow(core, t, f);
        case RunNext(l, tasks) => RunNextFlow(core, l, tasks, f);
        case SwapBatch(l) => SwapFlow(core, l, f);
        case EndBatch(l) => EndBatchFlow(core, l, f);
        case Dispatch(_, _) => OtherFlow(core, a, f);
        case Wake(_) => OtherFlow(core, a, f);
        case Plan(_, _) => OtherFlow(core, a, f);
        case Test(_) => OtherFlow(core, a, f);
        case Poll(_, _) => OtherFlow(core, a, f);
        case EndDispatch(_) => OtherFlow(core, a, f);
      }
    }
    hide CoreInv, WellPlaced, Apply, Can, Housed, Waiting, Asked, Ran, LoopOk;
  }

  /** A waiting functor keeps its connection alive. */
  lemma WaitingOwns(s: System, f: Functor)
    requires Lifecycle(f) && Housed(s.core, f)
    requires Waiting(s.core, f) > 0
    ensures Owned(s, f.c)
  {
    var th, l := s.core.threads[OfLoop(Src(f))], s.core.loops[Tgt(f)];
    if multiset(th.todo)[Queue(Tgt(f), f)] > 0 {
      assert Queue(Tgt(f), f) in th.todo;
      var i :| 0 <= i < |th.todo| && th.todo[i] == Queue(Tgt(f), f);
      assert BindsConn(th.todo[i].f, f.c);
      assert InTodo(s.core, f.c);
    } else if multiset(l.pending)[f] > 0 {
      assert f in l.pending && BindsConn(f, f.c);
      assert InQueue(s.core, f.c);
    } else {
      assert f in l.batch[l.next..];
      assert f in l.batch && BindsConn(f, f.c);
      assert InBatch(s.core, f.c);
    }
  }

  // ---------------------------------------------------------------------------------------------
  // The functors a connection asks for.

  function CloseRequests(notes: seq<Note>): nat {
    if notes == [] then 0 else (if notes[0].CloseRequest? then 1 else 0) + CloseRequests(notes[1..])
  }

  lemma {:induction false} CloseRequestsAppend(a: seq<Note>, b: seq<Note>)
    ensures CloseRequests(a + b) == CloseRequests(a) + CloseRequests(b)
    decreases |a|
  {
    if a == [] {
      assert a + b == b;
    } else {
      assert (a + b)[1..] == a[1..] + b;
      CloseRequestsAppend(a[1..], b);
    }
  }

  lemma {:induction false} CloseRequestsMember(notes: seq<Note>)
    ensures CloseRequest in notes <==> CloseRequests(notes) > 0
    decreases |notes|
  {
    if notes != [] {
      CloseRequestsMember(notes[1..]);
      assert notes == [notes[0]] + notes[1..];
    }
  }

  /** A connection asks to be closed once for each down callback. */
  lemma {:induction false} DownsAreRequested(cfg: Config, w: World<Handle>, ops: seq<Op>)
    requires Inv(w) && AllEnabled(cfg, w, ops)
    ensures var v := Run(cfg, w, ops);
            CloseRequests(v.conn.outbox) + w.conn.downs == CloseRequests(w.conn.outbox) + v.conn.downs
    decreases |ops|
  {
    if ops != [] {
      StepKeepsInv(cfg, w, ops[0]);
      DownIsRequested(cfg, w, ops[0]);
      DownsAreRequested(cfg, Step(cfg, w, ops[0]), ops[1..]);
    }
  }

  lemma OnlyCloseGoesDown(cfg: Config, w: World<Handle>, op: Op)
    requires Inv(w) && Enabled(w.conn, op)
    ensures Step(cfg, w, op).conn.downs == w.conn.downs + if op.Close? then 1 else 0
    ensures op.Close? ==> !ConnectionTheorems.Completes(cfg, w, op) && !ConnectionTheorems.CrossesUp(cfg, w, op)
  {
  }

  lemma DownIsRequested(cfg: Config, w: World<Handle>, op: Op)
    requires Inv(w) && Enabled(w.conn, op)
    ensures var v := Step(cfg, w, op);
            CloseRequests(v.conn.outbox) + w.conn.downs == CloseRequests(w.conn.outbox) + v.conn.downs
  {
    ConnectionTheorems.NotesOfStep(cfg, w, op);
    OnlyCloseGoesDown(cfg, w, op);
    hide Step, Inv, Enabled, ConnectionTheorems.Completes, ConnectionTheorems.CrossesUp;
    var v := Step(cfg, w, op);
    var added := v.conn.outbox[|w.conn.outbox|..];
    assert v.conn.outbox == w.conn.outbox + added;
    CloseRequestsAppend(w.conn.outbox, added);
  }

  function RequestOf(c: Handle): Functor { if c.io == BASE then Destroyed(c) else RemoveConn(c) }

  ghost predicate OnlyBinds(tasks: seq<Task>, c: Handle) {
    forall i :: 0 <= i < |tasks| && tasks[i].Queue? && !tasks[i].f.User? ==> tasks[i].f.c == c
  }

  ghost predicate AllPlaced(t: Tid, tasks: seq<Task>) {
    forall i :: 0 <= i < |tasks| ==> PlacedTask(t, tasks[i])
  }

  lemma {:induction false} TasksOfCount(c: Handle, notes: seq<Note>, f: Functor)
    requires Lifecycle(f)
    ensures multiset(TasksOf(c, notes))[Queue(Tgt(f), f)] == if f == RequestOf(c) then CloseRequests(notes) else 0
    decreases |notes|
  {
    if notes != [] {
      TasksOfCount(c, notes[1..], f);
    }
  }

  lemma {:induction false} TasksOfPlaced(c: Handle, notes: seq<Note>)
    ensures OnlyBinds(TasksOf(c, notes), c) && AllPlaced(OfLoop(c.io), TasksOf(c, notes))
    decreases |notes|
  {
    if notes != [] {
      TasksOfPlaced(c, notes[1..]);
    }
  }

  lemma UserTasksCount(tasks: seq<Task>, extra: seq<Task>, f: Functor)
    requires UserTasks(extra) && Lifecycle(f)
    ensures multiset(tasks + extra)[Queue(Tgt(f), f)] == multiset(tasks)[Queue(Tgt(f), f)]
  {
    assert Queue(Tgt(f), f) !in extra;
  }

  lemma UserTasksPlaced(t: Tid, tasks: seq<Task>, extra: seq<Task>, c: Handle)
    requires UserTasks(extra) && AllPlaced(t, tasks) && OnlyBinds(tasks, c)
    ensures AllPlaced(t, tasks + extra) && OnlyBinds(tasks + extra, c)
  {
    var all := tasks + extra;
    forall i | 0 <= i < |all|
      ensures PlacedTask(t, all[i]) && (all[i].Queue? && !all[i].f.User? ==> all[i].f.c == c)
    {
      if i < |tasks| {
        assert all[i] == tasks[i];
      } else {
        assert all[i] == extra[i - |tasks|] && IsUserTask(extra[i - |tasks|]);
      }
    }
  }

  /** The functor at the head of a batch is still waiting. */
  lemma HeadWaits(core: Core, l: LoopId)
    requires l in core.loops && core.loops[l].next < |core.loops[l].batch|
    requires var f := core.loops[l].batch[core.loops[l].next];
             Lifecycle(f) && Tgt(f) == l && Housed(core, f)
    ensures Waiting(core, core.loops[l].batch[core.loops[l].next]) > 0
  {
    var v := core.loops[l];
    assert v.batch[v.next] in v.batch[v.next..];
  }

  /** A functor no queue mentions is not waiting. */
  lemma NoneWaiting(core: Core, f: Functor)
    requires Lifecycle(f) && Housed(core, f)
    requires forall t, i :: t in core.threads && 0 <= i < |core.threads[t].todo| ==>
               !(core.threads[t].todo[i].Queue? && core.threads[t].todo[i].f == f)
    requires forall l, g :: l in core.loops && g in core.loops[l].pending ==> g != f
    requires forall l, g :: l in core.loops && g in core.loops[l].batch ==> g != f
    ensures Waiting(core, f) == 0
  {
    var th, l := core.threads[OfLoop(Src(f))], core.loops[Tgt(f)];
    assert Queue(Tgt(f), f) !in th.todo;
    assert f !in l.pending && f !in l.batch;
    assert forall g :: g in l.batch[l.next..] ==> g in l.batch;
  }
}
