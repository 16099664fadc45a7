/** The whole server of src/TcpServer.cc over its loops: accepting, establishing, serving, closing,
    erasing and destroying connections, each hop a functor queued from one loop to another. */
module Reactor {
  import ConnName
  import ConnectionTheorems
  import Epoll
  import opened Connections
  import opened Loops

  /** The base loop, which accepts and owns `connections_`. It may also serve connections. */
  const BASE: LoopId := 0

  datatype Server = Server(name: string, ipPort: string, connections: map<string, Handle>, nextConnId: nat)

  /** `history`, `erased` and `doubled` are records for the theorems: the steps each connection has
      made, the connections erased from `connections_`, those that met an event of kind ClosesTwice.
      `pinned` are the connections user code holds a shared_ptr to. */
  datatype System = System(
    cfg: Config, core: Core, pollers: map<LoopId, Epoll.Poller<Handle>>, conns: map<Handle, Conn>, server: Server,
    pinned: set<Handle>, erased: set<Handle>, doubled: set<Handle>, history: map<Handle, seq<Op>>)

  datatype SysStep =
    | Plain(a: Action)
    | DrainWakeup(l: LoopId)
    | Accept(fd: int, io: LoopId, calls: seq<UserOp>, extra: seq<Task>)
    | AcceptFails
    | Serve(l: LoopId, env: Env, extra: seq<Task>)
    | RunFunctor(l: LoopId, calls: seq<UserOp>, extra: seq<Task>)
    | Pin(c: Handle)
    | Unpin(c: Handle)

  // ---------------------------------------------------------------------------------------------
  // Ownership.

  predicate BindsConn(f: Functor, c: Handle) { !f.User? && f.c == c }

  ghost predicate InTodo(core: Core, c: Handle) {
    exists t, i :: t in core.threads && 0 <= i < |core.threads[t].todo|
      && core.threads[t].todo[i].Queue? && BindsConn(core.threads[t].todo[i].f, c)
  }

  ghost predicate InQueue(core: Core, c: Handle) {
    exists l, f :: l in core.loops && f in core.loops[l].pending && BindsConn(f, c)
  }

  /** A swapped batch keeps all its functors until it ends. */
  ghost predicate InBatch(core: Core, c: Handle) {
    exists l, f :: l in core.loops && f in core.loops[l].batch && BindsConn(f, c)
  }

  /** The server itself holds a shared_ptr to the connection: its `connections_` entry, or a functor
      queued, batched or about to be queued by the running step. */
  ghost predicate Owned(s: System, c: Handle) {
    c in s.server.connections.Values || InTodo(s.core, c) || InQueue(s.core, c) || InBatch(s.core, c)
  }

  /** Some shared_ptr to the connection exists, if only in user code. Without one it has been freed and
      its descriptor closed. */
  ghost predicate HasOwner(s: System, c: Handle) { Owned(s, c) || c in s.pinned }

  // ---------------------------------------------------------------------------------------------
  // Steps.

  ghost function WorldOf(s: System, c: Handle): World<Handle>
    requires c in s.conns && c.io in s.pollers
  {
    World(c, c.fd, s.pollers[c.io], s.conns[c])
  }

  function NameOf(server: Server, c: Handle): string { ConnName.Name(server.name, server.ipPort, c.id) }

  /** removeConnectionInLoop's map erase. */
  function Erase(server: Server, c: Handle): Server {
    server.(connections := server.connections - {NameOf(server, c)})
  }

  /** newConnection's map insert and id increment. */
  function Insert(server: Server, c: Handle): Server {
    server.(connections := server.connections[NameOf(server, c) := c], nextConnId := server.nextConnId + 1)
  }

  /** The close callback runs removeConnectionInLoop inline on the base loop, and queues it there from
      any other loop; notifications are queued on the connection's own loop. */
  function TaskOf(c: Handle, note: Note): Task {
    if note.CloseRequest? then
      if c.io == BASE then Queue(BASE, Destroyed(c)) else Queue(BASE, RemoveConn(c))
    else Queue(c.io, Notify(c, note))
  }

  function TasksOf(c: Handle, notes: seq<Note>): seq<Task> {
    if notes == [] then [] else [TaskOf(c, notes[0])] + TasksOf(c, notes[1..])
  }

  predicate IsUserTask(t: Task) { t.Queue? ==> t.f.User? }

  ghost predicate UserTasks(tasks: seq<Task>) { forall i :: 0 <= i < |tasks| ==> IsUserTask(tasks[i]) }

  /** One connection makes some steps while the core takes action `a`. */
  ghost function Move(s: System, a: Action, c: Handle, ops: seq<Op>, erase: bool): System
    requires Can(s.core, a) && c in s.conns && c.io in s.pollers && c in s.history
  {
    var v := Run(s.cfg, WorldOf(s, c), ops);
    s.(core := Apply(s.core, a),
       pollers := s.pollers[c.io := v.poller],
       conns := s.conns[c := v.conn.(outbox := [])],
       server := if erase then Erase(s.server, c) else s.server,
       erased := if erase then s.erased + {c} else s.erased,
       history := s.history[c := s.history[c] + ops])
  }

  /** The notes a connection leaves when it makes these steps. */
  ghost function NotesOf(s: System, c: Handle, ops: seq<Op>): seq<Note>
    requires c in s.conns && c.io in s.pollers
  {
    Run(s.cfg, WorldOf(s, c), ops).conn.outbox
  }

  /** A new TcpConnection, already in `connections_`. */
  function Admit(s: System, c: Handle): System {
    s.(conns := s.conns[c := FRESH], server := Insert(s.server, c), history := s.history[c := []])
  }

  /** With ioLoop == baseLoop, runInLoop runs connectEstablished at once. */
  function AcceptOps(io: LoopId, calls: seq<UserOp>): seq<Op> {
    if io == BASE then [Establish] + calls else []
  }

  function AcceptTasks(c: Handle, notes: seq<Note>): seq<Task> {
    if c.io == BASE then TasksOf(c, notes) else [Queue(c.io, Established(c))]
  }

  function FunctorOps(f: Functor, calls: seq<UserOp>): seq<Op> {
    match f
    case Established(_) => [Establish] + calls
    case Destroyed(_) => [Destroy]
    case RemoveConn(_) => []
    case Notify(_, _) => calls
    case User(_) => []
  }

  function FunctorTasks(f: Functor, notes: seq<Note>): seq<Task> {
    match f
    case RemoveConn(c) => [Queue(c.io, Destroyed(c))]
    case Established(c) => TasksOf(c, notes)
    case Destroyed(c) => TasksOf(c, notes)
    case Notify(c, _) => TasksOf(c, notes)
    case User(_) => []
  }

  /** epoll_wait reports each watched channel at most once, with the events asked for or an error or
      hang-up; the channel is whatever pointer the kernel was given. */
  ghost predicate MayReport(s: System, l: LoopId, active: seq<Source>)
    requires l in s.pollers
  {
    && (Listener in active ==> l == BASE)
    && (forall i :: 0 <= i < |active| && active[i].ReadyConn? ==>
          && Epoll.InKernel(s.pollers[l], active[i].c, active[i].c.fd)
          && active[i].revents <= s.pollers[l].kernel[active[i].c.fd].mask + {Epoll.Err, Epoll.Hup})
    && (forall i, j :: 0 <= i < j < |active| && active[i].ReadyConn? && active[j].ReadyConn? ==>
          active[i].c != active[j].c)
  }

  ghost predicate Current(s: System, l: LoopId, src: Source) {
    && AtPc(s.core, l, Dispatching) && s.core.loops[l].at < |s.core.loops[l].active|
    && s.core.loops[l].active[s.core.loops[l].at] == src
  }

  ghost function CurrentConn(s: System, l: LoopId): Handle
    requires l in s.core.loops && s.core.loops[l].at < |s.core.loops[l].active|
    requires s.core.loops[l].active[s.core.loops[l].at].ReadyConn?
  {
    s.core.loops[l].active[s.core.loops[l].at].c
  }

  ghost predicate PlainAction(s: System, a: Action) {
    && Can(s.core, a) && !a.Dispatch? && !a.RunNext?
    && (a.Plan? ==> UserTasks(a.tasks))
    && (a.Poll? ==> a.l in s.pollers && MayReport(s, a.l, a.active))
  }

  ghost predicate Movable(s: System, c: Handle) { c in s.conns && c.io in s.pollers && c in s.history }

  /** The dispatch loop has reached a connection. */
  ghost predicate AtConn(s: System, l: LoopId) {
    && AtPc(s.core, l, Dispatching) && s.core.loops[l].at < |s.core.loops[l].active|
    && s.core.loops[l].active[s.core.loops[l].at].ReadyConn? && Movable(s, CurrentConn(s, l))
  }

  ghost function CurrentEvents(s: System, l: LoopId): Epoll.Mask
    requires AtConn(s, l)
  {
    s.core.loops[l].active[s.core.loops[l].at].revents
  }

  ghost function ServeAction(s: System, l: LoopId, env: Env, extra: seq<Task>): Action
    requires AtConn(s, l)
  {
    var c := CurrentConn(s, l);
    Dispatch(l, TasksOf(c, NotesOf(s, c, EventOps(CurrentEvents(s, l), env))) + extra)
  }

  /** The batch has reached a functor, of user code or about a connection. */
  ghost predicate AtFunctor(s: System, l: LoopId) {
    && AtPc(s.core, l, Running) && s.core.loops[l].next < |s.core.loops[l].batch|
    && (CurrentFunctor(s, l).User? || Movable(s, CurrentFunctor(s, l).c))
  }

  ghost function CurrentFunctor(s: System, l: LoopId): Functor
    requires l in s.core.loops && s.core.loops[l].next < |s.core.loops[l].batch|
  {
    s.core.loops[l].batch[s.core.loops[l].next]
  }

  ghost function FunctorAction(s: System, l: LoopId, calls: seq<UserOp>, extra: seq<Task>): Action
    requires AtFunctor(s, l)
  {
    var f := CurrentFunctor(s, l);
    RunNext(l, if f.User? then extra else FunctorTasks(f, NotesOf(s, f.c, FunctorOps(f, calls))) + extra)
  }

  ghost function AcceptAction(s: System, c: Handle, calls: seq<UserOp>, extra: seq<Task>): Action
    requires c.io in s.pollers
  {
    Dispatch(BASE, AcceptTasks(c, NotesOf(Admit(s, c), c, AcceptOps(c.io, calls))) + extra)
  }

  ghost predicate NextAccept(s: System, c: Handle, calls: seq<UserOp>, extra: seq<Task>, t: System) {
    && Current(s, BASE, Listener) && c.io in s.core.loops && c.io in s.pollers
    && c.id == s.server.nextConnId && c.id <= ConnName.INT_MAX
    && UserTasks(extra) && Targeted(s.core, extra)
    // accept returns a descriptor that is not open: closed ones are those of freed connections
    && (forall d :: d in s.conns && HasOwner(s, d) ==> d.fd != c.fd)
    && (var a := AcceptAction(s, c, calls, extra);
        Can(s.core, a) && t == Move(Admit(s, c), a, c, AcceptOps(c.io, calls), false))
  }

  ghost predicate NextServe(s: System, l: LoopId, env: Env, extra: seq<Task>, t: System) {
    && AtConn(s, l) && UserTasks(extra) && Targeted(s.core, extra)
    && (var c, revents := CurrentConn(s, l), CurrentEvents(s, l);
        var a, ops := ServeAction(s, l, env, extra), EventOps(revents, env);
        var u := if ConnectionTheorems.ClosesTwice(revents, env) then s.(doubled := s.doubled + {c}) else s;
        Can(s.core, a) && t == Move(u, a, c, ops, c.io == BASE && CloseRequest in NotesOf(s, c, ops)))
  }

  ghost predicate NextFunctor(s: System, l: LoopId, calls: seq<UserOp>, extra: seq<Task>, t: System) {
    && AtFunctor(s, l) && UserTasks(extra) && Targeted(s.core, extra)
    && (var f, a := CurrentFunctor(s, l), FunctorAction(s, l, calls, extra);
        && Can(s.core, a)
        && t == if f.User? then s.(core := Apply(s.core, a))
                else Move(s, a, f.c, FunctorOps(f, calls), f.RemoveConn?))
  }

  ghost predicate Next(s: System, step: SysStep, t: System) {
    match step
    case Plain(a) => PlainAction(s, a) && t == s.(core := Apply(s.core, a))
    case DrainWakeup(l) => Current(s, l, WakeupFd) && t == s.(core := Apply(s.core, Dispatch(l, [])))
    case AcceptFails => Current(s, BASE, Listener) && t == s.(core := Apply(s.core, Dispatch(BASE, [])))
    case Accept(fd, io, calls, extra) => NextAccept(s, Handle(s.server.nextConnId, io, fd), calls, extra, t)
    case Serve(l, env, extra) => NextServe(s, l, env, extra, t)
    case RunFunctor(l, calls, extra) => NextFunctor(s, l, calls, extra, t)
    case Pin(c) => c in s.conns && HasOwner(s, c) && t == s.(pinned := s.pinned + {c})
    case Unpin(c) => t == s.(pinned := s.pinned - {c})
  }

  /** What a step of the server does to its loops: one action, or none. */
  ghost function CoreActions(s: System, step: SysStep): seq<Action> {
    match step
    case Plain(a) => [a]
    case DrainWakeup(l) => [Dispatch(l, [])]
    case AcceptFails => [Dispatch(BASE, [])]
    case Accept(fd, io, calls, extra) =>
      if io in s.pollers then [AcceptAction(s, Handle(s.server.nextConnId, io, fd), calls, extra)] else []
    case Serve(l, env, extra) => if AtConn(s, l) then [ServeAction(s, l, env, extra)] else []
    case RunFunctor(l, calls, extra) => if AtFunctor(s, l) then [FunctorAction(s, l, calls, extra)] else []
    case Pin(_) => []
    case Unpin(_) => []
  }

  ghost predicate Initial(s: System) {
    && InitialCore(s.core) && BASE in s.core.loops && s.pollers.Keys == s.core.loops.Keys
    && (forall l :: l in s.pollers ==> s.pollers[l] == Epoll.EmptyPoller())
    && s.conns == map[] && s.history == map[] && s.pinned == {} && s.erased == {} && s.doubled == {}
    && s.server.connections == map[] && s.server.nextConnId == 1 && |s.server.ipPort| <= 51
  }

  /** A run: states[0] is initial and each state follows from the one before by the step between. */
  ghost predicate IsRun(states: seq<System>, steps: seq<SysStep>) {
    && |states| == |steps| + 1 && Initial(states[0])
    && forall i :: 0 <= i < |steps| ==> Next(states[i], steps[i], states[i + 1])
  }
}
