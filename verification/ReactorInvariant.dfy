/** The invariant of the server and the parts of its preservation that every step shares. */
module ReactorInvariant {
  import Buffers
  import ConnName
  import ConnectionTheorems
  import opened Epoll
  import opened Connections
  import opened Loops
  import opened Reactor
  import opened Tokens

  /** A connection seen apart from the server: new, in a poller of its own. */
  function Alone(c: Handle): World<Handle> { World(c, c.fd, EmptyPoller(), FRESH) }

  ghost predicate KnownHandles(known: set<Handle>, loops: set<LoopId>, nextConnId: nat) {
    && (forall c :: c in known ==> c.io in loops && c.id < nextConnId)
    && (forall c, d :: c in known && d in known && c.id == d.id ==> c == d)
  }

  ghost predicate Known(s: System) {
    && BASE in s.core.loops && s.pollers.Keys == s.core.loops.Keys && s.history.Keys == s.conns.Keys
    && 1 <= s.server.nextConnId <= ConnName.INT_MAX + 1 && |s.server.ipPort| <= 51
    && KnownHandles(s.conns.Keys, s.core.loops.Keys, s.server.nextConnId) && s.doubled <= s.conns.Keys
  }

  predicate BoundFunctor(known: set<Handle>, f: Functor) { !f.User? ==> f.c in known }

  predicate BoundTask(known: set<Handle>, t: Task) { t.Queue? ==> BoundFunctor(known, t.f) }

  /** Every functor anywhere binds a connection the server accepted. */
  ghost predicate Bound(known: set<Handle>, core: Core) {
    && (forall t, i :: t in core.threads && 0 <= i < |core.threads[t].todo| ==>
          BoundTask(known, core.threads[t].todo[i]))
    && (forall l, f :: l in core.loops && f in core.loops[l].pending ==> BoundFunctor(known, f))
    && (forall l, f :: l in core.loops && f in core.loops[l].batch ==> BoundFunctor(known, f))
  }

  /** A connection keeps its own invariant, and is what its recorded steps make of a new one. */
  ghost predicate ConnLocal(cfg: Config, w: World<Handle>, history: seq<Op>) {
    && Inv(w) && w.fd == w.me.fd && w.conn.outbox == []
    && AllEnabled(cfg, Alone(w.me), history)
    && Run(cfg, Alone(w.me), history).conn.(outbox := []) == w.conn
  }

  ghost predicate HousedConn(core: Core, c: Handle) {
    Housed(core, Established(c)) && Housed(core, RemoveConn(c)) && Housed(core, Destroyed(c))
  }

  /** Conservation of a connection's functors: connectEstablished is waiting or has run, once; each
      close request is waiting as removeConnectionInLoop, waiting as connectDestroyed, or answered. */
  ghost predicate Tallied(core: Core, c: Handle, k: Conn, erased: bool)
    requires HousedConn(core, c)
  {
    && Waiting(core, Established(c)) + k.ups == 1
    && Waiting(core, RemoveConn(c)) + Waiting(core, Destroyed(c)) + k.destroyed == k.downs
    && (erased <==> Waiting(core, Destroyed(c)) + k.destroyed > 0)
  }

  ghost predicate Accounted(core: Core, c: Handle, k: Conn, erased: bool, doubled: bool)
    requires HousedConn(core, c)
  {
    Tallied(core, c, k, erased) && (doubled <==> k.downs >= 2)
  }

  ghost predicate InConnections(server: Server, c: Handle) {
    NameOf(server, c) in server.connections && server.connections[NameOf(server, c)] == c
  }

  /** `connections_` is the accepted connections less the erased ones, each under its own name. */
  ghost predicate MapOk(known: set<Handle>, server: Server, erased: set<Handle>) {
    && (forall n :: n in server.connections ==>
          server.connections[n] in known && n == NameOf(server, server.connections[n]))
    && (forall c :: c in known ==> (c in erased <==> !InConnections(server, c)))
    && erased <= known
  }

  ghost predicate PollerOk(known: set<Handle>, l: LoopId, p: Poller<Handle>) {
    && !p.failed
    && (forall fd :: fd in p.channels ==>
          p.channels[fd] in known && p.channels[fd].io == l && p.channels[fd].fd == fd)
    && (forall fd :: fd in p.kernel ==>
          p.kernel[fd].channel in known && p.kernel[fd].channel.io == l && p.kernel[fd].channel.fd == fd)
  }

  ghost predicate FdsDistinct(conns: map<Handle, Conn>) {
    forall c, d :: c in conns && d in conns && c != d && Unfinished(conns[c]) && Unfinished(conns[d]) ==>
      c.fd != d.fd
  }

  ghost predicate ActiveConn(conns: map<Handle, Conn>, l: LoopId, src: Source, ahead: bool) {
    src.ReadyConn? ==>
      && src.c in conns && src.c.io == l && conns[src.c].ups == 1 && conns[src.c].destroyed == 0
      && (ahead ==> conns[src.c].reg.index.Added?)
  }

  /** From poll to the end of the dispatch loop: every active channel is still in `channels_`, those
      not yet dispatched are still watched, and none occurs twice. */
  ghost predicate ActiveOk(conns: map<Handle, Conn>, l: LoopId, v: Loop) {
    v.pc.Dispatching? ==>
      && (Listener in v.active ==> l == BASE)
      && (forall i :: 0 <= i < |v.active| ==> ActiveConn(conns, l, v.active[i], i >= v.at))
      && (forall i, j :: 0 <= i < j < |v.active| && v.active[i].ReadyConn? && v.active[j].ReadyConn? ==>
            v.active[i].c != v.active[j].c)
  }

  ghost predicate ConnOkIn(s: System, c: Handle)
    requires c in s.conns
  {
    c.io in s.pollers && c in s.history && ConnLocal(s.cfg, WorldOf(s, c), s.history[c])
  }

  ghost predicate ConnsOk(s: System) { forall c :: c in s.conns ==> ConnOkIn(s, c) }

  ghost predicate PollersOk(s: System) {
    forall l :: l in s.pollers ==> PollerOk(s.conns.Keys, l, s.pollers[l])
  }

  ghost predicate ActivesOk(s: System) {
    forall l :: l in s.core.loops ==> ActiveOk(s.conns, l, s.core.loops[l])
  }

  ghost predicate SoundCore(s: System) {
    CoreInv(s.core) && WellPlaced(s.core) && Known(s) && Bound(s.conns.Keys, s.core)
  }

  ghost predicate SoundConns(s: System) {
    Known(s) && ConnsOk(s) && PollersOk(s) && FdsDistinct(s.conns)
  }

  ghost predicate SoundServer(s: System) {
    MapOk(s.conns.Keys, s.server, s.erased) && ActivesOk(s)
  }

  /** All but the conservation of functors. */
  ghost predicate Sound(s: System) { SoundCore(s) && SoundConns(s) && SoundServer(s) }

  ghost predicate AccountedIn(s: System, c: Handle)
    requires c in s.conns
  {
    HousedConn(s.core, c) && Accounted(s.core, c, s.conns[c], c in s.erased, c in s.doubled)
  }

  ghost predicate SysInv(s: System) {
    Sound(s) && forall c :: c in s.conns ==> AccountedIn(s, c)
  }

  lemma AllHoused(core: Core, c: Handle)
    requires CoreInv(core) && BASE in core.loops && c.io in core.loops
    ensures HousedConn(core, c)
  {
  }

  // ---------------------------------------------------------------------------------------------
  // A connection that has yet to close, or to be destroyed, has an owner.

  lemma UnfinishedHasOwner(s: System, c: Handle)
    requires SysInv(s) && c in s.conns && Unfinished(s.conns[c])
    ensures Owned(s, c)
  {
    assert AccountedIn(s, c);
    if s.conns[c].downs == 0 {
      assert InConnections(s.server, c);
      assert s.server.connections[NameOf(s.server, c)] == c;
    } else if Waiting(s.core, RemoveConn(c)) > 0 {
      WaitingOwns(s, RemoveConn(c));
    } else {
      WaitingOwns(s, Destroyed(c));
    }
  }

  /** A channel in `channels_` belongs to a connection that is up and not yet destroyed. */
  lemma RegisteredIsUnfinished(s: System, l: LoopId, fd: int)
    requires Known(s) && ConnsOk(s) && PollersOk(s) && l in s.pollers
    ensures fd in s.pollers[l].channels ==>
              var c := s.pollers[l].channels[fd];
              c in s.conns && c.io == l && c.fd == fd && s.conns[c].ups == 1 && s.conns[c].destroyed == 0
  {
    var p := s.pollers[l];
    assert PollerOk(s.conns.Keys, l, p);
    if fd in p.channels {
      var c := p.channels[fd];
      assert ConnOkIn(s, c) && InMap(p, c, c.fd);
    }
  }

  lemma WatchedIsUnfinished(s: System, l: LoopId, fd: int)
    requires Known(s) && ConnsOk(s) && PollersOk(s) && l in s.pollers
    ensures fd in s.pollers[l].kernel ==>
              var c := s.pollers[l].kernel[fd].channel;
              c in s.conns && c.io == l && c.fd == fd && s.conns[c].ups == 1 && s.conns[c].destroyed == 0
              && s.conns[c].reg.index.Added?
  {
    var p := s.pollers[l];
    assert PollerOk(s.conns.Keys, l, p);
    if fd in p.kernel {
      var c := p.kernel[fd].channel;
      assert ConnOkIn(s, c) && InKernel(p, c, c.fd);
    }
  }

  // ---------------------------------------------------------------------------------------------
  // The history of a connection.

  ghost predicate SameConn<C>(w: World<C>, v: World<C>) { w.conn.(outbox := []) == v.conn.(outbox := []) }

  lemma SendIgnoresSurroundings<C>(
    cfg: Config, w: World<C>, v: World<C>, msg: seq<Buffers.Byte>, k: Buffers.WriteOutcome)
    requires SameConn(w, v)
    ensures SameConn(SendInLoop(cfg, w, msg, k), SendInLoop(cfg, v, msg, k))
  {
  }

  lemma WriteIgnoresSurroundings<C>(cfg: Config, w: World<C>, v: World<C>, k: Buffers.WriteOutcome)
    requires SameConn(w, v)
    ensures SameConn(HandleWrite(cfg, w, k), HandleWrite(cfg, v, k))
  {
  }

  /** A connection's own state does not depend on the poller or on what it has already asked for. */
  lemma StepIgnoresSurroundings<C>(cfg: Config, w: World<C>, v: World<C>, op: Op)
    requires SameConn(w, v)
    ensures SameConn(Step(cfg, w, op), Step(cfg, v, op)) && (Enabled(w.conn, op) <==> Enabled(v.conn, op))
  {
    match op {
      case Send(msg, k) => SendIgnoresSurroundings(cfg, w, v, msg, k);
      case QueuedSend(msg, k) => SendIgnoresSurroundings(cfg, w, v, msg, k);
      case Writable(k) => WriteIgnoresSurroundings(cfg, w, v, k);
      case Establish =>
      case Shutdown =>
      case Consume(_) =>
      case Readable(_) =>
      case Close =>
      case Destroy =>
    }
  }

  lemma {:induction false} RunIgnoresSurroundings<C>(cfg: Config, w: World<C>, v: World<C>, ops: seq<Op>)
    requires SameConn(w, v)
    ensures SameConn(Run(cfg, w, ops), Run(cfg, v, ops))
    ensures AllEnabled(cfg, w, ops) <==> AllEnabled(cfg, v, ops)
    decreases |ops|
  {
    if ops != [] {
      StepIgnoresSurroundings(cfg, w, v, ops[0]);
      RunIgnoresSurroundings(cfg, Step(cfg, w, ops[0]), Step(cfg, v, ops[0]), ops[1..]);
    }
  }

  /** The steps a connection makes inside the server extend its record. */
  lemma ConnLocalExtends(cfg: Config, w: World<Handle>, before: seq<Op>, ops: seq<Op>)
    requires ConnLocal(cfg, w, before) && AllEnabled(cfg, w, ops)
    ensures var v := Run(cfg, w, ops); ConnLocal(cfg, v.(conn := v.conn.(outbox := [])), before + ops)
  {
    var alone := Run(cfg, Alone(w.me), before);
    RunKeepsInv(cfg, w, ops);
    RunIgnoresSurroundings(cfg, alone, w, ops);
    ConnectionTheorems.RunThen(cfg, Alone(w.me), before, ops);
  }

  // ---------------------------------------------------------------------------------------------
  // A move of one connection, as every handler makes.

  ghost predicate TasksBind(a: Action, c: Handle) {
    (a.Dispatch? && OnlyBinds(a.tasks, c)) || (a.RunNext? && OnlyBinds(a.tasks, c))
  }

  /** What a handler must respect for the rest of the server to be left alone. */
  ghost predicate Proper(s: System, a: Action, c: Handle, ops: seq<Op>) {
    && Movable(s, c) && Can(s.core, a) && PlacedAction(a) && TasksBind(a, c)
    && AllEnabled(s.cfg, WorldOf(s, c), ops)
    && (forall f :: Lifecycle(f) && f.c != c ==> Asked(a, f) == 0 && Ran(s.core, a, f) == 0)
    && (var v := Run(s.cfg, WorldOf(s, c), ops);
        && (Unfinished(v.conn) ==> Unfinished(s.conns[c]))
        && (Unfinished(s.conns[c]) || v.poller == s.pollers[c.io]))
  }

  ghost predicate TasksKnown(known: set<Handle>, a: Action) {
    a.Dispatch? || a.RunNext? ==> forall i :: 0 <= i < |a.tasks| ==> BoundTask(known, a.tasks[i])
  }

  lemma ActionKeepsBound(known: set<Handle>, core: Core, a: Action)
    requires Bound(known, core) && Can(core, a) && TasksKnown(known, a)
    requires a.Plan? ==> UserTasks(a.tasks)
    ensures Bound(known, Apply(core, a))
  {
    var d := Apply(core, a);
    forall t, i | t in d.threads && 0 <= i < |d.threads[t].todo|
      ensures BoundTask(known, d.threads[t].todo[i])
    {
      if a.DoTask? && a.t == t {
        assert BoundTask(known, core.threads[t].todo[i + 1]);
      } else if d.threads[t].todo == core.threads[t].todo {
        assert BoundTask(known, core.threads[t].todo[i]);
      } else if a.Plan? {
        assert IsUserTask(a.tasks[i]);
      }
    }
    if a.DoTask? {
      assert BoundTask(known, core.threads[a.t].todo[0]);
    }
    forall l, f | l in d.loops && f in d.loops[l].pending
      ensures BoundFunctor(known, f)
    {
      if f !in core.loops[l].pending {
        assert a.DoTask? && f == core.threads[a.t].todo[0].f;
      }
    }
  }

  /** What a run of a connection does to the poller of its loop. */
  lemma RunOnPoller(s: System, c: Handle, ops: seq<Op>)
    requires Known(s) && ConnsOk(s) && c in s.conns && AllEnabled(s.cfg, WorldOf(s, c), ops)
    ensures var p, q := s.pollers[c.io], Run(s.cfg, WorldOf(s, c), ops).poller;
            SameElsewhere(p, q, c.fd) && q.failed == p.failed
            && (Unfinished(s.conns[c]) ==> Exclusive(q, c, c.fd))
  {
    assert ConnOkIn(s, c);
    RunKeepsInv(s.cfg, WorldOf(s, c), ops);
  }

  lemma PollerStaysOk(known: set<Handle>, c: Handle, p: Poller<Handle>, q: Poller<Handle>)
    requires PollerOk(known, c.io, p) && c in known && SameElsewhere(p, q, c.fd) && q.failed == p.failed
    requires Exclusive(q, c, c.fd) || q == p
    ensures PollerOk(known, c.io, q)
  {
  }

  /** Another connection of the same loop, after this one has moved. */
  lemma NeighbourIsUntouched(c: Handle, k: Conn, d: World<Handle>, q: Poller<Handle>)
    requires Inv(d) && c != d.me && SameElsewhere(d.poller, q, c.fd)
    requires Unfinished(d.conn) && Unfinished(k) ==> c.fd != d.fd
    requires Unfinished(k) ==> Exclusive(q, c, c.fd)
    requires Unfinished(k) || q == d.poller
    ensures Inv(d.(poller := q))
  {
  }

  lemma MoveKeepsKeys(s: System, a: Action, c: Handle, ops: seq<Op>, erase: bool)
    requires Movable(s, c) && Can(s.core, a)
    ensures var t := Move(s, a, c, ops, erase);
            && t.conns.Keys == s.conns.Keys && t.history.Keys == s.history.Keys && t.pollers.Keys == s.pollers.Keys
            && t.server.nextConnId == s.server.nextConnId && t.server.ipPort == s.server.ipPort
            && t.doubled == s.doubled && t.core == Apply(s.core, a)
            && c in t.conns && t.conns == s.conns[c := t.conns[c]] && c.io in t.pollers
            && t.pollers == s.pollers[c.io := t.pollers[c.io]]
            && t.pollers[c.io] == Run(s.cfg, WorldOf(s, c), ops).poller
  {
    hide Can, Apply, Run;
  }

  lemma MoveKeepsItself(s: System, a: Action, c: Handle, ops: seq<Op>, erase: bool)
    requires ConnsOk(s) && Proper(s, a, c, ops)
    ensures var t := Move(s, a, c, ops, erase); c in t.conns && ConnOkIn(t, c)
  {
    assert ConnOkIn(s, c);
    var w := WorldOf(s, c);
    ConnLocalExtends(s.cfg, w, s.history[c], ops);
    RunKeepsInv(s.cfg, w, ops);
    hide ConnLocal, Run, AllEnabled, Inv, Can, Apply, PlacedAction, TasksBind;
    var t, v := Move(s, a, c, ops, erase), Run(s.cfg, w, ops);
    assert WorldOf(t, c) == v.(conn := v.conn.(outbox := []));
  }

  lemma MoveKeepsNeighbour(s: System, a: Action, c: Handle, ops: seq<Op>, erase: bool, d: Handle)
    requires Known(s) && ConnsOk(s) && FdsDistinct(s.conns) && Proper(s, a, c, ops) && d in s.conns && d != c
    ensures var t := Move(s, a, c, ops, erase); d in t.conns && ConnOkIn(t, d)
  {
    assert ConnOkIn(s, d);
    RunOnPoller(s, c, ops);
    hide ConnsOk, Known, Run, AllEnabled, Inv, Can, Apply, PlacedAction, TasksBind, SameElsewhere, Exclusive, Move;
    var t, v := Move(s, a, c, ops, erase), Run(s.cfg, WorldOf(s, c), ops);
    MoveLeavesOthers(s, a, c, ops, erase, d);
    if d.io == c.io {
      NeighbourIsUntouched(c, s.conns[c], WorldOf(s, d), v.poller);
    }
  }

  lemma MoveLeavesOthers(s: System, a: Action, c: Handle, ops: seq<Op>, erase: bool, d: Handle)
    requires Movable(s, c) && Movable(s, d) && d != c && Can(s.core, a)
    ensures var t := Move(s, a, c, ops, erase);
            && Movable(t, d) && t.history[d] == s.history[d] && t.cfg == s.cfg
            && WorldOf(t, d) == if d.io == c.io then WorldOf(s, d).(poller := Run(s.cfg, WorldOf(s, c), ops).poller)
                                else WorldOf(s, d)
  {
    hide Run, Can, Apply;
  }

  lemma MoveKeepsConn(s: System, a: Action, c: Handle, ops: seq<Op>, erase: bool, d: Handle)
    requires Known(s) && ConnsOk(s) && FdsDistinct(s.conns) && Proper(s, a, c, ops) && d in s.conns
    ensures var t := Move(s, a, c, ops, erase); d in t.conns && ConnOkIn(t, d)
  {
    hide Known, ConnsOk, FdsDistinct, Proper, ConnOkIn, Move;
    if d == c {
      MoveKeepsItself(s, a, c, ops, erase);
    } else {
      MoveKeepsNeighbour(s, a, c, ops, erase, d);
    }
  }

  lemma EraseKeepsMap(known: set<Handle>, server: Server, erased: set<Handle>, c: Handle)
    requires MapOk(known, server, erased) && c in known && |server.ipPort| <= 51
    requires forall d :: d in known ==> d.id <= ConnName.INT_MAX && (d.id == c.id ==> d == c)
    ensures MapOk(known, Erase(server, c), erased + {c})
  {
    var after := Erase(server, c);
    forall d | d in known
      ensures d in erased + {c} <==> !InConnections(after, d)
    {
      if d != c {
        ConnName.DistinctIdsDistinctNames(server.name, server.ipPort, c.id, d.id);
        assert NameOf(after, d) == NameOf(server, d) != NameOf(server, c);
      }
      assert d in erased <==> !InConnections(server, d);
    }
  }

  lemma FdsStayDistinct(conns: map<Handle, Conn>, c: Handle, k: Conn)
    requires FdsDistinct(conns) && c in conns && (Unfinished(k) ==> Unfinished(conns[c]))
    ensures FdsDistinct(conns[c := k])
  {
  }

  /** The active list of a loop whose dispatching connection is not the one that moved. */
  lemma ActiveStaysOk(conns: map<Handle, Conn>, c: Handle, k: Conn, l: LoopId, v: Loop, u: Loop)
    requires ActiveOk(conns, l, v)
    requires u.pc.Dispatching? ==> l != c.io && v.pc.Dispatching? && u.active == v.active && v.at <= u.at
    ensures ActiveOk(conns[c := k], l, u)
  {
    if u.pc.Dispatching? {
      forall i | 0 <= i < |u.active|
        ensures ActiveConn(conns[c := k], l, u.active[i], i >= u.at)
      {
        assert ActiveConn(conns, l, v.active[i], i >= v.at);
      }
    }
  }

  lemma HandlerOnLoop(core: Core, a: Action, l: LoopId)
    requires Can(core, a) && (a.Dispatch? || a.RunNext?) && l in core.loops
    ensures l in Apply(core, a).loops
    ensures var v, u := core.loops[l], Apply(core, a).loops[l];
            u.pc == v.pc && u.active == v.active && v.at <= u.at
  {
  }

  lemma MoveKeepsActives(s: System, a: Action, c: Handle, ops: seq<Op>, erase: bool)
    requires CoreInv(s.core) && ActivesOk(s) && Proper(s, a, c, ops)
    requires c.io in s.core.loops && OwnLoopOk(s, a, c, ops, erase)
    ensures ActivesOk(Move(s, a, c, ops, erase))
  {
    hide CoreInv, Apply, Can, PlacedAction, AllEnabled, Run, ActiveOk, Move, OnlyBinds;
    var t := Move(s, a, c, ops, erase);
    ActionKeepsKeys(s.core, a);
    MoveKeepsKeys(s, a, c, ops, erase);
    forall l | l in t.core.loops
      ensures ActiveOk(t.conns, l, t.core.loops[l])
    {
      if l != c.io || !s.core.loops[l].pc.Dispatching? {
        HandlerOnLoop(s.core, a, l);
        ActiveStaysOk(s.conns, c, t.conns[c], l, s.core.loops[l], t.core.loops[l]);
      }
    }
  }

  lemma MoveKeepsPollers(s: System, a: Action, c: Handle, ops: seq<Op>, erase: bool)
    requires Known(s) && ConnsOk(s) && PollersOk(s) && Proper(s, a, c, ops)
    ensures PollersOk(Move(s, a, c, ops, erase))
  {
    hide ConnsOk, PollerOk, Known, Apply, Can, PlacedAction, TasksBind, AllEnabled, Run, SameElsewhere, Move, Exclusive;
    var t := Move(s, a, c, ops, erase);
    MoveKeepsKeys(s, a, c, ops, erase);
    RunOnPoller(s, c, ops);
    PollerStaysOk(s.conns.Keys, c, s.pollers[c.io], t.pollers[c.io]);
  }

  lemma OthersStayAccounted(core: Core, a: Action, d: Handle, k: Conn, erased: bool, doubled: bool)
    requires CoreInv(core) && WellPlaced(core) && Can(core, a)
    requires HousedConn(core, d) && Accounted(core, d, k, erased, doubled)
    requires forall f :: Lifecycle(f) && f.c == d ==> Asked(a, f) == 0 && Ran(core, a, f) == 0
    ensures HousedConn(Apply(core, a), d) && Accounted(Apply(core, a), d, k, erased, doubled)
  {
    FunctorsFlow(core, a, Established(d));
    FunctorsFlow(core, a, RemoveConn(d));
    FunctorsFlow(core, a, Destroyed(d));
  }

  lemma MoveKeepsKnown(s: System, a: Action, c: Handle, ops: seq<Op>, erase: bool)
    requires Known(s) && CoreInv(s.core) && Proper(s, a, c, ops)
    ensures Known(Move(s, a, c, ops, erase))
  {
    hide CoreInv, Apply, Can, KnownHandles, PlacedAction, TasksBind, AllEnabled, Run, Move;
    ActionKeepsKeys(s.core, a);
    MoveKeepsKeys(s, a, c, ops, erase);
  }

  lemma TasksAreKnown(known: set<Handle>, a: Action, c: Handle)
    requires TasksBind(a, c) && c in known
    ensures TasksKnown(known, a) && !a.Plan?
  {
  }

  lemma MoveKeepsCore(s: System, a: Action, c: Handle, ops: seq<Op>, erase: bool)
    requires CoreInv(s.core) && WellPlaced(s.core) && Bound(s.conns.Keys, s.core) && Proper(s, a, c, ops)
    ensures var t := Move(s, a, c, ops, erase);
            CoreInv(t.core) && WellPlaced(t.core) && Bound(t.conns.Keys, t.core)
  {
    hide Move, CoreInv, WellPlaced, Bound, Apply, Can, AllEnabled, Run, PlacedAction, TasksBind, TasksKnown;
    MoveKeepsKeys(s, a, c, ops, erase);
    TasksAreKnown(s.conns.Keys, a, c);
    ActionKeepsInv(s.core, a);
    ActionKeepsPlaces(s.core, a);
    ActionKeepsBound(s.conns.Keys, s.core, a);
  }

  lemma MoveKeepsConns(s: System, a: Action, c: Handle, ops: seq<Op>, erase: bool)
    requires Known(s) && ConnsOk(s) && FdsDistinct(s.conns) && Proper(s, a, c, ops)
    ensures ConnsOk(Move(s, a, c, ops, erase))
  {
    var t := Move(s, a, c, ops, erase);
    forall d | d in t.conns
      ensures ConnOkIn(t, d)
    {
      MoveKeepsConn(s, a, c, ops, erase, d);
    }
  }

  lemma MoveKeepsFds(s: System, a: Action, c: Handle, ops: seq<Op>, erase: bool)
    requires FdsDistinct(s.conns) && Proper(s, a, c, ops)
    ensures FdsDistinct(Move(s, a, c, ops, erase).conns)
  {
    FdsStayDistinct(s.conns, c, Move(s, a, c, ops, erase).conns[c]);
  }

  lemma MoveKeepsMap(s: System, a: Action, c: Handle, ops: seq<Op>, erase: bool)
    requires Known(s) && MapOk(s.conns.Keys, s.server, s.erased) && Proper(s, a, c, ops)
    ensures var t := Move(s, a, c, ops, erase); MapOk(t.conns.Keys, t.server, t.erased)
  {
    assert Move(s, a, c, ops, erase).conns.Keys == s.conns.Keys;
    if erase {
      EraseKeepsMap(s.conns.Keys, s.server, s.erased, c);
    }
  }

  ghost predicate OwnLoopOk(s: System, a: Action, c: Handle, ops: seq<Op>, erase: bool)
    requires Proper(s, a, c, ops) && c.io in s.core.loops
  {
    s.core.loops[c.io].pc.Dispatching? ==>
      c.io in Apply(s.core, a).loops &&
      ActiveOk(Move(s, a, c, ops, erase).conns, c.io, Apply(s.core, a).loops[c.io])
  }

  lemma MoveKeepsSoundCore(s: System, a: Action, c: Handle, ops: seq<Op>, erase: bool)
    requires SoundCore(s) && Proper(s, a, c, ops)
    ensures SoundCore(Move(s, a, c, ops, erase))
  {
    MoveKeepsKnown(s, a, c, ops, erase);
    MoveKeepsCore(s, a, c, ops, erase);
  }

  lemma MoveKeepsSoundConns(s: System, a: Action, c: Handle, ops: seq<Op>, erase: bool)
    requires SoundCore(s) && SoundConns(s) && Proper(s, a, c, ops)
    ensures SoundConns(Move(s, a, c, ops, erase))
  {
    MoveKeepsKnown(s, a, c, ops, erase);
    MoveKeepsConns(s, a, c, ops, erase);
    MoveKeepsPollers(s, a, c, ops, erase);
    MoveKeepsFds(s, a, c, ops, erase);
  }

  lemma MoveKeepsSound(s: System, a: Action, c: Handle, ops: seq<Op>, erase: bool)
    requires Sound(s) && Proper(s, a, c, ops) && OwnLoopOk(s, a, c, ops, erase)
    ensures Sound(Move(s, a, c, ops, erase))
  {
    MoveKeepsSoundCore(s, a, c, ops, erase);
    MoveKeepsSoundConns(s, a, c, ops, erase);
    MoveKeepsMap(s, a, c, ops, erase);
    MoveKeepsActives(s, a, c, ops, erase);
  }

  lemma MoveKeepsOthersAccounted(s: System, a: Action, c: Handle, ops: seq<Op>, erase: bool, d: Handle)
    requires CoreInv(s.core) && WellPlaced(s.core) && Proper(s, a, c, ops)
    requires d in s.conns && d != c && AccountedIn(s, d)
    ensures AccountedIn(Move(s, a, c, ops, erase), d)
  {
    hide CoreInv, WellPlaced, Apply, Can, PlacedAction, TasksBind, AllEnabled, Run, Accounted, HousedConn;
    OthersStayAccounted(s.core, a, d, s.conns[d], d in s.erased, d in s.doubled);
  }

  /** A proper move keeps the invariant, given the active list of its own loop and its own functors. */
  lemma MoveKeepsInv(s: System, a: Action, c: Handle, ops: seq<Op>, erase: bool)
    requires Sound(s) && Proper(s, a, c, ops) && OwnLoopOk(s, a, c, ops, erase)
    requires forall d :: d in s.conns && d != c ==> AccountedIn(s, d)
    requires AccountedIn(Move(s, a, c, ops, erase), c)
    ensures SysInv(Move(s, a, c, ops, erase))
  {
    hide SoundConns;
    var t := Move(s, a, c, ops, erase);
    MoveKeepsSound(s, a, c, ops, erase);
    forall d | d in t.conns
      ensures AccountedIn(t, d)
    {
      if d != c {
        MoveKeepsOthersAccounted(s, a, c, ops, erase, d);
      }
    }
  }
}
