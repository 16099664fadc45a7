/** Runs that do happen: from any start not already told to quit, a connection can be accepted and
    served, and one can meet the event that closes it twice. */
module ReactorWitness {
  import Buffers
  import ConnectionTheorems
  import ReactorSteps
  import ReactorTheorems
  import opened Epoll
  import opened Connections
  import opened Loops
  import opened Reactor
  import opened ReactorInvariant
  import opened Tokens

  lemma ExtendRun(states: seq<System>, steps: seq<SysStep>, step: SysStep, t: System)
    requires IsRun(states, steps) && Next(states[|steps|], step, t)
    ensures IsRun(states + [t], steps + [step])
  {
    hide Next, Initial;
    var more, all := states + [t], steps + [step];
    forall i | 0 <= i < |all|
      ensures Next(more[i], all[i], more[i + 1])
    {
      if i < |steps| {
        assert more[i] == states[i] && more[i + 1] == states[i + 1] && all[i] == steps[i];
      }
    }
  }

  /** A step of the base loop alone. */
  lemma BaseStep(states: seq<System>, steps: seq<SysStep>, a: Action) returns (more: seq<System>, all: seq<SysStep>)
    requires IsRun(states, steps) && PlainAction(states[|steps|], a)
    ensures IsRun(more, all) && |all| == |steps| + 1 && more[0] == states[0]
    ensures more[|all|] == states[|steps|].(core := Apply(states[|steps|].core, a))
  {
    hide Initial, Can, Apply, MayReport;
    var s := states[|steps|];
    var t := s.(core := Apply(s.core, a));
    ExtendRun(states, steps, Plain(a), t);
    more, all := states + [t], steps + [Plain(a)];
  }

  ghost predicate BaseAt(s: System, pc: Pc) {
    AtPc(s.core, BASE, pc) && !s.core.loops[BASE].quit && s.core.loops[BASE].pending == []
  }

  /** The base loop reports a new connection. */
  lemma ListenerReady(s0: System) returns (states: seq<System>, steps: seq<SysStep>)
    requires Initial(s0) && !s0.core.loops[BASE].quit
    ensures IsRun(states, steps) && states[0] == s0
    ensures var s := states[|steps|];
            && BaseAt(s, Dispatching) && Current(s, BASE, Listener) && s.core.loops[BASE].active == [Listener]
            && s.core.loops[BASE].at == 0 && s == s0.(core := s.core) && s.core.loops.Keys == s0.core.loops.Keys
  {
    states, steps := [s0], [];
    assert IsRun(states, steps) && BaseAt(s0, AtTest);
    states, steps := BaseStep(states, steps, Test(BASE));
    assert BaseAt(states[|steps|], AtPoll);
    states, steps := BaseStep(states, steps, Poll(BASE, [Listener]));
  }

  lemma EstablishAlone(cfg: Config, w: World<Handle>)
    ensures Run(cfg, w, [Establish]) == Step(cfg, w, Establish)
  {
    assert [Establish][1..] == [];
  }

  /** Accepting on the base loop establishes at once. */
  lemma AcceptOnBase(s: System, fd: int) returns (c: Handle, t: System)
    requires BaseAt(s, Dispatching) && Current(s, BASE, Listener) && s.core.loops[BASE].active == [Listener]
    requires s.conns == map[] && BASE in s.pollers && s.server.nextConnId == 1
    ensures Next(s, Accept(fd, BASE, [], []), t) && c.io == BASE
    ensures c in t.conns && Live(t.conns[c]) && BaseAt(t, Dispatching)
    ensures t.core.loops[BASE].at == |t.core.loops[BASE].active|
  {
    c := Handle(1, BASE, fd);
    var u := Admit(s, c);
    assert AcceptOps(BASE, []) == [Establish];
    EstablishAlone(u.cfg, WorldOf(u, c));
    assert NotesOf(u, c, [Establish]) == [];
    var a := AcceptAction(s, c, [], []);
    assert a == Dispatch(BASE, []);
    t := Move(u, a, c, [Establish], false);
    assert NextAccept(s, c, [], [], t);
  }

  lemma BackToPoll(states: seq<System>, steps: seq<SysStep>) returns (more: seq<System>, all: seq<SysStep>)
    requires IsRun(states, steps) && BaseAt(states[|steps|], Dispatching)
    requires states[|steps|].core.loops[BASE].at == |states[|steps|].core.loops[BASE].active|
    requires CoreInv(states[|steps|].core)
    ensures IsRun(more, all) && more[0] == states[0] && BaseAt(more[|all|], AtPoll)
    ensures more[|all|] == states[|steps|].(core := more[|all|].core)
  {
    hide Next, Initial, CoreInv;
    more, all := BaseStep(states, steps, EndDispatch(BASE));
    assert BaseAt(more[|all|], Calling);
    more, all := BaseStep(more, all, SwapBatch(BASE));
    assert BaseAt(more[|all|], Running) && more[|all|].core.loops[BASE].batch == [];
    more, all := BaseStep(more, all, EndBatch(BASE));
    assert BaseAt(more[|all|], AtTest);
    more, all := BaseStep(more, all, Test(BASE));
  }

  /** From every such start the base loop can accept a connection, serve it itself, and return to poll. */
  lemma FirstConnection(s0: System, fd: int) returns (states: seq<System>, steps: seq<SysStep>, c: Handle)
    requires Initial(s0) && !s0.core.loops[BASE].quit
    ensures IsRun(states, steps) && states[0] == s0
    ensures var s := states[|steps|]; c in s.conns && c.io == BASE && Live(s.conns[c]) && AtPc(s.core, BASE, AtPoll)
  {
    assert s0.conns == map[] && BASE in s0.pollers && s0.server.nextConnId == 1;
    hide Initial, Next, Apply;
    states, steps := ListenerReady(s0);
    var t;
    c, t := AcceptOnBase(states[|steps|], fd);
    ExtendRun(states, steps, Accept(fd, BASE, [], []), t);
    states, steps := states + [t], steps + [Accept(fd, BASE, [], [])];
    InRunSysInv(states, steps);
    states, steps := BackToPoll(states, steps);
  }

  lemma InRunSysInv(states: seq<System>, steps: seq<SysStep>)
    requires IsRun(states, steps)
    ensures SysInv(states[|steps|]) && CoreInv(states[|steps|].core)
  {
    ReactorTheorems.RunKeepsSysInv(states, steps, |steps|);
    hide IsRun;
    ReactorSteps.PartsOfInv(states[|steps|]);
  }

  // ---------------------------------------------------------------------------------------------
  // The event that closes twice.

  const HANG_UP: Mask := {Hup, Pri}

  const END_OF_FILE := Env([], Buffers.Delivered([]), [], Buffers.WriteFailed(Buffers.EWouldBlock))

  lemma LiveIsWatched(s: System, c: Handle)
    requires SysInv(s) && c in s.conns && Live(s.conns[c])
    ensures Movable(s, c) && InKernel(s.pollers[c.io], c, c.fd)
    ensures Pri in s.pollers[c.io].kernel[c.fd].mask && s.conns[c].downs == 0
  {
    hide SysInv, Sound, CoreInv, WellPlaced, Known, ActivesOk, AccountedIn;
    ReactorSteps.PartsOfInv(s);
    assert ConnOkIn(s, c);
    hide AllEnabled, Run;
    assert Pri in READ_EVENT;
  }

  /** Poll may return a hang-up with urgent data for a live connection, and the loop then dispatches it. */
  lemma HangUpMayBeReported(s: System, c: Handle)
    requires AtPc(s.core, BASE, AtPoll) && c.io == BASE && Movable(s, c) && s.conns[c].downs == 0
    requires InKernel(s.pollers[BASE], c, c.fd) && Pri in s.pollers[BASE].kernel[c.fd].mask
    ensures PlainAction(s, Poll(BASE, [ReadyConn(c, HANG_UP)]))
    ensures var t := s.(core := Apply(s.core, Poll(BASE, [ReadyConn(c, HANG_UP)])));
            && AtConn(t, BASE) && CurrentConn(t, BASE) == c && CurrentEvents(t, BASE) == HANG_UP
            && t.conns[c].downs == 0
  {
  }

  lemma ServeResult(s: System, l: LoopId, env: Env, extra: seq<Task>, t: System)
    requires NextServe(s, l, env, extra, t)
    ensures var c := CurrentConn(s, l);
            && c in t.conns
            && t.conns[c].downs == Run(s.cfg, WorldOf(s, c), EventOps(CurrentEvents(s, l), env)).conn.downs
  {
    hide Run, EventOps, Apply, Can, ServeAction, ConnectionTheorems.ClosesTwice;
  }

  lemma HangUpClosesTwice(s: System, l: LoopId, t: System)
    requires SysInv(s) && AtConn(s, l) && CurrentEvents(s, l) == HANG_UP && s.conns[CurrentConn(s, l)].downs == 0
    requires Next(s, Serve(l, END_OF_FILE, []), t)
    ensures CurrentConn(s, l) in t.conns && t.conns[CurrentConn(s, l)].downs == 2
  {
    hide SysInv, Sound, Known, ConnsOk, Run, EventOps, ConnOkIn, AccountedIn, ActiveOk, NextServe;
    hide ConnectionTheorems.Closes, CoreInv, WellPlaced, ActivesOk, WorldOf, AllEnabled;
    var c := CurrentConn(s, l);
    ReactorSteps.ServeFacts(s, l);
    ReactorSteps.PartsOfInv(s);
    hide AtConn, Movable, CurrentConn, CurrentEvents;
    ReactorSteps.ServeRun(s, c, HANG_UP, END_OF_FILE);
    assert Pri in HANG_UP * READ_EVENT;
    ServeResult(s, l, END_OF_FILE, [], t);
  }

  /** The twice-closing event is met in some run from every such start. */
  lemma ClosesTwiceInTheServer(s0: System, fd: int) returns (states: seq<System>, steps: seq<SysStep>, c: Handle)
    requires Initial(s0) && !s0.core.loops[BASE].quit
    ensures IsRun(states, steps) && states[0] == s0
    ensures c in states[|steps|].conns && states[|steps|].conns[c].downs == 2
  {
    hide Initial, Next, Apply, SysInv, CoreInv, PlainAction;
    states, steps, c := FirstConnection(s0, fd);
    InRunSysInv(states, steps);
    var s := states[|steps|];
    LiveIsWatched(s, c);
    HangUpMayBeReported(s, c);
    states, steps := BaseStep(states, steps, Poll(BASE, [ReadyConn(c, HANG_UP)]));
    InRunSysInv(states, steps);
    var t := states[|steps|];
    var u := ReactorTheorems.EveryEventIsServed(t, BASE, END_OF_FILE, []);
    HangUpClosesTwice(t, BASE, u);
    ExtendRun(states, steps, Serve(BASE, END_OF_FILE, []), u);
    states, steps := states + [u], steps + [Serve(BASE, END_OF_FILE, [])];
  }
}
