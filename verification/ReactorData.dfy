/** What every run of the server guarantees of the connections it serves: what holds of a run of one
    connection, from its first step on, holds of it inside the server, in every interleaving. */
module ReactorData {
  import ReactorTheorems
  import Sequences
  import opened Epoll
  import opened Connections
  import opened ConnectionTheorems
  import opened Loops
  import opened Reactor
  import opened ReactorInvariant

  // ---------------------------------------------------------------------------------------------
  // Records of steps.

  /** The steps connection `d` makes during one step of the server. */
  ghost function OpsOf(s: System, step: SysStep, d: Handle): seq<Op> {
    match step
    case Accept(fd, io, calls, _) => if d == Handle(s.server.nextConnId, io, fd) then AcceptOps(io, calls) else []
    case Serve(l, env, _) =>
      if AtConn(s, l) && CurrentConn(s, l) == d then EventOps(CurrentEvents(s, l), env) else []
    case RunFunctor(l, calls, _) =>
      if AtFunctor(s, l) && BindsConn(CurrentFunctor(s, l), d) then FunctorOps(CurrentFunctor(s, l), calls) else []
    case Plain(_) => []
    case DrainWakeup(_) => []
    case AcceptFails => []
    case Pin(_) => []
    case Unpin(_) => []
  }

  /** No step but a foreign send's functor is a QueuedSend, and the server of this model has none. */
  predicate OwnSends(ops: seq<Op>) { forall i :: 0 <= i < |ops| ==> !ops[i].QueuedSend? }

  lemma OpsAreOwn(s: System, step: SysStep, d: Handle)
    ensures OwnSends(OpsOf(s, step, d))
  {
    hide AtConn, AtFunctor;
  }

  ghost function Record(s: System, d: Handle): seq<Op> { if d in s.history then s.history[d] else [] }

  /** Connections are known by their places in the accept order. */
  ghost predicate Numbered(s: System) {
    s.history.Keys == s.conns.Keys && forall d :: d in s.conns ==> d.id < s.server.nextConnId
  }

  lemma NumberedInRun(states: seq<System>, steps: seq<SysStep>, n: nat)
    requires IsRun(states, steps) && n < |states|
    ensures Numbered(states[n])
  {
    ReactorTheorems.RunKeepsSysInv(states, steps, n);
    assert Known(states[n]);
  }

  lemma MoveExtendsRecord(s: System, a: Action, c: Handle, ops: seq<Op>, erase: bool, d: Handle)
    requires Movable(s, c) && Can(s.core, a)
    ensures var t := Move(s, a, c, ops, erase);
            && t.cfg == s.cfg && (d in t.conns <==> d in s.conns)
            && Record(t, d) == if d == c then Record(s, d) + ops else Record(s, d)
  {
    hide Run, Apply, Can;
  }

  lemma AcceptExtendsRecord(s: System, c: Handle, calls: seq<UserOp>, extra: seq<Task>, t: System, d: Handle)
    requires Numbered(s) && NextAccept(s, c, calls, extra, t)
    ensures t.cfg == s.cfg && (d in t.conns <==> d in s.conns || d == c)
    ensures Record(t, d) == Record(s, d) + if d == c then AcceptOps(c.io, calls) else []
  {
    var a := AcceptAction(s, c, calls, extra);
    hide Run, Apply, Can, HasOwner, Current, Move, AcceptAction, AcceptOps, Targeted;
    MoveExtendsRecord(Admit(s, c), a, c, AcceptOps(c.io, calls), false, d);
    assert c !in s.history;
  }

  lemma ServeExtendsRecord(s: System, l: LoopId, env: Env, extra: seq<Task>, t: System, d: Handle)
    requires NextServe(s, l, env, extra, t)
    ensures t.cfg == s.cfg && (d in t.conns <==> d in s.conns)
    ensures Record(t, d) == Record(s, d) + OpsOf(s, Serve(l, env, extra), d)
  {
    var c, ops := CurrentConn(s, l), EventOps(CurrentEvents(s, l), env);
    var u := if ClosesTwice(CurrentEvents(s, l), env) then s.(doubled := s.doubled + {c}) else s;
    hide Run, Apply, Can, EventOps, Move, ClosesTwice, Targeted;
    MoveExtendsRecord(u, ServeAction(s, l, env, extra), c, ops, c.io == BASE && CloseRequest in NotesOf(s, c, ops), d);
  }

  lemma FunctorExtendsRecord(s: System, l: LoopId, calls: seq<UserOp>, extra: seq<Task>, t: System, d: Handle)
    requires NextFunctor(s, l, calls, extra, t)
    ensures t.cfg == s.cfg && (d in t.conns <==> d in s.conns)
    ensures Record(t, d) == Record(s, d) + OpsOf(s, RunFunctor(l, calls, extra), d)
  {
    var f := CurrentFunctor(s, l);
    hide Run, Apply, Can, FunctorOps, Move, Targeted;
    if !f.User? {
      MoveExtendsRecord(s, FunctorAction(s, l, calls, extra), f.c, FunctorOps(f, calls), f.RemoveConn?, d);
    }
  }

  /** A step of the server adds to each connection's record just the steps that connection makes. */
  lemma StepExtendsRecord(s: System, step: SysStep, t: System, d: Handle)
    requires Numbered(s) && Next(s, step, t)
    ensures t.cfg == s.cfg && (d in s.conns ==> d in t.conns)
    ensures Record(t, d) == Record(s, d) + OpsOf(s, step, d)
  {
    hide Run, Apply, Can, HasOwner, AtConn, AtFunctor, Current, PlainAction, NextAccept, NextServe, NextFunctor;
    match step {
      case Accept(fd, io, calls, extra) =>
        AcceptExtendsRecord(s, Handle(s.server.nextConnId, io, fd), calls, extra, t, d);
      case Serve(l, env, extra) => ServeExtendsRecord(s, l, env, extra, t, d);
      case RunFunctor(l, calls, extra) => FunctorExtendsRecord(s, l, calls, extra, t, d);
      case Plain(_) =>
      case DrainWakeup(_) =>
      case AcceptFails =>
      case Pin(_) =>
      case Unpin(_) =>
    }
  }

  /** What a connection did in steps m to n of a run. */
  ghost function OpsDuring(states: seq<System>, steps: seq<SysStep>, m: nat, n: nat, c: Handle): seq<Op>
    requires |states| == |steps| + 1 && m <= n < |states|
    decreases n
  {
    if m == n then [] else OpsDuring(states, steps, m, n - 1, c) + OpsOf(states[n - 1], steps[n - 1], c)
  }

  /** The record of a connection is exactly the steps it made, in order, and only grows. */
  lemma {:induction false} RecordIsTheRun(states: seq<System>, steps: seq<SysStep>, m: nat, n: nat, c: Handle)
    requires IsRun(states, steps) && m <= n < |states|
    ensures Record(states[n], c) == Record(states[m], c) + OpsDuring(states, steps, m, n, c)
    ensures OwnSends(OpsDuring(states, steps, m, n, c))
    ensures states[n].cfg == states[m].cfg && (c in states[m].conns ==> c in states[n].conns)
    decreases n
  {
    if m < n {
      RecordIsTheRun(states, steps, m, n - 1, c);
      NumberedInRun(states, steps, n - 1);
      assert Next(states[n - 1], steps[n - 1], states[n]);
      hide Next, Initial, Numbered, OpsOf, Record, OwnSends;
      StepExtendsRecord(states[n - 1], steps[n - 1], states[n], c);
      OpsAreOwn(states[n - 1], steps[n - 1], c);
      var before, ops := OpsDuring(states, steps, m, n - 1, c), OpsOf(states[n - 1], steps[n - 1], c);
      Sequences.Associate(Record(states[m], c), before, ops);
      OwnSendsJoin(before, ops);
    }
  }

  lemma OwnSendsJoin(a: seq<Op>, b: seq<Op>)
    requires OwnSends(a) && OwnSends(b)
    ensures OwnSends(a + b)
  {
  }

  lemma OwnSendsFromStart(states: seq<System>, steps: seq<SysStep>, n: nat, c: Handle)
    requires IsRun(states, steps) && n < |states|
    ensures OwnSends(Record(states[n], c))
  {
    RecordIsTheRun(states, steps, 0, n, c);
    assert Record(states[0], c) == [];
    hide Next, Initial, OpsOf, Record, IsRun;
    assert [] + OpsDuring(states, steps, 0, n, c) == OpsDuring(states, steps, 0, n, c);
  }

  // ---------------------------------------------------------------------------------------------
  // What a record says.

  /** The connection of a reachable state, and the run it has made. */
  lemma ServedIsLocal(states: seq<System>, steps: seq<SysStep>, n: nat, c: Handle)
    requires IsRun(states, steps) && n < |states| && c in states[n].conns
    ensures Movable(states[n], c)
    ensures ConnLocal(states[n].cfg, WorldOf(states[n], c), states[n].history[c])
  {
    ReactorTheorems.RunKeepsSysInv(states, steps, n);
    assert ConnOkIn(states[n], c);
  }

  /** Inside the server every connection conserves its output: what went to the kernel, then what is
      buffered, is what was accepted over the steps it made; and while it is up its unsent data is
      watched in its own loop's kernel set. */
  lemma ServedOutputIsConserved(states: seq<System>, steps: seq<SysStep>, n: nat, c: Handle)
    requires IsRun(states, steps) && n < |states| && c in states[n].conns
    ensures var s := states[n];
            && c in s.history && c.io in s.pollers
            && s.conns[c].sent + s.conns[c].out == Accepted(s.cfg, Alone(c), s.history[c])
            && (Live(s.conns[c]) ==>
                  && InKernel(s.pollers[c.io], c, c.fd)
                  && (s.conns[c].out != [] <==> Out in s.pollers[c.io].kernel[c.fd].mask))
  {
    hide SysInv, IsRun, ConnLocal;
    ServedIsLocal(states, steps, n, c);
    var s := states[n];
    LocalOutputIsConserved(s.cfg, WorldOf(s, c), s.history[c]);
  }

  lemma LocalOutputIsConserved(cfg: Config, w: World<Handle>, history: seq<Op>)
    requires ConnLocal(cfg, w, history)
    ensures w.conn.sent + w.conn.out == Accepted(cfg, Alone(w.me), history)
    ensures Live(w.conn) ==>
              InKernel(w.poller, w.me, w.fd) && (w.conn.out != [] <==> Out in w.poller.kernel[w.fd].mask)
  {
    OutputIsConserved(cfg, Alone(w.me), history);
    assert Out in WRITE_EVENT && Out !in READ_EVENT;
  }

  /** Inside the server every connection conserves its input: what user code consumed, then what is
      left in the input buffer, is what the kernel delivered. */
  lemma ServedInputIsConserved(states: seq<System>, steps: seq<SysStep>, n: nat, c: Handle)
    requires IsRun(states, steps) && n < |states| && c in states[n].conns
    ensures var s := states[n];
            && c in s.history
            && ConsumedBy(s.cfg, Alone(c), s.history[c]) + s.conns[c].input == DeliveredBy(s.history[c])
  {
    hide SysInv, IsRun;
    ServedIsLocal(states, steps, n, c);
    InputIsConserved(states[n].cfg, Alone(c), states[n].history[c]);
  }

  /** From a state of the server to a later one a connection only goes forward: its state never goes
      back, up comes once and before any down, and bytes once sent are never revised. */
  lemma ServedStatesGoForward(states: seq<System>, steps: seq<SysStep>, m: nat, n: nat, c: Handle)
    requires IsRun(states, steps) && m <= n < |states| && c in states[m].conns
    ensures c in states[n].conns
    ensures var k, v := states[m].conns[c], states[n].conns[c];
            && Rank(k.state) <= Rank(v.state)
            && v.ups == (if v.state.Connecting? then 0 else 1) && (v.downs > 0 <==> v.state.Disconnected?)
            && k.downs <= v.downs && k.destroyed <= v.destroyed <= v.downs
            && k.sent <= v.sent
  {
    hide SysInv, IsRun, ConnLocal;
    RecordIsTheRun(states, steps, m, n, c);
    ServedIsLocal(states, steps, m, c);
    ServedIsLocal(states, steps, n, c);
    LocalProgress(states[m].cfg, WorldOf(states[m], c), states[m].history[c],
                  WorldOf(states[n], c), states[n].history[c]);
  }

  lemma LocalProgress(cfg: Config, w: World<Handle>, before: seq<Op>, v: World<Handle>, after: seq<Op>)
    requires ConnLocal(cfg, w, before) && ConnLocal(cfg, v, after) && before <= after && v.me == w.me
    ensures && Rank(w.conn.state) <= Rank(v.conn.state)
            && v.conn.ups == (if v.conn.state.Connecting? then 0 else 1)
            && (v.conn.downs > 0 <==> v.conn.state.Disconnected?)
            && w.conn.downs <= v.conn.downs && w.conn.destroyed <= v.conn.destroyed <= v.conn.downs
            && w.conn.sent <= v.conn.sent
  {
    var was, more := Run(cfg, Alone(w.me), before), after[|before|..];
    assert after == before + more;
    RunSplits(cfg, Alone(w.me), before, more);
    RunKeepsInv(cfg, Alone(w.me), before);
    StatesGoForward(cfg, was, more);
    OutputIsConserved(cfg, was, more);
  }

  /** Half-close inside the server, for any kernel: SHUT_WR is issued at most once, only with every
      accepted byte sent, and from then on nothing more is sent. */
  lemma ServedHalfClose(states: seq<System>, steps: seq<SysStep>, m: nat, n: nat, c: Handle)
    requires IsRun(states, steps) && m <= n < |states| && c in states[m].conns
    ensures c in states[n].conns && c in states[n].history
    ensures var k, v := states[m].conns[c], states[n].conns[c];
            && v.shutWrs <= 1
            && (v.shutWrs == 1 ==> v.out == [] && v.sent == Accepted(states[n].cfg, Alone(c), states[n].history[c]))
            && (k.shutWrs == 1 ==> v.shutWrs == 1 && v.sent == k.sent)
  {
    hide SysInv, IsRun, ConnLocal, OwnSends;
    RecordIsTheRun(states, steps, m, n, c);
    OwnSendsFromStart(states, steps, n, c);
    ServedIsLocal(states, steps, m, c);
    ServedIsLocal(states, steps, n, c);
    LocalHalfClose(states[m].cfg, WorldOf(states[m], c), states[m].history[c],
                   WorldOf(states[n], c), states[n].history[c]);
  }

  lemma LocalHalfClose(cfg: Config, w: World<Handle>, before: seq<Op>, v: World<Handle>, after: seq<Op>)
    requires ConnLocal(cfg, w, before) && ConnLocal(cfg, v, after) && before <= after && v.me == w.me
    requires OwnSends(after)
    ensures v.conn.shutWrs <= 1
    ensures v.conn.shutWrs == 1 ==> v.conn.out == [] && v.conn.sent == Accepted(cfg, Alone(w.me), after)
    ensures w.conn.shutWrs == 1 ==> v.conn.shutWrs == 1 && v.conn.sent == w.conn.sent
  {
    var start, more := Alone(w.me), after[|before|..];
    assert after == before + more;
    RunSplits(cfg, start, before, more);
    RunKeepsInv(cfg, start, before);
    OwnSendsAreNeverLate(cfg, start, before);
    HalfClose(cfg, start, before);
    OwnSendsAreNeverLate(cfg, start, after);
    HalfClose(cfg, start, after);
    OwnSendsAreNeverLate(cfg, Run(cfg, start, before), more);
    HalfClose(cfg, Run(cfg, start, before), more);
  }
}
