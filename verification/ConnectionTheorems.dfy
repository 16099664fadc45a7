/** What every run of a connection guarantees. */
module ConnectionTheorems {
  import Sequences
  import opened Buffers
  import opened Epoll
  import opened Connections

  // ---------------------------------------------------------------------------------------------
  // Output stream.

  /** The two errors of a direct write for which a message is given up. */
  predicate Breaks(k: WriteOutcome) { k == WriteFailed(EPipe) || k == WriteFailed(EConnReset) }

  /** The message a step commits the connection to: what is sent in a state that allows it, unless
      nothing was waiting and the direct write was refused with EPIPE or ECONNRESET. */
  function Accepts(c: Conn, op: Op): seq<Byte> {
    match op
    case Send(msg, k) => if c.state.Connected? && !(c.out == [] && Breaks(k)) then msg else []
    case QueuedSend(msg, k) => if !c.state.Disconnected? && !(c.out == [] && Breaks(k)) then msg else []
    case Establish => []
    case Shutdown => []
    case Consume(_) => []
    case Readable(_) => []
    case Writable(_) => []
    case Close => []
    case Destroy => []
  }

  function Accepted<C>(cfg: Config, w: World<C>, ops: seq<Op>): seq<Byte>
    decreases |ops|
  {
    if ops == [] then [] else Accepts(w.conn, ops[0]) + Accepted(cfg, Step(cfg, w, ops[0]), ops[1..])
  }

  lemma EnqueueConserves<C>(cfg: Config, w: World<C>, rest: seq<Byte>)
    ensures Enqueue(cfg, w, rest).conn.sent == w.conn.sent
    ensures Enqueue(cfg, w, rest).conn.out == w.conn.out + rest
  {
  }

  lemma DirectConserves<C>(cfg: Config, w: World<C>, msg: seq<Byte>, k: WriteOutcome)
    requires w.conn.out == [] && Live(w.conn) && !Writing(w.conn)
    ensures var v := SendInLoop(cfg, w, msg, k);
            && v.conn.sent + v.conn.out == w.conn.sent + (if Breaks(k) then [] else msg)
            && w.conn.sent <= v.conn.sent
  {
    var sent, n := w.conn.sent, k.Taken(|msg|);
    var d := DirectWrite(cfg, w, msg, k);
    assert d.conn.sent == sent + msg[..n] && d.conn.out == [];
    if Breaks(k) {
      assert n == 0 && sent + msg[..n] + [] == sent + [];
    } else {
      EnqueueConserves(cfg, d, msg[n..]);
      hide Enqueue, DirectWrite;
      assert [] + msg[n..] == msg[n..];
      Sequences.Rejoin(sent, msg, n);
    }
  }

  lemma SendConserves<C>(cfg: Config, w: World<C>, msg: seq<Byte>, k: WriteOutcome)
    requires Inv(w) && Live(w.conn)
    ensures var v := SendInLoop(cfg, w, msg, k);
            && v.conn.sent + v.conn.out
               == w.conn.sent + w.conn.out + (if w.conn.out == [] && Breaks(k) then [] else msg)
            && w.conn.sent <= v.conn.sent
  {
    var c := w.conn;
    assert Writing(c) <==> c.out != [];
    if c.out != [] {
      hide Inv, Enqueue;
      EnqueueConserves(cfg, w, msg);
      assert c.sent + (c.out + msg) == c.sent + c.out + msg;
    } else {
      hide Inv, SendInLoop;
      DirectConserves(cfg, w, msg, k);
      assert c.sent + c.out == c.sent;
    }
  }

  lemma StepConservesOutput<C>(cfg: Config, w: World<C>, op: Op)
    requires Inv(w) && Enabled(w.conn, op)
    ensures var v := Step(cfg, w, op);
            && v.conn.sent + v.conn.out == w.conn.sent + w.conn.out + Accepts(w.conn, op)
            && w.conn.sent <= v.conn.sent
  {
    var c := w.conn;
    if op.Send? && c.state.Connected? {
      SendConserves(cfg, w, op.msg, op.kernel);
    } else if op.QueuedSend? && Live(c) {
      SendConserves(cfg, w, op.msg, op.kernel);
    } else if op.Writable? {
      var n := op.kernel.Taken(|c.out|);
      assert (c.sent + c.out[..n]) + c.out[n..] == c.sent + c.out;
    }
  }

  /** Conservation and order: in every run, whatever the writes did, the bytes given to the kernel
      followed by the bytes still buffered are the accepted messages in order, and bytes once given
      to the kernel are never revised. */
  lemma {:induction false} OutputIsConserved<C>(cfg: Config, w: World<C>, ops: seq<Op>)
    requires Inv(w) && AllEnabled(cfg, w, ops)
    ensures var v := Run(cfg, w, ops);
            && v.conn.sent + v.conn.out == w.conn.sent + w.conn.out + Accepted(cfg, w, ops)
            && w.conn.sent <= v.conn.sent
    decreases |ops|
  {
    if ops != [] {
      var u := Step(cfg, w, ops[0]);
      StepKeepsInv(cfg, w, ops[0]);
      StepConservesOutput(cfg, w, ops[0]);
      OutputIsConserved(cfg, u, ops[1..]);
      Sequences.Associate(w.conn.sent + w.conn.out, Accepts(w.conn, ops[0]), Accepted(cfg, u, ops[1..]));
    }
  }

  /** Unsent data is always watched and an empty buffer never is: from connection-up to close, the
      buffer is nonempty iff the channel is writing iff the kernel's mask holds EPOLLOUT; reading
      stays enabled throughout. */
  lemma {:induction false} UnsentDataIsWatched<C>(cfg: Config, w: World<C>, ops: seq<Op>)
    requires Inv(w) && AllEnabled(cfg, w, ops)
    ensures var v := Run(cfg, w, ops);
            Live(v.conn) ==>
              && InKernel(v.poller, v.me, v.fd) && InMap(v.poller, v.me, v.fd)
              && (v.conn.out != [] <==> Writing(v.conn))
              && (Writing(v.conn) <==> Out in v.poller.kernel[v.fd].mask)
              && v.poller.kernel[v.fd].mask == if v.conn.out == [] then {In, Pri} else {In, Pri, Out}
  {
    RunKeepsInv(cfg, w, ops);
    var v := Run(cfg, w, ops);
    if Live(v.conn) {
      assert Out in WRITE_EVENT && Out !in READ_EVENT && READ_EVENT + WRITE_EVENT == {In, Pri, Out};
    }
  }

  // ---------------------------------------------------------------------------------------------
  // Input stream.

  function Delivers(op: Op): seq<Byte> { if op.Readable? then op.bytes else [] }

  function Consumes(c: Conn, op: Op): seq<Byte> { if op.Consume? then c.input[..Min(op.n, |c.input|)] else [] }

  function DeliveredBy(ops: seq<Op>): seq<Byte> {
    if ops == [] then [] else Delivers(ops[0]) + DeliveredBy(ops[1..])
  }

  function ConsumedBy<C>(cfg: Config, w: World<C>, ops: seq<Op>): seq<Byte>
    decreases |ops|
  {
    if ops == [] then [] else Consumes(w.conn, ops[0]) + ConsumedBy(cfg, Step(cfg, w, ops[0]), ops[1..])
  }

  lemma StepConservesInput<C>(cfg: Config, w: World<C>, op: Op)
    ensures Consumes(w.conn, op) + Step(cfg, w, op).conn.input == w.conn.input + Delivers(op)
  {
  }

  /** What user code has taken from the input buffer, then what is left in it, is what the kernel
      delivered, in order, in every run. */
  lemma {:induction false} InputIsConserved<C>(cfg: Config, w: World<C>, ops: seq<Op>)
    ensures ConsumedBy(cfg, w, ops) + Run(cfg, w, ops).conn.input == w.conn.input + DeliveredBy(ops)
    decreases |ops|
  {
    if ops != [] {
      var u := Step(cfg, w, ops[0]);
      StepConservesInput(cfg, w, ops[0]);
      InputIsConserved(cfg, u, ops[1..]);
      hide Step;
      Sequences.Regroup(Consumes(w.conn, ops[0]), ConsumedBy(cfg, u, ops[1..]), Run(cfg, u, ops[1..]).conn.input,
                        w.conn.input, u.conn.input, Delivers(ops[0]), DeliveredBy(ops[1..]));
    }
  }

  // ---------------------------------------------------------------------------------------------
  // Half-close.

  /** Does this step call `write`? */
  predicate MakesWrite(c: Conn, op: Op) {
    match op
    case Send(_, _) => c.state.Connected? && !Writing(c) && c.out == []
    case QueuedSend(_, _) => !c.state.Disconnected? && !Writing(c) && c.out == []
    case Writable(_) => Writing(c)
    case Establish => false
    case Shutdown => false
    case Consume(_) => false
    case Readable(_) => false
    case Close => false
    case Destroy => false
  }

  /** A foreign send that was queued before the shutdown and runs after SHUT_WR: `sendInLoop` only
      refuses kDisconnected. */
  predicate LateSend(c: Conn, op: Op) { op.QueuedSend? && c.state.Disconnecting? && c.shutWrs > 0 }

  ghost predicate NoLateSend<C>(cfg: Config, w: World<C>, ops: seq<Op>)
    decreases |ops|
  {
    ops == [] || (!LateSend(w.conn, ops[0]) && NoLateSend(cfg, Step(cfg, w, ops[0]), ops[1..]))
  }

  lemma StepLateness<C>(cfg: Config, w: World<C>, op: Op)
    requires Inv(w) && Enabled(w.conn, op)
    ensures var v := Step(cfg, w, op);
            && v.conn.lateWrites == w.conn.lateWrites + (if MakesWrite(w.conn, op) then Late(w.conn) else 0)
            && v.conn.shutWrs >= w.conn.shutWrs
            && (w.conn.lateWrites == 0 ==> (v.conn.lateWrites > 0 <==> LateSend(w.conn, op)))
            && (w.conn.lateWrites == 0 && w.conn.shutWrs > 0 && !LateSend(w.conn, op) ==> v.conn.sent == w.conn.sent)
  {
  }

  /** No `write` is attempted after SHUT_WR exactly when no queued foreign send runs after it. */
  lemma {:induction false} NoWriteAfterShutWr<C>(cfg: Config, w: World<C>, ops: seq<Op>)
    requires Inv(w) && AllEnabled(cfg, w, ops)
    ensures Run(cfg, w, ops).conn.lateWrites >= w.conn.lateWrites
    ensures w.conn.lateWrites == 0 ==>
              (Run(cfg, w, ops).conn.lateWrites == 0 <==> NoLateSend(cfg, w, ops))
    decreases |ops|
  {
    if ops != [] {
      StepKeepsInv(cfg, w, ops[0]);
      StepLateness(cfg, w, ops[0]);
      NoWriteAfterShutWr(cfg, Step(cfg, w, ops[0]), ops[1..]);
    }
  }

  /** write(2) on a socket already shut down for writing fails with EPIPE, or with the ECONNRESET of a
      reset still to be reported. */
  predicate KernelRefuses(c: Conn, op: Op) {
    c.shutWrs > 0 && MakesWrite(c, op) ==>
      match op
      case Send(_, k) => Breaks(k)
      case QueuedSend(_, k) => Breaks(k)
      case Writable(k) => Breaks(k)
      case _ => true
  }

  ghost predicate KernelObeys<C>(cfg: Config, w: World<C>, ops: seq<Op>)
    decreases |ops|
  {
    ops == [] || (KernelRefuses(w.conn, ops[0]) && KernelObeys(cfg, Step(cfg, w, ops[0]), ops[1..]))
  }

  predicate HalfCloseOk(c: Conn) { c.shutWrs <= 1 && (c.shutWrs == 1 ==> c.out == []) }

  lemma StepHalfCloses<C>(cfg: Config, w: World<C>, op: Op)
    requires Inv(w) && Enabled(w.conn, op) && KernelRefuses(w.conn, op) && HalfCloseOk(w.conn)
    ensures var v := Step(cfg, w, op);
            && HalfCloseOk(v.conn)
            && (w.conn.shutWrs == 1 ==> v.conn.shutWrs == 1 && v.conn.sent == w.conn.sent)
  {
  }

  /** Half-close: in every run, foreign sends that were queued before the shutdown included, SHUT_WR is
      issued at most once, only when every accepted byte has gone to the kernel, and no byte goes
      after it. */
  lemma {:induction false} HalfClose<C>(cfg: Config, w: World<C>, ops: seq<Op>)
    requires Inv(w) && AllEnabled(cfg, w, ops) && KernelObeys(cfg, w, ops) && HalfCloseOk(w.conn)
    ensures var v := Run(cfg, w, ops);
            && v.conn.shutWrs <= 1
            && (v.conn.shutWrs == 1 ==>
                  v.conn.out == [] && v.conn.sent == w.conn.sent + w.conn.out + Accepted(cfg, w, ops))
            && (w.conn.shutWrs == 1 ==> v.conn.shutWrs == 1 && v.conn.sent == w.conn.sent)
    decreases |ops|
  {
    OutputIsConserved(cfg, w, ops);
    if ops != [] {
      StepKeepsInv(cfg, w, ops[0]);
      StepHalfCloses(cfg, w, ops[0]);
      HalfClose(cfg, Step(cfg, w, ops[0]), ops[1..]);
    }
  }

  /** Without queued foreign sends no write is made after SHUT_WR, so any kernel obeys. */
  lemma {:induction false} OwnSendsAreNeverLate<C>(cfg: Config, w: World<C>, ops: seq<Op>)
    requires Inv(w) && AllEnabled(cfg, w, ops) && HalfCloseOk(w.conn)
    requires forall i :: 0 <= i < |ops| ==> !ops[i].QueuedSend?
    ensures KernelObeys(cfg, w, ops)
    decreases |ops|
  {
    if ops != [] {
      assert KernelRefuses(w.conn, ops[0]);
      StepKeepsInv(cfg, w, ops[0]);
      StepHalfCloses(cfg, w, ops[0]);
      OwnSendsAreNeverLate(cfg, Step(cfg, w, ops[0]), ops[1..]);
    }
  }

  /** What becomes of a late send: its `write` is attempted and refused, and the message is dropped
      whole; nothing else about the connection changes. */
  lemma LateSendIsDropped<C>(cfg: Config, w: World<C>, op: Op)
    requires Inv(w) && HalfCloseOk(w.conn) && LateSend(w.conn, op) && KernelRefuses(w.conn, op)
    ensures var c := w.conn;
            Step(cfg, w, op).conn == c.(lateWrites := c.lateWrites + 1) && Accepts(c, op) == []
  {
    assert !Writing(w.conn);
    assert op.msg[..0] == [];
  }

  /** Such a send does happen: it was queued while the connection was up, and runs after a shutdown
      with nothing buffered. */
  lemma LateSendHappens<C>(me: C, fd: int, cfg: Config, msg: seq<Byte>)
    ensures var w := World(me, fd, EmptyPoller(), FRESH);
            var ops := [Establish, Shutdown, QueuedSend(msg, WriteFailed(EPipe))];
            && Inv(w) && AllEnabled(cfg, w, ops) && KernelObeys(cfg, w, ops)
            && Run(cfg, w, ops).conn.lateWrites == 1
  {
    var w := World(me, fd, EmptyPoller(), FRESH);
    var late: Op := QueuedSend(msg, WriteFailed(EPipe));
    var w1 := Step(cfg, w, Establish);
    var w2 := Step(cfg, w1, Shutdown);
    StepKeepsInv(cfg, w, Establish);
    StepKeepsInv(cfg, w1, Shutdown);
    assert w2.conn.shutWrs == 1 && w2.conn.out == [] && w2.conn.state.Disconnecting?;
    LateSendIsDropped(cfg, w2, late);
    var w3 := Step(cfg, w2, late);
    assert Run(cfg, w3, []) == w3 && AllEnabled(cfg, w3, []) && KernelObeys(cfg, w3, []);
    assert [late][1..] == [];
    assert Run(cfg, w2, [late]) == w3 && AllEnabled(cfg, w2, [late]) && KernelObeys(cfg, w2, [late]);
    assert [Shutdown, late][1..] == [late];
    assert Run(cfg, w1, [Shutdown, late]) == w3;
    assert AllEnabled(cfg, w1, [Shutdown, late]) && KernelObeys(cfg, w1, [Shutdown, late]);
    assert [Establish, Shutdown, late][1..] == [Shutdown, late];
  }

  /** How many steps are a writable event whose `write` took at least one byte. */
  function Productive(ops: seq<Op>): nat {
    if ops == [] then 0
    else (if ops[0].Writable? && ops[0].kernel.Wrote? && ops[0].kernel.n > 0 then 1 else 0) + Productive(ops[1..])
  }

  /** The bytes of the queued foreign sends still to run. */
  function QueuedBytes(ops: seq<Op>): nat {
    if ops == [] then 0 else (if ops[0].QueuedSend? then |ops[0].msg| else 0) + QueuedBytes(ops[1..])
  }

  /** What is left to do before SHUT_WR: the bytes buffered and those queued sends may still add. */
  function LeftToSend(c: Conn, ops: seq<Op>): nat { if c.shutWrs > 0 then 0 else |c.out| + QueuedBytes(ops) }

  lemma StepShrinksWhatIsLeft<C>(cfg: Config, w: World<C>, ops: seq<Op>)
    requires Inv(w) && w.conn.state.Disconnecting? && ops != [] && HalfCloseOk(w.conn)
    requires !ops[0].Close? && !ops[0].Destroy? && !ops[0].Establish? && KernelRefuses(w.conn, ops[0])
    ensures var u := Step(cfg, w, ops[0]);
            && u.conn.state.Disconnecting?
            && LeftToSend(u.conn, ops[1..]) <= LeftToSend(w.conn, ops)
            && (Productive(ops) > Productive(ops[1..]) && w.conn.shutWrs == 0 ==>
                  LeftToSend(u.conn, ops[1..]) < LeftToSend(w.conn, ops))
            && Productive(ops) <= Productive(ops[1..]) + 1
            && (LeftToSend(w.conn, ops) == 0 ==> w.conn.shutWrs == 1)
  {
    assert Writing(w.conn) <==> w.conn.out != [];
  }

  lemma {:induction false} DisconnectingCompletes<C>(cfg: Config, w: World<C>, ops: seq<Op>)
    requires Inv(w) && w.conn.state.Disconnecting? && HalfCloseOk(w.conn) && KernelObeys(cfg, w, ops)
    requires forall i :: 0 <= i < |ops| ==> !ops[i].Close? && !ops[i].Destroy? && !ops[i].Establish?
    requires Productive(ops) >= LeftToSend(w.conn, ops)
    ensures var v := Run(cfg, w, ops);
            && v.conn.state.Disconnecting? && v.conn.shutWrs == 1
            && v.conn.out == [] && v.conn.sent == w.conn.sent + w.conn.out + Accepted(cfg, w, ops)
    decreases |ops|
  {
    if ops != [] {
      var u := Step(cfg, w, ops[0]);
      StepKeepsInv(cfg, w, ops[0]);
      StepHalfCloses(cfg, w, ops[0]);
      StepShrinksWhatIsLeft(cfg, w, ops);
      DisconnectingCompletes(cfg, u, ops[1..]);
      StepConservesOutput(cfg, w, ops[0]);
      Sequences.Associate(w.conn.sent + w.conn.out, Accepts(w.conn, ops[0]), Accepted(cfg, u, ops[1..]));
    }
  }

  /** Half-close completes: from the call of `shutdown` on a connection that is up, whatever is buffered,
      and until a close, as many productive writable events as there are bytes buffered or still to
      come from queued foreign sends are enough to send every accepted byte and issue SHUT_WR, whatever
      the user code and the peer do in between. */
  lemma ShutdownCompletes<C>(cfg: Config, w: World<C>, ops: seq<Op>)
    requires Inv(w) && w.conn.state.Connected? && KernelObeys(cfg, w, ops)
    requires ops != [] && ops[0] == Shutdown
    requires forall i :: 0 <= i < |ops| ==> !ops[i].Close? && !ops[i].Destroy? && !ops[i].Establish?
    requires Productive(ops) >= |w.conn.out| + QueuedBytes(ops)
    ensures var v := Run(cfg, w, ops);
            && v.conn.state.Disconnecting? && v.conn.shutWrs == 1
            && v.conn.out == [] && v.conn.sent == w.conn.sent + w.conn.out + Accepted(cfg, w, ops)
  {
    assert Writing(w.conn) <==> w.conn.out != [];
    StepKeepsInv(cfg, w, Shutdown);
    DisconnectingCompletes(cfg, Step(cfg, w, Shutdown), ops[1..]);
    assert [] + Accepted(cfg, Step(cfg, w, Shutdown), ops[1..]) == Accepted(cfg, Step(cfg, w, Shutdown), ops[1..]);
  }

  // ---------------------------------------------------------------------------------------------
  // Notifications.

  /** Does this step make a `write` that succeeds? */
  predicate WriteSucceeds(c: Conn, op: Op) {
    match op
    case Send(_, k) => c.state.Connected? && c.out == [] && k.Wrote?
    case QueuedSend(_, k) => Live(c) && c.out == [] && k.Wrote?
    case Writable(k) => Live(c) && c.out != [] && k.Wrote? && k.n > 0
    case Establish => false
    case Shutdown => false
    case Consume(_) => false
    case Readable(_) => false
    case Close => false
    case Destroy => false
  }

  /** A successful `write` that leaves nothing accepted unsent: a full drain, or a message taken
      whole by a direct write. */
  predicate Completes<C>(cfg: Config, w: World<C>, op: Op) {
    WriteSucceeds(w.conn, op) && Step(cfg, w, op).conn.out == []
  }

  predicate CrossesUp<C>(cfg: Config, w: World<C>, op: Op) {
    |w.conn.out| < cfg.mark <= |Step(cfg, w, op).conn.out|
  }

  predicate CrossesDown<C>(cfg: Config, w: World<C>, op: Op) {
    |Step(cfg, w, op).conn.out| < cfg.mark <= |w.conn.out|
  }

  function CrossingNotes(cfg: Config, before: nat, after: nat): seq<Note> {
    if before < cfg.mark <= after && cfg.highWater then [HighWater(after)] else []
  }

  lemma EnqueueNotes<C>(cfg: Config, w: World<C>, rest: seq<Byte>)
    ensures var v := Enqueue(cfg, w, rest);
            && v.conn.outbox == w.conn.outbox + CrossingNotes(cfg, |w.conn.out|, |v.conn.out|)
            && v.conn.out == w.conn.out + rest
  {
  }

  lemma DirectNotes<C>(cfg: Config, w: World<C>, msg: seq<Byte>, k: WriteOutcome)
    requires w.conn.out == [] && Live(w.conn) && !Writing(w.conn)
    ensures var v := SendInLoop(cfg, w, msg, k).conn;
            v.outbox == w.conn.outbox + (if k.Wrote? && v.out == [] && cfg.writeComplete then [WriteComplete]
                                         else CrossingNotes(cfg, 0, |v.out|))
  {
    var d := DirectWrite(cfg, w, msg, k);
    EnqueueNotes(cfg, d, msg[k.Taken(|msg|)..]);
    hide Enqueue;
    assert w.conn.outbox + [] == w.conn.outbox && d.conn.outbox + [] == d.conn.outbox;
  }

  lemma SendNotes<C>(cfg: Config, w: World<C>, msg: seq<Byte>, k: WriteOutcome)
    requires Inv(w) && Live(w.conn)
    ensures var c, v := w.conn, SendInLoop(cfg, w, msg, k).conn;
            v.outbox == c.outbox + (if c.out == [] && k.Wrote? && v.out == [] && cfg.writeComplete then [WriteComplete]
                                    else CrossingNotes(cfg, |c.out|, |v.out|))
  {
    var c := w.conn;
    assert Writing(c) <==> c.out != [];
    hide Inv, Enqueue, DirectWrite, CrossingNotes;
    if c.out != [] {
      EnqueueNotes(cfg, w, msg);
    } else {
      DirectNotes(cfg, w, msg, k);
    }
  }

  /** Exactly which notes a step queues: write-complete iff a successful write leaves nothing accepted
      unsent; high-water iff the buffered length crosses the mark upwards, with the new length; a
      close request iff the handler closes. */
  lemma NotesOfStep<C>(cfg: Config, w: World<C>, op: Op)
    requires Inv(w) && Enabled(w.conn, op)
    ensures Step(cfg, w, op).conn.outbox == w.conn.outbox +
              (if Completes(cfg, w, op) && cfg.writeComplete then [WriteComplete]
               else if CrossesUp(cfg, w, op) && cfg.highWater then [HighWater(|Step(cfg, w, op).conn.out|)]
               else if op.Close? then [CloseRequest] else [])
  {
    var c := w.conn;
    assert Live(c) ==> (Writing(c) <==> c.out != []);
    assert c.state.Disconnected? || c.state.Connecting? ==> !Writing(c);
    match op {
      case Send(msg, k) => if c.state.Connected? { SendNotes(cfg, w, msg, k); hide SendInLoop; }
      case QueuedSend(msg, k) => if Live(c) { SendNotes(cfg, w, msg, k); hide SendInLoop; }
      case Writable(_) =>
      case Establish =>
      case Shutdown =>
      case Consume(_) =>
      case Readable(_) =>
      case Close =>
      case Destroy =>
    }
  }

  function CountHighWater(ns: seq<Note>): nat {
    if ns == [] then 0 else (if ns[0].HighWater? then 1 else 0) + CountHighWater(ns[1..])
  }

  function CountWriteComplete(ns: seq<Note>): nat {
    if ns == [] then 0 else (if ns[0].WriteComplete? then 1 else 0) + CountWriteComplete(ns[1..])
  }

  lemma {:induction false} CountsAppend(ns: seq<Note>, ms: seq<Note>)
    requires |ms| <= 1
    ensures CountHighWater(ns + ms) == CountHighWater(ns) + CountHighWater(ms)
    ensures CountWriteComplete(ns + ms) == CountWriteComplete(ns) + CountWriteComplete(ms)
    decreases |ns|
  {
    if ns == [] {
      assert ns + ms == ms;
    } else {
      assert (ns + ms)[1..] == ns[1..] + ms;
      CountsAppend(ns[1..], ms);
    }
  }

  function UpCrossings<C>(cfg: Config, w: World<C>, ops: seq<Op>): nat
    decreases |ops|
  {
    if ops == [] then 0
    else (if CrossesUp(cfg, w, ops[0]) then 1 else 0) + UpCrossings(cfg, Step(cfg, w, ops[0]), ops[1..])
  }

  function DownCrossings<C>(cfg: Config, w: World<C>, ops: seq<Op>): nat
    decreases |ops|
  {
    if ops == [] then 0
    else (if CrossesDown(cfg, w, ops[0]) then 1 else 0) + DownCrossings(cfg, Step(cfg, w, ops[0]), ops[1..])
  }

  function Completions<C>(cfg: Config, w: World<C>, ops: seq<Op>): nat
    decreases |ops|
  {
    if ops == [] then 0
    else (if Completes(cfg, w, ops[0]) then 1 else 0) + Completions(cfg, Step(cfg, w, ops[0]), ops[1..])
  }

  function Above(cfg: Config, c: Conn): nat { if |c.out| >= cfg.mark then 1 else 0 }

  /** High-water callbacks are exactly the upward crossings of the mark: one at each, and none
      elsewhere (`NotesOfStep` gives the length each carries). Crossings of any length alternate, as
      the second equation counts: before the next callback the length has dropped below the mark. */
  lemma {:induction false} HighWaterAlternates<C>(cfg: Config, w: World<C>, ops: seq<Op>)
    requires Inv(w) && AllEnabled(cfg, w, ops) && cfg.highWater
    ensures var v := Run(cfg, w, ops);
            && CountHighWater(v.conn.outbox) == CountHighWater(w.conn.outbox) + UpCrossings(cfg, w, ops)
            && UpCrossings(cfg, w, ops) + Above(cfg, w.conn) == DownCrossings(cfg, w, ops) + Above(cfg, v.conn)
    decreases |ops|
  {
    if ops != [] {
      var u := Step(cfg, w, ops[0]);
      StepKeepsInv(cfg, w, ops[0]);
      NotesOfStep(cfg, w, ops[0]);
      CountsAppend(w.conn.outbox, u.conn.outbox[|w.conn.outbox|..]);
      assert u.conn.outbox == w.conn.outbox + u.conn.outbox[|w.conn.outbox|..];
      HighWaterAlternates(cfg, u, ops[1..]);
    }
  }

  /** With the callback installed there is exactly one write-complete per full drain and per message
      taken whole, and each is queued with every accepted byte already given to the kernel. */
  lemma {:induction false} WriteCompleteCounts<C>(cfg: Config, w: World<C>, ops: seq<Op>)
    requires Inv(w) && AllEnabled(cfg, w, ops) && cfg.writeComplete
    ensures CountWriteComplete(Run(cfg, w, ops).conn.outbox)
         == CountWriteComplete(w.conn.outbox) + Completions(cfg, w, ops)
    decreases |ops|
  {
    if ops != [] {
      var u := Step(cfg, w, ops[0]);
      StepKeepsInv(cfg, w, ops[0]);
      NotesOfStep(cfg, w, ops[0]);
      CountsAppend(w.conn.outbox, u.conn.outbox[|w.conn.outbox|..]);
      assert u.conn.outbox == w.conn.outbox + u.conn.outbox[|w.conn.outbox|..];
      WriteCompleteCounts(cfg, u, ops[1..]);
    }
  }

  lemma WriteCompleteMeansAllSent<C>(cfg: Config, w: World<C>, ops: seq<Op>, op: Op)
    requires Inv(w) && AllEnabled(cfg, w, ops) && Enabled(Run(cfg, w, ops).conn, op)
    requires var u := Run(cfg, w, ops);
             CountWriteComplete(Step(cfg, u, op).conn.outbox) > CountWriteComplete(u.conn.outbox)
    ensures Step(cfg, Run(cfg, w, ops), op).conn.sent
         == w.conn.sent + w.conn.out + Accepted(cfg, w, ops) + Accepts(Run(cfg, w, ops).conn, op)
  {
    RunKeepsInv(cfg, w, ops);
    OutputIsConserved(cfg, w, ops);
    var u := Run(cfg, w, ops);
    var v := Step(cfg, u, op);
    NotesOfStep(cfg, u, op);
    StepConservesOutput(cfg, u, op);
    CountsAppend(u.conn.outbox, v.conn.outbox[|u.conn.outbox|..]);
    assert v.conn.outbox == u.conn.outbox + v.conn.outbox[|u.conn.outbox|..];
  }

  // ---------------------------------------------------------------------------------------------
  // Lifecycle of one connection.

  function Rank(s: ConnState): nat {
    match s
    case Connecting => 0
    case Connected => 1
    case Disconnecting => 2
    case Disconnected => 3
  }

  /** The state never goes back; the up callback comes once, before any down callback; a connection
      that was never up has had no callback at all. */
  lemma {:induction false} StatesGoForward<C>(cfg: Config, w: World<C>, ops: seq<Op>)
    requires Inv(w) && AllEnabled(cfg, w, ops)
    ensures var v := Run(cfg, w, ops);
            && Rank(w.conn.state) <= Rank(v.conn.state)
            && v.conn.ups == (if v.conn.state.Connecting? then 0 else 1)
            && (v.conn.downs > 0 <==> v.conn.state.Disconnected?)
            && w.conn.downs <= v.conn.downs && w.conn.destroyed <= v.conn.destroyed <= v.conn.downs
    decreases |ops|
  {
    if ops != [] {
      StepKeepsInv(cfg, w, ops[0]);
      StatesGoForward(cfg, Step(cfg, w, ops[0]), ops[1..]);
    }
  }

  /** A hang-up with urgent data but no input, whose read then finds end of file: `handleClose` is
      entered once by the hang-up and once by the read. */
  predicate ClosesTwice(revents: Mask, env: Env) {
    Hup in revents && In !in revents && Pri in revents && EndOfFile(env.read)
  }

  lemma {:induction false} UserOpsKeepQuiet<C>(cfg: Config, w: World<C>, calls: seq<UserOp>)
    requires Inv(w)
    ensures AllEnabled(cfg, w, calls) && Inv(Run(cfg, w, calls))
    ensures var v := Run(cfg, w, calls);
            && v.conn.downs == w.conn.downs && v.conn.ups == w.conn.ups && v.conn.destroyed == w.conn.destroyed
            && (v.conn.state.Disconnected? <==> w.conn.state.Disconnected?)
            && (w.conn.state.Disconnected? ==> v.conn == w.conn.(input := v.conn.input) && v.poller == w.poller)
    decreases |calls|
  {
    if calls != [] {
      StepKeepsInv(cfg, w, calls[0]);
      UserOpsKeepQuiet(cfg, Step(cfg, w, calls[0]), calls[1..]);
    }
  }

  lemma {:induction false} RunThen<C>(cfg: Config, w: World<C>, a: seq<Op>, b: seq<Op>)
    requires AllEnabled(cfg, w, a) && AllEnabled(cfg, Run(cfg, w, a), b)
    ensures AllEnabled(cfg, w, a + b) && Run(cfg, w, a + b) == Run(cfg, Run(cfg, w, a), b)
    decreases |a|
  {
    if a == [] {
      assert a + b == b;
    } else {
      assert (a + b)[1..] == a[1..] + b;
      RunThen(cfg, Step(cfg, w, a[0]), a[1..], b);
    }
  }

  lemma {:induction false} RunSplits<C>(cfg: Config, w: World<C>, a: seq<Op>, b: seq<Op>)
    requires AllEnabled(cfg, w, a + b)
    ensures AllEnabled(cfg, w, a) && AllEnabled(cfg, Run(cfg, w, a), b)
    ensures Run(cfg, w, a + b) == Run(cfg, Run(cfg, w, a), b)
    decreases |a|
  {
    if a == [] {
      assert a + b == b;
    } else {
      assert (a + b)[1..] == a[1..] + b;
      RunSplits(cfg, Step(cfg, w, a[0]), a[1..], b);
    }
  }

  /** Between `connectEstablished` and `connectDestroyed`. */
  ghost predicate Open<C>(w: World<C>) { Inv(w) && w.conn.ups == 1 && w.conn.destroyed == 0 }

  lemma CloseThenCalls<C>(cfg: Config, w: World<C>, calls: seq<UserOp>)
    requires Open(w)
    ensures AllEnabled(cfg, w, [Close] + calls)
    ensures var v := Run(cfg, w, [Close] + calls); Open(v) && v.conn.downs == w.conn.downs + 1
  {
    assert ([Close] + calls)[1..] == calls;
    StepKeepsInv(cfg, w, Close);
    UserOpsKeepQuiet(cfg, Step(cfg, w, Close), calls);
  }

  lemma ReadThenCalls<C>(cfg: Config, w: World<C>, read: ReadOutcome, calls: seq<UserOp>)
    requires Open(w)
    ensures AllEnabled(cfg, w, ReadOps(read, calls))
    ensures var v := Run(cfg, w, ReadOps(read, calls));
            Open(v) && v.conn.downs == w.conn.downs + (if EndOfFile(read) then 1 else 0)
  {
    if EndOfFile(read) {
      CloseThenCalls(cfg, w, calls);
    } else if read.Delivered? {
      var op := Readable(read.bytes);
      assert ([op] + calls)[1..] == calls;
      StepKeepsInv(cfg, w, op);
      UserOpsKeepQuiet(cfg, Step(cfg, w, op), calls);
    }
  }

  function Closes(revents: Mask, env: Env): nat {
    (if Hup in revents && In !in revents then 1 else 0)
    + (if revents * READ_EVENT != {} && EndOfFile(env.read) then 1 else 0)
  }

  /** One dispatched event, in the order close, read, write, is a run of enabled steps; the down
      callback runs as often as the event closes, and twice exactly in the case `ClosesTwice`. */
  lemma EventIsARun<C>(cfg: Config, w: World<C>, revents: Mask, env: Env)
    requires Open(w)
    ensures AllEnabled(cfg, w, EventOps(revents, env))
    ensures var v := Run(cfg, w, EventOps(revents, env));
            Open(v) && v.conn.downs == w.conn.downs + Closes(revents, env)
    ensures Closes(revents, env) <= 2 && (Closes(revents, env) == 2 <==> ClosesTwice(revents, env))
  {
    var h, r := HangUpOps(revents, env.closeCalls),
                if revents * READ_EVENT != {} then ReadOps(env.read, env.readCalls) else [];
    var o := if Out in revents then [Writable(env.write)] else [];
    if h != [] {
      CloseThenCalls(cfg, w, env.closeCalls);
    }
    var w1 := Run(cfg, w, h);
    if revents * READ_EVENT != {} {
      ReadThenCalls(cfg, w1, env.read, env.readCalls);
    }
    RunThen(cfg, w, h, r);
    if o != [] {
      OneWrite(cfg, Run(cfg, w1, r), env.write);
    }
    RunThen(cfg, w, h + r, o);
    CountClosings(revents, env);
  }

  lemma OneWrite<C>(cfg: Config, w: World<C>, k: WriteOutcome)
    requires Open(w)
    ensures AllEnabled(cfg, w, [Writable(k)])
    ensures var v := Run(cfg, w, [Writable(k)]); Open(v) && v.conn.downs == w.conn.downs
  {
    var op: Op := Writable(k);
    StepKeepsInv(cfg, w, op);
    assert [op][1..] == [];
    assert Run(cfg, w, [op]) == Step(cfg, w, op);
  }

  lemma CountClosings(revents: Mask, env: Env)
    ensures Closes(revents, env) == 2 <==> ClosesTwice(revents, env)
  {
    ReadEvents(revents);
  }

  lemma ReadEvents(revents: Mask)
    ensures revents * READ_EVENT != {} <==> In in revents || Pri in revents
  {
    if revents * READ_EVENT != {} {
      var e :| e in revents * READ_EVENT;
    }
    if In in revents { assert In in revents * READ_EVENT; }
    if Pri in revents { assert Pri in revents * READ_EVENT; }
  }

  /** A closed connection gives nothing to the kernel and buffers nothing, whatever is dispatched. */
  lemma {:induction false} ClosedSendsNothing<C>(cfg: Config, w: World<C>, ops: seq<Op>)
    requires Inv(w) && AllEnabled(cfg, w, ops) && w.conn.state.Disconnected?
    ensures var v := Run(cfg, w, ops);
            v.conn.state.Disconnected? && v.conn.sent == w.conn.sent && v.conn.out == w.conn.out
    decreases |ops|
  {
    if ops != [] {
      StepKeepsInv(cfg, w, ops[0]);
      assert !Writing(w.conn);
      ClosedSendsNothing(cfg, Step(cfg, w, ops[0]), ops[1..]);
    }
  }

  /** Close is dispatched before write: an event that closes the connection, by hang-up or by end of
      file, gives nothing to the kernel, even if it also reports the descriptor writable. */
  lemma ClosingEventSendsNothing<C>(cfg: Config, w: World<C>, revents: Mask, env: Env)
    requires Open(w) && Closes(revents, env) > 0
    ensures var v := Run(cfg, w, EventOps(revents, env)); v.conn.sent == w.conn.sent && v.conn.out == w.conn.out
  {
    EventIsARun(cfg, w, revents, env);
    var ops := EventOps(revents, env);
    assert ops != [] && ops[0] == Close by {
      ClosingOpsStartWithClose(revents, env);
    }
    hide EventOps;
    StepKeepsInv(cfg, w, Close);
    ClosedSendsNothing(cfg, Step(cfg, w, Close), ops[1..]);
  }

  lemma ClosingOpsStartWithClose(revents: Mask, env: Env)
    requires Closes(revents, env) > 0
    ensures EventOps(revents, env) != [] && EventOps(revents, env)[0] == Close
  {
    if Hup in revents && In !in revents {
      assert HangUpOps(revents, env.closeCalls)[0] == Close;
    } else {
      assert HangUpOps(revents, env.closeCalls) == [] && ReadOps(env.read, env.readCalls)[0] == Close;
    }
  }

  datatype Turn = Turn(revents: Mask, env: Env)

  function RunTurns<C>(cfg: Config, w: World<C>, turns: seq<Turn>): World<C>
    decreases |turns|
  {
    if turns == [] then w
    else RunTurns(cfg, Run(cfg, w, EventOps(turns[0].revents, turns[0].env)), turns[1..])
  }

  /** Events reach a connection only while the kernel watches its descriptor, with the events asked
      for or an error or hang-up. */
  ghost predicate KernelReports<C>(cfg: Config, w: World<C>, turns: seq<Turn>)
    decreases |turns|
  {
    turns == [] ||
    (&& InKernel(w.poller, w.me, w.fd) && turns[0].revents <= w.poller.kernel[w.fd].mask + {Err, Hup}
     && KernelReports(cfg, Run(cfg, w, EventOps(turns[0].revents, turns[0].env)), turns[1..]))
  }

  /** Over a connection's life the down callback runs at most once exactly when no event is of the
      kind `ClosesTwice`. */
  lemma {:induction false} DownAtMostOnce<C>(cfg: Config, w: World<C>, turns: seq<Turn>)
    requires Open(w) && w.conn.downs <= 1
    requires KernelReports(cfg, w, turns)
    ensures RunTurns(cfg, w, turns).conn.downs <= 1 <==>
              forall i :: 0 <= i < |turns| ==> !ClosesTwice(turns[i].revents, turns[i].env)
    decreases |turns|
  {
    if turns != [] {
      var t := turns[0];
      EventIsARun(cfg, w, t.revents, t.env);
      assert w.conn.downs == 0;
      var v := Run(cfg, w, EventOps(t.revents, t.env));
      DownsNeverFall(cfg, v, turns[1..]);
      if v.conn.downs <= 1 {
        DownAtMostOnce(cfg, v, turns[1..]);
        assert forall i :: 1 <= i < |turns| ==> turns[i] == turns[1..][i - 1];
      }
    }
  }

  /** Such an event does happen: a connection just established, whose peer hangs up with urgent data
      pending. The second close registers the channel again, with no events. */
  lemma ClosesTwiceHappens<C>(me: C, fd: int, cfg: Config)
    ensures var w := Step(cfg, World(me, fd, EmptyPoller(), FRESH), Establish);
            var turn := Turn({Hup, Pri}, Env([], Delivered([]), [], WriteFailed(EWouldBlock)));
            var v := RunTurns(cfg, w, [turn]);
            && Open(w) && w.conn.downs == 0 && KernelReports(cfg, w, [turn])
            && v.conn.downs == 2 && InKernel(v.poller, me, fd)
  {
    var start := World(me, fd, EmptyPoller(), FRESH);
    var w := Step(cfg, start, Establish);
    var turn := Turn({Hup, Pri}, Env([], Delivered([]), [], WriteFailed(EWouldBlock)));
    StepKeepsInv(cfg, start, Establish);
    EventIsARun(cfg, w, turn.revents, turn.env);
    assert [turn][1..] == [];
    assert Pri in turn.revents * READ_EVENT;
    assert EventOps(turn.revents, turn.env) == [Close, Close];
    assert [Op.Close, Op.Close][1..] == [Close] && [Op.Close][1..] == [];
    var v := Step(cfg, Step(cfg, w, Close), Close);
    assert Run(cfg, Step(cfg, w, Close), [Close]) == Run(cfg, v, []) == v;
    assert Run(cfg, w, [Close, Close]) == v;
  }

  lemma {:induction false} DownsNeverFall<C>(cfg: Config, w: World<C>, turns: seq<Turn>)
    requires Open(w)
    ensures RunTurns(cfg, w, turns).conn.downs >= w.conn.downs
    decreases |turns|
  {
    if turns != [] {
      EventIsARun(cfg, w, turns[0].revents, turns[0].env);
      DownsNeverFall(cfg, Run(cfg, w, EventOps(turns[0].revents, turns[0].env)), turns[1..]);
    }
  }
}
