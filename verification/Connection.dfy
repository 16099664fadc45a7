/** The connection of src/TcpConnection.cc as a step function: one step is one entry into the
    connection from its loop thread, over the connection and the poller that watches it. */
module Connections {
  import opened Buffers
  import opened Epoll

  datatype ConnState = Connecting | Connected | Disconnecting | Disconnected

  /** What a connection asks of the outside: functors given to `queueInLoop`, and the close callback
      (`TcpServer::removeConnection`). */
  datatype Note = WriteComplete | HighWater(len: nat) | CloseRequest

  /** The mark, and which of the two optional callbacks are installed. */
  datatype Config = Config(mark: nat, highWater: bool, writeComplete: bool)

  /** `sent` is every byte a `write` has taken; `shutWrs` counts SHUT_WR, `lateWrites` the `write`
      calls made after one; `ups`, `downs` and `destroyed` count connection-up callbacks,
      connection-down callbacks and runs of `connectDestroyed`. */
  datatype Conn = Conn(
    state: ConnState, reg: Registration, input: seq<Byte>, out: seq<Byte>, sent: seq<Byte>,
    shutWrs: nat, lateWrites: nat, ups: nat, downs: nat, destroyed: nat, outbox: seq<Note>)

  const FRESH := Conn(Connecting, UNREGISTERED, [], [], [], 0, 0, 0, 0, 0, [])

  datatype World<C> = World(me: C, fd: int, poller: Poller<C>, conn: Conn)

  predicate Writing(c: Conn) { c.reg.events * WRITE_EVENT != {} }

  datatype Op =
    | Establish
    | Send(msg: seq<Byte>, kernel: WriteOutcome)
    | QueuedSend(msg: seq<Byte>, kernel: WriteOutcome) // sendInLoop run as a functor a foreign send queued
    | Shutdown
    | Consume(n: nat)
    | Readable(bytes: seq<Byte>)
    | Writable(kernel: WriteOutcome)
    | Close
    | Destroy

  /** What user code does from inside a callback. */
  type UserOp = op: Op | op.Send? || op.Shutdown? || op.Consume? witness Shutdown

  // ---------------------------------------------------------------------------------------------
  // The step function.

  function SetEvents<C>(w: World<C>, events: Mask): World<C> {
    w.(poller := UpdateChannel(w.poller, w.me, w.fd, w.conn.reg.index, events),
       conn := w.conn.(reg := Registration(events, NextIndex(w.conn.reg.index, events))))
  }

  function Late(c: Conn): nat { if c.shutWrs > 0 then 1 else 0 }

  predicate Refused(k: WriteOutcome) { k.WriteFailed? && (k.errno.EPipe? || k.errno.EConnReset?) }

  /** The tail of `sendInLoop`: buffer what the direct write left. */
  function Enqueue<C>(cfg: Config, w: World<C>, rest: seq<Byte>): World<C> {
    if rest == [] then w
    else
      var c := w.conn;
      var total := |c.out| + |rest|;
      var crossed := total >= cfg.mark && |c.out| < cfg.mark && cfg.highWater;
      var v := w.(conn := c.(outbox := c.outbox + (if crossed then [HighWater(total)] else []),
                             out := c.out + rest));
      if Writing(c) then v else SetEvents(v, c.reg.events + WRITE_EVENT)
  }

  /** The head of `sendInLoop`: a `write` straight from the message. */
  function DirectWrite<C>(cfg: Config, w: World<C>, msg: seq<Byte>, k: WriteOutcome): World<C> {
    var c, n := w.conn, k.Taken(|msg|);
    var done := k.Wrote? && n == |msg| && cfg.writeComplete;
    w.(conn := c.(sent := c.sent + msg[..n], lateWrites := c.lateWrites + Late(c),
                  outbox := c.outbox + if done then [WriteComplete] else []))
  }

  function SendInLoop<C>(cfg: Config, w: World<C>, msg: seq<Byte>, k: WriteOutcome): World<C> {
    var c := w.conn;
    if c.state.Disconnected? then w
    else if Writing(c) || c.out != [] then Enqueue(cfg, w, msg)
    else
      var v := DirectWrite(cfg, w, msg, k);
      if Refused(k) then v else Enqueue(cfg, v, msg[k.Taken(|msg|)..])
  }

  function ShutdownInLoop<C>(w: World<C>): World<C> {
    if Writing(w.conn) then w else w.(conn := w.conn.(shutWrs := w.conn.shutWrs + 1))
  }

  /** The branch of `handleWrite` for an emptied buffer. */
  function Drained<C>(cfg: Config, w: World<C>): World<C> {
    var d := SetEvents(w, w.conn.reg.events - WRITE_EVENT);
    var e := d.(conn := d.conn.(outbox := d.conn.outbox + if cfg.writeComplete then [WriteComplete] else []));
    if e.conn.state.Disconnecting? then ShutdownInLoop(e) else e
  }

  function HandleWrite<C>(cfg: Config, w: World<C>, k: WriteOutcome): World<C> {
    var c := w.conn;
    if !Writing(c) then w
    else
      var n := k.Taken(|c.out|);
      var v := w.(conn := c.(sent := c.sent + c.out[..n], out := c.out[n..], lateWrites := c.lateWrites + Late(c)));
      if n > 0 && v.conn.out == [] then Drained(cfg, v) else v
  }

  function HandleClose<C>(w: World<C>): World<C> {
    var v := SetEvents(w.(conn := w.conn.(state := Disconnected)), {});
    v.(conn := v.conn.(downs := v.conn.downs + 1, outbox := v.conn.outbox + [CloseRequest]))
  }

  function ConnectEstablished<C>(w: World<C>): World<C> {
    var v := SetEvents(w.(conn := w.conn.(state := Connected)), w.conn.reg.events + READ_EVENT);
    v.(conn := v.conn.(ups := v.conn.ups + 1))
  }

  function ConnectDestroyed<C>(w: World<C>): World<C> {
    var v := if w.conn.state.Connected? then
               var u := SetEvents(w.(conn := w.conn.(state := Disconnected)), {});
               u.(conn := u.conn.(downs := u.conn.downs + 1))
             else w;
    v.(poller := RemoveChannel(v.poller, v.me, v.fd, v.conn.reg),
       conn := v.conn.(reg := v.conn.reg.(index := New), destroyed := v.conn.destroyed + 1))
  }

  function Step<C>(cfg: Config, w: World<C>, op: Op): World<C> {
    match op
    case Establish => ConnectEstablished(w)
    case Send(msg, k) => if w.conn.state.Connected? then SendInLoop(cfg, w, msg, k) else w
    case QueuedSend(msg, k) => SendInLoop(cfg, w, msg, k)
    case Shutdown =>
      if w.conn.state.Connected? then ShutdownInLoop(w.(conn := w.conn.(state := Disconnecting))) else w
    case Consume(n) => w.(conn := w.conn.(input := w.conn.input[Min(n, |w.conn.input|)..]))
    case Readable(bytes) => w.(conn := w.conn.(input := w.conn.input + bytes))
    case Writable(k) => HandleWrite(cfg, w, k)
    case Close => HandleClose(w)
    case Destroy => ConnectDestroyed(w)
  }

  function Run<C>(cfg: Config, w: World<C>, ops: seq<Op>): World<C>
    decreases |ops|
  {
    if ops == [] then w else Run(cfg, Step(cfg, w, ops[0]), ops[1..])
  }

  lemma {:induction false} RunConcat<C>(cfg: Config, w: World<C>, a: seq<Op>, b: seq<Op>)
    ensures Run(cfg, w, a + b) == Run(cfg, Run(cfg, w, a), b)
    decreases |a|
  {
    if a == [] {
      assert a + b == b;
    } else {
      assert (a + b)[1..] == a[1..] + b;
      RunConcat(cfg, Step(cfg, w, a[0]), a[1..], b);
    }
  }

  // ---------------------------------------------------------------------------------------------
  // Event dispatch: Channel::handleEventWithGuard over the callbacks of the connection.

  /** What the kernel and the user code do during one dispatched event. */
  datatype Env = Env(closeCalls: seq<UserOp>, read: ReadOutcome, readCalls: seq<UserOp>, write: WriteOutcome)

  predicate EndOfFile(r: ReadOutcome) { r.Delivered? && r.bytes == [] }

  function ReadOps(read: ReadOutcome, calls: seq<UserOp>): seq<Op> {
    if read.ReadFailed? then []
    else if read.bytes == [] then [Close] + calls
    else [Readable(read.bytes)] + calls
  }

  function HangUpOps(revents: Mask, calls: seq<UserOp>): seq<Op> {
    if Hup in revents && In !in revents then [Close] + calls else []
  }

  /** Close, then read, then write; the error callback only logs. */
  function EventOps(revents: Mask, env: Env): seq<Op> {
    HangUpOps(revents, env.closeCalls)
    + (if revents * READ_EVENT != {} then ReadOps(env.read, env.readCalls) else [])
    + (if Out in revents then [Writable(env.write)] else [])
  }

  // ---------------------------------------------------------------------------------------------
  // The invariant.

  /** `connectDestroyed` has not yet answered every close request. */
  predicate Unfinished(c: Conn) { c.downs == 0 || c.destroyed < c.downs }

  predicate Live(c: Conn) { c.state.Connected? || c.state.Disconnecting? }

  ghost predicate ConnOk(c: Conn) {
    && (c.state.Connecting? ==> c == FRESH)
    && (!c.state.Connecting? ==> c.ups == 1)
    && (Live(c) ==> c.reg == Registration(if c.out == [] then READ_EVENT else READ_EVENT + WRITE_EVENT, Added))
    && (Live(c) ==> c.downs == 0 && c.destroyed == 0)
    && (c.state.Disconnected? ==> c.downs > 0 && c.reg.events == {} && c.destroyed <= c.downs)
    && (c.state.Disconnected? ==> (c.reg.index.New? <==> c.destroyed > 0))
    && (c.state.Disconnected? && c.downs == 1 ==> !c.reg.index.Added?)
    && (c.state.Connected? ==> c.shutWrs == 0)
    && (c.state.Disconnecting? && c.out == [] ==> c.shutWrs > 0)
    && (c.lateWrites == 0 ==> c.shutWrs <= 1 && (c.shutWrs == 1 ==> c.out == []))
  }

  ghost predicate Inv<C>(w: World<C>) {
    && ConnOk(w.conn)
    && Agrees(w.poller, w.me, w.fd, w.conn.reg)
    && (Unfinished(w.conn) ==> Exclusive(w.poller, w.me, w.fd))
  }

  /** When a step may happen: `connectEstablished` runs once, handlers run between it and
      `connectDestroyed`, a foreign send was checked against kConnected before it was queued, and
      each `connectDestroyed` answers a close request (the server is not being torn down). */
  predicate Enabled(c: Conn, op: Op) {
    match op
    case Establish => c.state.Connecting?
    case QueuedSend(_, _) => !c.state.Connecting?
    case Readable(_) => c.ups == 1 && c.destroyed == 0
    case Writable(_) => c.ups == 1 && c.destroyed == 0
    case Close => c.ups == 1 && c.destroyed == 0
    case Destroy => c.destroyed < c.downs
    case Send(_, _) => true
    case Shutdown => true
    case Consume(_) => true
  }

  ghost predicate AllEnabled<C>(cfg: Config, w: World<C>, ops: seq<Op>)
    decreases |ops|
  {
    ops == [] || (Enabled(w.conn, ops[0]) && AllEnabled(cfg, Step(cfg, w, ops[0]), ops[1..]))
  }

  lemma SetEventsKeepsAgreement<C>(w: World<C>, events: Mask)
    requires Agrees(w.poller, w.me, w.fd, w.conn.reg) && Exclusive(w.poller, w.me, w.fd)
    ensures var v := SetEvents(w, events);
            && Agrees(v.poller, v.me, v.fd, v.conn.reg) && Exclusive(v.poller, v.me, v.fd)
            && SameElsewhere(w.poller, v.poller, w.fd) && v.poller.failed == w.poller.failed
  {
    UpdateKeepsAgreement(w.poller, w.me, w.fd, w.conn.reg, events);
  }

  /** The invariant is kept, no other descriptor of the poller is touched, and no epoll_ctl was
      refused. */
  ghost predicate Keeps<C>(w: World<C>, v: World<C>) {
    && Inv(v) && v.me == w.me && v.fd == w.fd
    && SameElsewhere(w.poller, v.poller, w.fd) && v.poller.failed == w.poller.failed
    && (Exclusive(w.poller, w.me, w.fd) ==> Exclusive(v.poller, w.me, w.fd))
  }

  /** One step keeps the invariant, touches no other descriptor of the poller, and no epoll_ctl it
      makes is refused. */
  lemma StepKeepsInv<C>(cfg: Config, w: World<C>, op: Op)
    requires Inv(w) && Enabled(w.conn, op)
    ensures Keeps(w, Step(cfg, w, op))
  {
    var c := w.conn;
    match op {
      case Establish => SetEventsKeepsAgreement(w.(conn := c.(state := Connected)), c.reg.events + READ_EVENT);
      case Send(msg, k) => if c.state.Connected? { SendKeepsInv(cfg, w, msg, k); }
      case QueuedSend(msg, k) => SendKeepsInv(cfg, w, msg, k);
      case Shutdown =>
      case Consume(n) =>
      case Readable(bytes) =>
      case Writable(k) => WriteKeepsInv(cfg, w, k);
      case Close => SetEventsKeepsAgreement(w.(conn := c.(state := Disconnected)), {});
      case Destroy => RemoveKeepsAgreement(w.poller, w.me, w.fd, c.reg);
    }
  }

  lemma EnqueueKeepsInv<C>(cfg: Config, w: World<C>, rest: seq<Byte>)
    requires Inv(w) && Live(w.conn) && (w.conn.lateWrites == 0 ==> w.conn.shutWrs == 0)
    ensures Keeps(w, Enqueue(cfg, w, rest))
  {
    assert Writing(w.conn) <==> w.conn.out != [];
    SetEventsKeepsAgreement(w, w.conn.reg.events + WRITE_EVENT);
  }

  lemma DirectKeepsInv<C>(cfg: Config, w: World<C>, msg: seq<Byte>, k: WriteOutcome)
    requires Inv(w) && Live(w.conn)
    ensures var v := DirectWrite(cfg, w, msg, k); Keeps(w, v) && Live(v.conn) && v.poller == w.poller
    ensures var v := DirectWrite(cfg, w, msg, k).conn; v.lateWrites == 0 ==> v.shutWrs == 0
  {
  }

  lemma SendKeepsInv<C>(cfg: Config, w: World<C>, msg: seq<Byte>, k: WriteOutcome)
    requires Inv(w) && !w.conn.state.Connecting?
    ensures Keeps(w, SendInLoop(cfg, w, msg, k))
  {
    if Live(w.conn) {
      assert Writing(w.conn) <==> w.conn.out != [];
      if w.conn.out != [] {
        EnqueueKeepsInv(cfg, w, msg);
      } else {
        DirectKeepsInv(cfg, w, msg, k);
        EnqueueKeepsInv(cfg, DirectWrite(cfg, w, msg, k), msg[k.Taken(|msg|)..]);
        hide Inv, Enqueue, DirectWrite;
      }
    }
  }

  lemma WriteKeepsInv<C>(cfg: Config, w: World<C>, k: WriteOutcome)
    requires Inv(w) && !w.conn.state.Connecting?
    ensures Keeps(w, HandleWrite(cfg, w, k))
  {
    var c := w.conn;
    if Live(c) && c.out != [] {
      assert c.reg.events - WRITE_EVENT == READ_EVENT;
      SetEventsKeepsAgreement(w, c.reg.events - WRITE_EVENT);
    }
  }

  lemma {:induction false} RunKeepsInv<C>(cfg: Config, w: World<C>, ops: seq<Op>)
    requires Inv(w) && AllEnabled(cfg, w, ops)
    ensures Keeps(w, Run(cfg, w, ops))
    decreases |ops|
  {
    if ops == [] {
      assert SameElsewhere(w.poller, w.poller, w.fd);
    } else {
      StepKeepsInv(cfg, w, ops[0]);
      var v := Step(cfg, w, ops[0]);
      RunKeepsInv(cfg, v, ops[1..]);
      SameElsewhereTrans(w.poller, v.poller, Run(cfg, v, ops[1..]).poller, w.fd);
    }
  }
}
