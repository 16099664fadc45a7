/** The class of src/TcpConnection.cc over the concrete buffers, channel and poller, proved against
    the step function of module Connections. The kernel's answer to a `write` or `readv`, and what
    user code does inside a callback, are parameters. */
module TcpConnections {
  import opened Buffers
  import opened Epoll
  import opened Pollers
  import opened Connections

  /** The close callback's request may be recorded before or after the calls user code makes from
      the down callback: on a closed connection those calls change nothing but the input buffer. */
  lemma {:induction false} ClosedCallsCommute<C>(cfg: Config, w: World<C>, calls: seq<UserOp>, note: Note)
    requires w.conn.state.Disconnected?
    ensures var noted := w.(conn := w.conn.(outbox := w.conn.outbox + [note]));
            var v := Run(cfg, w, calls);
            Run(cfg, noted, calls) == v.(conn := v.conn.(outbox := v.conn.outbox + [note]))
    decreases |calls|
  {
    if calls != [] {
      ClosedCallsCommute(cfg, Step(cfg, w, calls[0]), calls[1..], note);
    }
  }

  lemma CloseThenNote<C>(cfg: Config, was: World<C>, w: World<C>, calls: seq<UserOp>)
    requires w.(conn := w.conn.(outbox := w.conn.outbox + [CloseRequest])) == Step(cfg, was, Close)
    ensures var v := Run(cfg, w, calls);
            v.(conn := v.conn.(outbox := v.conn.outbox + [CloseRequest])) == Run(cfg, was, [Close] + calls)
  {
    ClosedCallsCommute(cfg, w, calls, CloseRequest);
    assert ([Close] + calls)[1..] == calls;
  }

  function AfterCall(s: Shape, call: UserOp): (t: Shape)
    requires s.Ok()
    ensures t.Ok()
  {
    if call.Consume? then AfterRetrieve(s, call.n) else s
  }

  /** The input buffer after user code has consumed from it. */
  function InputShape(s: Shape, calls: seq<UserOp>): (t: Shape)
    requires s.Ok()
    ensures t.Ok()
    decreases |calls|
  {
    if calls == [] then s else InputShape(AfterCall(s, calls[0]), calls[1..])
  }

  /** Close, read and write, one after the other. */
  lemma EventInThreeParts<C>(cfg: Config, w: World<C>, revents: Mask, env: Env)
    ensures var w1 := Run(cfg, w, HangUpOps(revents, env.closeCalls));
            var w2 := if revents * READ_EVENT != {} then Run(cfg, w1, ReadOps(env.read, env.readCalls)) else w1;
            var w3 := if Out in revents then Connections.HandleWrite(cfg, w2, env.write) else w2;
            w3 == Run(cfg, w, EventOps(revents, env))
  {
    var h := HangUpOps(revents, env.closeCalls);
    var r := if revents * READ_EVENT != {} then ReadOps(env.read, env.readCalls) else [];
    var o: seq<Op> := if Out in revents then [Writable(env.write)] else [];
    RunConcat(cfg, w, h, r);
    RunConcat(cfg, w, h + r, o);
    if o != [] {
      var v := Run(cfg, w, h + r);
      assert o[1..] == [] && Run(cfg, v, o) == Step(cfg, v, o[0]);
    }
  }

  class TcpConnection {
    const cfg: Config
    const channel: Channel
    const inputBuffer: Buffer
    const outputBuffer: Buffer
    var state: ConnState
    /** Calls that leave the object, in order: queueInLoop, and the close callback. */
    var outbox: seq<Note>
    ghost var sent: seq<Byte>
    ghost var shutWrs: nat
    ghost var lateWrites: nat
    ghost var ups: nat
    ghost var downs: nat
    ghost var destroyed: nat

    ghost predicate Valid()
      reads this, inputBuffer, outputBuffer
    {
      && inputBuffer != outputBuffer && inputBuffer.buffer != outputBuffer.buffer
      && inputBuffer.Valid() && outputBuffer.Valid()
    }

    ghost function View(): World<Channel>
      requires Valid()
      reads this, channel, channel.poller, inputBuffer, inputBuffer.buffer, outputBuffer, outputBuffer.buffer
    {
      World(channel, channel.fd, channel.poller.State(),
            Conn(state, channel.GetReg(), inputBuffer.Content(), outputBuffer.Content(), sent,
                 shutWrs, lateWrites, ups, downs, destroyed, outbox))
    }

    constructor (poller: EPollPoller, fd: int, cfg: Config)
      ensures Valid() && fresh(channel) && fresh(inputBuffer) && fresh(outputBuffer)
      ensures fresh(inputBuffer.buffer) && fresh(outputBuffer.buffer)
      ensures channel.poller == poller && this.cfg == cfg
      ensures View() == World(channel, fd, poller.State(), FRESH)
      ensures inputBuffer.GetShape() == Shape(1032, 8, 8) && outputBuffer.GetShape() == Shape(1032, 8, 8)
    {
      this.cfg := cfg;
      channel := new Channel(fd, poller);
      inputBuffer := new Buffer();
      outputBuffer := new Buffer();
      state := Connecting;
      outbox := [];
      sent, shutWrs, lateWrites, ups, downs, destroyed := [], 0, 0, 0, 0, 0;
    }

    method ConnectEstablished(calls: seq<UserOp>)
      requires Valid()
      modifies this, channel`events, channel`index, channel.poller
      modifies inputBuffer, inputBuffer.buffer, outputBuffer, outputBuffer.buffer
      ensures Valid() && (outputBuffer.buffer == old(outputBuffer.buffer) || fresh(outputBuffer.buffer))
      ensures inputBuffer.buffer == old(inputBuffer.buffer)
      ensures View() == Run(cfg, old(View()), [Establish] + calls)
    {
      state := Connected;
      channel.EnableReading();
      ups := ups + 1;
      assert View() == Step(cfg, old(View()), Establish);
      RunCalls(calls);
      assert ([Establish] + calls)[1..] == calls;
    }

    method ConnectDestroyed()
      requires Valid()
      modifies this, channel`events, channel`index, channel.poller
      ensures Valid() && View() == Step(cfg, old(View()), Destroy)
    {
      if state.Connected? {
        state := Disconnected;
        channel.DisableAll();
        downs := downs + 1;
      }
      channel.Remove();
      destroyed := destroyed + 1;
    }

    /** User code inside a callback: any sequence of sends, shutdowns and reads of the input. */
    method RunCalls(calls: seq<UserOp>)
      requires Valid()
      modifies this, channel`events, channel`index, channel.poller
      modifies inputBuffer, outputBuffer, outputBuffer.buffer
      ensures Valid() && (outputBuffer.buffer == old(outputBuffer.buffer) || fresh(outputBuffer.buffer))
      ensures inputBuffer.buffer == old(inputBuffer.buffer)
      ensures inputBuffer.GetShape() == InputShape(old(inputBuffer.GetShape()), calls)
      ensures View() == Run(cfg, old(View()), calls)
    {
      hide Step, AfterCall;
      var i := 0;
      while i < |calls|
        invariant 0 <= i <= |calls| && Valid()
        invariant outputBuffer.buffer == old(outputBuffer.buffer) || fresh(outputBuffer.buffer)
        invariant inputBuffer.buffer == old(inputBuffer.buffer)
        invariant InputShape(inputBuffer.GetShape(), calls[i..]) == InputShape(old(inputBuffer.GetShape()), calls)
        invariant Run(cfg, View(), calls[i..]) == Run(cfg, old(View()), calls)
      {
        assert calls[i..][1..] == calls[i + 1..];
        RunCall(calls[i]);
        i := i + 1;
      }
    }

    method RunCall(call: UserOp)
      requires Valid()
      modifies this, channel`events, channel`index, channel.poller
      modifies inputBuffer, outputBuffer, outputBuffer.buffer
      ensures Valid() && (outputBuffer.buffer == old(outputBuffer.buffer) || fresh(outputBuffer.buffer))
      ensures inputBuffer.buffer == old(inputBuffer.buffer)
      ensures inputBuffer.GetShape() == AfterCall(old(inputBuffer.GetShape()), call)
      ensures View() == Step(cfg, old(View()), call)
    {
      match call {
        case Send(msg, k) => Send(msg, k);
        case Shutdown => Shutdown();
        case Consume(n) => inputBuffer.Retrieve(n);
      }
    }

    method HandleRead(offered: ReadOutcome, calls: seq<UserOp>) returns (ghost read: ReadOutcome)
      requires Valid()
      modifies this, channel`events, channel`index, channel.poller
      modifies inputBuffer, inputBuffer.buffer, outputBuffer, outputBuffer.buffer
      ensures Valid() && (outputBuffer.buffer == old(outputBuffer.buffer) || fresh(outputBuffer.buffer))
      ensures inputBuffer.buffer == old(inputBuffer.buffer) || fresh(inputBuffer.buffer)
      ensures read == offered.Clip(IovCapacity(old(inputBuffer.GetShape().Writable())))
      ensures View() == Run(cfg, old(View()), ReadOps(read, calls))
      ensures read.Delivered? && read.bytes != [] ==>
                View() == Run(cfg, Step(cfg, old(View()), Readable(read.bytes)), calls)
      ensures read.Delivered? && read.bytes == [] ==> View() == Run(cfg, Step(cfg, old(View()), Close), calls)
      ensures read.ReadFailed? ==> View() == old(View())
    {
      var n;
      n, read := inputBuffer.ReadFd(offered);
      if n > 0 {
        assert View() == Step(cfg, old(View()), Readable(read.bytes));
        RunCalls(calls);
        assert ([Readable(read.bytes)] + calls)[1..] == calls;
      } else if n == 0 {
        assert View() == old(View());
        HandleClose(calls);
        assert ([Close] + calls)[1..] == calls;
      } else {
        // handleError reads SO_ERROR and logs it
      }
    }

    method HandleWrite(kernel: WriteOutcome)
      requires Valid()
      modifies this, channel`events, channel`index, channel.poller, outputBuffer
      ensures Valid() && outputBuffer.buffer == old(outputBuffer.buffer)
      ensures View() == Connections.HandleWrite(cfg, old(View()), kernel)
    {
      if channel.IsWriting() {
        var n := WriteBuffered(kernel);
        if n > 0 {
          var left := outputBuffer.ReadableBytes();
          if left == 0 {
            FinishWrite();
          }
        }
      }
    }

    /** `writeFd`, and what it took is retrieved. */
    method WriteBuffered(kernel: WriteOutcome) returns (n: int)
      requires Valid()
      modifies this`sent, this`lateWrites, outputBuffer
      ensures Valid() && outputBuffer.buffer == old(outputBuffer.buffer)
      ensures n == if kernel.Wrote? then kernel.Taken(old(|outputBuffer.Content()|)) else -1
      ensures var w := old(View());
              var took := kernel.Taken(|w.conn.out|);
              View() == w.(conn := w.conn.(sent := w.conn.sent + w.conn.out[..took], out := w.conn.out[took..],
                                           lateWrites := w.conn.lateWrites + Late(w.conn)))
    {
      ghost var taken;
      n, taken := outputBuffer.WriteFd(kernel);
      sent, lateWrites := sent + taken, lateWrites + if shutWrs > 0 then 1 else 0;
      if n > 0 {
        outputBuffer.Retrieve(n);
      }
    }

    method FinishWrite()
      requires Valid()
      modifies this, channel`events, channel`index, channel.poller
      ensures Valid() && View() == Drained(cfg, old(View()))
    {
      channel.DisableWriting();
      if cfg.writeComplete {
        outbox := outbox + [WriteComplete];
      }
      if state.Disconnecting? {
        ShutdownInLoop();
      }
    }

    method HandleClose(calls: seq<UserOp>)
      requires Valid()
      modifies this, channel`events, channel`index, channel.poller
      modifies inputBuffer, outputBuffer, outputBuffer.buffer
      ensures Valid() && (outputBuffer.buffer == old(outputBuffer.buffer) || fresh(outputBuffer.buffer))
      ensures inputBuffer.buffer == old(inputBuffer.buffer)
      ensures inputBuffer.GetShape() == InputShape(old(inputBuffer.GetShape()), calls)
      ensures View() == Run(cfg, old(View()), [Close] + calls)
    {
      GoDown();
      CloseThenNote(cfg, old(View()), View(), calls);
      hide Run, InputShape;
      RunCalls(calls);
      outbox := outbox + [CloseRequest];
    }

    /** The head of `handleClose`, up to the down callback. */
    method GoDown()
      requires Valid()
      modifies this`state, this`downs, channel`events, channel`index, channel.poller
      ensures Valid()
      ensures var w := View();
              w.(conn := w.conn.(outbox := w.conn.outbox + [CloseRequest])) == Step(cfg, old(View()), Close)
    {
      state := Disconnected;
      channel.DisableAll();
      downs := downs + 1;
    }

    /** `send` in the loop thread. */
    method Send(msg: seq<Byte>, kernel: WriteOutcome)
      requires Valid()
      modifies this, channel`events, channel`index, channel.poller, outputBuffer, outputBuffer.buffer
      ensures Valid() && (outputBuffer.buffer == old(outputBuffer.buffer) || fresh(outputBuffer.buffer))
      ensures View() == Step(cfg, old(View()), Op.Send(msg, kernel))
    {
      if state.Connected? {
        SendInLoop(msg, kernel);
      }
    }

    method SendInLoop(msg: seq<Byte>, kernel: WriteOutcome)
      requires Valid()
      modifies this, channel`events, channel`index, channel.poller, outputBuffer, outputBuffer.buffer
      ensures Valid() && (outputBuffer.buffer == old(outputBuffer.buffer) || fresh(outputBuffer.buffer))
      ensures View() == Connections.SendInLoop(cfg, old(View()), msg, kernel)
    {
      var nwrote, remaining, faultError := 0, |msg|, false;
      if state.Disconnected? {
        return;
      }
      var waiting := outputBuffer.ReadableBytes();
      if !channel.IsWriting() && waiting == 0 {
        nwrote, faultError := WriteDirect(msg, kernel);
        remaining := |msg| - nwrote;
      } else {
        assert msg[0..] == msg;
      }
      if !faultError && remaining > 0 {
        BufferRest(msg[nwrote..]);
      }
    }

    /** `::write` of a message; what it took has been given to the kernel. */
    method WriteDirect(msg: seq<Byte>, kernel: WriteOutcome) returns (nwrote: nat, faultError: bool)
      requires Valid()
      modifies this`sent, this`lateWrites, this`outbox
      ensures Valid() && View() == DirectWrite(cfg, old(View()), msg, kernel)
      ensures nwrote == kernel.Taken(|msg|) && faultError == Refused(kernel)
    {
      nwrote, faultError := kernel.Taken(|msg|), false;
      sent, lateWrites := sent + msg[..nwrote], lateWrites + if shutWrs > 0 then 1 else 0;
      if kernel.Wrote? {
        if |msg| - nwrote == 0 && cfg.writeComplete {
          outbox := outbox + [WriteComplete];
        }
      } else if !kernel.errno.EWouldBlock? {
        if kernel.errno.EPipe? || kernel.errno.EConnReset? {
          faultError := true;
        }
      }
    }

    method BufferRest(rest: seq<Byte>)
      requires Valid() && rest != []
      modifies this`outbox, channel`events, channel`index, channel.poller, outputBuffer, outputBuffer.buffer
      ensures Valid() && (outputBuffer.buffer == old(outputBuffer.buffer) || fresh(outputBuffer.buffer))
      ensures View() == Enqueue(cfg, old(View()), rest)
    {
      ghost var was := View();
      var oldLen := outputBuffer.ReadableBytes();
      if oldLen + |rest| >= cfg.mark && oldLen < cfg.mark && cfg.highWater {
        outbox := outbox + [HighWater(oldLen + |rest|)];
      }
      outputBuffer.Append(rest);
      assert View() == was.(conn := was.conn.(outbox := outbox, out := was.conn.out + rest));
      if !channel.IsWriting() {
        channel.EnableWriting();
      }
    }

    method Shutdown()
      requires Valid()
      modifies this
      ensures Valid() && View() == Step(cfg, old(View()), Op.Shutdown)
    {
      if state.Connected? {
        state := Disconnecting;
        ShutdownInLoop();
      }
    }

    method ShutdownInLoop()
      requires Valid()
      modifies this`shutWrs
      ensures Valid() && View() == Connections.ShutdownInLoop(old(View()))
    {
      if !channel.IsWriting() {
        shutWrs := shutWrs + 1;
      }
    }

    /** How much the next `readv` can deliver, once the given calls have consumed their input. */
    ghost function ReadCapacity(calls: seq<UserOp>): nat
      requires Valid()
      reads this, inputBuffer, outputBuffer
    {
      IovCapacity(InputShape(inputBuffer.GetShape(), calls).Writable())
    }

    /** `Channel::handleEventWithGuard` with the callbacks this connection installs; the environment
        is as given, but a `readv` delivers no more than the input buffer and the stack block hold. */
    method HandleEvent(env: Env)
      requires Valid()
      modifies this, channel`events, channel`index, channel.poller
      modifies inputBuffer, inputBuffer.buffer, outputBuffer, outputBuffer.buffer
      ensures Valid() && (outputBuffer.buffer == old(outputBuffer.buffer) || fresh(outputBuffer.buffer))
      ensures inputBuffer.buffer == old(inputBuffer.buffer) || fresh(inputBuffer.buffer)
      ensures var hangUp := Hup in old(channel.revents) && In !in old(channel.revents);
              var cap := old(ReadCapacity(if hangUp then env.closeCalls else []));
              View() == Run(cfg, old(View()), EventOps(old(channel.revents), env.(read := env.read.Clip(cap))))
    {
      var revents := channel.revents;
      ghost var cap := ReadCapacity(if Hup in revents && In !in revents then env.closeCalls else []);
      EventInThreeParts(cfg, View(), revents, env.(read := env.read.Clip(cap)));
      hide Run, EventOps, InputShape, Connections.HandleWrite, ReadOps;
      if Hup in revents && In !in revents {
        HandleClose(env.closeCalls);
      }
      if revents * READ_EVENT != {} {
        ghost var read := HandleRead(env.read, env.readCalls);
      }
      if Out in revents {
        HandleWrite(env.write);
      }
    }
  }
}
