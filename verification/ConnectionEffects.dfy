/** What each entry into a connection does to its data, its state and its registration, told without
    the functions that do it. */
module ConnectionEffects {
  import Sequences
  import opened Buffers
  import opened Epoll
  import opened Connections
  import opened ConnectionTheorems

  function AtMost(n: nat, len: nat): nat { if n <= len then n else len }

  /** The kernel watches the connection with exactly this mask. */
  ghost predicate WatchedFor<C>(w: World<C>, mask: Mask) {
    InMap(w.poller, w.me, w.fd) && InKernel(w.poller, w.me, w.fd) && w.poller.kernel[w.fd].mask == mask
  }

  /** Input, callback counts and everything a send or a write does not concern. */
  ghost predicate SameOtherwise(c: Conn, v: Conn) {
    && v.state == c.state && v.input == c.input && v.ups == c.ups && v.downs == c.downs
    && v.destroyed == c.destroyed
  }

  lemma LiveIsWatched<C>(w: World<C>)
    requires Inv(w)
    ensures Live(w.conn) ==> WatchedFor(w, if w.conn.out == [] then {In, Pri} else {In, Pri, Out})
  {
    assert READ_EVENT + WRITE_EVENT == {In, Pri, Out};
  }

  /** connectEstablished: the connection is up, watched for input and urgent data, and nothing else. */
  lemma EstablishEffect<C>(cfg: Config, w: World<C>)
    requires Inv(w) && w.conn.state.Connecting?
    ensures var v := Step(cfg, w, Establish);
            && v.conn == Conn(Connected, Registration({In, Pri}, Added), [], [], [], 0, 0, 1, 0, 0, [])
            && WatchedFor(v, {In, Pri})
  {
    StepKeepsInv(cfg, w, Establish);
  }

  /** A send, in the loop thread or queued by another thread. Behind data already waiting the whole
      message waits. Otherwise it is written at once: what the kernel takes is sent and the rest
      waits; if the write fails, EPIPE and ECONNRESET drop the message, and any other error, a full
      socket buffer included, leaves all of it waiting. What waits is watched for writability. */
  lemma SendEffect<C>(cfg: Config, w: World<C>, op: Op)
    requires Inv(w) && ((op.Send? && w.conn.state.Connected?) || (op.QueuedSend? && Live(w.conn)))
    ensures var c, v, msg, k := w.conn, Step(cfg, w, op), op.msg, op.kernel;
            && SameOtherwise(c, v.conn) && v.conn.shutWrs == c.shutWrs
            && (c.out != [] ==> v.conn.sent == c.sent && v.conn.out == c.out + msg)
            && (c.out == [] && k.Wrote? ==>
                  && v.conn.sent == c.sent + msg[..AtMost(k.n, |msg|)]
                  && v.conn.out == msg[AtMost(k.n, |msg|)..])
            && (c.out == [] && k.WriteFailed? ==>
                  && v.conn.sent == c.sent
                  && v.conn.out == if k.errno.EPipe? || k.errno.EConnReset? then [] else msg)
            && WatchedFor(v, if v.conn.out == [] then {In, Pri} else {In, Pri, Out})
  {
    StepKeepsInv(cfg, w, op);
    SendMovesBytes(cfg, w, op.msg, op.kernel);
    LiveIsWatched(Step(cfg, w, op));
    hide Inv, SendInLoop, WatchedFor;
  }

  lemma SendMovesBytes<C>(cfg: Config, w: World<C>, msg: seq<Byte>, k: WriteOutcome)
    requires Inv(w) && Live(w.conn)
    ensures var c, v := w.conn, SendInLoop(cfg, w, msg, k);
            && SameOtherwise(c, v.conn) && v.conn.shutWrs == c.shutWrs
            && (c.out != [] ==> v.conn.sent == c.sent && v.conn.out == c.out + msg)
            && (c.out == [] && k.Wrote? ==>
                  && v.conn.sent == c.sent + msg[..AtMost(k.n, |msg|)]
                  && v.conn.out == msg[AtMost(k.n, |msg|)..])
            && (c.out == [] && k.WriteFailed? ==>
                  && v.conn.sent == c.sent
                  && v.conn.out == if k.errno.EPipe? || k.errno.EConnReset? then [] else msg)
  {
    assert Writing(w.conn) <==> w.conn.out != [];
    hide Agrees, Exclusive;
    if w.conn.out == [] {
      var d := DirectWrite(cfg, w, msg, k);
      EnqueueConserves(cfg, d, msg[k.Taken(|msg|)..]);
      assert [] + msg[k.Taken(|msg|)..] == msg[k.Taken(|msg|)..];
      assert k.WriteFailed? ==> msg[k.Taken(|msg|)..] == msg && w.conn.sent + msg[..0] == w.conn.sent;
    }
  }

  /** A send is ignored unless the connection is up, a queued one unless it has closed meanwhile. */
  lemma IgnoredSend<C>(cfg: Config, w: World<C>, op: Op)
    requires (op.Send? && !w.conn.state.Connected?) || (op.QueuedSend? && w.conn.state.Disconnected?)
    ensures Step(cfg, w, op) == w
  {
  }

  /** A writable event gives the kernel as much of the waiting data as it takes; when that was all, and
      a shutdown is waiting for it, SHUT_WR follows. */
  lemma WritableEffect<C>(cfg: Config, w: World<C>, k: WriteOutcome)
    requires Inv(w) && Live(w.conn)
    ensures var c, v := w.conn, Step(cfg, w, Writable(k));
            && SameOtherwise(c, v.conn)
            && (c.out == [] ==> v == w)
            && (k.Wrote? ==>
                  && v.conn.sent == c.sent + c.out[..AtMost(k.n, |c.out|)]
                  && v.conn.out == c.out[AtMost(k.n, |c.out|)..])
            && (k.WriteFailed? ==> v.conn.sent == c.sent && v.conn.out == c.out)
            && v.conn.shutWrs
               == c.shutWrs + (if c.state.Disconnecting? && c.out != [] && v.conn.out == [] then 1 else 0)
            && WatchedFor(v, if v.conn.out == [] then {In, Pri} else {In, Pri, Out})
  {
    StepKeepsInv(cfg, w, Writable(k));
    WriteMovesBytes(cfg, w, k);
    LiveIsWatched(Step(cfg, w, Writable(k)));
    hide Inv, HandleWrite, WatchedFor;
  }

  lemma WriteMovesBytes<C>(cfg: Config, w: World<C>, k: WriteOutcome)
    requires Inv(w) && Live(w.conn)
    ensures var c, v := w.conn, HandleWrite(cfg, w, k);
            && SameOtherwise(c, v.conn) && (c.out == [] ==> v == w)
            && (k.Wrote? ==>
                  && v.conn.sent == c.sent + c.out[..AtMost(k.n, |c.out|)]
                  && v.conn.out == c.out[AtMost(k.n, |c.out|)..])
            && (k.WriteFailed? ==> v.conn.sent == c.sent && v.conn.out == c.out)
            && v.conn.shutWrs
               == c.shutWrs + (if c.state.Disconnecting? && c.out != [] && v.conn.out == [] then 1 else 0)
  {
    assert Writing(w.conn) <==> w.conn.out != [];
    assert (READ_EVENT + WRITE_EVENT) - WRITE_EVENT == READ_EVENT && READ_EVENT * WRITE_EVENT == {};
    hide Agrees, Exclusive;
    assert k.WriteFailed? ==> w.conn.out[0..] == w.conn.out && w.conn.sent + w.conn.out[..0] == w.conn.sent;
  }

  /** shutdown on a connection that is up: it is disconnecting from then on, and SHUT_WR is issued at
      once exactly when nothing is waiting. On any other connection it does nothing. */
  lemma ShutdownEffect<C>(cfg: Config, w: World<C>)
    requires Inv(w)
    ensures var c, v := w.conn, Step(cfg, w, Shutdown);
            if c.state.Connected?
            then v == w.(conn := c.(state := Disconnecting, shutWrs := if c.out == [] then 1 else 0))
            else v == w
  {
    assert w.conn.state.Connected? ==> (Writing(w.conn) <==> w.conn.out != []);
  }

  /** Reading appends to the input buffer, consuming takes from its front; neither touches anything
      else. */
  lemma InputEffect<C>(cfg: Config, w: World<C>, bytes: seq<Byte>, n: nat)
    ensures Step(cfg, w, Readable(bytes)) == w.(conn := w.conn.(input := w.conn.input + bytes))
    ensures var v := Step(cfg, w, Consume(n));
            && v == w.(conn := w.conn.(input := v.conn.input))
            && w.conn.input == w.conn.input[..AtMost(n, |w.conn.input|)] + v.conn.input
            && |v.conn.input| == |w.conn.input| - AtMost(n, |w.conn.input|)
  {
  }

  /** handleClose: the connection is down and no longer watched, though still in `channels_`; its
      streams are left as they are. */
  lemma CloseEffect<C>(cfg: Config, w: World<C>)
    requires Inv(w) && Live(w.conn)
    ensures var c, v := w.conn, Step(cfg, w, Close);
            && v.conn == c.(state := Disconnected, downs := 1, outbox := c.outbox + [CloseRequest],
                            reg := Registration({}, Deleted))
            && InMap(v.poller, v.me, v.fd) && !InKernel(v.poller, v.me, v.fd)
  {
    StepKeepsInv(cfg, w, Close);
  }

  /** connectDestroyed: the connection is in neither `channels_` nor the kernel's set. One still up, as
      when the server itself goes away, is first taken down, with its callback. */
  lemma DestroyEffect<C>(cfg: Config, w: World<C>)
    requires Inv(w) && Unfinished(w.conn)
    ensures var c, v := w.conn, Step(cfg, w, Destroy);
            && !InMap(v.poller, v.me, v.fd) && !InKernel(v.poller, v.me, v.fd)
            && SameElsewhere(w.poller, v.poller, w.fd) && v.poller.failed == w.poller.failed
            && v.conn.destroyed == c.destroyed + 1 && v.conn.reg.index.New?
            && v.conn.state == (if c.state.Connected? then Disconnected else c.state)
            && v.conn.downs == c.downs + (if c.state.Connected? then 1 else 0)
            && (c.state.Connected? ==> v.conn.reg.events == {})
            && v.conn.input == c.input && v.conn.out == c.out && v.conn.sent == c.sent
            && v.conn.shutWrs == c.shutWrs && v.conn.ups == c.ups && v.conn.outbox == c.outbox
  {
    var u := if w.conn.state.Connected? then SetEvents(w.(conn := w.conn.(state := Disconnected)), {}) else w;
    if w.conn.state.Connected? {
      SetEventsKeepsAgreement(w.(conn := w.conn.(state := Disconnected)), {});
    }
    RemoveKeepsAgreement(u.poller, u.me, u.fd, u.conn.reg);
    SameElsewhereTrans(w.poller, u.poller, Step(cfg, w, Destroy).poller, w.fd);
  }

  // ---------------------------------------------------------------------------------------------
  // Dispatched events.

  /** One dispatched event. A hang-up without input closes, then runs the down callback's code. Input or
      urgent data reads: bytes are buffered and the message callback runs, end of file closes and runs
      the down callback's code, an error only logs. Writability then writes. */
  lemma EventEffect<C>(cfg: Config, w: World<C>, revents: Mask, env: Env)
    ensures var w1 := if Hup in revents && In !in revents then Run(cfg, Step(cfg, w, Close), env.closeCalls) else w;
            var w2 := if In !in revents && Pri !in revents then w1
                      else match env.read {
                        case ReadFailed(_) => w1
                        case Delivered(bytes) =>
                          Run(cfg, Step(cfg, w1, if bytes == [] then Close else Readable(bytes)), env.readCalls)
                      };
            var w3 := if Out in revents then Step(cfg, w2, Writable(env.write)) else w2;
            Run(cfg, w, EventOps(revents, env)) == w3
  {
    var h := HangUpOps(revents, env.closeCalls);
    var r := if revents * READ_EVENT != {} then ReadOps(env.read, env.readCalls) else [];
    var o: seq<Op> := if Out in revents then [Writable(env.write)] else [];
    ReadEvents(revents);
    RunConcat(cfg, w, h, r);
    RunConcat(cfg, w, h + r, o);
    FirstThen(cfg, w, Close, env.closeCalls);
    var w1 := Run(cfg, w, h);
    FirstThen(cfg, w1, Close, env.readCalls);
    if env.read.Delivered? {
      FirstThen(cfg, w1, Readable(env.read.bytes), env.readCalls);
    }
    FirstThen(cfg, Run(cfg, w, h + r), Writable(env.write), []);
    assert [Op.Writable(env.write)] + [] == [Op.Writable(env.write)];
    hide Step;
  }

  lemma FirstThen<C>(cfg: Config, w: World<C>, op: Op, ops: seq<Op>)
    ensures Run(cfg, w, [op] + ops) == Run(cfg, Step(cfg, w, op), ops)
  {
    assert ([op] + ops)[1..] == ops;
  }
}
