/** The class of src/TcpServer.cc over the loops, their pollers and the connection objects, whose
    methods are proved against the server steps of module Reactor. */
module TcpServers {
  import ConnName
  import EventLoops
  import Pollers
  import TcpConnections
  import opened Connections
  import opened Loops
  import opened Reactor

  /** One `queueInLoop`, with its wakeup, from thread `t`. */
  function AfterTask(l: Loop, t: Tid, task: Task): Loop {
    if Owes(t, task, l).Wakeup? then WakeUp(DoneTo(l, task)) else DoneTo(l, task)
  }

  /** An entry of `connections_`: the object, and the place it has in the accept order. */
  datatype Entry = Entry(handle: Handle, conn: TcpConnections.TcpConnection)

  class TcpServer {
    const name: string
    const ipPort: string
    const loops: map<LoopId, EventLoops.EventLoop>
    const pollers: map<LoopId, Pollers.EPollPoller>
    var nextConnId: nat
    var connections: map<string, Entry>

    ghost function View(): Server
      reads this
    {
      Server(name, ipPort, map n | n in connections :: connections[n].handle, nextConnId)
    }

    constructor (name: string, ipPort: string, loops: map<LoopId, EventLoops.EventLoop>,
                 pollers: map<LoopId, Pollers.EPollPoller>)
      ensures this.loops == loops && this.pollers == pollers
      ensures View() == Server(name, ipPort, map[], 1)
    {
      this.name, this.ipPort, this.loops, this.pollers := name, ipPort, loops, pollers;
      nextConnId, connections := 1, map[];
    }

    /** `newConnection` in the base loop's thread, with the loop getNextLoop chose: connectEstablished
        runs at once if that is the base loop, and is queued on the chosen loop otherwise. */
    method NewConnection(fd: int, ioLoop: LoopId, cfg: Config, calls: seq<UserOp>) returns (entry: Entry)
      requires nextConnId <= ConnName.INT_MAX && ioLoop in loops && ioLoop in pollers
      modifies this, loops[ioLoop], pollers[ioLoop]
      ensures entry.handle == Handle(old(nextConnId), ioLoop, fd) && fresh(entry.conn) && entry.conn.Valid()
      ensures View() == Insert(old(View()), entry.handle)
      ensures connections == old(connections)[NameOf(old(View()), entry.handle) := entry]
      ensures |ipPort| <= 51 ==>
                var own := name + "-" + ipPort + "#" + ConnName.Decimal(old(nextConnId));
                own in connections && connections[own] == entry
      ensures entry.conn.View() == Run(cfg, World(entry.conn.channel, fd, old(pollers[ioLoop].State()), FRESH),
                                       AcceptOps(ioLoop, calls))
      ensures loops[ioLoop].View() ==
                if ioLoop == BASE then old(loops[ioLoop].View())
                else AfterTask(old(loops[ioLoop].View()), OfLoop(BASE), AcceptTasks(entry.handle, [])[0])
    {
      var conn := new TcpConnections.TcpConnection(pollers[ioLoop], fd, cfg);
      entry := Entry(Handle(nextConnId, ioLoop, fd), conn);
      Add(entry);
      if |ipPort| <= 51 {
        ConnName.NameIsWhole(name, ipPort, entry.handle.id);
      }
      Establish(entry, calls);
    }

    /** The new entry of `connections_` and the next id. */
    method Add(entry: Entry)
      requires entry.handle.id == nextConnId
      modifies this
      ensures View() == Insert(old(View()), entry.handle)
      ensures connections == old(connections)[NameOf(old(View()), entry.handle) := entry]
    {
      var connName := ConnName.Name(name, ipPort, nextConnId);
      nextConnId := nextConnId + 1;
      connections := connections[connName := entry];
    }

    /** `ioLoop->runInLoop(connectEstablished)`, from the base loop's thread. */
    method Establish(entry: Entry, calls: seq<UserOp>)
      requires entry.handle.io in loops && entry.conn.Valid()
      modifies loops[entry.handle.io], entry.conn, entry.conn.channel`events, entry.conn.channel`index
      modifies entry.conn.channel.poller, entry.conn.inputBuffer, entry.conn.inputBuffer.buffer
      modifies entry.conn.outputBuffer, entry.conn.outputBuffer.buffer
      ensures entry.conn.Valid()
      ensures entry.conn.View() == Run(entry.conn.cfg, old(entry.conn.View()), AcceptOps(entry.handle.io, calls))
      ensures loops[entry.handle.io].View() ==
                if entry.handle.io == BASE then old(loops[entry.handle.io].View())
                else AfterTask(old(loops[entry.handle.io].View()), OfLoop(BASE), AcceptTasks(entry.handle, [])[0])
    {
      var inline := loops[entry.handle.io].RunInLoop(Established(entry.handle), entry.handle.io == BASE);
      if inline {
        entry.conn.ConnectEstablished(calls);
      }
    }

    /** `removeConnection`, the close callback, in the thread of the connection's own loop. */
    method RemoveConnection(handle: Handle)
      requires BASE in loops
      modifies this`connections, loops[BASE]
      ensures View() == if handle.io == BASE then Erase(old(View()), handle) else old(View())
      ensures loops[BASE].View()
           == AfterTask(old(loops[BASE].View()), OfLoop(handle.io), TaskOf(handle, CloseRequest))
    {
      if handle.io == BASE {
        RemoveConnectionInLoop(handle);
      } else {
        var inline := loops[BASE].RunInLoop(RemoveConn(handle), false);
      }
    }

    /** `removeConnectionInLoop`, in the base loop's thread. */
    method RemoveConnectionInLoop(handle: Handle)
      requires handle.io in loops
      modifies this`connections, loops[handle.io]
      ensures View() == Erase(old(View()), handle)
      ensures loops[handle.io].View()
           == AfterTask(old(loops[handle.io].View()), OfLoop(BASE), FunctorTasks(RemoveConn(handle), [])[0])
    {
      connections := connections - {ConnName.Name(name, ipPort, handle.id)};
      loops[handle.io].QueueInLoop(Destroyed(handle), handle.io == BASE);
    }
  }
}
