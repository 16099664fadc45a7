/** The classes of src/Channel.h and src/EPollPoller.cc, over a kernel interest set kept as a map. */
module Pollers {
  import opened Epoll

  class Channel {
    const fd: int
    const poller: EPollPoller
    var events: Mask
    var revents: Mask
    var index: Index

    constructor (fd: int, poller: EPollPoller)
      ensures this.fd == fd && this.poller == poller && GetReg() == UNREGISTERED && revents == {}
    {
      this.fd := fd;
      this.poller := poller;
      events := {};
      revents := {};
      index := New;
    }

    ghost function GetReg(): Registration
      reads this
    {
      Registration(events, index)
    }

    function IsNoneEvent(): bool reads this { events == {} }

    function IsWriting(): bool reads this { events * WRITE_EVENT != {} }

    method EnableReading()
      modifies this`events, this`index, poller
      ensures GetReg() == Registration(old(events) + READ_EVENT, NextIndex(old(index), events))
      ensures poller.State() == Epoll.UpdateChannel(old(poller.State()), this, fd, old(index), events)
    {
      events := events + READ_EVENT;
      poller.UpdateChannel(this);
    }

    method EnableWriting()
      modifies this`events, this`index, poller
      ensures GetReg() == Registration(old(events) + WRITE_EVENT, NextIndex(old(index), events))
      ensures poller.State() == Epoll.UpdateChannel(old(poller.State()), this, fd, old(index), events)
    {
      events := events + WRITE_EVENT;
      poller.UpdateChannel(this);
    }

    method DisableWriting()
      modifies this`events, this`index, poller
      ensures GetReg() == Registration(old(events) - WRITE_EVENT, NextIndex(old(index), events))
      ensures poller.State() == Epoll.UpdateChannel(old(poller.State()), this, fd, old(index), events)
    {
      events := events - WRITE_EVENT;
      poller.UpdateChannel(this);
    }

    method DisableAll()
      modifies this`events, this`index, poller
      ensures GetReg() == Registration({}, NextIndex(old(index), {}))
      ensures poller.State() == Epoll.UpdateChannel(old(poller.State()), this, fd, old(index), {})
    {
      events := {};
      poller.UpdateChannel(this);
    }

    method Remove()
      modifies this`index, poller
      ensures GetReg() == Registration(events, New)
      ensures poller.State() == Epoll.RemoveChannel(old(poller.State()), this, fd, old(GetReg()))
    {
      poller.RemoveChannel(this);
    }
  }

  /** What one epoll_wait returned. */
  datatype WaitOutcome = Ready(ready: seq<Watch<Channel>>) | WaitFailed

  class EPollPoller {
    var channels: map<int, Channel>
    var kernel: map<int, Watch<Channel>>
    var failed: bool
    var eventListSize: nat

    ghost function State(): Poller<Channel>
      reads this
    {
      Poller(channels, kernel, failed)
    }

    constructor ()
      ensures State() == EmptyPoller() && eventListSize == 16
    {
      channels := map[];
      kernel := map[];
      failed := false;
      eventListSize := 16;
    }

    /** `update`: one epoll_ctl. */
    method Ctl(op: CtlOp, channel: Channel)
      modifies this
      ensures State() == EpollCtl(old(State()), op, channel.fd, Watch(channel, channel.events))
      ensures eventListSize == old(eventListSize)
    {
      var present := channel.fd in kernel;
      if present == op.CtlAdd? {
        failed := true;
      } else if op.CtlDel? {
        kernel := kernel - {channel.fd};
      } else {
        kernel := kernel[channel.fd := Watch(channel, channel.events)];
      }
    }

    method UpdateChannel(channel: Channel)
      modifies this, channel`index
      ensures channel.index == NextIndex(old(channel.index), channel.events)
      ensures State() == Epoll.UpdateChannel(old(State()), channel, channel.fd, old(channel.index), channel.events)
      ensures eventListSize == old(eventListSize)
    {
      if channel.index.New? || channel.index.Deleted? {
        channels := channels[channel.fd := channel];
        channel.index := Added;
        Ctl(CtlAdd, channel);
      } else if channel.IsNoneEvent() {
        Ctl(CtlDel, channel);
        channel.index := Deleted;
      } else {
        Ctl(CtlMod, channel);
      }
    }

    method RemoveChannel(channel: Channel)
      modifies this, channel`index
      ensures channel.index == New
      ensures State() == Epoll.RemoveChannel(old(State()), channel, channel.fd, old(channel.GetReg()))
      ensures eventListSize == old(eventListSize)
    {
      channels := channels - {channel.fd};
      if channel.index.Added? {
        Ctl(CtlDel, channel);
      }
      channel.index := New;
    }

    method HasChannel(channel: Channel) returns (has: bool)
      ensures has <==> InMap(State(), channel, channel.fd)
    {
      has := channel.fd in channels && channels[channel.fd] == channel;
    }

    /** epoll_wait reports at most `events_.size()` watched descriptors, each once, with the events
        asked for or an error or hang-up. */
    ghost predicate MayReport(ready: seq<Watch<Channel>>)
      reads this
    {
      && |ready| <= eventListSize
      && (forall i :: 0 <= i < |ready| ==> InKernel(State(), ready[i].channel, ready[i].channel.fd))
      && (forall i :: 0 <= i < |ready| ==> ready[i].mask <= kernel[ready[i].channel.fd].mask + {Err, Hup})
      && (forall i, j :: 0 <= i < j < |ready| ==> ready[i].channel != ready[j].channel)
    }

    /** `poll`: every channel handed to the loop is watched by the kernel and carries the events
        reported for it; the event list doubles when it was filled. */
    method Poll(outcome: WaitOutcome) returns (active: seq<Channel>)
      requires outcome.Ready? ==> MayReport(outcome.ready)
      modifies this`eventListSize, (if outcome.Ready? then set w | w in outcome.ready :: w.channel else {})`revents
      ensures State() == old(State())
      ensures outcome.WaitFailed? ==> active == []
      ensures outcome.Ready? ==> |active| == |outcome.ready|
      ensures outcome.Ready? ==> forall i :: 0 <= i < |active| ==>
                && active[i] == outcome.ready[i].channel && active[i].revents == outcome.ready[i].mask
                && InKernel(State(), active[i], active[i].fd)
      ensures eventListSize == if |active| > 0 && |active| == old(eventListSize) then 2 * old(eventListSize)
                               else old(eventListSize)
    {
      active := [];
      if outcome.Ready? && |outcome.ready| > 0 {
        active := FillActiveChannels(outcome.ready);
        if |outcome.ready| == eventListSize {
          eventListSize := eventListSize * 2;
        }
      }
    }

    method FillActiveChannels(ready: seq<Watch<Channel>>) returns (active: seq<Channel>)
      requires forall i, j :: 0 <= i < j < |ready| ==> ready[i].channel != ready[j].channel
      modifies (set w | w in ready :: w.channel)`revents
      ensures |active| == |ready|
      ensures forall i :: 0 <= i < |active| ==> active[i] == ready[i].channel && active[i].revents == ready[i].mask
    {
      active := [];
      var i := 0;
      while i < |ready|
        invariant 0 <= i <= |ready| && |active| == i
        invariant forall k :: 0 <= k < i ==> active[k] == ready[k].channel && active[k].revents == ready[k].mask
      {
        assert ready[i] in ready;
        ready[i].channel.revents := ready[i].mask;
        active := active + [ready[i].channel];
        i := i + 1;
      }
    }
  }
}
