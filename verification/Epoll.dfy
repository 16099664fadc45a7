/** The poller of src/EPollPoller.cc as functions on values: the map `channels_`, the kernel's
    interest set, and the registration (`events_`, `index_`) a channel carries. A channel is named by
    a value of type C, so that the same functions serve the heap classes and the reactor model. */
module Epoll {

  datatype Event = In | Pri | Out | Err | Hup

  type Mask = set<Event>

  const READ_EVENT: Mask := {In, Pri}
  const WRITE_EVENT: Mask := {Out}

  /** kNew, kAdded, kDeleted. */
  datatype Index = New | Added | Deleted

  datatype Registration = Registration(events: Mask, index: Index)

  const UNREGISTERED := Registration({}, New)

  /** An entry of the kernel's interest set: the channel pointer stored with it and its mask. */
  datatype Watch<C> = Watch(channel: C, mask: Mask)

  /** `failed` records that some epoll_ctl was refused: for ADD and MOD the program then exits. */
  datatype Poller<C> = Poller(channels: map<int, C>, kernel: map<int, Watch<C>>, failed: bool)

  function EmptyPoller<C>(): Poller<C> { Poller(map[], map[], false) }

  datatype CtlOp = CtlAdd | CtlMod | CtlDel

  /** epoll_ctl: ADD needs the descriptor absent, MOD and DEL need it present. */
  function EpollCtl<C>(p: Poller<C>, op: CtlOp, fd: int, w: Watch<C>): Poller<C> {
    match op
    case CtlAdd => if fd in p.kernel then p.(failed := true) else p.(kernel := p.kernel[fd := w])
    case CtlMod => if fd in p.kernel then p.(kernel := p.kernel[fd := w]) else p.(failed := true)
    case CtlDel => if fd in p.kernel then p.(kernel := p.kernel - {fd}) else p.(failed := true)
  }

  function NextIndex(index: Index, events: Mask): Index {
    if index.Added? && events == {} then Deleted else Added
  }

  function UpdateChannel<C>(p: Poller<C>, me: C, fd: int, index: Index, events: Mask): Poller<C> {
    if index.New? || index.Deleted? then
      EpollCtl(p.(channels := p.channels[fd := me]), CtlAdd, fd, Watch(me, events))
    else if events == {} then EpollCtl(p, CtlDel, fd, Watch(me, events))
    else EpollCtl(p, CtlMod, fd, Watch(me, events))
  }

  function RemoveChannel<C>(p: Poller<C>, me: C, fd: int, reg: Registration): Poller<C> {
    var q := p.(channels := p.channels - {fd});
    if reg.index.Added? then EpollCtl(q, CtlDel, fd, Watch(me, reg.events)) else q
  }

  // ---------------------------------------------------------------------------------------------
  // Agreement between index_, channels_ and the kernel.

  ghost predicate InMap<C>(p: Poller<C>, me: C, fd: int) { fd in p.channels && p.channels[fd] == me }

  ghost predicate InKernel<C>(p: Poller<C>, me: C, fd: int) { fd in p.kernel && p.kernel[fd].channel == me }

  /** kAdded iff the kernel holds the channel, then with the last submitted mask; kNew iff it is in
      neither place; hence kDeleted iff only in `channels_`. */
  ghost predicate Agrees<C>(p: Poller<C>, me: C, fd: int, reg: Registration) {
    && (reg.index.Added? <==> InKernel(p, me, fd))
    && (reg.index.Added? ==> p.kernel[fd].mask == reg.events)
    && (reg.index.New? <==> !InMap(p, me, fd))
  }

  /** No other channel uses this descriptor in this poller. */
  ghost predicate Exclusive<C>(p: Poller<C>, me: C, fd: int) {
    && (fd in p.channels ==> p.channels[fd] == me)
    && (fd in p.kernel ==> p.kernel[fd].channel == me)
  }

  ghost predicate SameElsewhere<C>(p: Poller<C>, q: Poller<C>, fd: int) {
    && (forall k :: k != fd ==> (k in p.channels <==> k in q.channels) && (k in p.kernel <==> k in q.kernel))
    && (forall k :: k != fd && k in p.channels ==> p.channels[k] == q.channels[k])
    && (forall k :: k != fd && k in p.kernel ==> p.kernel[k] == q.kernel[k])
  }

  /** Every ADD finds the descriptor absent and every MOD or DEL finds it present; other descriptors
      are not touched. */
  lemma UpdateKeepsAgreement<C>(p: Poller<C>, me: C, fd: int, reg: Registration, events: Mask)
    requires Agrees(p, me, fd, reg) && Exclusive(p, me, fd)
    ensures var q := UpdateChannel(p, me, fd, reg.index, events);
            && Agrees(q, me, fd, Registration(events, NextIndex(reg.index, events)))
            && Exclusive(q, me, fd) && SameElsewhere(p, q, fd) && q.failed == p.failed
  {
  }

  lemma RemoveKeepsAgreement<C>(p: Poller<C>, me: C, fd: int, reg: Registration)
    requires Agrees(p, me, fd, reg) && Exclusive(p, me, fd)
    ensures var q := RemoveChannel(p, me, fd, reg);
            && Agrees(q, me, fd, reg.(index := New))
            && Exclusive(q, me, fd) && SameElsewhere(p, q, fd) && q.failed == p.failed
  {
  }

  lemma SameElsewhereTrans<C>(p: Poller<C>, q: Poller<C>, r: Poller<C>, fd: int)
    requires SameElsewhere(p, q, fd) && SameElsewhere(q, r, fd)
    ensures SameElsewhere(p, r, fd)
  {
  }

  // ---------------------------------------------------------------------------------------------
  // Every sequence of updates and removals over distinct descriptors. A channel is named by its
  // descriptor here, which is what having distinct descriptors means.

  datatype Command = Submit(fd: int, events: Mask) | Remove(fd: int)

  datatype Setup = Setup(poller: Poller<int>, regs: map<int, Registration>)

  function Reg(s: Setup, fd: int): Registration { if fd in s.regs then s.regs[fd] else UNREGISTERED }

  function Execute(s: Setup, c: Command): Setup {
    var reg := Reg(s, c.fd);
    match c
    case Submit(fd, events) =>
      Setup(UpdateChannel(s.poller, fd, fd, reg.index, events),
            s.regs[fd := Registration(events, NextIndex(reg.index, events))])
    case Remove(fd) =>
      Setup(RemoveChannel(s.poller, fd, fd, reg), s.regs[fd := reg.(index := New)])
  }

  function ExecuteAll(cs: seq<Command>): Setup {
    if cs == [] then Setup(EmptyPoller(), map[])
    else Execute(ExecuteAll(cs[..|cs| - 1]), cs[|cs| - 1])
  }

  /** The masks submitted for `fd` since it was last removed. */
  function Submitted(cs: seq<Command>, fd: int): seq<Mask> {
    if cs == [] then []
    else
      var before, c := Submitted(cs[..|cs| - 1], fd), cs[|cs| - 1];
      if c.fd != fd then before else if c.Remove? then [] else before + [c.events]
  }

  function TrailingEmpty(ms: seq<Mask>): (n: nat)
    ensures n <= |ms|
    ensures forall k :: |ms| - n <= k < |ms| ==> ms[k] == {}
    ensures n < |ms| ==> ms[|ms| - n - 1] != {}
  {
    if ms != [] && ms[|ms| - 1] == {} then 1 + TrailingEmpty(ms[..|ms| - 1]) else 0
  }

  /** What `index_` must be, from the submitted masks alone. A channel whose masks were all empty is
      added by the first and toggled by each further one; after a nonempty mask the first empty one
      deletes it and each further one toggles. */
  function IndexOf(ms: seq<Mask>): Index {
    var n := TrailingEmpty(ms);
    if ms == [] then New
    else if n == |ms| then (if n % 2 == 1 then Added else Deleted)
    else if n % 2 == 0 then Added else Deleted
  }

  lemma IndexOfSubmit(ms: seq<Mask>, m: Mask)
    ensures IndexOf(ms + [m]) == NextIndex(IndexOf(ms), m)
  {
    assert (ms + [m])[..|ms|] == ms;
    assert TrailingEmpty(ms + [m]) == if m == {} then 1 + TrailingEmpty(ms) else 0;
  }

  ghost predicate DecidedBy(s: Setup, ms: seq<Mask>, fd: int) {
    && Reg(s, fd).index == IndexOf(ms)
    && (ms != [] ==> Reg(s, fd).events == ms[|ms| - 1])
    && (fd in s.poller.kernel <==> IndexOf(ms).Added?)
    && (fd in s.poller.kernel ==> s.poller.kernel[fd] == Watch(fd, ms[|ms| - 1]))
    && (fd in s.poller.channels <==> ms != [])
    && (fd in s.poller.channels ==> s.poller.channels[fd] == fd)
    && !s.poller.failed
  }

  lemma SubmitIsDecided(s: Setup, ms: seq<Mask>, fd: int, events: Mask)
    requires DecidedBy(s, ms, fd)
    ensures DecidedBy(Execute(s, Submit(fd, events)), ms + [events], fd)
  {
    UpdateKeepsAgreement(s.poller, fd, fd, Reg(s, fd), events);
    IndexOfSubmit(ms, events);
    hide IndexOf;
  }

  lemma RemoveIsDecided(s: Setup, ms: seq<Mask>, fd: int)
    requires DecidedBy(s, ms, fd)
    ensures DecidedBy(Execute(s, Remove(fd)), [], fd)
  {
    RemoveKeepsAgreement(s.poller, fd, fd, Reg(s, fd));
  }

  lemma OthersStayDecided(s: Setup, c: Command, ms: seq<Mask>, fd: int)
    requires DecidedBy(s, ms, fd) && fd != c.fd
    requires !Execute(s, c).poller.failed
    ensures DecidedBy(Execute(s, c), ms, fd)
  {
    hide IndexOf;
  }

  /** Registration is decided by the submitted masks: after every sequence of updates and removals,
      for every descriptor, index_ is the one computed from the masks, the kernel holds the
      descriptor exactly when that is kAdded and then with the last mask, `channels_` holds it
      exactly when something was submitted, and no epoll_ctl was ever refused. */
  lemma {:induction false} PollerAgreement(cs: seq<Command>, fd: int)
    ensures var s, ms := ExecuteAll(cs), Submitted(cs, fd);
            && Reg(s, fd).index == IndexOf(ms)
            && (ms != [] ==> Reg(s, fd).events == ms[|ms| - 1])
            && (fd in s.poller.kernel <==> IndexOf(ms).Added?)
            && (fd in s.poller.kernel ==> s.poller.kernel[fd] == Watch(fd, ms[|ms| - 1]))
            && (fd in s.poller.channels <==> ms != [])
            && (fd in s.poller.channels ==> s.poller.channels[fd] == fd)
            && !s.poller.failed
  {
    EveryCommandDecides(cs, fd);
  }

  lemma {:induction false} EveryCommandDecides(cs: seq<Command>, fd: int)
    ensures DecidedBy(ExecuteAll(cs), Submitted(cs, fd), fd)
  {
    if cs != [] {
      var rest, c := cs[..|cs| - 1], cs[|cs| - 1];
      var s, ms := ExecuteAll(rest), Submitted(rest, c.fd);
      EveryCommandDecides(rest, fd);
      EveryCommandDecides(rest, c.fd);
      match c {
        case Submit(_, events) => SubmitIsDecided(s, ms, c.fd, events);
        case Remove(_) => RemoveIsDecided(s, ms, c.fd);
      }
      assert !Execute(s, c).poller.failed;
      hide DecidedBy, Execute;
      if fd != c.fd {
        OthersStayDecided(s, c, Submitted(rest, fd), fd);
      }
    }
  }
}
