/** The class of src/EventLoop.cc, whose methods are proved against the atomic actions of module
    Loops. The thread a method is called from, and what other threads and handlers do to the loop
    while a method runs, are parameters. */
module EventLoops {
  import Sequences
  import opened Loops

  /** What a running handler or functor, or another thread meanwhile, asks of the loop. */
  datatype Call = Queues(f: Functor) | Quits

  datatype Arrival = Arrival(call: Call, foreign: bool)

  function CallQueues(call: Call): seq<Functor> { if call.Queues? then [call.f] else [] }

  function FunctorsIn(arrivals: seq<Arrival>): seq<Functor> {
    if arrivals == [] then []
    else FunctorsIn(arrivals[..|arrivals| - 1]) + CallQueues(arrivals[|arrivals| - 1].call)
  }

  predicate QuitsIn(arrivals: seq<Arrival>) {
    arrivals != [] && (QuitsIn(arrivals[..|arrivals| - 1]) || arrivals[|arrivals| - 1].call.Quits?)
  }

  /** Calls from other threads wake the loop, and so does queueing while functors run. */
  predicate WakesIn(arrivals: seq<Arrival>, calling: bool) {
    arrivals != [] &&
    (|| WakesIn(arrivals[..|arrivals| - 1], calling)
     || arrivals[|arrivals| - 1].foreign || (arrivals[|arrivals| - 1].call.Queues? && calling))
  }

  lemma {:induction false} FunctorsWake(arrivals: seq<Arrival>)
    requires FunctorsIn(arrivals) != []
    ensures WakesIn(arrivals, true)
    decreases |arrivals|
  {
    if arrivals[|arrivals| - 1].call.Quits? {
      FunctorsWake(arrivals[..|arrivals| - 1]);
    }
  }

  /** What arrives while the i-th handler, or the i-th functor of a batch, runs; the entry past the
      last one is what arrives after it. */
  function During(arrivals: seq<seq<Arrival>>, i: nat): seq<Arrival> {
    if i < |arrivals| then arrivals[i] else []
  }

  function AllDuring(arrivals: seq<seq<Arrival>>, n: nat): seq<Functor> {
    if n == 0 then [] else AllDuring(arrivals, n - 1) + FunctorsIn(During(arrivals, n - 1))
  }

  predicate QuitDuring(arrivals: seq<seq<Arrival>>, n: nat) {
    n > 0 && (QuitDuring(arrivals, n - 1) || QuitsIn(During(arrivals, n - 1)))
  }

  /** Does anything that wakes the loop arrive? */
  predicate WakesDuring(arrivals: seq<seq<Arrival>>, n: nat, calling: bool) {
    n > 0 && (WakesDuring(arrivals, n - 1, calling) || WakesIn(During(arrivals, n - 1), calling))
  }

  /** One pass of `while (!quit_)`: what arrives while the loop is in poll, what poll returns, what
      arrives during and after the handlers, what arrives during and after the functors. */
  datatype LoopTurn = LoopTurn(
    waiting: seq<Arrival>, active: seq<Source>, handlers: seq<seq<Arrival>>, batch: seq<seq<Arrival>>)

  /** What is queued when a pass swaps. */
  function Due(pending: seq<Functor>, turn: LoopTurn): seq<Functor> {
    pending + FunctorsIn(turn.waiting) + AllDuring(turn.handlers, |turn.active| + 1)
  }

  function LeftBy(pending: seq<Functor>, turn: LoopTurn): seq<Functor> {
    AllDuring(turn.batch, |Due(pending, turn)| + 1)
  }

  predicate QuitsTurn(pending: seq<Functor>, turn: LoopTurn) {
    || QuitsIn(turn.waiting) || QuitDuring(turn.handlers, |turn.active| + 1)
    || QuitDuring(turn.batch, |Due(pending, turn)| + 1)
  }

  /** Is the loop woken again once it has left poll? */
  predicate WakesTurn(pending: seq<Functor>, turn: LoopTurn) {
    || WakesDuring(turn.handlers, |turn.active| + 1, false)
    || WakesDuring(turn.batch, |Due(pending, turn)| + 1, true)
  }

  function PassesUntilQuit(pending: seq<Functor>, turns: seq<LoopTurn>): (n: nat)
    ensures n <= |turns|
    decreases |turns|
  {
    if turns == [] then 0
    else if QuitsTurn(pending, turns[0]) then 1
    else 1 + PassesUntilQuit(LeftBy(pending, turns[0]), turns[1..])
  }

  predicate EverQuits(pending: seq<Functor>, turns: seq<LoopTurn>)
    decreases |turns|
  {
    turns != [] && (QuitsTurn(pending, turns[0]) || EverQuits(LeftBy(pending, turns[0]), turns[1..]))
  }

  /** What these passes run, in order, and what they leave queued. */
  function RunBy(pending: seq<Functor>, turns: seq<LoopTurn>): seq<Functor>
    decreases |turns|
  {
    if turns == [] then [] else Due(pending, turns[0]) + RunBy(LeftBy(pending, turns[0]), turns[1..])
  }

  function LeftByAll(pending: seq<Functor>, turns: seq<LoopTurn>): seq<Functor>
    decreases |turns|
  {
    if turns == [] then pending else LeftByAll(LeftBy(pending, turns[0]), turns[1..])
  }

  /** Nothing queued before the first pass is left for a later one. */
  lemma RunByStartsWithQueue(pending: seq<Functor>, turns: seq<LoopTurn>)
    ensures turns != [] ==> pending <= RunBy(pending, turns)
  {
  }

  // What the functions above mean.

  lemma {:induction false} ArrivalsMean(arrivals: seq<Arrival>, calling: bool)
    ensures forall f :: f in FunctorsIn(arrivals) <==> exists i :: 0 <= i < |arrivals| && arrivals[i].call == Queues(f)
    ensures QuitsIn(arrivals) <==> exists i :: 0 <= i < |arrivals| && arrivals[i].call.Quits?
    ensures WakesIn(arrivals, calling) <==>
              exists i :: 0 <= i < |arrivals| && (arrivals[i].foreign || (arrivals[i].call.Queues? && calling))
    decreases |arrivals|
  {
    if arrivals != [] {
      ArrivalsMean(arrivals[..|arrivals| - 1], calling);
      assert arrivals == arrivals[..|arrivals| - 1] + [arrivals[|arrivals| - 1]];
    }
  }

  /** Calls queue in the order they are made. */
  lemma {:induction false} ArrivalsQueueInOrder(a: seq<Arrival>, b: seq<Arrival>, f: Functor, foreign: bool)
    ensures FunctorsIn(a + b) == FunctorsIn(a) + FunctorsIn(b)
    ensures FunctorsIn([Arrival(Queues(f), foreign)]) == [f]
    decreases |b|
  {
    assert [Arrival(Queues(f), foreign)][..0] == [];
    if b == [] {
      assert a + b == a;
    } else {
      assert (a + b)[..|a + b| - 1] == a + b[..|b| - 1];
      ArrivalsQueueInOrder(a, b[..|b| - 1], f, foreign);
    }
  }

  lemma InEither(a: seq<Functor>, b: seq<Functor>, f: Functor)
    ensures f in a + b <==> f in a || f in b
  {
  }

  lemma {:induction false} QueuedCameFrom(arrivals: seq<seq<Arrival>>, n: nat, f: Functor) returns (i: nat)
    requires f in AllDuring(arrivals, n)
    ensures i < n && i < |arrivals| && f in FunctorsIn(arrivals[i])
    decreases n
  {
    InEither(AllDuring(arrivals, n - 1), FunctorsIn(During(arrivals, n - 1)), f);
    if f in AllDuring(arrivals, n - 1) {
      i := QueuedCameFrom(arrivals, n - 1, f);
    } else {
      i := n - 1;
    }
  }

  lemma {:induction false} ArrivedIsQueued(arrivals: seq<seq<Arrival>>, n: nat, i: nat, f: Functor)
    requires i < n && i < |arrivals| && f in FunctorsIn(arrivals[i])
    ensures f in AllDuring(arrivals, n)
    decreases n
  {
    InEither(AllDuring(arrivals, n - 1), FunctorsIn(During(arrivals, n - 1)), f);
    if i < n - 1 {
      ArrivedIsQueued(arrivals, n - 1, i, f);
    }
  }

  lemma {:induction false} QuitDuringMeans(arrivals: seq<seq<Arrival>>, n: nat)
    ensures QuitDuring(arrivals, n) <==> exists i :: 0 <= i < n && i < |arrivals| && QuitsIn(arrivals[i])
    decreases n
  {
    if n > 0 {
      QuitDuringMeans(arrivals, n - 1);
      assert !QuitsIn([]);
    }
  }

  lemma {:induction false} WakesDuringMeans(arrivals: seq<seq<Arrival>>, n: nat, calling: bool)
    ensures WakesDuring(arrivals, n, calling) <==>
              exists i :: 0 <= i < n && i < |arrivals| && WakesIn(arrivals[i], calling)
    decreases n
  {
    if n > 0 {
      WakesDuringMeans(arrivals, n - 1, calling);
      assert !WakesIn([], calling);
    }
  }

  lemma AfterFirstPass(pending: seq<Functor>, turns: seq<LoopTurn>, i: nat)
    requires 0 < i <= |turns|
    ensures LeftByAll(pending, turns[..i]) == LeftByAll(LeftBy(pending, turns[0]), turns[1..][..i - 1])
  {
    assert turns[..i][1..] == turns[1..][..i - 1] && turns[..i] != [] && turns[..i][0] == turns[0];
  }

  /** No pass before the last during which anyone calls quit. */
  lemma {:induction false} NoQuitBeforeTheLastPass(pending: seq<Functor>, turns: seq<LoopTurn>, i: nat)
    requires i + 1 < PassesUntilQuit(pending, turns)
    ensures !QuitsTurn(LeftByAll(pending, turns[..i]), turns[i])
    decreases |turns|
  {
    hide QuitsTurn, LeftBy;
    if i == 0 {
      assert turns[..0] == [];
    } else {
      NoQuitBeforeTheLastPass(LeftBy(pending, turns[0]), turns[1..], i - 1);
      AfterFirstPass(pending, turns, i);
    }
  }

  /** The loop's last pass is one during which someone calls quit, unless nobody ever does. */
  lemma {:induction false} LastPassQuits(pending: seq<Functor>, turns: seq<LoopTurn>)
    ensures var n := PassesUntilQuit(pending, turns);
            if EverQuits(pending, turns)
            then n > 0 && QuitsTurn(LeftByAll(pending, turns[..n - 1]), turns[n - 1])
            else n == |turns| && (n > 0 ==> !QuitsTurn(LeftByAll(pending, turns[..n - 1]), turns[n - 1]))
    decreases |turns|
  {
    hide QuitsTurn, LeftBy;
    if turns == [] {
    } else if QuitsTurn(pending, turns[0]) {
      assert turns[..0] == [];
    } else {
      var n, left := PassesUntilQuit(pending, turns), LeftBy(pending, turns[0]);
      LastPassQuits(left, turns[1..]);
      if n == 1 {
        assert turns[..0] == [];
      } else {
        AfterFirstPass(pending, turns, n - 1);
      }
    }
  }

  // ---------------------------------------------------------------------------------------------

  /** What one handler leaves of the eventfd counter. */
  lemma OneHandlerDrains(active: seq<Source>, handlers: seq<seq<Arrival>>, i: nat, was: nat, now: nat)
    requires i < |active| && (WakeupFd in active[..i] && !WakesDuring(handlers, i, false) ==> was == 0)
    requires now > 0 <==> (if active[i].WakeupFd? then false else was > 0) || WakesIn(During(handlers, i), false)
    ensures WakeupFd in active[..i + 1] && !WakesDuring(handlers, i + 1, false) ==> now == 0
  {
    assert active[..i + 1] == active[..i] + [active[i]];
  }

  lemma NoPasses(pending: seq<Functor>)
    ensures RunBy(pending, []) == [] && LeftByAll(pending, []) == pending
    ensures PassesUntilQuit(pending, []) == 0 && !EverQuits(pending, [])
  {
  }

  /** One pass, in the middle of a run of them. */
  lemma OnePass(ran: seq<Functor>, pending: seq<Functor>, turns: seq<LoopTurn>, used: seq<LoopTurn>, i: nat)
    requires i < |used| <= |turns| && used[i] == turns[i]
    ensures var left, quits := LeftBy(pending, turns[i]), QuitsTurn(pending, turns[i]);
            && ran + Due(pending, turns[i]) + RunBy(left, used[i + 1..]) == ran + RunBy(pending, used[i..])
            && LeftByAll(left, used[i + 1..]) == LeftByAll(pending, used[i..])
            && PassesUntilQuit(pending, turns[i..]) == (if quits then 1 else 1 + PassesUntilQuit(left, turns[i + 1..]))
            && (EverQuits(pending, turns[i..]) <==> quits || EverQuits(left, turns[i + 1..]))
  {
    hide QuitsTurn, LeftBy, Due;
    assert turns[i..][1..] == turns[i + 1..] && used[i..][1..] == used[i + 1..];
    Sequences.Associate(ran, Due(pending, turns[i]), RunBy(LeftBy(pending, turns[i]), used[i + 1..]));
  }

  lemma BetweenBatches(l: Loop)
    requires LoopOk(l) && !l.pc.Running?
    ensures l.executed + l.pending == l.pushed && l.batch == [] && l.next == 0 && (l.calling <==> l.pc.Calling?)
  {
    FullyRun(l);
  }

  lemma NothingBatched(l: Loop)
    requires !l.pc.Running? && l.batch == [] && l.next == 0 && l.at <= |l.active| && (l.calling <==> l.pc.Calling?)
    requires l.executed + l.pending == l.pushed
    ensures LoopOk(l)
  {
    assert l.executed + l.batch[0..] == l.executed;
  }

  class EventLoop {
    var quit: bool
    var callingPendingFunctors: bool
    var wakeups: nat // the counter of wakeupFd_
    var pendingFunctors: seq<Functor>
    var activeChannels: seq<Source>
    ghost var pc: Pc
    ghost var batch: seq<Functor>
    ghost var next: nat
    ghost var at: nat
    ghost var pushed: seq<Functor>
    ghost var executed: seq<Functor>

    ghost function View(): Loop
      reads this
    {
      Loop(pc, quit, callingPendingFunctors, wakeups, pendingFunctors, batch, next,
           activeChannels, at, pushed, executed)
    }

    constructor ()
      ensures Started(View()) && View() == Loop(AtTest, false, false, 0, [], [], 0, [], 0, [], [])
    {
      quit, callingPendingFunctors, wakeups, pendingFunctors, activeChannels := false, false, 0, [], [];
      pc, batch, next, at, pushed, executed := AtTest, [], 0, 0, [], [];
    }

    method Wakeup()
      modifies this`wakeups
      ensures View() == WakeUp(old(View()))
    {
      if wakeups < EFD_MAX {
        wakeups := wakeups + 1;
      }
    }

    method HandleRead()
      modifies this`wakeups
      ensures View() == old(View()).(efd := 0)
    {
      wakeups := 0;
    }

    /** The critical section, then the wakeup if the caller is another thread or the loop is running
        its functors. */
    method QueueInLoop(f: Functor, inLoopThread: bool)
      modifies this`pendingFunctors, this`wakeups, this`pushed
      ensures var p := Push(old(View()), f);
              View() == if !inLoopThread || p.calling then WakeUp(p) else p
    {
      pendingFunctors := pendingFunctors + [f];
      pushed := pushed + [f];
      if !inLoopThread || callingPendingFunctors {
        Wakeup();
      }
    }

    /** In the loop's own thread the functor runs at once, without touching the queue. */
    method RunInLoop(f: Functor, inLoopThread: bool) returns (inline: bool)
      modifies this`pendingFunctors, this`wakeups, this`pushed
      ensures inline == inLoopThread
      ensures View() == if inLoopThread then old(View()) else WakeUp(Push(old(View()), f))
    {
      inline := inLoopThread;
      if !inLoopThread {
        QueueInLoop(f, inLoopThread);
      }
    }

    method Quit(inLoopThread: bool)
      modifies this`quit, this`wakeups
      ensures View() == if inLoopThread then SetQuit(old(View())) else WakeUp(SetQuit(old(View())))
    {
      quit := true;
      if !inLoopThread {
        Wakeup();
      }
    }

    ghost predicate Received(before: Loop, arrivals: seq<Arrival>)
      reads this
    {
      && pendingFunctors == before.pending + FunctorsIn(arrivals) && pushed == before.pushed + FunctorsIn(arrivals)
      && (quit <==> before.quit || QuitsIn(arrivals))
      && (wakeups > 0 <==> before.efd > 0 || WakesIn(arrivals, callingPendingFunctors))
    }

    method Receive(arrivals: seq<Arrival>)
      modifies this`quit, this`pendingFunctors, this`wakeups, this`pushed
      ensures Received(old(View()), arrivals)
    {
      var i := 0;
      while i < |arrivals|
        invariant 0 <= i <= |arrivals| && Received(old(View()), arrivals[..i])
      {
        ReceiveOne(arrivals, i, old(View()));
        i := i + 1;
      }
      assert arrivals[..|arrivals|] == arrivals;
    }

    method ReceiveOne(arrivals: seq<Arrival>, i: nat, ghost before: Loop)
      requires i < |arrivals| && Received(before, arrivals[..i])
      modifies this`quit, this`pendingFunctors, this`wakeups, this`pushed
      ensures Received(before, arrivals[..i + 1])
    {
      var arrival := arrivals[i];
      assert arrivals[..i + 1][..i] == arrivals[..i];
      Sequences.Associate(before.pending, FunctorsIn(arrivals[..i]), CallQueues(arrival.call));
      Sequences.Associate(before.pushed, FunctorsIn(arrivals[..i]), CallQueues(arrival.call));
      match arrival.call {
        case Queues(f) => QueueInLoop(f, !arrival.foreign);
        case Quits => Quit(!arrival.foreign);
      }
    }

    /** Runs exactly what was queued at the swap, in order; whatever is queued meanwhile waits, and the
        loop has been woken for it. */
    method DoPendingFunctors(arrivals: seq<seq<Arrival>>)
      requires LoopOk(View()) && pc.Dispatching?
      modifies this
      ensures LoopOk(View()) && pc.AtTest?
      ensures executed == old(executed) + old(pendingFunctors)
      ensures pendingFunctors == AllDuring(arrivals, |old(pendingFunctors)| + 1)
      ensures pushed == old(pushed) + pendingFunctors
      ensures quit <==> old(quit) || QuitDuring(arrivals, |old(pendingFunctors)| + 1)
      ensures wakeups > 0 <==> old(wakeups) > 0 || WakesDuring(arrivals, |old(pendingFunctors)| + 1, true)
      ensures pendingFunctors != [] ==> wakeups > 0
    {
      BetweenBatches(View());
      hide LoopOk, AllDuring, QuitDuring, WakesDuring;
      var functors := SwapOut();
      RunBatch(functors, arrivals);
      callingPendingFunctors, pc, batch, next := false, AtTest, [], 0;
      NothingBatched(View());
    }

    method SwapOut() returns (functors: seq<Functor>)
      modifies this`callingPendingFunctors, this`pc, this`pendingFunctors, this`batch, this`next
      ensures functors == old(pendingFunctors) && View() == Swap(StartCalling(old(View())))
    {
      callingPendingFunctors, pc := true, Calling;
      functors := pendingFunctors;
      pendingFunctors := [];
      batch, next, pc := functors, 0, Running;
    }

    method RunBatch(functors: seq<Functor>, arrivals: seq<seq<Arrival>>)
      requires callingPendingFunctors && next == 0 && pendingFunctors == []
      modifies this`quit, this`pendingFunctors, this`wakeups, this`pushed, this`executed, this`next
      ensures executed == old(executed) + functors && next == |functors|
      ensures pendingFunctors == AllDuring(arrivals, |functors| + 1)
      ensures pushed == old(pushed) + pendingFunctors
      ensures quit <==> old(quit) || QuitDuring(arrivals, |functors| + 1)
      ensures wakeups > 0 <==> old(wakeups) > 0 || WakesDuring(arrivals, |functors| + 1, true)
      ensures pendingFunctors != [] ==> wakeups > 0
    {
      assert RanSome(functors, 0, executed) && Queued(arrivals, 0, pushed, quit, wakeups > 0);
      hide RanSome, Queued;
      var i := 0;
      while i < |functors|
        invariant 0 <= i <= |functors|
        invariant RanSome(functors, i, old(executed)) && Queued(arrivals, i, old(pushed), old(quit), old(wakeups > 0))
      {
        RunOne(functors, i, old(executed));
        Meanwhile(arrivals, i, old(pushed), old(quit), old(wakeups > 0));
        i := i + 1;
      }
      Meanwhile(arrivals, |functors|, old(pushed), old(quit), old(wakeups > 0));
      BatchDone(functors, arrivals, old(executed), old(pushed), old(quit), old(wakeups > 0));
    }

    lemma BatchDone(functors: seq<Functor>, arrivals: seq<seq<Arrival>>, ran: seq<Functor>, before: seq<Functor>,
                    quitBefore: bool, wokenBefore: bool)
      requires RanSome(functors, |functors|, ran) && Queued(arrivals, |functors| + 1, before, quitBefore, wokenBefore)
      ensures executed == ran + functors && next == |functors|
      ensures pendingFunctors == AllDuring(arrivals, |functors| + 1) && pushed == before + pendingFunctors
      ensures quit <==> quitBefore || QuitDuring(arrivals, |functors| + 1)
      ensures wakeups > 0 <==> wokenBefore || WakesDuring(arrivals, |functors| + 1, true)
      ensures pendingFunctors != [] ==> wakeups > 0
    {
      assert functors[..|functors|] == functors;
    }

    /** The first i functors have run. */
    ghost predicate RanSome(functors: seq<Functor>, i: nat, before: seq<Functor>)
      reads this`executed, this`next
    {
      i <= |functors| && executed == before + functors[..i] && next == i
    }

    /** What arrived up to the i-th point of a batch is queued, and the loop was woken for it. */
    ghost predicate Queued(
      arrivals: seq<seq<Arrival>>, i: nat, before: seq<Functor>, quitBefore: bool, wokenBefore: bool)
      reads this`callingPendingFunctors, this`pendingFunctors, this`pushed, this`quit, this`wakeups
    {
      && callingPendingFunctors && pendingFunctors == AllDuring(arrivals, i) && pushed == before + pendingFunctors
      && (quit <==> quitBefore || QuitDuring(arrivals, i))
      && (wakeups > 0 <==> wokenBefore || WakesDuring(arrivals, i, true))
      && (pendingFunctors != [] ==> wakeups > 0)
    }

    method RunOne(functors: seq<Functor>, i: nat, ghost before: seq<Functor>)
      requires i < |functors| && RanSome(functors, i, before)
      modifies this`executed, this`next
      ensures RanSome(functors, i + 1, before)
    {
      executed, next := executed + [functors[i]], next + 1;
    }

    method Meanwhile(arrivals: seq<seq<Arrival>>, i: nat, ghost before: seq<Functor>, ghost quitBefore: bool,
                     ghost wokenBefore: bool)
      requires Queued(arrivals, i, before, quitBefore, wokenBefore)
      modifies this`quit, this`pendingFunctors, this`wakeups, this`pushed
      ensures Queued(arrivals, i + 1, before, quitBefore, wokenBefore)
    {
      ghost var q := FunctorsIn(During(arrivals, i));
      Receive(During(arrivals, i));
      Sequences.Associate(before, AllDuring(arrivals, i), q);
      if q != [] {
        FunctorsWake(During(arrivals, i));
      }
    }

    /** The dispatch loop over activeChannels_. */
    method DispatchAll(handlers: seq<seq<Arrival>>)
      requires LoopOk(View()) && pc.Dispatching? && at == 0
      modifies this`quit, this`wakeups, this`pendingFunctors, this`pushed, this`at
      ensures LoopOk(View()) && at == |activeChannels|
      ensures pendingFunctors == old(pendingFunctors) + AllDuring(handlers, |activeChannels| + 1)
      ensures quit <==> old(quit) || QuitDuring(handlers, |activeChannels| + 1)
      ensures WakeupFd in activeChannels && !WakesDuring(handlers, |activeChannels| + 1, false) ==> wakeups == 0
    {
      BetweenBatches(View());
      hide LoopOk;
      HandleAll(handlers);
      LastArrivals(handlers, old(pendingFunctors), old(quit));
      NothingBatched(View());
    }

    method HandleAll(handlers: seq<seq<Arrival>>)
      requires executed + pendingFunctors == pushed && !callingPendingFunctors && at == 0
      modifies this`quit, this`wakeups, this`pendingFunctors, this`pushed, this`at
      ensures at == |activeChannels| && Drained(handlers, |activeChannels|)
      ensures Served(handlers, |activeChannels|, old(pendingFunctors), old(quit))
    {
      assert Served(handlers, 0, pendingFunctors, quit) && Drained(handlers, 0);
      hide Served, Drained;
      var i := 0;
      while i < |activeChannels|
        invariant 0 <= i == at <= |activeChannels| && Served(handlers, i, old(pendingFunctors), old(quit))
        invariant Drained(handlers, i)
      {
        HandleActive(handlers, i, old(pendingFunctors), old(quit));
        i := i + 1;
      }
    }

    method LastArrivals(handlers: seq<seq<Arrival>>, ghost before: seq<Functor>, ghost quitBefore: bool)
      requires Served(handlers, |activeChannels|, before, quitBefore) && Drained(handlers, |activeChannels|)
      modifies this`quit, this`wakeups, this`pendingFunctors, this`pushed
      ensures pendingFunctors == before + AllDuring(handlers, |activeChannels| + 1)
      ensures executed + pendingFunctors == pushed
      ensures quit <==> quitBefore || QuitDuring(handlers, |activeChannels| + 1)
      ensures WakeupFd in activeChannels && !WakesDuring(handlers, |activeChannels| + 1, false) ==> wakeups == 0
    {
      assert activeChannels[..|activeChannels|] == activeChannels;
      Arrive(handlers, |activeChannels|, before, quitBefore);
    }

    ghost predicate Served(handlers: seq<seq<Arrival>>, n: nat, before: seq<Functor>, quitBefore: bool)
      reads this`pendingFunctors, this`executed, this`pushed, this`quit
    {
      && pendingFunctors == before + AllDuring(handlers, n) && executed + pendingFunctors == pushed
      && (quit <==> quitBefore || QuitDuring(handlers, n))
    }

    /** Once the wakeup channel has been handled, only a new wakeup leaves the counter positive. */
    ghost predicate Drained(handlers: seq<seq<Arrival>>, n: nat)
      reads this`callingPendingFunctors, this`activeChannels, this`wakeups
    {
      && !callingPendingFunctors && n <= |activeChannels|
      && (WakeupFd in activeChannels[..n] && !WakesDuring(handlers, n, false) ==> wakeups == 0)
    }

    method HandleActive(handlers: seq<seq<Arrival>>, i: nat, ghost before: seq<Functor>, ghost quitBefore: bool)
      requires i == at < |activeChannels| && Served(handlers, i, before, quitBefore) && Drained(handlers, i)
      modifies this`quit, this`wakeups, this`pendingFunctors, this`pushed, this`at
      ensures at == i + 1 && Served(handlers, i + 1, before, quitBefore) && Drained(handlers, i + 1)
    {
      ghost var was := wakeups;
      hide Served, WakesDuring, WakesIn;
      if activeChannels[i].WakeupFd? {
        HandleRead();
      }
      Arrive(handlers, i, before, quitBefore);
      OneHandlerDrains(activeChannels, handlers, i, was, wakeups);
      at := at + 1;
    }

    /** What arrives during one handler. */
    method Arrive(handlers: seq<seq<Arrival>>, i: nat, ghost before: seq<Functor>, ghost quitBefore: bool)
      requires Served(handlers, i, before, quitBefore)
      modifies this`quit, this`wakeups, this`pendingFunctors, this`pushed
      ensures Served(handlers, i + 1, before, quitBefore)
      ensures wakeups > 0 <==> old(wakeups) > 0 || WakesIn(During(handlers, i), callingPendingFunctors)
    {
      ghost var q := FunctorsIn(During(handlers, i));
      Sequences.Associate(executed, pendingFunctors, q);
      Sequences.Associate(before, AllDuring(handlers, i), q);
      Receive(During(handlers, i));
    }

    /** `loop()`: an earlier quit is forgotten; the loop ends after the first pass during which anyone
        calls quit, be it a handler, a functor or another thread; each pass runs what is queued when it
        swaps, and what is queued later waits for the next. */
    method RunLoop(turns: seq<LoopTurn>) returns (passes: nat)
      requires LoopOk(View()) && pc.AtTest?
      modifies this
      ensures LoopOk(View()) && passes == PassesUntilQuit(old(pendingFunctors), turns)
      ensures quit <==> EverQuits(old(pendingFunctors), turns)
      ensures pc == if quit then Exited else AtTest
      ensures executed == old(executed) + RunBy(old(pendingFunctors), turns[..passes])
      ensures pendingFunctors == LeftByAll(old(pendingFunctors), turns[..passes])
      ensures executed + pendingFunctors == pushed
      ensures passes > 0 ==> old(executed) + old(pendingFunctors) <= executed
      ensures passes > 0 && pendingFunctors != [] ==> wakeups > 0
    {
      quit := false;
      passes := 0;
      ghost var q, ran := pendingFunctors, executed;
      ghost var used := turns[..PassesUntilQuit(q, turns)];
      SettingOut(turns, used);
      hide OnCourse, PassesUntilQuit, EverQuits, RunBy, LeftByAll, LoopOk;
      while !quit && passes < |turns|
        invariant 0 <= passes <= |turns| && LoopOk(View()) && pc.AtTest? && OnCourse(turns, used, passes, q, ran)
        invariant passes > 0 && pendingFunctors != [] ==> wakeups > 0
      {
        MakePass(turns, used, passes, q, ran);
        passes := passes + 1;
      }
      Arrived(turns, used, passes, q, ran);
      RunByStartsWithQueue(q, used);
      BetweenBatches(View());
      if quit {
        LeaveLoop();
      }
    }

    method LeaveLoop()
      requires LoopOk(View()) && pc.AtTest?
      modifies this`pc
      ensures LoopOk(View()) && pc.Exited?
    {
      pc := Exited;
    }

    /** The first passes have been made, and the rest of `used` is still to be made. */
    ghost predicate OnCourse(turns: seq<LoopTurn>, used: seq<LoopTurn>, passes: nat, q: seq<Functor>, ran: seq<Functor>)
      reads this`quit, this`pendingFunctors, this`executed
    {
      && passes <= |used| <= |turns| && used == turns[..|used|]
      && (if quit then passes == |used| else passes + PassesUntilQuit(pendingFunctors, turns[passes..]) == |used|)
      && (EverQuits(q, turns) <==> quit || EverQuits(pendingFunctors, turns[passes..]))
      && executed + RunBy(pendingFunctors, used[passes..]) == ran + RunBy(q, used)
      && LeftByAll(pendingFunctors, used[passes..]) == LeftByAll(q, used)
    }

    lemma SettingOut(turns: seq<LoopTurn>, used: seq<LoopTurn>)
      requires !quit && used == turns[..PassesUntilQuit(pendingFunctors, turns)]
      ensures OnCourse(turns, used, 0, pendingFunctors, executed)
    {
      assert turns[0..] == turns && used[0..] == used;
    }

    lemma Arrived(turns: seq<LoopTurn>, used: seq<LoopTurn>, passes: nat, q: seq<Functor>, ran: seq<Functor>)
      requires OnCourse(turns, used, passes, q, ran) && (quit || passes == |turns|)
      ensures passes == |used| && used == turns[..passes] && (quit <==> EverQuits(q, turns))
      ensures executed == ran + RunBy(q, used) && pendingFunctors == LeftByAll(q, used)
    {
      assert turns[|turns|..] == [] && used[|used|..] == [];
      NoPasses(pendingFunctors);
      hide PassesUntilQuit, EverQuits, RunBy, LeftByAll;
      assert executed + [] == executed;
    }

    method MakePass(turns: seq<LoopTurn>, ghost used: seq<LoopTurn>, passes: nat,
                    ghost q: seq<Functor>, ghost ran: seq<Functor>)
      requires LoopOk(View()) && pc.AtTest? && !quit && passes < |turns| && OnCourse(turns, used, passes, q, ran)
      modifies this
      ensures LoopOk(View()) && pc.AtTest? && OnCourse(turns, used, passes + 1, q, ran)
      ensures pendingFunctors != [] ==> wakeups > 0
    {
      StillToMake(turns, used, passes, q, ran);
      hide PassesUntilQuit, EverQuits, RunBy, LeftByAll, LoopOk, QuitsTurn, WakesTurn, Due, LeftBy;
      OnePass(executed, pendingFunctors, turns, used, passes);
      RunTurn(turns[passes]);
    }

    lemma StillToMake(turns: seq<LoopTurn>, used: seq<LoopTurn>, passes: nat, q: seq<Functor>, ran: seq<Functor>)
      requires OnCourse(turns, used, passes, q, ran) && !quit && passes < |turns|
      ensures passes < |used| && used[passes] == turns[passes]
    {
      assert turns[passes..] != [];
    }

    method RunTurn(turn: LoopTurn)
      requires LoopOk(View()) && pc.AtTest? && !quit
      modifies this
      ensures LoopOk(View()) && pc.AtTest?
      ensures executed == old(executed) + Due(old(pendingFunctors), turn)
      ensures pendingFunctors == LeftBy(old(pendingFunctors), turn)
      ensures quit <==> QuitsTurn(old(pendingFunctors), turn)
      ensures WakeupFd in turn.active && !WakesTurn(old(pendingFunctors), turn) ==> wakeups == 0
      ensures pendingFunctors != [] ==> wakeups > 0
    {
      StayInPoll(turn.waiting);
      hide LoopOk, AllDuring, QuitDuring, WakesDuring;
      activeChannels, at, pc := turn.active, 0, Dispatching;
      NothingBatched(View());
      DispatchAll(turn.handlers);
      assert pendingFunctors == Due(old(pendingFunctors), turn);
      hide Due;
      DoPendingFunctors(turn.batch);
    }

    /** From the loop test until poll returns. */
    method StayInPoll(waiting: seq<Arrival>)
      requires LoopOk(View()) && pc.AtTest? && !quit
      modifies this
      ensures pc.AtPoll? && batch == [] && next == 0 && !callingPendingFunctors
      ensures executed == old(executed) && executed + pendingFunctors == pushed
      ensures pendingFunctors == old(pendingFunctors) + FunctorsIn(waiting) && (quit <==> QuitsIn(waiting))
    {
      BetweenBatches(View());
      hide LoopOk;
      Sequences.Associate(executed, pendingFunctors, FunctorsIn(waiting));
      activeChannels, at, pc := [], 0, AtPoll;
      Receive(waiting);
    }
  }
}
