/** nwl::EventLoop: one loop thread polling, dispatching and running posted functors, while any number
    of other threads post, wake it up and ask it to quit. Each step is one atomic action. */
module EventLoop {
  import C = Connection

  type Tid = nat
  type ChannelId = nat

  /** Posted work: for a connection, or anything else. */
  datatype Functor = Task(id: nat) | For(conn: ChannelId, work: C.Functor)

  /** A functor with the thread that posted it. */
  datatype Post = Post(owner: Tid, f: Functor)

  const LOOP: Tid := 0

  datatype Phase =
    | Created      // loop() not entered yet
    | Top          // about to test quit_
    | Polling      // in, or about to enter, epoll_wait
    | Dispatching  // traversing activeChannels_
    | Swapping     // callingPendingFunctors_ is set, the queue not yet swapped out
    | Running      // executing the swapped-out batch
    | Exited

  datatype Loop = Loop(
    phase: Phase,
    pending: seq<Post>, batch: seq<Post>, calling: bool,
    eventfd: nat, quit: bool,
    active: seq<ChannelId>,  // the rest of activeChannels_, from the channel being handled on
    wakeActive: bool,        // the wakeup channel is among the active ones
    inFunctor: bool,         // a functor of the batch is executing
    oweWake: bool,           // the loop thread pushed and has still to write its wakeup
    mid: map<Tid, Post>,     // other threads between the push and the wakeup of queueInLoop
    quitting: set<Tid>,      // other threads between storing quit_ and their wakeup
    // histories
    pushed: seq<Post>, executed: seq<Post>, rounds: nat)

  const INIT := Loop(Created, [], [], false, 0, false, [], false, false, false, map[], {}, [], [], 0)

  datatype Event =
    | Push(t: Tid, f: Functor)   // another thread, queueInLoop: the locked push_back
    | Wake(t: Tid)               // and the wakeup() that follows
    | SetQuit(t: Tid)            // another thread, quit(): the store
    | QuitWake(t: Tid)           // and the wakeup() that follows
    | Enter                      // loop() starts: quit_ is reset
    | TestQuit
    | PollReturns(active: seq<ChannelId>, wake: bool)
    | HandleWakeup               // handleWakeupRead
    | HandleNext                 // the handlers of the channel at the head are done
    | LoopPush(f: Functor)       // queueInLoop on the loop thread: before loop(), in a handler or in a functor
    | LoopWake
    | LoopQuit                   // quit() on the loop thread
    | EndDispatch
    | Swap
    | Begin                      // the next functor of the batch starts
    | Finish                     // and returns
    | EndBatch

  /** The loop thread is in code of its own: before loop(), in a handler or in a functor. */
  predicate InCallback(s: Loop) {
    !s.oweWake && (s.phase in {Created, Dispatching} || s.inFunctor)
  }

  function PushPost(s: Loop, p: Post): Loop {
    s.(pending := s.pending + [p], pushed := s.pushed + [p])
  }

  /** Steps that are not enabled leave the state alone. */
  function Step(s: Loop, ev: Event): Loop {
    match ev
    case Push(t, f) =>
      if t == LOOP || t in s.mid || t in s.quitting then s else
        PushPost(s, Post(t, f)).(mid := s.mid[t := Post(t, f)])
    case Wake(t) => if t !in s.mid then s else s.(eventfd := s.eventfd + 1, mid := s.mid - {t})
    case SetQuit(t) => if t == LOOP || t in s.mid then s else s.(quit := true, quitting := s.quitting + {t})
    case QuitWake(t) => if t !in s.quitting then s else s.(eventfd := s.eventfd + 1, quitting := s.quitting - {t})
    case Enter => if s.phase != Created then s else s.(phase := Top, quit := false)
    case TestQuit =>
      if s.phase != Top then s else s.(phase := if s.quit then Exited else Polling)
    case PollReturns(active, wake) =>
      if s.phase != Polling || (wake && s.eventfd == 0) then s else
        s.(phase := Dispatching, active := active, wakeActive := wake)
    case HandleWakeup =>
      if s.phase != Dispatching || !s.wakeActive then s else s.(eventfd := 0, wakeActive := false)
    case HandleNext => if s.phase != Dispatching || s.active == [] then s else s.(active := s.active[1..])
    case LoopPush(f) =>
      if !InCallback(s) then s else
        PushPost(s, Post(LOOP, f)).(oweWake := s.calling)
    case LoopWake => if !s.oweWake then s else s.(eventfd := s.eventfd + 1, oweWake := false)
    case LoopQuit => if !InCallback(s) then s else s.(quit := true)
    case EndDispatch =>
      if s.phase != Dispatching || s.active != [] then s else s.(phase := Swapping, calling := true)
    case Swap => if s.phase != Swapping then s else s.(phase := Running, batch := s.pending, pending := [])
    case Begin =>
      if s.phase != Running || s.inFunctor || s.batch == [] then s else
        s.(batch := s.batch[1..], executed := s.executed + [s.batch[0]], inFunctor := true)
    case Finish => if !s.inFunctor || s.oweWake then s else s.(inFunctor := false)
    case EndBatch =>
      if s.phase != Running || s.inFunctor || s.batch != [] then s else
        s.(phase := Top, calling := false, rounds := s.rounds + 1)
  }

  function RunFrom(s: Loop, evs: seq<Event>): Loop {
    if evs == [] then s else Step(RunFrom(s, evs[..|evs| - 1]), evs[|evs| - 1])
  }

  // ---- invariants ----

  /** Its poster has not yet reached the wakeup that follows the push. */
  ghost predicate Unwoken(s: Loop, p: Post) {
    || (p.owner in s.mid && s.mid[p.owner] == p)
    || (p.owner == LOOP && s.oweWake)
  }

  /** Posted by the loop thread before loop(), where queueInLoop leaves out the wakeup; the first poll is
      not over. */
  ghost predicate Early(s: Loop, p: Post) {
    p.owner == LOOP && s.rounds == 0 && s.phase != Running
  }

  /** Whatever is pending and already signalled has its signal still in the eventfd. */
  ghost predicate Signalled(s: Loop) {
    s.eventfd == 0 ==> forall p <- s.pending :: Unwoken(s, p) || Early(s, p)
  }

  ghost predicate Shape(s: Loop) {
    && s.calling == (s.phase in {Swapping, Running})
    && (s.inFunctor ==> s.phase == Running)
    && (s.oweWake ==> s.inFunctor)
    && (s.phase == Created ==> s.rounds == 0)
    && (s.batch != [] ==> s.phase == Running)
    && LOOP !in s.mid && (forall t <- s.mid :: s.mid[t].owner == t)
  }

  /** Exactly once, in posting order. */
  ghost predicate Fifo(s: Loop) {
    s.pushed == s.executed + s.batch + s.pending
  }

  /** Only between a poll's return and the next swap may a signal have been consumed. */
  ghost predicate NoLostWakeup(s: Loop) {
    && (s.phase !in {Dispatching, Swapping} ==> Signalled(s))
    && (s.phase == Polling && s.quit && s.quitting == {} ==> s.eventfd > 0)
  }

  ghost predicate Inv(s: Loop) {
    Shape(s) && Fifo(s) && NoLostWakeup(s)
  }

  lemma StepShape(s: Loop, ev: Event)
    requires Shape(s)
    ensures Shape(Step(s, ev))
  {
  }

  lemma StepFifo(s: Loop, ev: Event)
    requires Shape(s) && Fifo(s)
    ensures Fifo(Step(s, ev))
  {
    var s' := Step(s, ev);
    if s' != s && ev.Begin? {
      assert s.batch == [s.batch[0]] + s.batch[1..];
      assert s'.executed + s'.batch == s.executed + s.batch;
    } else if s' != s && ev.Swap? {
      assert s.executed + s.batch + s.pending == s'.executed + s'.batch + s'.pending;
    } else if s' != s && (ev.Push? || ev.LoopPush?) {
      assert s'.executed + s'.batch + s'.pending == (s.executed + s.batch + s.pending) + [s'.pending[|s.pending|]];
    }
  }

  lemma StepWakeup(s: Loop, ev: Event)
    requires Shape(s) && NoLostWakeup(s)
    ensures NoLostWakeup(Step(s, ev))
  {
    StepSignalled(s, ev);
    hide Signalled, Unwoken, Early, InCallback;
  }

  lemma StepSignalled(s: Loop, ev: Event)
    requires Shape(s) && NoLostWakeup(s)
    ensures var s' := Step(s, ev); s'.phase !in {Dispatching, Swapping} ==> Signalled(s')
  {
    var s' := Step(s, ev);
    if s'.phase !in {Dispatching, Swapping} && s'.eventfd == 0 {
      forall p <- s'.pending ensures Unwoken(s', p) || Early(s', p) {
        if p in s.pending && s.phase !in {Dispatching, Swapping} && s.eventfd == 0 {
          assert Unwoken(s, p) || Early(s, p);
          KeepsUnwoken(s, ev, p);
        }
      }
    }
  }

  /** Nobody's post loses its excuse but by a wakeup or at the end of the first poll. */
  lemma KeepsUnwoken(s: Loop, ev: Event, p: Post)
    requires Shape(s) && (Unwoken(s, p) || Early(s, p))
    requires var s' := Step(s, ev); s'.phase !in {Dispatching, Swapping} && s'.eventfd == 0 && s.eventfd == 0
    requires s.phase !in {Dispatching, Swapping}
    ensures Unwoken(Step(s, ev), p) || Early(Step(s, ev), p)
  {
  }

  lemma StepInv(s: Loop, ev: Event)
    requires Inv(s)
    ensures Inv(Step(s, ev))
  {
    hide Step, Shape, Fifo, NoLostWakeup;
    StepShape(s, ev);
    StepFifo(s, ev);
    StepWakeup(s, ev);
  }

  lemma {:induction false} RunInv(s: Loop, evs: seq<Event>)
    requires Inv(s)
    ensures Inv(RunFrom(s, evs))
  {
    hide Step, Inv;
    if evs != [] {
      RunInv(s, evs[..|evs| - 1]);
      StepInv(RunFrom(s, evs[..|evs| - 1]), evs[|evs| - 1]);
    }
  }

  lemma InitInv()
    ensures Inv(INIT)
  {
  }

  // ---- theorems over every run ----

  /** No lost wakeup: with the loop thread at epoll_wait and nothing in the eventfd, every pending
      functor belongs to a thread that has pushed it and not yet reached its wakeup(), or in the very first
      poll to the loop thread itself; and a quit is pending only if its caller has not reached its wakeup(). */
  lemma {:induction false} NoLostWakeupTheorem(evs: seq<Event>)
    ensures var s := RunFrom(INIT, evs);
      s.phase == Polling && s.eventfd == 0 ==>
        && (forall p <- s.pending :: (p.owner in s.mid && s.mid[p.owner] == p) || (p.owner == LOOP && s.rounds == 0))
        && (s.quit ==> s.quitting != {})
  {
    InitInv();
    RunInv(INIT, evs);
  }

  /** Exactly-once FIFO execution: functors run in the order in which they were posted, none twice. */
  lemma {:induction false} PostingTheorem(evs: seq<Event>)
    ensures var s := RunFrom(INIT, evs);
      s.executed + s.batch + s.pending == s.pushed
  {
    InitInv();
    RunInv(INIT, evs);
  }

  /** The number of completed rounds after which everything posted so far has run. */
  function DueRound(s: Loop): nat {
    if s.phase == Running then s.rounds + 2 else s.rounds + 1
  }

  ghost predicate Progress(posted: seq<Post>, due: nat, s: Loop) {
    && posted <= s.pushed
    && (s.rounds >= due ==> posted <= s.executed)
    && (s.rounds + 1 == due && s.phase == Running ==> posted <= s.executed + s.batch)
  }

  lemma StepProgress(posted: seq<Post>, due: nat, s: Loop, ev: Event)
    requires Shape(s) && Fifo(s) && Progress(posted, due, s)
    ensures Progress(posted, due, Step(s, ev))
  {
    var s' := Step(s, ev);
    if s' != s && ev.Begin? {
      assert s.batch == [s.batch[0]] + s.batch[1..];
      assert s'.executed + s'.batch == s.executed + s.batch;
    } else if s' != s && ev.Swap? {
      assert s'.executed + s'.batch == s.pushed by {
        assert s.executed + s.batch + s.pending == s.executed + s.pending;
      }
    } else if s' != s && ev.EndBatch? {
      assert s.executed + s.batch == s.executed;
    }
  }

  lemma InvParts(s: Loop)
    requires Inv(s)
    ensures Shape(s) && Fifo(s) && Progress(s.pushed, DueRound(s), s)
  {
  }

  /** From any reachable state, at most two completed rounds later (one, unless a batch is running)
      everything posted so far has been executed. */
  lemma {:induction false} BoundedDelay(before: seq<Event>, after: seq<Event>)
    ensures var s, s' := RunFrom(INIT, before), RunFrom(INIT, before + after);
      && Progress(s.pushed, DueRound(s), s')
      && (s'.rounds >= DueRound(s) ==> s.pushed <= s'.executed)
    decreases |after|
  {
    hide Step, Inv, NoLostWakeup;
    var s := RunFrom(INIT, before);
    InitInv();
    if after == [] {
      assert before + after == before;
      RunInv(INIT, before);
      InvParts(s);
    } else {
      var init, ev := after[..|after| - 1], after[|after| - 1];
      BoundedDelay(before, init);
      assert (before + after)[..|before + after| - 1] == before + init;
      RunInv(INIT, before + init);
      InvParts(RunFrom(INIT, before + init));
      StepProgress(s.pushed, DueRound(s), RunFrom(INIT, before + init), ev);
    }
  }

  // ---- the object ----

  /** The thread that performs an event. */
  function Actor(ev: Event): Tid {
    match ev
    case Push(t, _) => t
    case Wake(t) => t
    case SetQuit(t) => t
    case QuitWake(t) => t
    case _ => LOOP
  }

  ghost predicate OthersOnly(evs: seq<Event>) {
    forall ev <- evs :: Actor(ev) != LOOP
  }

  /** What the loop thread has posted, in order. */
  function LoopPosts(evs: seq<Event>): seq<Functor> {
    if evs == [] then [] else
      var init, ev := evs[..|evs| - 1], evs[|evs| - 1];
      if ev.LoopPush? then LoopPosts(init) + [ev.f] else LoopPosts(init)
  }

  lemma LoopPostsSnoc(evs: seq<Event>, ev: Event)
    ensures LoopPosts(evs + [ev]) == if ev.LoopPush? then LoopPosts(evs) + [ev.f] else LoopPosts(evs)
  {
    assert (evs + [ev])[..|evs|] == evs;
  }

  lemma {:induction false} OthersPostNothing(before: seq<Event>, evs: seq<Event>)
    requires OthersOnly(evs)
    ensures LoopPosts(before + evs) == LoopPosts(before)
    decreases |evs|
  {
    if evs == [] {
      assert before + evs == before;
    } else {
      var init, ev := evs[..|evs| - 1], evs[|evs| - 1];
      assert ev in evs && before + evs == (before + init) + [ev];
      OthersPostNothing(before, init);
      LoopPostsSnoc(before + init, ev);
    }
  }

  /** What the handlers of these channels post, and what these functors post. */
  function HandlerPosts(active: seq<ChannelId>, handler: ChannelId -> seq<Functor>): seq<Functor> {
    if active == [] then [] else HandlerPosts(active[..|active| - 1], handler) + handler(active[|active| - 1])
  }

  function FunctorPosts(run: seq<Post>, does: Functor -> seq<Functor>): seq<Functor> {
    if run == [] then [] else FunctorPosts(run[..|run| - 1], does) + does(run[|run| - 1].f)
  }

  lemma RunSnoc(s: Loop, evs: seq<Event>, ev: Event)
    ensures RunFrom(s, evs + [ev]) == Step(RunFrom(s, evs), ev)
  {
    assert (evs + [ev])[..|evs|] == evs;
  }

  /** The loop thread's code around the functor queue. Other threads act between any two of its
      actions; env(k) is what they do at the k-th such point. */
  class EventLoop {
    var pendingFunctors: seq<Post>
    var callingPendingFunctors: bool
    var eventfd: nat
    var quit: bool
    /** The wakeup channel is among the active ones. */
    var wakeReported: bool
    /** Other threads inside queueInLoop or quit(), before their wakeup(). */
    var posters: map<Tid, Post>
    var quitters: set<Tid>
    /** The rest of the state machine's state. */
    ghost var rest: Loop
    ghost var trace: seq<Event>

    ghost function View(): Loop
      reads this
    {
      rest.(pending := pendingFunctors, calling := callingPendingFunctors, eventfd := eventfd, quit := quit,
            wakeActive := wakeReported, mid := posters, quitting := quitters)
    }

    /** Everything done since the trace was started at s is a run of the state machine. */
    ghost predicate Follows(s: Loop)
      reads this
    {
      View() == RunFrom(s, trace)
    }

    /** Another thread's atomic action. */
    method Other(ev: Event, ghost s: Loop)
      requires Follows(s) && Actor(ev) != LOOP
      modifies this
      ensures Follows(s) && View() == Step(old(View()), ev) && trace == old(trace) + [ev]
    {
      hide RunFrom, Shape, Fifo;
      match ev {
        case Push(t, f) =>
          if t !in posters && t !in quitters {
            pendingFunctors := pendingFunctors + [Post(t, f)];
            posters := posters[t := Post(t, f)];
            rest := rest.(pushed := rest.pushed + [Post(t, f)]);
          }
        case Wake(t) =>
          if t in posters {
            eventfd := eventfd + 1;
            posters := posters - {t};
          }
        case SetQuit(t) =>
          if t !in posters {
            quit := true;
            quitters := quitters + {t};
          }
        case QuitWake(t) =>
          if t in quitters {
            eventfd := eventfd + 1;
            quitters := quitters - {t};
          }
      }
      RunSnoc(s, trace, ev);
      trace := trace + [ev];
    }

    method Others(evs: seq<Event>, ghost s: Loop)
      requires Follows(s) && Shape(View()) && OthersOnly(evs)
      modifies this
      ensures Follows(s) && Shape(View()) && trace == old(trace) + evs
      ensures SameLoopThread(old(View()), View())
      ensures Fifo(old(View())) ==> Fifo(View())
    {
      hide Step, Follows, Shape, Fifo;
      for i := 0 to |evs|
        invariant Follows(s) && Shape(View()) && trace == old(trace) + evs[..i]
        invariant SameLoopThread(old(View()), View())
        invariant Fifo(old(View())) ==> Fifo(View())
      {
        assert evs[i] in evs && evs[..i + 1] == evs[..i] + [evs[i]];
        if Fifo(View()) {
          StepFifo(View(), evs[i]);
        }
        OtherKeeps(View(), evs[i]);
        StepShape(View(), evs[i]);
        Other(evs[i], s);
      }
    }

    ghost method Log(ev: Event, s: Loop, before: Loop)
      requires before == RunFrom(s, trace) && View() == Step(before, ev) && Shape(before)
      modifies this`trace
      ensures Follows(s) && trace == old(trace) + [ev] && View() == old(View()) && Shape(View())
    {
      RunSnoc(s, trace, ev);
      StepShape(before, ev);
      trace := trace + [ev];
    }

    /** wakeup(): the eight bytes written to the eventfd. */
    method Wakeup(ghost s: Loop)
      requires Follows(s) && Shape(View()) && View().oweWake
      modifies this
      ensures Follows(s) && Shape(View()) && trace == old(trace) + [LoopWake]
      ensures View() == old(View()).(eventfd := old(eventfd) + 1, oweWake := false)
    {
      ghost var v := View();
      eventfd := eventfd + 1;
      rest := rest.(oweWake := false);
      Log(LoopWake, s, v);
    }

    method PushBack(f: Functor, ghost s: Loop)
      requires Follows(s) && Shape(View()) && InCallback(View())
      modifies this
      ensures Follows(s) && Shape(View()) && trace == old(trace) + [LoopPush(f)]
      ensures View() == PushPost(old(View()), Post(LOOP, f)).(oweWake := callingPendingFunctors)
      ensures callingPendingFunctors == old(callingPendingFunctors)
    {
      ghost var v := View();
      pendingFunctors := pendingFunctors + [Post(LOOP, f)];
      rest := rest.(pushed := rest.pushed + [Post(LOOP, f)], oweWake := callingPendingFunctors);
      Log(LoopPush(f), s, v);
    }

    /** queueInLoop on the loop thread: push under the lock, then wake up when a batch is running. */
    method QueueInLoop(f: Functor, between: seq<Event>, ghost s: Loop)
      requires Follows(s) && Shape(View()) && OthersOnly(between)
      requires InCallback(View())
      modifies this
      ensures Follows(s) && Shape(View()) && SameLoopThread(old(View()), View())
      ensures trace == old(trace) + [LoopPush(f)] + between + if old(callingPendingFunctors) then [LoopWake] else []
      ensures LoopPosts(trace) == LoopPosts(old(trace)) + [f]
    {
      hide Follows, Shape, RunFrom, OthersOnly, LoopPosts;
      PushBack(f, s);
      LoopPostsSnoc(old(trace), LoopPush(f));
      OthersPostNothing(trace, between);
      Others(between, s);
      if callingPendingFunctors {
        LoopPostsSnoc(trace, LoopWake);
        Wakeup(s);
      }
    }

    /** The start of loop(). */
    method Start(ghost s: Loop)
      requires Follows(s) && Shape(View()) && View().phase == Created
      modifies this
      ensures Follows(s) && Shape(View()) && trace == old(trace) + [Enter]
      ensures View() == old(View()).(phase := Top, quit := false)
    {
      ghost var v := View();
      quit := false;
      rest := rest.(phase := Top);
      Log(Enter, s, v);
    }

    /** quit() on the loop thread, which needs no wakeup. */
    method Quit(ghost s: Loop)
      requires Follows(s) && Shape(View()) && InCallback(View())
      modifies this
      ensures Follows(s) && Shape(View()) && trace == old(trace) + [LoopQuit]
      ensures View() == old(View()).(quit := true)
    {
      ghost var v := View();
      quit := true;
      Log(LoopQuit, s, v);
    }

    /** One iteration of loop(): test quit_, poll, let the handlers of the active channels run, then the
        posted functors. The kernel reports the channels in active, with the wakeup channel at position
        wakeAt when the eventfd is readable; handler(c) is what the handlers of c post. */
    method Iterate(active: seq<ChannelId>, wakeAt: nat, handler: ChannelId -> seq<Functor>,
                   does: Functor -> seq<Functor>, env: nat -> seq<Event>, ghost s: Loop) returns (running: bool)
      requires Inv(s) && Follows(s) && Shape(View()) && View().phase == Top
      requires forall k: nat :: OthersOnly(env(k))
      modifies this
      ensures Follows(s) && Inv(View()) && old(trace) <= trace && running == !old(quit)
      ensures !running ==> View() == old(View()).(phase := Exited)
      ensures running ==>
                View().phase == Top && View().rounds == old(View().rounds) + 1 && old(View().pushed) <= View().executed
    {
      hide Follows, Shape, RunFrom, Fifo, OthersOnly, Inv;
      running := !quit;
      TestedQuit(s);
      if running {
        Others(env(0), s);
        Poll(active, s);
        var k := HandleEvents(active, wakeAt, handler, (i: nat) => env(i + 1), s);
        RunInv(s, trace);
        FollowsInv(s);
        DoPendingFunctors(does, (i: nat) => env(k + 1 + i), s);
      }
      RunInv(s, trace);
      FollowsInv(s);
    }

    lemma FollowsInv(s: Loop)
      requires Follows(s) && Inv(RunFrom(s, trace))
      ensures Inv(View()) && Fifo(View())
    {
    }

    ghost method TestedQuit(s: Loop)
      requires Follows(s) && Shape(View()) && View().phase == Top
      modifies this
      ensures Follows(s) && Shape(View()) && trace == old(trace) + [TestQuit]
      ensures View() == old(View()).(phase := if old(quit) then Exited else Polling)
    {
      var v := View();
      rest := rest.(phase := if quit then Exited else Polling);
      Log(TestQuit, s, v);
    }

    method Poll(active: seq<ChannelId>, ghost s: Loop)
      requires Follows(s) && Shape(View()) && View().phase == Polling
      modifies this
      ensures Follows(s) && Shape(View()) && old(trace) <= trace
      ensures View() == old(View()).(phase := Dispatching, active := active, wakeActive := eventfd > 0)
    {
      hide RunFrom;
      ghost var v := View();
      wakeReported := eventfd > 0;
      rest := rest.(phase := Dispatching, active := active);
      Log(PollReturns(active, eventfd > 0), s, v);
    }

    /** The traversal of activeChannels_. */
    method HandleEvents(active: seq<ChannelId>, wakeAt: nat, handler: ChannelId -> seq<Functor>, env: nat -> seq<Event>,
                        ghost s: Loop) returns (k: nat)
      requires Follows(s) && Shape(View()) && View().phase == Dispatching && View().active == active
      requires forall k: nat :: OthersOnly(env(k))
      modifies this
      ensures Follows(s) && Shape(View()) && old(trace) <= trace
      ensures View().phase == Dispatching && View().active == []
      ensures View().rounds == old(View().rounds) && old(View().pushed) <= View().pushed
      ensures LoopPosts(trace) == LoopPosts(old(trace)) + HandlerPosts(active, handler)
    {
      hide Follows, Shape, RunFrom, OthersOnly, LoopPosts;
      assert active[..|active|] == active;
      k := 0;
      for i := 0 to |active|
        invariant Follows(s) && Shape(View()) && old(trace) <= trace
        invariant View().phase == Dispatching && View().active == active[i..]
        invariant View().rounds == old(View().rounds) && old(View().pushed) <= View().pushed
        invariant LoopPosts(trace) == LoopPosts(old(trace)) + HandlerPosts(active[..i], handler)
      {
        assert active[..i + 1][..i] == active[..i];
        k := HandleChannel(handler(active[i]), i == wakeAt, env, k, s);
      }
      if wakeAt >= |active| {
        HandleWakeupRead(s);
      }
    }

    /** The handlers of the channel at the head, after those of the wakeup channel if it comes before. */
    method HandleChannel(posts: seq<Functor>, wakeFirst: bool, env: nat -> seq<Event>, start: nat, ghost s: Loop)
      returns (k: nat)
      requires Follows(s) && Shape(View()) && View().phase == Dispatching && View().active != []
      requires forall k: nat :: OthersOnly(env(k))
      modifies this
      ensures Follows(s) && Shape(View()) && old(trace) <= trace
      ensures View().phase == Dispatching && View().active == old(View().active[1..])
      ensures View().rounds == old(View().rounds) && old(View().pushed) <= View().pushed
      ensures LoopPosts(trace) == LoopPosts(old(trace)) + posts
    {
      hide Follows, Shape, RunFrom, OthersOnly, LoopPosts;
      if wakeFirst {
        HandleWakeupRead(s);
      }
      NoDebt(View());
      k := RunPosts(posts, env, start, s);
      LoopPostsSnoc(trace, HandleNext);
      EndHandler(s);
    }

    /** handleWakeupRead: reads the counter, which resets it; called only when it was reported. */
    method HandleWakeupRead(ghost s: Loop)
      requires Follows(s) && Shape(View()) && View().phase == Dispatching
      modifies this
      ensures Follows(s) && Shape(View()) && old(trace) <= trace
      ensures View() == if old(View()).wakeActive then old(View()).(eventfd := 0, wakeActive := false) else old(View())
      ensures LoopPosts(trace) == LoopPosts(old(trace))
    {
      LoopPostsSnoc(trace, HandleWakeup);
      hide RunFrom, LoopPosts;
      ghost var v := View();
      if wakeReported {
        eventfd, wakeReported := 0, false;
        Log(HandleWakeup, s, v);
      }
    }

    ghost method EndHandler(s: Loop)
      requires Follows(s) && Shape(View()) && View().phase == Dispatching && View().active != []
      modifies this
      ensures Follows(s) && Shape(View()) && trace == old(trace) + [HandleNext]
      ensures View() == old(View()).(active := old(View().active[1..]))
    {
      hide RunFrom;
      var v := View();
      rest := rest.(active := rest.active[1..]);
      Log(HandleNext, s, v);
    }

    /** doPendingFunctors: swap the queue out, run the batch. does(f) is what functor f posts. */
    method DoPendingFunctors(does: Functor -> seq<Functor>, env: nat -> seq<Event>, ghost s: Loop)
      requires Follows(s) && Shape(View()) && Fifo(View()) && View().phase == Dispatching && View().active == []
      requires forall k: nat :: OthersOnly(env(k))
      modifies this
      ensures Follows(s) && Shape(View()) && old(trace) <= trace
      ensures View().phase == Top && View().rounds == old(View().rounds) + 1
      ensures old(View().pushed) <= View().executed && old(View().executed) <= View().executed
      ensures LoopPosts(trace) == LoopPosts(old(trace)) + FunctorPosts(View().executed[|old(View().executed)|..], does)
    {
      hide Follows, Shape, RunFrom, Fifo, OthersOnly, LoopPosts, FunctorPosts;
      var functors := TakeBatch(env(0), s);
      RunBatch(functors, does, env, s);
      LoopPostsSnoc(trace, EndBatch);
      ClearCalling(s);
    }

    /** callingPendingFunctors_ set, the queue swapped out. */
    method TakeBatch(between: seq<Event>, ghost s: Loop) returns (functors: seq<Post>)
      requires Follows(s) && Shape(View()) && Fifo(View()) && View().phase == Dispatching && View().active == []
      requires OthersOnly(between)
      modifies this
      ensures Follows(s) && Shape(View()) && old(trace) <= trace && LoopPosts(trace) == LoopPosts(old(trace))
      ensures View().phase == Running && !View().inFunctor && View().batch == functors
      ensures View().rounds == old(View().rounds) && View().executed == old(View().executed)
      ensures old(View().pushed) <= View().executed + View().batch
    {
      hide Follows, RunFrom, Fifo, OthersOnly, LoopPosts;
      SetCalling(s);
      LoopPostsSnoc(old(trace), EndDispatch);
      OthersPostNothing(trace, between);
      Others(between, s);
      LoopPostsSnoc(trace, Swap);
      functors := SwapOut(s);
    }

    method RunBatch(functors: seq<Post>, does: Functor -> seq<Functor>, env: nat -> seq<Event>, ghost s: Loop)
      requires Follows(s) && Shape(View()) && View().phase == Running && !View().inFunctor && View().batch == functors
      requires forall k: nat :: OthersOnly(env(k))
      modifies this
      ensures Follows(s) && Shape(View()) && old(trace) <= trace
      ensures View().phase == Running && !View().inFunctor && View().batch == [] && View().rounds == old(View().rounds)
      ensures View().executed == old(View().executed) + functors
      ensures LoopPosts(trace) == LoopPosts(old(trace)) + FunctorPosts(functors, does)
    {
      hide Follows, Shape, RunFrom, OthersOnly, LoopPosts;
      var i, k := 0, 1;
      assert functors[..|functors|] == functors;
      while i < |functors|
        invariant Follows(s) && Shape(View()) && View().phase == Running && !View().inFunctor
        invariant old(trace) <= trace && View().rounds == old(View().rounds)
        invariant 0 <= i <= |functors| && View().batch == functors[i..]
        invariant View().executed == old(View().executed) + functors[..i]
        invariant LoopPosts(trace) == LoopPosts(old(trace)) + FunctorPosts(functors[..i], does)
      {
        k := RunFunctorOfBatch(does(functors[i].f), env, k, s);
        assert functors[..i + 1][..i] == functors[..i];
        i := i + 1;
      }
    }

    /** What a handler or a functor posts goes through queueInLoop. */
    method RunPosts(posts: seq<Functor>, env: nat -> seq<Event>, start: nat, ghost s: Loop) returns (k: nat)
      requires Follows(s) && Shape(View()) && InCallback(View())
      requires forall k: nat :: OthersOnly(env(k))
      modifies this
      ensures Follows(s) && Shape(View()) && SameLoopThread(old(View()), View()) && old(trace) <= trace
      ensures LoopPosts(trace) == LoopPosts(old(trace)) + posts
    {
      hide Follows, Shape, RunFrom, OthersOnly, LoopPosts;
      k := start;
      for j := 0 to |posts|
        invariant Follows(s) && Shape(View()) && SameLoopThread(old(View()), View()) && old(trace) <= trace
        invariant LoopPosts(trace) == LoopPosts(old(trace)) + posts[..j]
      {
        assert posts[..j + 1] == posts[..j] + [posts[j]];
        QueueInLoop(posts[j], env(k), s);
        k := k + 1;
      }
    }

    /** One turn of the loop over the batch. */
    method RunFunctorOfBatch(posts: seq<Functor>, env: nat -> seq<Event>, start: nat, ghost s: Loop) returns (k: nat)
      requires Follows(s) && Shape(View()) && View().phase == Running && !View().inFunctor && View().batch != []
      requires forall k: nat :: OthersOnly(env(k))
      modifies this
      ensures Follows(s) && Shape(View()) && View().phase == Running && !View().inFunctor
      ensures View().batch == old(View().batch[1..]) && View().rounds == old(View().rounds) && old(trace) <= trace
      ensures View().executed + View().batch == old(View().executed + View().batch)
      ensures View().executed == old(View().executed) + [old(View().batch[0])]
      ensures LoopPosts(trace) == LoopPosts(old(trace)) + posts
    {
      hide Follows, RunFrom, OthersOnly, Step, LoopPosts;
      LoopPostsSnoc(trace, Begin);
      BeginFunctor(s);
      k := RunPosts(posts, env, start, s);
      LoopPostsSnoc(trace, Finish);
      FinishFunctor(s);
      OthersPostNothing(trace, env(k));
      Others(env(k), s);
      k := k + 1;
    }

    method SetCalling(ghost s: Loop)
      requires Follows(s) && Shape(View()) && Fifo(View()) && View().phase == Dispatching && View().active == []
      modifies this
      ensures Follows(s) && Shape(View()) && trace == old(trace) + [EndDispatch]
      ensures View() == old(View()).(phase := Swapping, calling := true) && Fifo(View())
    {
      ghost var v := View();
      callingPendingFunctors := true;
      rest := rest.(phase := Swapping);
      Log(EndDispatch, s, v);
    }

    method SwapOut(ghost s: Loop) returns (functors: seq<Post>)
      requires Follows(s) && Shape(View()) && Fifo(View()) && View().phase == Swapping
      modifies this
      ensures Follows(s) && Shape(View()) && trace == old(trace) + [Swap]
      ensures View() == old(View()).(phase := Running, batch := functors, pending := [])
      ensures functors == old(pendingFunctors) && old(View().pushed) == View().executed + functors
    {
      hide RunFrom;
      ghost var v := View();
      assert v.executed + v.batch + v.pending == v.executed + v.pending;
      functors, pendingFunctors := pendingFunctors, [];
      rest := rest.(phase := Running, batch := functors);
      Log(Swap, s, v);
    }

    ghost method BeginFunctor(s: Loop)
      requires Follows(s) && Shape(View()) && View().phase == Running && !View().inFunctor && View().batch != []
      modifies this
      ensures Follows(s) && Shape(View()) && trace == old(trace) + [Begin]
      ensures View().phase == Running && View().inFunctor && !View().oweWake && View().rounds == old(View().rounds)
      ensures View().batch == old(View().batch[1..])
      ensures View().executed == old(View().executed) + [old(View().batch[0])]
      ensures View().executed + View().batch == old(View().executed + View().batch)
      ensures callingPendingFunctors == old(callingPendingFunctors)
    {
      var v := View();
      rest := v.(batch := v.batch[1..], executed := v.executed + [v.batch[0]], inFunctor := true);
      assert v.batch == [v.batch[0]] + v.batch[1..];
      assert rest.executed + rest.batch == v.executed + v.batch;
      Log(Begin, s, v);
    }

    ghost method FinishFunctor(s: Loop)
      requires Follows(s) && Shape(View()) && View().inFunctor && !View().oweWake
      modifies this
      ensures Follows(s) && Shape(View()) && trace == old(trace) + [Finish]
      ensures View() == old(View()).(inFunctor := false)
    {
      var v := View();
      rest := rest.(inFunctor := false);
      Log(Finish, s, v);
    }

    method ClearCalling(ghost s: Loop)
      requires Follows(s) && Shape(View()) && View().phase == Running && !View().inFunctor && View().batch == []
      modifies this
      ensures Follows(s) && Shape(View()) && trace == old(trace) + [EndBatch]
      ensures View() == old(View()).(phase := Top, calling := false, rounds := old(View().rounds) + 1)
    {
      ghost var v := View();
      callingPendingFunctors := false;
      rest := rest.(phase := Top, rounds := rest.rounds + 1);
      Log(EndBatch, s, v);
    }
  }

  lemma NoDebt(s: Loop)
    requires Shape(s) && s.phase == Dispatching
    ensures !s.oweWake
  {
  }

  /** The part of the state that only the loop thread changes. */
  ghost predicate SameLoopThread(s: Loop, s': Loop) {
    && s' == s.(pending := s'.pending, eventfd := s'.eventfd, quit := s'.quit, mid := s'.mid, quitting := s'.quitting,
                pushed := s'.pushed)
    && s.pushed <= s'.pushed
  }

  lemma OtherKeeps(s: Loop, ev: Event)
    requires Actor(ev) != LOOP
    ensures SameLoopThread(s, Step(s, ev))
  {
    hide Step, SameLoopThread;
    match ev
    case Push(t, f) => PushKeeps(s, t, f);
    case Wake(t) => WakeKeeps(s, t);
    case SetQuit(t) => QuitKeeps(s, t);
    case QuitWake(t) => WakeKeeps(s, t);
  }

  lemma PushKeeps(s: Loop, t: Tid, f: Functor)
    ensures SameLoopThread(s, Step(s, Push(t, f)))
  {
  }

  lemma WakeKeeps(s: Loop, t: Tid)
    ensures SameLoopThread(s, Step(s, Wake(t))) && SameLoopThread(s, Step(s, QuitWake(t)))
  {
  }

  lemma QuitKeeps(s: Loop, t: Tid)
    ensures SameLoopThread(s, Step(s, SetQuit(t)))
  {
  }
}
