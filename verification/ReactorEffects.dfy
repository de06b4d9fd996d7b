/** What each step of the reactor does: which connection it moves, by which of its own steps, and what of it
    goes to the loop's queue, under whose name. */
module ReactorEffects {
  import P = Poller
  import L = EventLoop
  import C = Connection
  import T = Transport
  import opened Reactor

  /** Thread t's posts for connection c. */
  function Posts(t: L.Tid, c: Conn, fs: seq<C.Functor>): seq<L.Post> {
    if fs == [] then [] else Posts(t, c, fs[..|fs| - 1]) + [L.Post(t, L.For(c, fs[|fs| - 1]))]
  }

  /** The loop after the loop thread has posted these: at the end of the queue, in order, with one wakeup
      each while a batch is being run. */
  function LoopPosted(l: L.Loop, c: Conn, fs: seq<C.Functor>): L.Loop {
    var ps := Posts(L.LOOP, c, fs);
    l.(pending := l.pending + ps, pushed := l.pushed + ps, eventfd := l.eventfd + if l.calling then |fs| else 0)
  }

  /** The loop after another thread has posted this: its wakeup is still to come. */
  function OtherPosted(l: L.Loop, t: L.Tid, c: Conn, f: C.Functor): L.Loop {
    var p := L.Post(t, L.For(c, f));
    l.(pending := l.pending + [p], pushed := l.pushed + [p], mid := l.mid[t := p])
  }

  /** The functors that this step of the connection posts. */
  function New(w: C.World, e: C.Event): seq<C.Functor>
    requires |w.queue| <= |C.Step(w, e).queue|
  {
    C.Step(w, e).queue[|w.queue|..]
  }

  /** s' is s after e has happened to connection c, with the loop as given. */
  ghost predicate Happened(s: State, s': State, c: Conn, e: C.Event, l: L.Loop) {
    && Known(s, c) && s'.loop == l && s'.conns == s.conns[c := C.Step(s.conns[c], e)]
    && s'.log == s.log[c := s.log[c] + [e]]
  }

  lemma OnePostIs(l: L.Loop, f: L.Functor)
    requires L.InCallback(l)
    ensures PostHere(l, f) == l.(pending := l.pending + [L.Post(L.LOOP, f)], pushed := l.pushed + [L.Post(L.LOOP, f)],
                                 eventfd := l.eventfd + if l.calling then 1 else 0)
  {
  }

  lemma {:induction false} PostsAre(l: L.Loop, c: Conn, fs: seq<C.Functor>)
    requires L.InCallback(l)
    ensures PostAllHere(l, c, fs) == LoopPosted(l, c, fs)
  {
    hide PostHere;
    if fs == [] {
      assert l.pending + [] == l.pending && l.pushed + [] == l.pushed;
    } else {
      var init, f := fs[..|fs| - 1], fs[|fs| - 1];
      PostsAre(l, c, init);
      var m, p := LoopPosted(l, c, init), L.Post(L.LOOP, L.For(c, f));
      OnePostIs(m, L.For(c, f));
      assert (l.pending + Posts(L.LOOP, c, init)) + [p] == l.pending + (Posts(L.LOOP, c, init) + [p]);
      assert (l.pushed + Posts(L.LOOP, c, init)) + [p] == l.pushed + (Posts(L.LOOP, c, init) + [p]);
    }
  }

  /** On the loop thread: the connection makes its step, and its functors are posted. */
  lemma ActOnLoop(s: State, c: Conn, e: C.Event)
    requires L.InCallback(s.loop) && Known(s, c) && s.conns[c].queue <= C.Step(s.conns[c], e).queue
    ensures Happened(s, Act(s, L.LOOP, c, e), c, e, LoopPosted(s.loop, c, New(s.conns[c], e)))
    ensures Act(s, L.LOOP, c, e).inside == s.inside
  {
    PostsAre(s.loop, c, New(s.conns[c], e));
    hide C.Step, PostAllHere, LoopPosted;
  }

  lemma QueueGrows(w: C.World, e: C.Event)
    requires !e.RunNext? && !e.FinishDestroy?
    ensures w.queue <= C.Step(w, e).queue
  {
    T.StepQuiet(w, e);
    hide C.Step;
  }

  /** The poller's event reaches the connection whose channel is at the head of activeChannels_. */
  lemma HandleEffect(s: State, c: Conn, e: C.Event)
    requires Inv(s) && s.loop.phase == L.Dispatching && s.loop.active != [] && s.loop.active[0] == c
    requires e.Readable? || e.Writable? || e.HangUp?
    ensures c in s.conns && s.conns[c].queue <= C.Step(s.conns[c], e).queue
    ensures Happened(s, Step(s, Handle(c, e)), c, e, LoopPosted(s.loop, c, New(s.conns[c], e)))
  {
    HandlerReady(s, c);
    QueueGrows(s.conns[c], e);
    ActOnLoop(s, c, e);
    HandleIs(s, c, e);
    hide Step, C.Step, Act, Inv, LoopPosted, Happened;
  }

  lemma HandlerReady(s: State, c: Conn)
    requires Inv(s) && s.loop.phase == L.Dispatching && s.loop.active != [] && s.loop.active[0] == c
    ensures Known(s, c) && L.InCallback(s.loop)
  {
    HandlersOnLoop(s.loop);
    hide L.Inv, C.Run, Queues, Project;
  }

  lemma HandleIs(s: State, c: Conn, e: C.Event)
    requires s.loop.phase == L.Dispatching && s.loop.active != [] && s.loop.active[0] == c && Known(s, c)
    requires e.Readable? || e.Writable? || e.HangUp?
    ensures Step(s, Handle(c, e)) == Act(s, L.LOOP, c, e)
  {
    hide C.Step, L.Step, Act, BeginStep, Inv;
  }

  lemma Tabled(s: State, c: Conn)
    requires Inv(s)
    ensures c in s.conns <==> Known(s, c)
  {
    hide L.Inv, C.Run;
  }

  /** Any code on the loop thread can call into any connection, except in the middle of a connectDestroyed. */
  lemma CallEffect(s: State, c: Conn, call: C.Call)
    requires Inv(s) && L.InCallback(s.loop) && s.inside == P.None && c in s.conns
    ensures s.conns[c].queue <= C.Step(s.conns[c], C.LoopCall(call)).queue
    ensures var e := C.LoopCall(call);
      Happened(s, Step(s, Call(c, call)), c, e, LoopPosted(s.loop, c, New(s.conns[c], e)))
  {
    var e := C.LoopCall(call);
    QueueGrows(s.conns[c], e);
    Tabled(s, c);
    ActOnLoop(s, c, e);
    hide C.Step, Act, Inv, LoopPosted;
  }

  /** A call from another thread, whatever the loop thread is doing: it posts at most one functor, under its
      own name, and then owes the wakeup. */
  lemma OtherEffect(s: State, t: L.Tid, c: Conn, e: C.Event)
    requires Inv(s) && t != L.LOOP && t !in s.loop.mid && t !in s.loop.quitting && c in s.conns
    requires (e.SendFrame? && e.e.tid == t) || (e.CallShutdown? && e.tid == t) || e.PostShutdown? ||
             e.CasForceClose? || e.PostForceClose?
    ensures s.conns[c].queue <= C.Step(s.conns[c], e).queue
    ensures var fs, s' := New(s.conns[c], e), Step(s, Other(t, c, e));
      && |fs| <= 1 && s'.inside == s.inside
      && Happened(s, s', c, e, if fs == [] then s.loop else OtherPosted(s.loop, t, c, fs[0]))
  {
    var w := s.conns[c];
    assert CalledBy(t, e);
    QueueGrows(w, e);
    OnePost(w, t, e);
    Tabled(s, c);
    var fs := New(w, e);
    assert Added(w.queue, C.Step(w, e).queue) == fs;
    OtherIs(s, t, c, e);
    OtherActs(s, t, c, e);
    hide C.Step, Inv, CalledBy, Step, Act, OtherPosted, Happened;
  }

  lemma OtherIs(s: State, t: L.Tid, c: Conn, e: C.Event)
    requires t != L.LOOP && t !in s.loop.mid && t !in s.loop.quitting && Known(s, c) && CalledBy(t, e)
    ensures Step(s, Other(t, c, e)) == Act(s, t, c, e)
  {
    hide C.Step, L.Step, Act, BeginStep, Inv, CalledBy;
  }

  lemma OtherActs(s: State, t: L.Tid, c: Conn, e: C.Event)
    requires t != L.LOOP && t !in s.loop.mid && t !in s.loop.quitting && Known(s, c)
    requires s.conns[c].queue <= C.Step(s.conns[c], e).queue
    ensures var fs, s' := New(s.conns[c], e), Act(s, t, c, e);
      s'.inside == s.inside && Happened(s, s', c, e, if fs == [] then s.loop else OtherPosted(s.loop, t, c, fs[0]))
  {
    hide C.Step;
  }

  /** A new connection: from another thread it starts with its connectEstablished in the queue, on the loop
      thread it is established at once and nothing is posted. */
  lemma AcceptEffect(s: State, t: L.Tid, c: Conn)
    requires c !in s.conns
    ensures t != L.LOOP && t !in s.loop.mid && t !in s.loop.quitting ==>
              var s' := Step(s, Accept(t, c));
              && s'.loop == OtherPosted(s.loop, t, c, C.DoEstablish) && s'.inside == s.inside
              && s'.conns == s.conns[c := C.INIT] && s'.log == s.log[c := []] && C.INIT.queue == [C.DoEstablish]
    ensures L.InCallback(s.loop) && s.inside == P.None ==>
              var s' := Step(s, AcceptHere(c));
              && s'.loop == s.loop && s'.inside == s.inside
              && s'.conns == s.conns[c := C.Step(C.INIT, C.RunNext(C.Refused))]
              && s'.log == s.log[c := [C.RunNext(C.Refused)]]
  {
    C.RunSnoc([], C.RunNext(C.Refused));
    assert [] + [C.RunNext(C.Refused)] == [C.RunNext(C.Refused)];
    hide C.Step, C.INIT;
  }

  /** Everything the loop and its other work do by themselves. */
  lemma LoopEffect(s: State, e: L.Event)
    requires !e.PollReturns? && !e.Begin? && (e.Push? || e.LoopPush? ==> e.f.Task?)
    requires s.inside == P.None || e.Push? || e.Wake? || e.SetQuit? || e.QuitWake?
    ensures Step(s, Loop(e)) == s.(loop := L.Step(s.loop, e))
  {
    hide L.Step;
  }

  /** The poll reports channels the kernel watches, and no others. */
  lemma PollEffect(s: State, active: seq<Conn>, wake: bool)
    ensures var s' := Step(s, PollReturns(active, wake));
      if forall c <- active :: c in s.conns && s.conns[c].ch.kernel.Some?
      then s' == s.(loop := L.Step(s.loop, L.PollReturns(active, wake)))
      else s' == s
  {
    hide L.Step;
  }

  /** The functor at the head of the batch runs, for its own connection; what it posts waits behind everything
      else. Its connection is left in the middle of connectDestroyed or in no connection's. */
  lemma BeginEffect(s: State, k: C.Kernel)
    requires Inv(s) && s.loop.phase == L.Running && !s.loop.inFunctor && s.loop.batch != [] && s.loop.batch[0].f.For?
    ensures var p, s' := s.loop.batch[0], Step(s, Begin(k));
      && p.f.conn in s.conns && s.conns[p.f.conn].queue != [] && s.conns[p.f.conn].queue[0] == p.f.work
      && s.conns[p.f.conn].queue[1..] <= s'.conns[p.f.conn].queue
      && Happened(s, s', p.f.conn, C.RunNext(k),
                  LoopPosted(L.Step(s.loop, L.Begin), p.f.conn,
                             s'.conns[p.f.conn].queue[|s.conns[p.f.conn].queue| - 1..]))
      && (s'.inside == if s'.conns[p.f.conn].destroying then P.Some(p.f.conn) else P.None)
  {
    var l', p := L.Step(s.loop, L.Begin), s.loop.batch[0];
    Begun(s.loop);
    BegunPopped(s.loop);
    assert Known(s, p.f.conn) by { ForKnown(s, l', p); }
    HeadIsOurs(s, l', p, k);
    BeginPosts(s, l', p.f.conn, k);
    hide *;
    BeganFor(s, k);
  }

  lemma BeganFor(s: State, k: C.Kernel)
    requires s.loop.phase == L.Running && !s.loop.inFunctor && s.loop.batch != [] && s.loop.batch[0].f.For?
    requires Known(s, s.loop.batch[0].f.conn) && s.conns[s.loop.batch[0].f.conn].queue != []
    ensures var c, l', s' := s.loop.batch[0].f.conn, L.Step(s.loop, L.Begin), Step(s, Begin(k));
      var q, w' := s.conns[c].queue, C.Step(s.conns[c], C.RunNext(k));
      && Happened(s, s', c, C.RunNext(k), PostAllHere(l', c, Added(q[1..], w'.queue)))
      && s'.inside == if w'.destroying then P.Some(c) else P.None
  {
    hide L.Step, C.Step, PostAllHere, Added, Act;
  }

  /** A functor that is no connection's leaves them alone. */
  lemma BeginTaskEffect(s: State, k: C.Kernel)
    requires s.loop.phase == L.Running && !s.loop.inFunctor && s.loop.batch != [] && s.loop.batch[0].f.Task?
    ensures Step(s, Begin(k)) == s.(loop := L.Step(s.loop, L.Begin))
  {
    hide L.Step;
  }

  lemma HeadIsOurs(s: State, l': L.Loop, p: L.Post, k: C.Kernel)
    requires Inv(s) && !s.loop.inFunctor && Popped(s.loop, l', p) && p.f.For? && p.f.conn in s.conns
    ensures var w := s.conns[p.f.conn];
      w.queue != [] && w.queue[0] == p.f.work && w.queue[1..] <= C.Step(w, C.RunNext(k)).queue
  {
    PopQueues(s, l', p);
    NobodyInside(s, p.f.conn);
    FunctorFacts(s.conns[p.f.conn], k);
    hide *;
  }

  lemma BeginPosts(s: State, l': L.Loop, c: Conn, k: C.Kernel)
    requires L.InCallback(l') && c in s.conns && s.conns[c].queue != []
    requires s.conns[c].queue[1..] <= C.Step(s.conns[c], C.RunNext(k)).queue
    ensures var q, q' := s.conns[c].queue, C.Step(s.conns[c], C.RunNext(k)).queue;
      PostAllHere(l', c, Added(q[1..], q')) == LoopPosted(l', c, q'[|q| - 1..])
  {
    var q, q' := s.conns[c].queue, C.Step(s.conns[c], C.RunNext(k)).queue;
    PostsAre(l', c, q'[|q| - 1..]);
    hide C.Step;
  }

  /** The rest of connectDestroyed: it posts nothing. */
  lemma ContinueEffect(s: State, c: Conn)
    requires Inv(s) && s.inside == P.Some(c)
    ensures Happened(s, Step(s, Continue), c, C.FinishDestroy, s.loop) && Step(s, Continue).inside == P.None
  {
    Tabled(s, c);
    InsideDestroys(s, c);
    FinishAct(s, c);
    ContinueIs(s);
    hide Act, C.Step, Step, Inv;
  }

  lemma InsideDestroys(s: State, c: Conn)
    requires Inv(s) && s.inside == P.Some(c)
    ensures c in s.conns && s.conns[c].destroying
  {
    hide L.Inv, Queues, Runs, DispatchSafe;
  }
}
