/** One EventLoop with its connections: the state machines of modules EventLoop and Connection composed.
    What a connection posts goes to the loop's queue and comes back from its batch, the poller reports
    what the kernel watches, and handlers of one connection may call methods of any other. */
module Reactor {
  import P = Poller
  import L = EventLoop
  import C = Connection
  import T = Transport

  type Conn = L.ChannelId

  datatype State = State(
    loop: L.Loop, conns: map<Conn, C.World>,
    inside: P.Option<Conn>,         // the loop thread is in the middle of this connection's connectDestroyed
    log: map<Conn, seq<C.Event>>)   // history: what has happened to each connection

  const INIT := State(L.INIT, map[], P.None, map[])

  datatype Event =
    | Loop(step: L.Event)                          // a step of the loop that concerns no connection
    | Accept(t: L.Tid, c: Conn)                    // another thread accepts and posts connectEstablished
    | AcceptHere(c: Conn)                          // the acceptor is a channel of this loop: it runs inline
    | PollReturns(active: seq<Conn>, wake: bool)
    | Handle(c: Conn, ev: C.Event)                 // a handler of the channel that is being dispatched
    | Call(c: Conn, call: C.Call)                  // a handler or functor of anything else calls in
    | Other(t: L.Tid, c: Conn, ev: C.Event)        // another thread calls in
    | Begin(k: C.Kernel)                           // the next functor of the batch
    | Continue                                     // connectDestroyed goes on after its load of the state

  // ---- posting ----

  /** The loop thread is before loop() or inside a handler or a functor, and not in the middle of queueInLoop. */
  predicate OnLoop(l: L.Loop) {
    L.InCallback(l)
  }

  /** Thread t can begin a call. */
  predicate Free(l: L.Loop, t: L.Tid) {
    t != L.LOOP && t !in l.mid && t !in l.quitting
  }

  /** queueInLoop on the loop thread: the push, and the wakeup if there is to be one. */
  function PostHere(l: L.Loop, f: L.Functor): L.Loop {
    var m := L.Step(l, L.LoopPush(f));
    if m.oweWake then L.Step(m, L.LoopWake) else m
  }

  function PostAllHere(l: L.Loop, c: Conn, fs: seq<C.Functor>): L.Loop {
    if fs == [] then l else PostHere(PostAllHere(l, c, fs[..|fs| - 1]), L.For(c, fs[|fs| - 1]))
  }

  /** What thread t's call on c has posted; another thread's wakeup() is a step of its own. */
  function PostBy(l: L.Loop, t: L.Tid, c: Conn, fs: seq<C.Functor>): L.Loop {
    if t == L.LOOP then PostAllHere(l, c, fs)
    else if fs == [] then l else L.Step(l, L.Push(t, L.For(c, fs[0])))
  }

  /** The functors added to the queue. */
  function Added(before: seq<C.Functor>, after: seq<C.Functor>): seq<C.Functor> {
    if |before| <= |after| then after[|before|..] else []
  }

  // ---- steps ----

  predicate Known(s: State, c: Conn) {
    c in s.conns && c in s.log
  }

  /** Thread t makes ev happen to connection c. */
  function Act(s: State, t: L.Tid, c: Conn, ev: C.Event): State
    requires Known(s, c)
  {
    var w, w' := s.conns[c], C.Step(s.conns[c], ev);
    State(PostBy(s.loop, t, c, Added(w.queue, w'.queue)), s.conns[c := w'], s.inside, s.log[c := s.log[c] + [ev]])
  }

  /** The loop thread can begin a call. */
  predicate Ready(s: State) {
    OnLoop(s.loop) && s.inside.None?
  }

  /** What a thread other than the loop's may do to a connection. */
  predicate CalledBy(t: L.Tid, ev: C.Event) {
    match ev
    case SendFrame(e, _, _) => e.tid == t
    case CallShutdown(tid) => tid == t
    case PostShutdown => true
    case CasForceClose => true
    case PostForceClose => true
    case _ => false
  }

  /** Concerns the loop alone. */
  predicate LoopOnly(ev: L.Event) {
    match ev
    case Push(_, f) => f.Task?
    case LoopPush(f) => f.Task?
    case PollReturns(_, _) => false
    case Begin => false
    case _ => true
  }

  /** A new connection, to which these events have happened. */
  function AddConnection(s: State, c: Conn, log: seq<C.Event>): State {
    s.(conns := s.conns[c := C.Run(log)], log := s.log[c := log])
  }

  /** Done by another thread. */
  predicate ByOther(ev: L.Event) {
    ev.Push? || ev.Wake? || ev.SetQuit? || ev.QuitWake?
  }

  /** The functor at the head of the batch runs; connectDestroyed may stop at its load. */
  function BeginStep(s: State, k: C.Kernel): State {
    var l := s.loop;
    if l.phase != L.Running || l.inFunctor || l.batch == [] then s else
    var l' := L.Step(l, L.Begin);
    match l.batch[0].f
    case Task(_) => s.(loop := l')
    case For(c, _) =>
      if !Known(s, c) || s.conns[c].queue == [] then s else
      var w, w' := s.conns[c], C.Step(s.conns[c], C.RunNext(k));
      State(PostAllHere(l', c, Added(w.queue[1..], w'.queue)), s.conns[c := w'],
            if w'.destroying then P.Some(c) else P.None, s.log[c := s.log[c] + [C.RunNext(k)]])
  }

  function Step(s: State, ev: Event): State {
    match ev
    case Loop(e) => if LoopOnly(e) && (s.inside.None? || ByOther(e)) then s.(loop := L.Step(s.loop, e)) else s
    case Accept(t, c) =>
      if c in s.conns || !Free(s.loop, t) then s else
        AddConnection(s.(loop := L.Step(s.loop, L.Push(t, L.For(c, C.DoEstablish)))), c, [])
    case AcceptHere(c) =>
      if c in s.conns || !Ready(s) then s else
        AddConnection(s, c, [C.RunNext(C.Refused)])
    case PollReturns(active, wake) =>
      if forall c <- active :: c in s.conns && s.conns[c].ch.kernel.Some?
      then s.(loop := L.Step(s.loop, L.PollReturns(active, wake))) else s
    case Handle(c, e) =>
      if s.loop.phase == L.Dispatching && s.loop.active != [] && s.loop.active[0] == c && Known(s, c) && T.Delivery(e)
      then Act(s, L.LOOP, c, e) else s
    case Call(c, call) => if Ready(s) && Known(s, c) then Act(s, L.LOOP, c, C.LoopCall(call)) else s
    case Other(t, c, e) =>
      if Free(s.loop, t) && Known(s, c) && CalledBy(t, e) then Act(s, t, c, e) else s
    case Begin(k) => BeginStep(s, k)
    case Continue =>
      if s.inside.Some? && Known(s, s.inside.value)
      then Act(s, L.LOOP, s.inside.value, C.FinishDestroy).(inside := P.None) else s
  }

  function Run(evs: seq<Event>): State {
    if evs == [] then INIT else Step(Run(evs[..|evs| - 1]), evs[|evs| - 1])
  }

  // ---- the loop's queue and the connections' queues ----

  /** The functors for connection c. */
  function Project(ps: seq<L.Post>, c: Conn): seq<C.Functor> {
    if ps == [] then [] else
      var init, f := Project(ps[..|ps| - 1], c), ps[|ps| - 1].f;
      if f.For? && f.conn == c then init + [f.work] else init
  }

  lemma ProjectSnoc(ps: seq<L.Post>, p: L.Post, c: Conn)
    ensures Project(ps + [p], c) == if p.f.For? && p.f.conn == c then Project(ps, c) + [p.f.work] else Project(ps, c)
  {
    assert (ps + [p])[..|ps|] == ps;
  }

  lemma {:induction false} ProjectUncons(ps: seq<L.Post>, c: Conn)
    requires ps != []
    ensures var f := ps[0].f;
      Project(ps, c) == if f.For? && f.conn == c then [f.work] + Project(ps[1..], c) else Project(ps[1..], c)
  {
    if |ps| > 1 {
      var init := ps[..|ps| - 1];
      ProjectUncons(init, c);
      assert ps[1..][..|ps| - 2] == init[1..];
    } else {
      assert ps[..0] == [];
    }
  }

  /** Everything posted and not begun, oldest first. */
  function Waiting(l: L.Loop): seq<L.Post> {
    l.batch + l.pending
  }

  /** The functors waiting in the loop for a connection are the queue of its state machine; q stands for
      the queue of c. */
  ghost predicate QueuesWith(conns: map<Conn, C.World>, l: L.Loop, c: Conn, q: seq<C.Functor>) {
    && (forall d <- conns :: (if d == c then q else conns[d].queue) == Project(Waiting(l), d))
    && (forall p <- Waiting(l) :: p.f.For? ==> p.f.conn in conns)
  }

  ghost predicate Queues(s: State) {
    && (forall c <- s.conns :: s.conns[c].queue == Project(Waiting(s.loop), c))
    && (forall p <- Waiting(s.loop) :: p.f.For? ==> p.f.conn in s.conns)
  }

  /** Every connection has gone through a run of its state machine in which the poller never delivered an
      event to a destroyed connection. */
  ghost predicate Runs(s: State) {
    && s.log.Keys == s.conns.Keys
    && (forall c <- s.conns :: s.conns[c] == C.Run(s.log[c]) && !s.conns[c].life.stray)
  }

  /** Established, and neither removed from the poller nor, therefore, released by the last functor that
      holds it. */
  ghost predicate Alive(w: C.World) {
    w.state != C.Connecting && w.life.destroys == 0
  }

  /** The traversal still has these channels before it. */
  ghost predicate DispatchSafe(s: State) {
    s.loop.phase == L.Dispatching ==> forall c <- s.loop.active :: c in s.conns && Alive(s.conns[c])
  }

  /** The loop thread is in the middle of a connectDestroyed exactly when its connection says so. */
  ghost predicate Paused(s: State) {
    && (forall c <- s.conns :: s.conns[c].destroying ==> s.inside == P.Some(c))
    && (s.inside.Some? ==> s.loop.inFunctor && s.inside.value in s.conns && s.conns[s.inside.value].destroying)
  }

  ghost predicate Inv(s: State) {
    L.Inv(s.loop) && Queues(s) && Runs(s) && DispatchSafe(s) && Paused(s)
  }

  // ---- posting keeps the loop in order ----

  /** l' is l with these functors of connection c posted behind everything else. */
  ghost predicate Posted(l: L.Loop, l': L.Loop, c: Conn, fs: seq<C.Functor>) {
    && L.Inv(l') && l'.phase == l.phase && l'.active == l.active && l'.inFunctor == l.inFunctor
    && (forall d: Conn :: Project(Waiting(l'), d) == Project(Waiting(l), d) + if d == c then fs else [])
    && (forall p <- Waiting(l') :: p in Waiting(l) || (p.f.For? && p.f.conn == c))
  }

  lemma PostedNone(l: L.Loop, c: Conn)
    requires L.Inv(l)
    ensures Posted(l, l, c, [])
  {
    hide L.Inv;
  }

  lemma PostedOne(l: L.Loop, l': L.Loop, c: Conn, t: L.Tid, f: C.Functor)
    requires L.Inv(l') && l'.phase == l.phase && l'.active == l.active && l'.inFunctor == l.inFunctor
    requires Waiting(l') == Waiting(l) + [L.Post(t, L.For(c, f))]
    ensures Posted(l, l', c, [f])
  {
    hide L.Inv, Waiting;
    var p := L.Post(t, L.For(c, f));
    forall d: Conn ensures Project(Waiting(l'), d) == Project(Waiting(l), d) + if d == c then [f] else [] {
      ProjectSnoc(Waiting(l), p, d);
    }
  }

  lemma PostedMore(l: L.Loop, m: L.Loop, l': L.Loop, c: Conn, fs: seq<C.Functor>, f: C.Functor)
    requires Posted(l, m, c, fs) && Posted(m, l', c, [f])
    ensures Posted(l, l', c, fs + [f])
  {
    hide L.Inv, Waiting;
    forall d: Conn ensures Project(Waiting(l'), d) == Project(Waiting(l), d) + if d == c then fs + [f] else [] {
      assert Project(Waiting(l'), d) == Project(Waiting(m), d) + if d == c then [f] else [];
    }
  }

  lemma PostHerePosts(l: L.Loop, c: Conn, f: C.Functor)
    requires L.Inv(l) && OnLoop(l)
    ensures var l' := PostHere(l, L.For(c, f)); Posted(l, l', c, [f]) && OnLoop(l')
  {
    var ev, m := L.LoopPush(L.For(c, f)), L.Step(l, L.LoopPush(L.For(c, f)));
    L.StepInv(l, ev);
    L.StepInv(m, L.LoopWake);
    PushedHere(l, L.For(c, f));
    hide L.Inv, L.Step;
    PostedOne(l, PostHere(l, L.For(c, f)), c, L.LOOP, f);
  }

  lemma PushedHere(l: L.Loop, f: L.Functor)
    requires OnLoop(l)
    ensures var l' := PostHere(l, f);
      && OnLoop(l') && l'.phase == l.phase && l'.active == l.active && l'.inFunctor == l.inFunctor
      && Waiting(l') == Waiting(l) + [L.Post(L.LOOP, f)]
  {
    assert l.batch + (l.pending + [L.Post(L.LOOP, f)]) == (l.batch + l.pending) + [L.Post(L.LOOP, f)];
  }

  lemma {:induction false} PostAllPosts(l: L.Loop, c: Conn, fs: seq<C.Functor>)
    requires L.Inv(l) && OnLoop(l)
    ensures var l' := PostAllHere(l, c, fs); Posted(l, l', c, fs) && OnLoop(l')
  {
    hide L.Inv, PostHere, Posted;
    if fs == [] {
      PostedNone(l, c);
    } else {
      var init, f := fs[..|fs| - 1], fs[|fs| - 1];
      PostAllPosts(l, c, init);
      var m := PostAllHere(l, c, init);
      assert L.Inv(m) by { PostedInv(l, m, c, init); }
      PostHerePosts(m, c, f);
      PostedMore(l, m, PostHere(m, L.For(c, f)), c, init, f);
      assert fs == init + [f];
    }
  }

  lemma PostedInv(l: L.Loop, l': L.Loop, c: Conn, fs: seq<C.Functor>)
    requires Posted(l, l', c, fs)
    ensures L.Inv(l') && l'.phase == l.phase && l'.active == l.active && l'.inFunctor == l.inFunctor
  {
  }

  lemma PushPosts(l: L.Loop, t: L.Tid, c: Conn, f: C.Functor)
    requires L.Inv(l) && Free(l, t)
    ensures Posted(l, L.Step(l, L.Push(t, L.For(c, f))), c, [f])
  {
    var ev := L.Push(t, L.For(c, f));
    L.StepInv(l, ev);
    var l' := L.Step(l, ev);
    assert l.batch + (l.pending + [L.Post(t, L.For(c, f))]) == (l.batch + l.pending) + [L.Post(t, L.For(c, f))];
    PostedOne(l, l', c, t, f);
  }

  lemma PostByPosts(l: L.Loop, t: L.Tid, c: Conn, fs: seq<C.Functor>)
    requires L.Inv(l) && (if t == L.LOOP then OnLoop(l) else Free(l, t) && |fs| <= 1)
    ensures Posted(l, PostBy(l, t, c, fs), c, fs)
  {
    hide L.Inv, L.Step, Posted;
    if t == L.LOOP {
      PostAllPosts(l, c, fs);
    } else if fs == [] {
      PostedNone(l, c);
    } else {
      PushPosts(l, t, c, fs[0]);
      assert fs == [fs[0]];
    }
  }

  // ---- every step keeps the invariant ----

  /** Another thread's call posts at most one functor. */
  lemma OnePost(w: C.World, t: L.Tid, ev: C.Event)
    requires CalledBy(t, ev) && t != L.LOOP
    ensures |C.Step(w, ev).queue| <= |w.queue| + 1
  {
    T.OtherCalls(w, ev);
    hide C.Step;
  }

  /** What the other invariants need to know about a connection after one of its steps. */
  ghost predicate Moved(w: C.World, w': C.World) {
    w.queue <= w'.queue && !w'.life.stray && (Alive(w) ==> Alive(w')) && w'.destroying == w.destroying
  }

  lemma QuietMoved(w: C.World, ev: C.Event)
    requires !ev.RunNext? && !ev.FinishDestroy? && !w.life.stray && (T.Delivery(ev) ==> w.life.destroys == 0)
    ensures Moved(w, C.Step(w, ev))
  {
    T.StepQuiet(w, ev);
    hide C.Step;
  }

  /** A connection has moved and posted; the loop is otherwise where it was. */
  lemma MovedQueues(conns: map<Conn, C.World>, l: L.Loop, l': L.Loop, c: Conn, q: seq<C.Functor>, w': C.World)
    requires c in conns && QueuesWith(conns, l, c, q) && q <= w'.queue && Posted(l, l', c, Added(q, w'.queue))
    ensures QueuesWith(conns[c := w'], l', c, w'.queue)
  {
    hide L.Inv, Waiting, Project;
    assert w'.queue == q + Added(q, w'.queue);
    var conns' := conns[c := w'];
    forall d | d in conns' ensures conns'[d].queue == Project(Waiting(l'), d) {
      assert Project(Waiting(l'), d) == Project(Waiting(l), d) + if d == c then Added(q, w'.queue) else [];
    }
  }

  lemma MovedRuns(s: State, s': State, c: Conn, ev: C.Event)
    requires Runs(s) && Known(s, c)
    requires s'.conns == s.conns[c := C.Step(s.conns[c], ev)] && s'.log == s.log[c := s.log[c] + [ev]]
    requires !C.Step(s.conns[c], ev).life.stray
    ensures Runs(s')
  {
    C.RunSnoc(s.log[c], ev);
    hide C.Step, C.Run;
  }

  lemma ConnectionMoves(s: State, s': State, c: Conn, ev: C.Event)
    requires Inv(s) && Known(s, c)
    requires var w' := C.Step(s.conns[c], ev);
      && Moved(s.conns[c], w') && s'.conns == s.conns[c := w'] && s'.log == s.log[c := s.log[c] + [ev]]
      && Posted(s.loop, s'.loop, c, Added(s.conns[c].queue, w'.queue)) && s'.inside == s.inside
    ensures Inv(s')
  {
    var w, w' := s.conns[c], C.Step(s.conns[c], ev);
    var fs := Added(w.queue, w'.queue);
    PostedInv(s.loop, s'.loop, c, fs);
    MovedRuns(s, s', c, ev);
    AsWith(s, c);
    MovedSafe(s, s', c, w');
    MovedPaused(s, s', c, w');
    hide L.Inv, C.Step, C.Run, Waiting, Project, Runs, Posted, Added, QueuesWith, Queues, DispatchSafe, Alive, Paused;
    MovedQueues(s.conns, s.loop, s'.loop, c, w.queue, w');
    WithOwn(s', c);
  }

  lemma MovedSafe(s: State, s': State, c: Conn, w': C.World)
    requires DispatchSafe(s) && c in s.conns && (Alive(s.conns[c]) ==> Alive(w')) && s'.conns == s.conns[c := w']
    requires s'.loop.phase == s.loop.phase && s'.loop.active == s.loop.active
    ensures DispatchSafe(s')
  {
    hide Alive;
  }

  lemma MovedPaused(s: State, s': State, c: Conn, w': C.World)
    requires Paused(s) && c in s.conns && w'.destroying == s.conns[c].destroying && s'.conns == s.conns[c := w']
    requires s'.inside == s.inside && s'.loop.inFunctor == s.loop.inFunctor
    ensures Paused(s')
  {
  }

  lemma AsWith(s: State, c: Conn)
    requires Queues(s) && c in s.conns
    ensures QueuesWith(s.conns, s.loop, c, s.conns[c].queue)
  {
    hide Project, Waiting;
  }

  lemma ActInv(s: State, t: L.Tid, c: Conn, ev: C.Event)
    requires Inv(s) && Known(s, c) && !ev.RunNext? && !ev.FinishDestroy?
    requires T.Delivery(ev) ==> s.conns[c].life.destroys == 0
    requires if t == L.LOOP then OnLoop(s.loop) else Free(s.loop, t) && CalledBy(t, ev)
    ensures Inv(Act(s, t, c, ev))
  {
    QuietMoved(s.conns[c], ev);
    if t != L.LOOP {
      OnePost(s.conns[c], t, ev);
    }
    hide C.Step, Posted, L.Inv, Moved;
    assert L.Inv(s.loop);
    var w, w' := s.conns[c], C.Step(s.conns[c], ev);
    assert |Added(w.queue, w'.queue)| <= 1 || t == L.LOOP;
    PostByPosts(s.loop, t, c, Added(w.queue, w'.queue));
    ConnectionMoves(s, Act(s, t, c, ev), c, ev);
  }

  lemma AcceptInv(s: State, t: L.Tid, c: Conn)
    requires Inv(s) && c !in s.conns && Free(s.loop, t)
    ensures Inv(Step(s, Accept(t, c)))
  {
    PushPosts(s.loop, t, c, C.DoEstablish);
    C.NoSteps();
    hide L.Inv, L.Step, Inv, Posted, C.Run, AddConnection;
    assert L.Inv(s.loop);
    NewConnection(s, L.Step(s.loop, L.Push(t, L.For(c, C.DoEstablish))), c, []);
  }

  /** l' has what the new connection has posted. */
  lemma NewConnection(s: State, l': L.Loop, c: Conn, log: seq<C.Event>)
    requires Inv(s) && c !in s.conns
    requires var w := C.Run(log); !w.life.stray && !w.destroying && Posted(s.loop, l', c, w.queue)
    ensures Inv(AddConnection(s.(loop := l'), c, log))
  {
    var w, s' := C.Run(log), AddConnection(s.(loop := l'), c, log);
    PostedInv(s.loop, l', c, w.queue);
    NewQueues(s, l', c, w);
    NewRuns(s, c, log);
    NewSafe(s, s', c, w);
    NewPaused(s, s', c, w);
    hide L.Inv, Runs, Posted, QueuesWith, Queues, C.Run, DispatchSafe, Paused;
    RunsSame(AddConnection(s, c, log), s');
    WithOwn(s', c);
  }

  lemma NewSafe(s: State, s': State, c: Conn, w: C.World)
    requires DispatchSafe(s) && c !in s.conns && s'.conns == s.conns[c := w]
    requires s'.loop.phase == s.loop.phase && s'.loop.active == s.loop.active
    ensures DispatchSafe(s')
  {
    hide Alive;
  }

  lemma NewPaused(s: State, s': State, c: Conn, w: C.World)
    requires Paused(s) && c !in s.conns && !w.destroying && s'.conns == s.conns[c := w]
    requires s'.inside == s.inside && s'.loop.inFunctor == s.loop.inFunctor
    ensures Paused(s')
  {
  }

  lemma RunsSame(s: State, s': State)
    requires Runs(s) && s'.conns == s.conns && s'.log == s.log
    ensures Runs(s')
  {
    hide C.Run;
  }

  lemma WithOwn(s: State, c: Conn)
    requires c in s.conns && QueuesWith(s.conns, s.loop, c, s.conns[c].queue)
    ensures Queues(s)
  {
    hide Project, Waiting;
  }

  /** Nothing but its own posts waits for it. */
  lemma NewQueues(s: State, l': L.Loop, c: Conn, w: C.World)
    requires Queues(s) && c !in s.conns && Posted(s.loop, l', c, w.queue)
    ensures QueuesWith(s.conns[c := w], l', c, w.queue)
  {
    NotMentioned(Waiting(s.loop), c);
    hide L.Inv, Waiting, Project;
    var conns := s.conns[c := w];
    forall d | d in conns ensures conns[d].queue == Project(Waiting(l'), d) {
      assert Project(Waiting(l'), d) == Project(Waiting(s.loop), d) + if d == c then w.queue else [];
    }
  }

  lemma NewRuns(s: State, c: Conn, log: seq<C.Event>)
    requires Runs(s) && !C.Run(log).life.stray
    ensures Runs(s.(conns := s.conns[c := C.Run(log)], log := s.log[c := log]))
  {
    hide C.Run;
  }

  lemma {:induction false} NotMentioned(ps: seq<L.Post>, c: Conn)
    requires forall p <- ps :: p.f.For? ==> p.f.conn != c
    ensures Project(ps, c) == []
  {
    if ps != [] {
      NotMentioned(ps[..|ps| - 1], c);
    }
  }

  lemma AcceptHereInv(s: State, c: Conn)
    requires Inv(s) && c !in s.conns
    ensures Inv(Step(s, AcceptHere(c)))
  {
    EstablishedInline();
    assert L.Inv(s.loop);
    PostedNone(s.loop, c);
    hide Inv, L.Inv, C.Run, C.Step, C.ConnectEstablished, AddConnection, Posted;
    if Ready(s) {
      NewConnection(s, s.loop, c, [C.RunNext(C.Refused)]);
    }
  }

  /** connectEstablished called by runInLoop at once leaves the same connection as when it is posted and
      run before anything else happens to it. */
  lemma EstablishedInline()
    ensures var w := C.Run([C.RunNext(C.Refused)]);
      && w == C.Step(C.INIT, C.RunNext(C.Refused)) == C.ConnectEstablished(C.INIT.(queue := []))
      && w.queue == [] && !w.life.stray && !w.destroying
  {
    C.NoSteps();
    C.RunSnoc([], C.RunNext(C.Refused));
    assert [] + [C.RunNext(C.Refused)] == [C.RunNext(C.Refused)];
  }

  /** What the poller reports is registered, hence alive. */
  lemma Watched(evs: seq<C.Event>)
    requires !C.Run(evs).life.stray && C.Run(evs).ch.kernel.Some?
    ensures Alive(C.Run(evs))
  {
    C.RunInv(evs);
  }

  lemma PollInv(s: State, active: seq<Conn>, wake: bool)
    requires Inv(s) && forall c <- active :: c in s.conns && s.conns[c].ch.kernel.Some?
    ensures Inv(Step(s, PollReturns(active, wake)))
  {
    var ev := L.PollReturns(active, wake);
    L.StepInv(s.loop, ev);
    LoopOnlyKeeps(s.loop, ev);
    Polled(s.loop, active, wake);
    hide L.Inv, L.Step, Waiting, Project, Alive;
    forall c | c in active ensures Alive(s.conns[c]) {
      Watched(s.log[c]);
    }
    LoopMoves(s, L.Step(s.loop, ev));
  }

  lemma Polled(l: L.Loop, active: seq<Conn>, wake: bool)
    ensures var l' := L.Step(l, L.PollReturns(active, wake)); l'.active == active || l' == l
  {
  }

  /** The same functors wait for the connections, in the same order. */
  ghost predicate SameWaiting(l: L.Loop, l': L.Loop) {
    && (forall d: Conn :: Project(Waiting(l'), d) == Project(Waiting(l), d))
    && (forall p <- Waiting(l') :: p.f.For? ==> p in Waiting(l))
  }

  lemma LoopMoves(s: State, l': L.Loop)
    requires Inv(s) && L.Inv(l') && SameWaiting(s.loop, l') && (s.inside.Some? ==> l'.inFunctor)
    requires l'.phase == L.Dispatching ==> forall c <- l'.active :: c in s.conns && Alive(s.conns[c])
    ensures Inv(s.(loop := l'))
  {
    hide L.Inv, Waiting, Project, Alive, C.Run;
  }

  /** Steps of the loop that post nothing and begin nothing keep what is waiting, in order. */
  lemma LoopOnlyKeeps(l: L.Loop, ev: L.Event)
    requires L.Inv(l) && !ev.Push? && !ev.LoopPush? && !ev.Begin?
    ensures var l' := L.Step(l, ev);
      && SameWaiting(l, l')
      && (ev.PollReturns? ||
          (l'.phase == L.Dispatching ==> l.phase == L.Dispatching && forall c <- l'.active :: c in l.active))
      && (l'.inFunctor == l.inFunctor || ev.Finish?)
  {
    if ev.Swap? {
      assert [] + l.pending == l.pending && l.pending + [] == l.pending;
    }
    assert Waiting(L.Step(l, ev)) == Waiting(l);
  }

  lemma LoopInv(s: State, e: L.Event)
    requires Inv(s) && LoopOnly(e) && (s.inside.None? || ByOther(e))
    ensures Inv(Step(s, Loop(e)))
  {
    L.StepInv(s.loop, e);
    if e.Push? || e.LoopPush? {
      TaskPosted(s.loop, e);
    } else {
      LoopOnlyKeeps(s.loop, e);
    }
    hide L.Inv, L.Step, SameWaiting, Queues, Runs, Alive;
    LoopMoves(s, L.Step(s.loop, e));
  }

  lemma TaskPosted(l: L.Loop, e: L.Event)
    requires (e.Push? || e.LoopPush?) && e.f.Task?
    ensures var l' := L.Step(l, e);
      && l'.phase == l.phase && l'.active == l.active && l'.inFunctor == l.inFunctor
      && SameWaiting(l, l')
  {
    var l' := L.Step(l, e);
    if l' != l {
      var p := l'.pending[|l.pending|];
      assert Waiting(l') == Waiting(l) + [p];
      forall d: Conn ensures Project(Waiting(l'), d) == Project(Waiting(l), d) {
        ProjectSnoc(Waiting(l), p, d);
      }
    }
  }

  /** The head of the batch has begun and been popped off its connection's queue. */
  lemma Begun(l: L.Loop)
    requires L.Inv(l) && l.phase == L.Running && !l.inFunctor && l.batch != []
    ensures var l' := L.Step(l, L.Begin);
      && L.Inv(l') && OnLoop(l') && l'.inFunctor && l'.phase == L.Running && Waiting(l) == [l.batch[0]] + Waiting(l')
  {
    L.StepInv(l, L.Begin);
    assert l.batch == [l.batch[0]] + l.batch[1..];
  }

  /** p was at the head of what waits in l; l' has the rest. */
  ghost predicate Popped(l: L.Loop, l': L.Loop, p: L.Post) {
    && p in Waiting(l) && (forall q <- Waiting(l') :: q in Waiting(l))
    && forall d: Conn :: Project(Waiting(l), d) ==
         if p.f.For? && p.f.conn == d then [p.f.work] + Project(Waiting(l'), d) else Project(Waiting(l'), d)
  }

  lemma BegunPopped(l: L.Loop)
    requires L.Inv(l) && l.phase == L.Running && !l.inFunctor && l.batch != []
    ensures Popped(l, L.Step(l, L.Begin), l.batch[0])
  {
    var p, rest := l.batch[0], Waiting(L.Step(l, L.Begin));
    Begun(l);
    assert Waiting(l)[0] == p && Waiting(l)[1..] == rest;
    hide L.Inv, L.Step, Waiting, Project;
    forall d: Conn
      ensures Project(Waiting(l), d) ==
                if p.f.For? && p.f.conn == d then [p.f.work] + Project(rest, d) else Project(rest, d)
    {
      ProjectUncons(Waiting(l), d);
    }
  }

  lemma BeginInv(s: State, k: C.Kernel)
    requires Inv(s) && s.loop.phase == L.Running && !s.loop.inFunctor && s.loop.batch != []
    ensures Inv(BeginStep(s, k))
  {
    var l', p := L.Step(s.loop, L.Begin), s.loop.batch[0];
    Begun(s.loop);
    BegunPopped(s.loop);
    hide L.Inv, L.Step, Inv, Popped, PostAllHere, C.Step, Queues, Runs;
    if p.f.For? {
      assert Known(s, p.f.conn) by { ForKnown(s, l', p); }
      BeginFor(s, l', p, k);
    } else {
      BeginTask(s, l', p);
    }
  }

  lemma BeginTask(s: State, l': L.Loop, p: L.Post)
    requires Inv(s) && !s.loop.inFunctor && Popped(s.loop, l', p) && p.f.Task? && L.Inv(l') && l'.phase == L.Running
    ensures Inv(s.(loop := l'))
  {
    hide L.Inv, Waiting, Project, Queues, Runs, C.Run;
    LoopMoves(s, l');
  }

  lemma ForKnown(s: State, l': L.Loop, p: L.Post)
    requires Inv(s) && Popped(s.loop, l', p) && p.f.For?
    ensures Known(s, p.f.conn)
  {
    hide Waiting, Project, C.Run, L.Inv;
  }

  lemma BeginFor(s: State, l': L.Loop, p: L.Post, k: C.Kernel)
    requires Inv(s) && s.loop.phase == L.Running && !s.loop.inFunctor && p.f.For? && p.f.conn in s.conns
    requires L.Inv(l') && OnLoop(l') && l'.inFunctor && l'.phase == L.Running
    requires Popped(s.loop, l', p)
    ensures var c := p.f.conn; Known(s, c) && s.conns[c].queue != [] && s.conns[c].queue[0] == p.f.work
    ensures var c, w, w' := p.f.conn, s.conns[p.f.conn], C.Step(s.conns[p.f.conn], C.RunNext(k));
      Inv(State(PostAllHere(l', c, Added(w.queue[1..], w'.queue)), s.conns[c := w'],
                if w'.destroying then P.Some(c) else P.None,
                s.log[c := s.log[c] + [C.RunNext(k)]]))
  {
    var c, w := p.f.conn, s.conns[p.f.conn];
    PopQueues(s, l', p);
    NobodyInside(s, c);
    FunctorFacts(w, k);
    var w0, w' := w.(queue := w.queue[1..]), C.Step(w, C.RunNext(k));
    hide C.Step, L.Inv, Waiting, Project, PostAllHere, Posted, Added, QueuesWith, Queues, Runs, Popped;
    var fs := Added(w0.queue, w'.queue);
    var l'' := PostAllHere(l', c, fs);
    PostAllPosts(l', c, fs);
    PostedInv(l', l'', c, fs);
    MovedQueues(s.conns, l', l'', c, w0.queue, w');
    BeginDone(s, l'', c, w', C.RunNext(k));
  }

  lemma NobodyInside(s: State, c: Conn)
    requires Inv(s) && !s.loop.inFunctor && c in s.conns
    ensures s.inside.None? && !s.conns[c].destroying && Known(s, c) && !s.conns[c].life.stray
  {
    hide L.Inv, Queues, C.Run;
  }

  lemma FunctorFacts(w: C.World, k: C.Kernel)
    requires w.queue != [] && !w.destroying && !w.life.stray
    ensures var w' := C.Step(w, C.RunNext(k)); w.queue[1..] <= w'.queue && !w'.life.stray
  {
    T.FunctorForward(w.(queue := w.queue[1..]), w.queue[0], k);
    hide C.RunFunctor;
  }

  lemma BeginDone(s: State, l: L.Loop, c: Conn, w': C.World, ev: C.Event)
    requires Paused(s) && s.inside.None? && Runs(s) && Known(s, c)
    requires w' == C.Step(s.conns[c], ev) && !w'.life.stray
    requires L.Inv(l) && l.phase == L.Running && l.inFunctor && QueuesWith(s.conns[c := w'], l, c, w'.queue)
    ensures Inv(State(l, s.conns[c := w'], if w'.destroying then P.Some(c) else P.None, s.log[c := s.log[c] + [ev]]))
  {
    var s' := State(l, s.conns[c := w'], if w'.destroying then P.Some(c) else P.None, s.log[c := s.log[c] + [ev]]);
    MovedRuns(s, s', c, ev);
    WithOwn(s', c);
    hide C.Step, L.Inv, Queues, QueuesWith, Runs;
  }

  lemma PopQueues(s: State, l': L.Loop, p: L.Post)
    requires Queues(s) && p.f.For? && p.f.conn in s.conns
    requires Popped(s.loop, l', p)
    ensures s.conns[p.f.conn].queue != [] && s.conns[p.f.conn].queue[0] == p.f.work
    ensures QueuesWith(s.conns, l', p.f.conn, s.conns[p.f.conn].queue[1..])
  {
    hide Waiting, Project;
    forall d | d in s.conns && d != p.f.conn ensures s.conns[d].queue == Project(Waiting(l'), d) {
      assert s.conns[d].queue == Project(Waiting(s.loop), d);
    }
    assert s.conns[p.f.conn].queue == [p.f.work] + Project(Waiting(l'), p.f.conn);
  }

  lemma StepInv(s: State, ev: Event)
    requires Inv(s)
    ensures Inv(Step(s, ev))
  {
    hide L.Inv, L.Step, C.Step, Queues, Act, BeginStep, Runs, Paused, AddConnection, LoopOnly, OnLoop;
    match ev
    case Loop(e) => if LoopOnly(e) && (s.inside.None? || ByOther(e)) { LoopInv(s, e); }
    case Accept(t, c) => if c !in s.conns && Free(s.loop, t) { AcceptInv(s, t, c); }
    case AcceptHere(c) => if c !in s.conns { AcceptHereInv(s, c); }
    case PollReturns(active, wake) =>
      if forall c <- active :: c in s.conns && s.conns[c].ch.kernel.Some? { PollInv(s, active, wake); }
    case Handle(c, e) =>
      if s.loop.phase == L.Dispatching && s.loop.active != [] && s.loop.active[0] == c && Known(s, c) && T.Delivery(e) {
        assert c in s.loop.active;
        HandlersOnLoop(s.loop);
        ActInv(s, L.LOOP, c, e);
      }
    case Call(c, call) => if Ready(s) && Known(s, c) { ActInv(s, L.LOOP, c, C.LoopCall(call)); }
    case Other(t, c, e) => if Free(s.loop, t) && Known(s, c) && CalledBy(t, e) { ActInv(s, t, c, e); }
    case Begin(k) =>
      if s.loop.phase == L.Running && !s.loop.inFunctor && s.loop.batch != [] {
        BeginInv(s, k);
      } else {
        NotBegun(s, k);
      }
    case Continue => if s.inside.Some? && Known(s, s.inside.value) { ContinueInv(s); }
  }

  /** connectDestroyed finishes. */
  lemma ContinueInv(s: State)
    requires Inv(s) && s.inside.Some? && Known(s, s.inside.value)
    ensures Inv(Act(s, L.LOOP, s.inside.value, C.FinishDestroy).(inside := P.None))
  {
    var c := s.inside.value;
    FinishFacts(s.conns[c]);
    FinishAct(s, c);
    hide Inv, C.Step, Act;
    ContinueDone(s, c, C.Step(s.conns[c], C.FinishDestroy));
  }

  /** It posts nothing. */
  lemma FinishAct(s: State, c: Conn)
    requires Known(s, c) && s.conns[c].destroying
    ensures Act(s, L.LOOP, c, C.FinishDestroy) ==
            s.(conns := s.conns[c := C.Step(s.conns[c], C.FinishDestroy)],
               log := s.log[c := s.log[c] + [C.FinishDestroy]])
  {
    FinishFacts(s.conns[c]);
    hide C.Step;
    assert Added(s.conns[c].queue, s.conns[c].queue) == [];
  }

  lemma ContinueDone(s: State, c: Conn, w': C.World)
    requires Inv(s) && s.inside == P.Some(c) && Known(s, c)
    requires w' == C.Step(s.conns[c], C.FinishDestroy) && w'.queue == s.conns[c].queue
    requires !w'.life.stray && !w'.destroying
    ensures Inv(s.(conns := s.conns[c := w'], inside := P.None, log := s.log[c := s.log[c] + [C.FinishDestroy]]))
  {
    var s' := s.(conns := s.conns[c := w'], inside := P.None, log := s.log[c := s.log[c] + [C.FinishDestroy]]);
    FunctorRunning(s.loop);
    MovedRuns(s, s', c, C.FinishDestroy);
    SameQueues(s, s', c, w');
    hide L.Inv, C.Step, Runs, Queues;
  }

  lemma SameQueues(s: State, s': State, c: Conn, w': C.World)
    requires Queues(s) && c in s.conns && w'.queue == s.conns[c].queue
    requires s'.conns == s.conns[c := w'] && s'.loop == s.loop
    ensures Queues(s')
  {
    hide Waiting, Project;
  }

  lemma FinishFacts(w: C.World)
    requires w.destroying
    ensures var w' := C.Step(w, C.FinishDestroy);
      w'.queue == w.queue && w'.life.stray == w.life.stray && !w'.destroying
  {
    hide P.Apply;
  }

  lemma FunctorRunning(l: L.Loop)
    requires L.Inv(l) && l.inFunctor
    ensures l.phase == L.Running
  {
  }

  lemma NotBegun(s: State, k: C.Kernel)
    requires s.loop.phase != L.Running || s.loop.inFunctor || s.loop.batch == []
    ensures BeginStep(s, k) == s
  {
  }

  lemma HandlersOnLoop(l: L.Loop)
    requires L.Inv(l) && l.phase == L.Dispatching
    ensures OnLoop(l)
  {
  }

  lemma {:induction false} RunInv(evs: seq<Event>)
    ensures Inv(Run(evs))
  {
    hide Step, Inv;
    if evs != [] {
      RunInv(evs[..|evs| - 1]);
      StepInv(Run(evs[..|evs| - 1]), evs[|evs| - 1]);
    } else {
      InitInv();
    }
  }

  lemma InitInv()
    ensures Inv(INIT)
  {
    L.InitInv();
  }

  // ---- theorems over every run ----

  /** The machines fit together. Over every run of the reactor, each connection has gone through a run of
      its own state machine, so that everything in module Transport holds of it; its functors are exactly
      those that wait for it in the loop, in order; no event is ever delivered to a destroyed connection;
      and while activeChannels_ is traversed, every channel still to be handled is registered with the
      poller and belongs to a connection that has not been destroyed and cannot be freed: the server's
      table holds it, or the functor that is to destroy it, which waits in the loop. Only one connection at
      a time is in the middle of connectDestroyed, and then the loop thread is in its functor. */
  lemma ReactorTheorem(evs: seq<Event>)
    ensures var s := Run(evs);
      && (forall c <- s.conns :: s.conns[c].destroying ==> s.inside == P.Some(c) && s.loop.inFunctor)
      && (forall c <- s.conns :: c in s.log && s.conns[c] == C.Run(s.log[c]) && !s.conns[c].life.stray)
      && (forall c <- s.conns :: s.conns[c].queue == Project(Waiting(s.loop), c))
      && (s.loop.phase == L.Dispatching ==>
            forall c <- s.loop.active :: c in s.conns && Safe(s.conns[c], Project(Waiting(s.loop), c)))
  {
    RunInv(evs);
    var s := Run(evs);
    hide Run;
    if s.loop.phase == L.Dispatching {
      assert !s.loop.inFunctor by { NotInFunctor(s.loop); }
      hide L.Inv;
      forall c | c in s.loop.active ensures c in s.conns && Safe(s.conns[c], Project(Waiting(s.loop), c)) {
        assert Alive(s.conns[c]) && !s.conns[c].destroying;
        AliveInMap(s.log[c]);
        T.HeldUntilDestroyed(s.log[c]);
      }
    }
  }

  lemma NotInFunctor(l: L.Loop)
    requires L.Inv(l) && l.phase == L.Dispatching
    ensures !l.inFunctor
  {
  }

  /** Registered with the poller, not destroyed, and held by the table or by one of the waiting functors. */
  ghost predicate Safe(w: C.World, waiting: seq<C.Functor>) {
    w.ch.inMap && w.life.destroys == 0 && (w.inTable || C.DoDestroy in waiting)
  }

  lemma AliveInMap(evs: seq<C.Event>)
    requires Alive(C.Run(evs))
    ensures C.Run(evs).ch.inMap
  {
    C.RunInv(evs);
  }

  /** A connection is destroyed only by a functor of the batch, never while channels are being handled. */
  lemma DestroyedInPendingPhase(s: State, ev: Event, c: Conn)
    requires Inv(s) && c in s.conns
    ensures var s' := Step(s, ev);
      && c in s'.conns
      && (s'.conns[c].life.destroys != s.conns[c].life.destroys ==>
            (ev.Begin? || ev.Continue?) && s.loop.phase == L.Running)
  {
    if s.inside.Some? {
      FunctorRunning(s.loop);
    }
    hide Inv, Step, L.Step, C.Step, Act, BeginStep;
    match ev
    case Continue =>
      ContinueIs(s);
      if s.inside.Some? && Known(s, s.inside.value) { FinishKeeps(s, c); }
    case Begin(k) =>
      BeginIs(s, k);
      BeginKeeps(s, k, c);
    case _ => OthersKeep(s, ev, c);
  }

  lemma ContinueIs(s: State)
    ensures Step(s, Continue) == if s.inside.Some? && Known(s, s.inside.value)
            then Act(s, L.LOOP, s.inside.value, C.FinishDestroy).(inside := P.None) else s
  {
    hide Act;
  }

  lemma BeginIs(s: State, k: C.Kernel)
    ensures Step(s, Begin(k)) == BeginStep(s, k)
  {
    hide BeginStep;
  }

  /** Connection c is there and has not been destroyed by this step. */
  ghost predicate Kept(s: State, s': State, c: Conn) {
    c in s.conns && c in s'.conns && s'.conns[c].life.destroys == s.conns[c].life.destroys
  }

  lemma OthersKeep(s: State, ev: Event, c: Conn)
    requires c in s.conns && !ev.Begin? && !ev.Continue?
    ensures Kept(s, Step(s, ev), c)
  {
    hide Kept, L.Step, C.Step, Act, AddConnection;
    Unchanged(s, s.loop, c);
    match ev
    case Handle(d, e) => if Known(s, d) && T.Delivery(e) { ActKeeps(s, L.LOOP, d, e, c); }
    case Call(d, call) => if Known(s, d) { ActKeeps(s, L.LOOP, d, C.LoopCall(call), c); }
    case Other(t, d, e) => if Known(s, d) && CalledBy(t, e) { ActKeeps(s, t, d, e, c); }
    case Accept(t, d) => if d !in s.conns { AddKeeps(s, L.Step(s.loop, L.Push(t, L.For(d, C.DoEstablish))), d, [], c); }
    case AcceptHere(d) => if d !in s.conns { AddKeeps(s, s.loop, d, [C.RunNext(C.Refused)], c); }
    case Loop(e) => Unchanged(s, L.Step(s.loop, e), c);
    case PollReturns(active, wake) => Unchanged(s, L.Step(s.loop, L.PollReturns(active, wake)), c);
  }

  lemma Unchanged(s: State, l: L.Loop, c: Conn)
    requires c in s.conns
    ensures Kept(s, s, c) && Kept(s, s.(loop := l), c)
  {
  }

  lemma AddKeeps(s: State, l: L.Loop, d: Conn, log: seq<C.Event>, c: Conn)
    requires c in s.conns && d !in s.conns
    ensures Kept(s, AddConnection(s.(loop := l), d, log), c) && Kept(s, AddConnection(s, d, log), c)
  {
    hide C.Run;
  }

  lemma ActKeeps(s: State, t: L.Tid, d: Conn, ev: C.Event, c: Conn)
    requires Known(s, d) && c in s.conns && !ev.RunNext? && !ev.FinishDestroy?
    ensures Kept(s, Act(s, t, d, ev), c)
  {
    T.StepQuiet(s.conns[d], ev);
    hide C.Step, PostBy;
  }

  lemma BeginKeeps(s: State, k: C.Kernel, c: Conn)
    requires c in s.conns
    ensures var s' := BeginStep(s, k); c in s'.conns && (s'.conns[c] != s.conns[c] ==> s.loop.phase == L.Running)
  {
    hide L.Step, C.Step, PostAllHere;
  }

  lemma FinishKeeps(s: State, c: Conn)
    requires s.inside.Some? && Known(s, s.inside.value) && c in s.conns
    ensures c in Act(s, L.LOOP, s.inside.value, C.FinishDestroy).conns
  {
    hide C.Step, PostBy;
  }

  /** No wakeup is lost in the composed machine either: with the loop thread at epoll_wait and nothing in
      the eventfd, a connection's waiting functors are those of threads that have not reached wakeup(), or,
      in the very first poll, of the loop thread. */
  lemma NothingForgotten(evs: seq<Event>)
    ensures var s := Run(evs);
      s.loop.phase == L.Polling && s.loop.eventfd == 0 ==>
        forall p <- Waiting(s.loop) ::
          || (p.owner in s.loop.mid && s.loop.mid[p.owner] == p)
          || (p.owner == L.LOOP && s.loop.rounds == 0)
  {
    RunInv(evs);
    hide Queues, Runs, DispatchSafe, Paused, Run;
  }
}
