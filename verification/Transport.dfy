/** What the connection state machine guarantees to its users: lifecycle, shutdown, and delivery of
    whole frames end to end. */
module Transport {
  import opened Sequences
  import opened Framing
  import opened Poller
  import opened Connection

  // ---- lifecycle and shutdown, for every run ----

  ghost predicate Forward(w: World, w': World) {
    && Rank(w.state) <= Rank(w'.state)
    && (w.closeRequested ==> w'.closeRequested)
    && (w.shutWr ==> w'.shutWr)
  }

  /** Beyond that: functors are only added, nothing is destroyed, and the poller delivers nothing. */
  ghost predicate Quiet(w: World, w': World) {
    && Forward(w, w') && w.queue <= w'.queue
    && w'.life.destroys == w.life.destroys && w'.life.stray == w.life.stray && w'.destroying == w.destroying
  }

  lemma SendQuiet(w: World, e: Entry, k: Kernel)
    ensures Quiet(w, SendInLoop(w, e, k))
  {
    DirectQuiet(w, e, k);
    AppendQuiet(w, e);
    hide TurnedAway, SentDirect, Appended, Quiet;
  }

  lemma DirectQuiet(w: World, e: Entry, k: Kernel)
    ensures Quiet(w, SentDirect(w, e, k))
  {
    hide Frame, Apply;
  }

  lemma AppendQuiet(w: World, e: Entry)
    ensures Quiet(w, TurnedAway(w, e)) && Quiet(w, Appended(w, e))
  {
    hide Frame;
  }

  lemma WriteQuiet(w: World, k: Kernel)
    ensures Quiet(w, HandleWrite(w, k))
  {
    FlushQuiet(w, k);
    hide Flushed, Apply;
  }

  lemma FlushQuiet(w: World, k: Kernel)
    ensures Quiet(w, Flushed(w, k))
  {
    hide Apply;
  }

  lemma CasQuiet(w: World)
    ensures Quiet(w, CasDisconnecting(w))
  {
  }

  lemma InLoopQuiet(w: World)
    ensures Quiet(w, ShutdownInLoop(w))
  {
  }

  lemma ShutdownQuiet(w: World, tid: Tid)
    ensures Quiet(w, Shutdown(w, tid))
  {
    hide CasDisconnecting, ShutdownInLoop, Quiet;
    var m := CasDisconnecting(w);
    CasQuiet(w);
    InLoopQuiet(m);
    QuietTwice(w, m, ShutdownInLoop(m));
    OwedQuiet(w, m);
  }

  lemma OwedQuiet(w: World, m: World)
    ensures Quiet(w, w) && (Quiet(w, m) ==> Quiet(w, m.(shutdownOwed := true)))
  {
  }

  lemma CloseQuiet(w: World)
    ensures Quiet(w, HandleClose(w))
  {
    hide Apply;
  }

  lemma QuietTwice(w: World, m: World, w': World)
    requires Quiet(w, m) && Quiet(m, w')
    ensures Quiet(w, w')
  {
  }

  lemma CallSendQuiet(w: World, e: Entry, stale: bool, k: Kernel)
    ensures Quiet(w, CallSend(w, e, stale, k))
  {
    hide SendInLoop, Quiet;
    var w1 := w.(send := w.send.(sent := w.send.sent + [e]));
    SendQuiet(w1, e, k);
    LogQuiet(w, w1.send, SendInLoop(w1, e, k));
    LogQuiet(w, CallSend(w, e, stale, k).send, w.(send := CallSend(w, e, stale, k).send));
    PostQuiet(w1, DoSend(e));
    LogQuiet(w, w1.send, w1.(queue := w1.queue + [DoSend(e)]));
  }

  lemma LogQuiet(w: World, s: SendLog, w': World)
    ensures Quiet(w.(send := s), w') ==> Quiet(w, w')
    ensures Quiet(w.(send := s), w.(send := s))
  {
  }

  lemma PostQuiet(w: World, f: Functor)
    ensures Quiet(w, w.(queue := w.queue + [f]))
  {
  }

  lemma CallQuiet(w: World, c: Call)
    ensures Quiet(w, DoCall(w, c))
  {
    hide CallSend, Shutdown, HandleClose, CasDisconnecting, Quiet;
    match c
    case CSend(p, k) => CallSendQuiet(w, Entry(LOOP, p), false, k);
    case CShutdown => ShutdownQuiet(w, LOOP);
    case CForceClose =>
      CasQuiet(w);
      CloseQuiet(CasDisconnecting(w));
      QuietTwice(w, CasDisconnecting(w), DoCall(w, c));
  }

  lemma {:induction false} CallsQuiet(w: World, cs: seq<Call>)
    ensures Quiet(w, DoCalls(w, cs))
  {
    hide DoCall;
    if cs != [] {
      hide Quiet;
      var m := DoCalls(w, cs[..|cs| - 1]);
      CallsQuiet(w, cs[..|cs| - 1]);
      CallQuiet(m, cs[|cs| - 1]);
      QuietTwice(w, m, DoCalls(w, cs));
    }
  }

  lemma ReadQuiet(w: World, r: ReadResult, cs: seq<Call>)
    ensures Quiet(w, HandleRead(w, r, cs))
  {
    match r
    case Bytes(chunk) =>
      var w1 := Cut(w, chunk);
      CutQuiet(w, chunk);
      hide Shutdown, DoCalls, Dispatch, Cut, Quiet;
      CallsQuiet(w1, cs);
      QuietTwice(w, w1, DoCalls(w1, cs));
    case Eof => hide HandleClose, Quiet; CloseQuiet(w);
    case ReadError =>
  }

  lemma CutQuiet(w: World, chunk: seq<byte>)
    ensures Quiet(w, Cut(w, chunk))
  {
    hide Dispatch, Fits;
  }

  /** A functor may also be the one that destroys, or begins to. */
  lemma FunctorForward(w: World, f: Functor, k: Kernel)
    ensures var w' := RunFunctor(w, f, k);
      && Forward(w, w') && w.queue <= w'.queue && w'.life.stray == w.life.stray
      && (!f.DoDestroy? ==> Quiet(w, w'))
  {
    match f
    case DoEstablish => hide ConnectEstablished; EstablishQuiet(w);
    case DoSend(e) => hide SendInLoop; SendQuiet(w, e, k);
    case DoShutdown => hide ShutdownInLoop; InLoopQuiet(w);
    case DoForceClose => hide HandleClose; CloseQuiet(w);
    case DoDestroy => hide LoadState; LoadForward(w);
  }

  lemma EstablishQuiet(w: World)
    ensures Quiet(w, ConnectEstablished(w))
  {
    hide Apply;
  }

  lemma LoadForward(w: World)
    ensures var w' := LoadState(w); Forward(w, w') && w.queue <= w'.queue && w'.life.stray == w.life.stray
  {
    hide Apply;
  }

  /** Delivered by the poller, on the loop thread. */
  predicate Delivery(ev: Event) {
    ev.Readable? || ev.Writable? || ev.HangUp?
  }

  lemma StepQuiet(w: World, ev: Event)
    requires !ev.RunNext? && !ev.FinishDestroy?
    ensures Quiet(if Delivery(ev) && !w.destroying then Delivered(w) else w, Step(w, ev))
  {
    hide HandleWrite, CallSend, Shutdown, HandleClose, CasDisconnecting, DoCall, HandleRead;
    hide RunFunctor, FinishDestroyed;
    if w.destroying && OnLoopThread(ev) {
      return;
    }
    match ev
    case SendFrame(e, stale, k) => hide Quiet; CallSendQuiet(w, e, stale, k);
    case LoopCall(c) => hide Quiet; CallQuiet(w, c);
    case CallShutdown(tid) => hide Quiet; ShutdownQuiet(w, tid);
    case CasForceClose => hide Quiet; CasQuiet(w);
    case Writable(k) => hide Quiet; WriteQuiet(Delivered(w), k);
    case HangUp => hide Quiet; CloseQuiet(Delivered(w));
    case Readable(r, cs) => hide Quiet; ReadQuiet(Delivered(w), r, cs);
    case PostShutdown =>
    case PostForceClose => hide Quiet; PostQuiet(w, DoForceClose);
  }

  /** Nothing moves backwards in any single step. */
  lemma StepForward(w: World, ev: Event)
    ensures Forward(w, Step(w, ev))
  {
    match ev
    case RunNext(k) =>
      hide RunFunctor;
      if w.queue != [] && !w.destroying { FunctorForward(w.(queue := w.queue[1..]), w.queue[0], k); }
    case FinishDestroy => hide Apply;
    case _ =>
      hide Step;
      StepQuiet(w, ev);
  }

  /** What another thread does leaves the channel alone and posts at most one functor. */
  lemma OtherCalls(w: World, ev: Event)
    requires !OnLoopThread(ev) && !ev.FinishDestroy?
    ensures var w' := Step(w, ev); w'.ch == w.ch && w'.destroying == w.destroying && |w'.queue| <= |w.queue| + 1
  {
    hide CallSend, Shutdown, CasDisconnecting;
    match ev
    case SendFrame(e, stale, k) => OtherSends(w, e, stale, k);
    case CallShutdown(tid) => OtherCloses(w, tid);
    case PostShutdown =>
    case CasForceClose => OtherCloses(w, 1);
    case PostForceClose =>
  }

  lemma OtherSends(w: World, e: Entry, stale: bool, k: Kernel)
    requires e.tid != LOOP
    ensures var w' := CallSend(w, e, stale, k);
      w'.ch == w.ch && w'.destroying == w.destroying && |w'.queue| <= |w.queue| + 1
  {
    hide SendInLoop, TestsPass;
  }

  lemma OtherCloses(w: World, tid: Tid)
    requires tid != LOOP
    ensures var w' := Shutdown(w, tid); w'.ch == w.ch && w'.destroying == w.destroying && w'.queue == w.queue
    ensures var w' := CasDisconnecting(w); w'.ch == w.ch && w'.destroying == w.destroying && w'.queue == w.queue
  {
  }

  lemma {:induction false} OthersLeaveChannelAll(w: World, evs: seq<Event>)
    requires forall ev <- evs :: !OnLoopThread(ev) && !ev.FinishDestroy?
    ensures Steps(w, evs).ch == w.ch && Steps(w, evs).destroying == w.destroying
  {
    if evs != [] {
      hide Step;
      var init, ev := evs[..|evs| - 1], evs[|evs| - 1];
      assert ev in evs;
      OthersLeaveChannelAll(w, init);
      OtherCalls(Steps(w, init), ev);
    }
  }

  /** The connection's life over any run: the up notification comes first and once, the close
      callback and connectDestroyed happen at most once and in that order, and the server's table entry
      lives until the close callback. Once destroyed, the down notification has been given if and only if
      connectDestroyed read kConnected; that is, if and only if no shutdown() or forceClose() took effect
      before that read. One that took effect between the read and the store is overwritten: only then has
      the connection been both closed locally and notified down. The channel is out of the poller once
      destroyed, unless the poller delivers an event to it all the same (never: Reactor.ReactorTheorem). */
  lemma LifecycleTheorem(evs: seq<Event>)
    ensures var w := Run(evs); var life := w.life;
      && life.destroys <= life.closes <= life.ups <= 1
      && life.downs <= life.destroys
      && (life.destroys == 1 ==>
            && (life.downs == 1 <==> life.sawUp)
            && (life.sawUp <==> !life.localClose || life.lateClose)
            && (life.downs == 1 && life.localClose <==> life.lateClose))
      && (w.inTable <==> life.closes == 0)
      && (life.destroys == 1 && !life.stray ==> w.ch.kernel == None && !w.ch.inMap)
      && !w.ch.badCtl
  {
    RunInv(evs);
    var w := Run(evs);
    if w.life.destroys == 1 {
      assert w.life.downs == 1 <==> w.state == Disconnected;
    }
  }

  /** A connection that is registered, or in the hands of its destruction, is referred to: by the table, by
      the queued functor or by the running one. */
  lemma HeldUntilDestroyed(evs: seq<Event>)
    ensures var w := Run(evs); w.life.destroys == 0 ==> w.inTable || DoDestroy in w.queue || w.destroying
  {
    RunInv(evs);
    var w := Run(evs);
    CountedIsQueued(w.queue);
  }

  lemma {:induction false} CountedIsQueued(q: seq<Functor>)
    ensures CountDestroy(q) > 0 ==> DoDestroy in q
  {
    if q != [] {
      CountedIsQueued(q[..|q| - 1]);
    }
  }

  /** Graceful shutdown over any run: SHUT_WR is never followed by a ::send; before the close it is
      issued only with an empty output buffer; and once shutdownInLoop has run, an empty buffer means
      it has been issued. Bytes and buffer always make up the accepted messages. */
  lemma {:induction false} ShutdownTheorem(evs: seq<Event>)
    ensures var w := Run(evs);
      && !w.lateSend
      && (w.shutWr && !w.closeRequested ==> w.out == [] && w.state == Disconnecting)
      && (w.life.ranShutdown && !w.closeRequested && w.out == [] ==> w.shutWr)
      && (!w.closeRequested ==> (w.out != [] <==> w.ch.kernel.Some? && w.ch.kernel.value.write))
      && w.wire + w.out == Stream(Payloads(w.send.accepted))
  {
    RunInv(evs);
    var w := Run(evs);
    if !w.closeRequested && w.state == Connecting {
      assert w.ch == FRESH;
    }
  }

  /** The connection at the moment connectDestroyed calls removeChannel: between is what other threads do
      after the load of the state, in the branch that goes on to store it. */
  function AtRemove(w: World, between: seq<Event>): World {
    if w.state == Connected then NotifyDown(Steps(LoadState(w), between)) else w
  }

  /** removeChannel asserts that no event is watched. At connectDestroyed the assertion holds exactly
      when the state is read as kConnected or EPOLLOUT is not watched, whatever other threads do. */
  lemma RemoveAssertExact(w: World, between: seq<Event>)
    requires Inv(w) && w.queue != [] && w.queue[0] == DoDestroy && !w.destroying
    requires forall ev <- between :: !OnLoopThread(ev) && !ev.FinishDestroy?
    ensures RemoveAsserts(AtRemove(w, between).ch) <==> w.state == Connected || !w.ch.events.write
  {
    CountUncons(w.queue);
    if w.state == Connected {
      OthersLeaveChannelAll(LoadState(w), between);
      hide Steps;
    }
  }

  /** From any established, idle connection it can be broken: the peer closes, another handler of the same
      round sends a message of which the kernel takes only a part, and shuts the connection down, all
      before connectDestroyed. */
  lemma RemoveAssertFails(evs: seq<Event>, p: Payload, n: nat) returns (more: seq<Event>)
    requires var w := Run(evs); w.state == Connected && !w.closeRequested && w.queue == [] && w.out == []
    requires 0 < n < |Frame(p)|
    ensures more == [Readable(Eof, []), LoopCall(CSend(p, Took(n))), LoopCall(CShutdown)]
    ensures var w := Run(evs + more);
      w.queue == [DoDestroy] && !w.destroying && !RemoveAsserts(AtRemove(w, []).ch)
  {
    hide Run, HandleClose, CallSend, Shutdown, CasDisconnecting;
    var e1, e2, e3 := Readable(Eof, []), LoopCall(CSend(p, Took(n))), LoopCall(CShutdown);
    var up := Run(evs);
    RunSnoc(evs, e1);
    RunSnoc(evs + [e1], e2);
    RunSnoc(evs + [e1] + [e2], e3);
    more := [e1, e2, e3];
    assert evs + more == evs + [e1] + [e2] + [e3];
    RunInv(evs);
    assert !up.destroying by { NotClosing(up); }
    SendAfterClose(Delivered(up), p, n);
    ShutdownWhileWriting(DoCall(HandleClose(Delivered(up)), e2.c));
  }

  lemma NotClosing(w: World)
    requires Inv(w) && !w.closeRequested
    ensures !w.destroying
  {
  }

  lemma ShutdownWhileWriting(w: World)
    requires w.state == Connected && w.ch.events.write
    ensures var w' := Shutdown(w, LOOP);
      w'.queue == w.queue && w'.destroying == w.destroying && !RemoveAsserts(AtRemove(w', []).ch)
  {
  }

  lemma IdleRun() returns (evs: seq<Event>)
    ensures var w := Run(evs); w.state == Connected && !w.closeRequested && w.queue == [] && w.out == []
  {
    RunSnoc([], RunNext(Refused));
    evs := [] + [RunNext(Refused)];
    assert Run([]) == INIT;
  }

  /** sendInLoop between handleClose and connectDestroyed can watch EPOLLOUT again. */
  lemma SendAfterClose(w: World, p: Payload, n: nat)
    requires w.state == Connected && !w.closeRequested && w.queue == [] && w.out == [] && n < |Frame(p)|
    ensures var w' := DoCall(HandleClose(w), CSend(p, Took(n)));
      && w'.queue == [DoDestroy] && w'.state == Connected && w'.ch.events.write
      && HandleClose(w).destroying == w'.destroying == w.destroying
  {
    hide Frame, Updated;
    assert HandleClose(w).ch.events == NO_EVENTS by { UpdatedEvents(w.ch.(events := NO_EVENTS)); }
    UpdatedEvents(HandleClose(w).ch.(events := Events(false, true)));
  }

  lemma UpdatedEvents(c: Chan)
    ensures Updated(c).events == c.events
  {
  }

  /** The down notification skipped: established, shut down locally, closed by the peer, destroyed. */
  lemma DownSkipped()
    ensures var life := Run([RunNext(Refused), LoopCall(CShutdown), Readable(Eof, []), RunNext(Refused)]).life;
      life.ups == 1 && life.destroys == 1 && life.downs == 0
  {
    hide Run;
    var e1, e2, e3 := RunNext(Refused), LoopCall(CShutdown), Readable(Eof, []);
    RunSnoc([e1, e2, e3], e1);
    ThreeSteps(e1, e2, e3);
    assert [e1, e2, e3] + [e1] == [e1, e2, e3, e1];
    var w := Step(INIT, e1);
    assert w.state == Connected && w.queue == [] && !w.closeRequested && !w.destroying;
    assert w.life == INIT.life.(ups := 1);
    hide Step;
    ShutThenClosed(w);
  }

  lemma ShutThenClosed(w: World)
    requires w.state == Connected && w.queue == [] && !w.closeRequested && !w.destroying
    ensures var life := Step(Step(Step(w, LoopCall(CShutdown)), Readable(Eof, [])), RunNext(Refused)).life;
      life.ups == w.life.ups && life.destroys == w.life.destroys + 1 && life.downs == w.life.downs
  {
    hide Apply;
    var w1 := Step(w, LoopCall(CShutdown));
    assert w1.state == Disconnecting && w1.queue == [] && !w1.closeRequested && !w1.destroying;
    var w2 := Step(w1, Readable(Eof, []));
    assert w2.state == Disconnecting && w2.queue == [DoDestroy] && !w2.destroying;
  }

  /** The race in connectDestroyed: closed by the peer; the state is read as kConnected; another thread's
      shutdown() wins; the store overwrites its kDisconnecting, and the down notification is given. Without
      that thread the connection ends the same, but for what the thread has won. */
  lemma DownAndClosed(tid: Tid)
    requires tid != LOOP
    ensures var w := Run([RunNext(Refused), Readable(Eof, []), RunNext(Refused)] + [CallShutdown(tid), FinishDestroy]);
      && w.life.destroys == 1 && w.life.downs == 1 && w.life.localClose && w.state == Disconnected && w.shutdownOwed
    ensures var w := Run([RunNext(Refused), Readable(Eof, []), RunNext(Refused)] + [FinishDestroy]);
      && w.life.destroys == 1 && w.life.downs == 1 && !w.life.localClose && w.state == Disconnected
  {
    hide Run;
    var e1, e2 := RunNext(Refused), Readable(Eof, []);
    var a := [e1, e2, e1];
    var w := Run(a);
    ThreeSteps(e1, e2, e1);
    assert w.destroying && w.state == Connected && w.life.destroys == 0 && w.life.downs == 0 && !w.life.localClose;
    RunSnoc(a, CallShutdown(tid));
    RunSnoc(a + [CallShutdown(tid)], FinishDestroy);
    RunSnoc(a, FinishDestroy);
    assert a + [CallShutdown(tid), FinishDestroy] == (a + [CallShutdown(tid)]) + [FinishDestroy];
  }

  lemma ThreeSteps(e1: Event, e2: Event, e3: Event)
    ensures Run([e1, e2, e3]) == Step(Step(Step(INIT, e1), e2), e3)
  {
    hide Step, Run;
    RunSnoc([], e1);
    RunSnoc([e1], e2);
    RunSnoc([e1, e2], e3);
    assert [] + [e1] == [e1] && [e1] + [e2] == [e1, e2] && [e1, e2] + [e3] == [e1, e2, e3];
    NoSteps();
  }

  /** The branch of sendInLoop in which nothing is kept of the message. */
  predicate Drops(w: World, k: Kernel) {
    w.state != Connected || (w.out == [] && !w.ch.events.write && k.Refused?)
  }

  /** A message that reaches sendInLoop is dropped if and only if the connection is not kConnected, or
      nothing is pending and the direct ::send fails, for whatever reason. A dropped message leaves no
      byte behind; any other joins the bytes sent and pending as one whole frame. */
  lemma DropExact(w: World, e: Entry, k: Kernel)
    ensures var w' := SendInLoop(w, e, k);
      var dropped := w'.send.accepted == w.send.accepted;
      && (dropped <==> Drops(w, k))
      && w'.wire + w'.out == w.wire + w.out + if dropped then [] else Frame(e.payload)
  {
    hide Frame, Apply;
    SendAppends(w, e, k);
    hide SendInLoop;
    SendInLoopAccepts(w, e, k);
    assert w.wire + w.out + [] == w.wire + w.out;
  }

  lemma SendInLoopAccepts(w: World, e: Entry, k: Kernel)
    ensures SendInLoop(w, e, k).send.accepted == w.send.accepted <==> Drops(w, k)
  {
    hide Frame, Apply;
    assert w.send.accepted + [e] != w.send.accepted;
  }

  lemma SendAppends(w: World, e: Entry, k: Kernel)
    ensures var w' := SendInLoop(w, e, k);
      w'.wire + w'.out == if Drops(w, k) then w.wire + w.out else w.wire + w.out + Frame(e.payload)
  {
    hide Frame, Apply;
    var m := Frame(e.payload);
    if Drops(w, k) {
      return;
    } else if w.out == [] && !w.ch.events.write {
      SplitJoined(w.wire, m, Min(k.n, |m|));
      assert w.wire + w.out == w.wire;
    } else {
      Assoc(w.wire, w.out, m);
    }
  }

  lemma SplitJoined(a: seq<byte>, m: seq<byte>, n: nat)
    requires n <= |m|
    ensures (a + m[..n]) + m[n..] == a + m
  {
    assert m == m[..n] + m[n..];
  }

  /** The first of two messages is lost to an EAGAIN, the second arrives. */
  lemma DropExample()
    ensures var w := Run([RunNext(Refused), LoopCall(CSend([1], Refused)), LoopCall(CSend([2], Took(5)))]);
      && w.send.sent == [Entry(LOOP, [1]), Entry(LOOP, [2])]
      && w.send.accepted == [Entry(LOOP, [2])] && w.wire == Frame([2])
  {
    hide Run, Frame;
    assert |Frame([2])| == 5 by { assert |Header(1)| == 4; FrameLength([2]); }
    ThreeSteps(RunNext(Refused), LoopCall(CSend([1], Refused)), LoopCall(CSend([2], Took(5))));
  }

  lemma FrameLength(p: Payload)
    ensures |Frame(p)| == HEADER_LEN + |p|
  {
  }

  // ---- order ----

  function Of(tid: Tid, es: seq<Entry>): seq<Entry> {
    if es == [] then [] else
      var init, e := Of(tid, es[..|es| - 1]), es[|es| - 1];
      if e.tid == tid then init + [e] else init
  }

  lemma OfSnoc(tid: Tid, es: seq<Entry>, e: Entry)
    ensures Of(tid, es + [e]) == if e.tid == tid then Of(tid, es) + [e] else Of(tid, es)
  {
    assert (es + [e])[..|es|] == es;
  }

  lemma {:induction false} OfAppend(tid: Tid, a: seq<Entry>, b: seq<Entry>)
    ensures Of(tid, a + b) == Of(tid, a) + Of(tid, b)
  {
    if b == [] {
      assert a + b == a;
    } else {
      var init, e := b[..|b| - 1], b[|b| - 1];
      OfAppend(tid, a, init);
      assert a + b == (a + init) + [e];
      OfSnoc(tid, a + init, e);
    }
  }

  lemma {:induction false} OfNone(tid: Tid, es: seq<Entry>)
    requires forall e <- es :: e.tid != tid
    ensures Of(tid, es) == []
  {
    if es != [] {
      OfNone(tid, es[..|es| - 1]);
    }
  }

  lemma {:induction false} OfMono(tid: Tid, a: seq<Entry>, b: seq<Entry>)
    requires Subsequence(a, b)
    ensures Subsequence(Of(tid, a), Of(tid, b))
    decreases |a| + |b|
  {
    if b != [] {
      var b0, e := b[..|b| - 1], b[|b| - 1];
      if Subsequence(a, b0) {
        OfMono(tid, a, b0);
        if e.tid == tid {
          SubsequenceSkip(Of(tid, a), Of(tid, b0), e);
        }
      } else {
        OfMono(tid, a[..|a| - 1], b0);
        if e.tid == tid {
          SubsequenceKeep(Of(tid, a[..|a| - 1]), Of(tid, b0), e);
        }
      }
    }
  }

  /** The messages waiting in the loop's queue. */
  function Queued(q: seq<Functor>): seq<Entry> {
    if q == [] then [] else
      var init, f := Queued(q[..|q| - 1]), q[|q| - 1];
      if f.DoSend? then init + [f.e] else init
  }

  lemma QueuedSnoc(q: seq<Functor>, f: Functor)
    ensures Queued(q + [f]) == if f.DoSend? then Queued(q) + [f.e] else Queued(q)
  {
    assert (q + [f])[..|q|] == q;
  }

  lemma {:induction false} QueuedUncons(q: seq<Functor>)
    requires q != []
    ensures Queued(q) == if q[0].DoSend? then [q[0].e] + Queued(q[1..]) else Queued(q[1..])
  {
    if |q| > 1 {
      var init := q[..|q| - 1];
      QueuedUncons(init);
      assert q[1..][..|q| - 2] == init[1..];
    } else {
      assert q[..0] == [];
    }
  }

  function Pipeline(w: World): seq<Entry> {
    w.send.reached + Queued(w.queue)
  }

  ghost predicate ThreadOrder(w: World, tid: Tid) {
    && Subsequence(Of(tid, Pipeline(w)), Of(tid, w.send.sent))
    && (w.send.refusedCalls == 0 ==> Of(tid, Pipeline(w)) == Of(tid, w.send.sent))
  }

  /** Every sendFrame call is accounted for, whole, and each thread's calls stay in program order. */
  ghost predicate Ordered(w: World) {
    && (forall tid: Tid :: ThreadOrder(w, tid))
    && (forall e <- Queued(w.queue) :: e.tid != LOOP)
    && Subsequence(w.send.accepted, w.send.reached)
    && (w.send.failed == 0 && w.send.refusedInLoop == 0 ==> w.send.accepted == w.send.reached)
    && |w.send.sent| == |Pipeline(w)| + w.send.refusedCalls
    && |w.send.reached| == |w.send.accepted| + w.send.failed + w.send.refusedInLoop
  }

  /** What SendInLoop does to the logs, with the call itself already logged or popped. */
  ghost predicate Handed(s: SendLog, s': SendLog, e: Entry) {
    && s'.sent == s.sent && s'.refusedCalls == s.refusedCalls
    && s'.reached == s.reached + [e]
    && (if s'.accepted == s.accepted + [e]
        then s'.failed == s.failed && s'.refusedInLoop == s.refusedInLoop
        else s'.accepted == s.accepted && s'.failed + s'.refusedInLoop == s.failed + s.refusedInLoop + 1
             && s'.failed >= s.failed && s'.refusedInLoop >= s.refusedInLoop)
  }

  lemma SendInLoopHands(w: World, e: Entry, k: Kernel)
    ensures var w' := SendInLoop(w, e, k); w'.queue == w.queue && Handed(w.send, w'.send, e)
  {
    DirectHands(w, e, k);
    hide SentDirect, Frame;
    assert w.send.accepted + [e] != w.send.accepted;
  }

  lemma DirectHands(w: World, e: Entry, k: Kernel)
    ensures var w' := SentDirect(w, e, k); w'.queue == w.queue && Handed(w.send, w'.send, e)
  {
    hide Frame, Apply;
    assert w.send.accepted + [e] != w.send.accepted;
  }

  lemma SameLogOrdered(w: World, w': World)
    requires Ordered(w) && w'.send == w.send && Queued(w'.queue) == Queued(w.queue)
    ensures Ordered(w')
  {
    hide Of, Queued, Subsequence;
    assert Pipeline(w') == Pipeline(w);
    forall tid: Tid ensures ThreadOrder(w', tid) {
      assert ThreadOrder(w, tid);
    }
  }

  lemma HandedAccepted(s: SendLog, s': SendLog, e: Entry)
    requires Subsequence(s.accepted, s.reached) && Handed(s, s', e)
    ensures Subsequence(s'.accepted, s'.reached)
  {
    SubsequenceSkip(s.accepted, s.reached, e);
    SubsequenceKeep(s.accepted, s.reached, e);
  }

  /** The loop takes a queued message and runs sendInLoop. */
  lemma PopOrdered(w: World, k: Kernel)
    requires Ordered(w) && w.queue != [] && w.queue[0].DoSend?
    ensures Ordered(RunFunctor(w.(queue := w.queue[1..]), w.queue[0], k))
  {
    hide Of, Queued, Subsequence, SendInLoop;
    var e := w.queue[0].e;
    var w1 := w.(queue := w.queue[1..]);
    var w' := SendInLoop(w1, e, k);
    SendInLoopHands(w1, e, k);
    HandedAccepted(w.send, w'.send, e);
    QueuedUncons(w.queue);
    assert Pipeline(w') == Pipeline(w);
    assert forall x <- Queued(w'.queue) :: x in Queued(w.queue);
    forall tid: Tid ensures ThreadOrder(w', tid) {
      assert ThreadOrder(w, tid);
    }
  }

  /** A call on the loop thread overtakes the queue, which holds nothing of that thread. */
  lemma DirectOrdered(w: World, e: Entry, k: Kernel)
    requires Ordered(w) && e.tid == LOOP
    ensures Ordered(SendInLoop(w.(send := w.send.(sent := w.send.sent + [e])), e, k))
  {
    hide Of, Queued, Subsequence, SendInLoop;
    var w1 := w.(send := w.send.(sent := w.send.sent + [e]));
    var w' := SendInLoop(w1, e, k);
    SendInLoopHands(w1, e, k);
    HandedAccepted(w1.send, w'.send, e);
    assert Pipeline(w') == (w.send.reached + [e]) + Queued(w.queue);
    forall tid: Tid ensures ThreadOrder(w', tid) {
      assert ThreadOrder(w, tid);
      var q := Queued(w.queue);
      OfAppend(tid, w.send.reached, q);
      OfAppend(tid, w.send.reached + [e], q);
      OfSnoc(tid, w.send.reached, e);
      OfSnoc(tid, w.send.sent, e);
      if tid == LOOP {
        OfNone(tid, q);
        assert Of(tid, Pipeline(w)) == Of(tid, w.send.reached);
        assert Of(tid, Pipeline(w')) == Of(tid, w.send.reached) + [e];
        SubsequenceKeep(Of(tid, Pipeline(w)), Of(tid, w.send.sent), e);
      }
    }
  }

  /** A call on another thread goes to the end of the queue. */
  lemma PostOrdered(w: World, e: Entry)
    requires Ordered(w) && e.tid != LOOP
    ensures Ordered(w.(send := w.send.(sent := w.send.sent + [e]), queue := w.queue + [DoSend(e)]))
  {
    hide Of, Queued, Subsequence;
    var w' := w.(send := w.send.(sent := w.send.sent + [e]), queue := w.queue + [DoSend(e)]);
    QueuedSnoc(w.queue, DoSend(e));
    assert Pipeline(w') == Pipeline(w) + [e];
    forall tid: Tid ensures ThreadOrder(w', tid) {
      assert ThreadOrder(w, tid);
      OfSnoc(tid, Pipeline(w), e);
      OfSnoc(tid, w.send.sent, e);
      SubsequenceKeep(Of(tid, Pipeline(w)), Of(tid, w.send.sent), e);
    }
  }

  lemma RefusedOrdered(w: World, e: Entry)
    requires Ordered(w)
    ensures Ordered(w.(send := w.send.(sent := w.send.sent + [e], refusedCalls := w.send.refusedCalls + 1)))
  {
    hide Of, Queued, Subsequence;
    var w' := w.(send := w.send.(sent := w.send.sent + [e], refusedCalls := w.send.refusedCalls + 1));
    forall tid: Tid ensures ThreadOrder(w', tid) {
      assert ThreadOrder(w, tid);
      OfSnoc(tid, w.send.sent, e);
      SubsequenceSkip(Of(tid, Pipeline(w)), Of(tid, w.send.sent), e);
    }
  }

  lemma CallSendOrdered(w: World, e: Entry, stale: bool, k: Kernel)
    requires Ordered(w)
    ensures Ordered(CallSend(w, e, stale, k))
  {
    hide Ordered, SendInLoop;
    if !TestsPass(w, stale) {
      RefusedOrdered(w, e);
    } else if e.tid == LOOP {
      DirectOrdered(w, e, k);
    } else {
      PostOrdered(w, e);
    }
  }

  lemma CallOrdered(w: World, c: Call)
    requires Ordered(w)
    ensures Ordered(DoCall(w, c))
  {
    hide Ordered;
    match c
    case CSend(p, k) => CallSendOrdered(w, Entry(LOOP, p), false, k);
    case CShutdown => SameLogOrdered(w, DoCall(w, c));
    case CForceClose =>
      QueuedSnoc(w.queue, DoDestroy);
      SameLogOrdered(w, DoCall(w, c));
  }

  lemma {:induction false} CallsOrdered(w: World, cs: seq<Call>)
    requires Ordered(w)
    ensures Ordered(DoCalls(w, cs))
  {
    hide Ordered, DoCall;
    if cs != [] {
      CallsOrdered(w, cs[..|cs| - 1]);
      CallOrdered(DoCalls(w, cs[..|cs| - 1]), cs[|cs| - 1]);
    }
  }

  lemma RunNextOrdered(w: World, k: Kernel)
    requires Ordered(w) && w.queue != []
    ensures Ordered(RunFunctor(w.(queue := w.queue[1..]), w.queue[0], k))
  {
    hide Ordered, RunFunctor, Queued;
    if w.queue[0].DoSend? {
      PopOrdered(w, k);
    } else {
      QueuedUncons(w.queue);
      FunctorKeepsLog(w.(queue := w.queue[1..]), w.queue[0], k);
      SameLogOrdered(w, RunFunctor(w.(queue := w.queue[1..]), w.queue[0], k));
    }
  }

  lemma FunctorKeepsLog(w: World, f: Functor, k: Kernel)
    requires !f.DoSend?
    ensures var w' := RunFunctor(w, f, k); w'.send == w.send && Queued(w'.queue) == Queued(w.queue)
  {
    hide Apply, Queued;
    QueuedSnoc(w.queue, DoDestroy);
    match f
    case DoEstablish =>
    case DoShutdown =>
    case DoForceClose =>
    case DoDestroy =>
  }

  lemma HandleReadOrdered(w: World, r: ReadResult, cs: seq<Call>)
    requires Ordered(w)
    ensures Ordered(HandleRead(w, r, cs))
  {
    hide Ordered, Dispatch, DoCalls;
    var w' := HandleRead(w, r, cs);
    if r.Bytes? {
      var w1 := Cut(w, r.chunk);
      SameLogOrdered(w, w1);
      CallsOrdered(w1, cs);
    } else {
      QueuedSnoc(w.queue, DoDestroy);
      SameLogOrdered(w, w');
    }
  }

  lemma StepOrdered(w: World, ev: Event)
    requires Ordered(w)
    ensures Ordered(Step(w, ev))
  {
    hide Ordered, HandleRead, DoCall, CallSend, RunFunctor, HandleWrite, HandleClose, Shutdown, CasDisconnecting;
    hide FinishDestroyed, Queued;
    var w' := Step(w, ev);
    if w.destroying && OnLoopThread(ev) {
      return;
    }
    match ev
    case SendFrame(e, stale, k) => CallSendOrdered(w, e, stale, k);
    case LoopCall(c) => CallOrdered(w, c);
    case RunNext(k) => if w.queue != [] { RunNextOrdered(w, k); }
    case Readable(r, cs) =>
      SameLogOrdered(w, Delivered(w));
      HandleReadOrdered(Delivered(w), r, cs);
    case PostShutdown =>
      QueuedSnoc(w.queue, DoShutdown);
      SameLogOrdered(w, w');
    case PostForceClose =>
      QueuedSnoc(w.queue, DoForceClose);
      SameLogOrdered(w, w');
    case CallShutdown(tid) => OthersOrdered(w, tid, Refused);
    case FinishDestroy =>
      FinishKeepsLog(w);
      SameLogOrdered(w, w');
    case CasForceClose => OthersOrdered(w, LOOP, Refused);
    case Writable(k) =>
      SameLogOrdered(w, Delivered(w));
      OthersOrdered(Delivered(w), LOOP, k);
    case HangUp =>
      SameLogOrdered(w, Delivered(w));
      OthersOrdered(Delivered(w), LOOP, Refused);
  }

  /** The methods that send nothing leave the log alone. */
  lemma OthersOrdered(w: World, tid: Tid, k: Kernel)
    requires Ordered(w)
    ensures Ordered(Shutdown(w, tid)) && Ordered(CasDisconnecting(w))
    ensures Ordered(HandleWrite(w, k)) && Ordered(HandleClose(w))
  {
    hide Ordered, Queued, HandleWrite, HandleClose, Shutdown, CasDisconnecting;
    WriteKeepsLog(w, k);
    ShutdownKeepsLog(w, tid);
    CloseKeepsLog(w);
    QueuedSnoc(w.queue, DoDestroy);
    SameLogOrdered(w, Shutdown(w, tid));
    SameLogOrdered(w, CasDisconnecting(w));
    SameLogOrdered(w, HandleWrite(w, k));
    SameLogOrdered(w, HandleClose(w));
  }

  lemma ShutdownKeepsLog(w: World, tid: Tid)
    ensures Shutdown(w, tid).send == w.send && Shutdown(w, tid).queue == w.queue
    ensures CasDisconnecting(w).send == w.send && CasDisconnecting(w).queue == w.queue
  {
  }

  lemma CloseKeepsLog(w: World)
    ensures HandleClose(w).send == w.send
    ensures HandleClose(w).queue == w.queue || HandleClose(w).queue == w.queue + [DoDestroy]
  {
    hide Apply;
  }

  lemma FinishKeepsLog(w: World)
    ensures FinishDestroyed(w).send == w.send && FinishDestroyed(w).queue == w.queue
  {
    hide Apply;
  }

  lemma WriteKeepsLog(w: World, k: Kernel)
    ensures var w' := HandleWrite(w, k); w'.send == w.send && w'.queue == w.queue
  {
    FlushKeepsLog(w, k);
    hide Flushed, Apply;
  }

  lemma FlushKeepsLog(w: World, k: Kernel)
    ensures var w' := Flushed(w, k); w'.send == w.send && w'.queue == w.queue
  {
    hide Apply;
  }

  lemma {:induction false} RunOrdered(evs: seq<Event>)
    ensures Ordered(Run(evs))
  {
    if evs != [] {
      hide Step, Ordered;
      RunOrdered(evs[..|evs| - 1]);
      StepOrdered(Run(evs[..|evs| - 1]), evs[|evs| - 1]);
    } else {
      assert [DoEstablish][..0] == [];
      assert Queued([DoEstablish]) == [];
      assert Pipeline(INIT) == [];
    }
  }

  // ---- end to end ----

  lemma {:induction false} PayloadsPrefix(n: nat, es: seq<Entry>)
    requires n <= |es|
    ensures Payloads(es[..n]) == Payloads(es)[..n]
  {
  }

  /** For every run of a sender and every run of a receiver that read, in chunks of its own, a prefix
      of the bytes the sender's kernel took, whatever the sizes: the receiver has dispatched a prefix of the
      accepted messages, none beyond the first unsendable one and each whole, and from every thread's
      sendFrame calls that is a subsequence in program order. Only behind a message of 2^32 bytes or more,
      all earlier ones having been dispatched, can anything else follow. */
  lemma {:induction false} EndToEnd(sender: seq<Event>, receiver: seq<Event>) returns (delivered: seq<Entry>)
    requires Run(receiver).recv.got <= Run(sender).wire
    ensures delivered <= Run(sender).send.accepted && forall e <- delivered :: Sendable(e.payload)
    ensures var acc, frames := Run(sender).send.accepted, Run(receiver).recv.frames;
      || Payloads(delivered) == frames
      || (Payloads(delivered) <= frames && |delivered| < |acc| && |acc[|delivered|].payload| >= TWO_32)
    ensures forall tid: Tid :: Subsequence(Of(tid, delivered), Of(tid, Run(sender).send.sent))
  {
    hide Run, Of, Queued, Subsequence, Stream, Blocked, WriteSide, Lifecycle;
    var a, b := Run(sender), Run(receiver);
    RunInv(sender);
    RunInv(receiver);
    RunOrdered(sender);
    var ps, frames := Payloads(a.send.accepted), b.recv.frames;
    assert b.recv.got <= Stream(ps);
    ReadingOfStream(b.recv.got, frames, b.inp, ps);
    var good := Carried(ps);
    var n := if |frames| <= |good| then |frames| else |good|;
    delivered := a.send.accepted[..n];
    PayloadsPrefix(n, a.send.accepted);
    assert Payloads(delivered) == good[..n];
    forall e | e in delivered ensures Sendable(e.payload) {
      var i :| 0 <= i < n && delivered[i] == e;
      assert good[i] == e.payload && good[i] in good;
    }
    DeliveredInOrder(a, delivered);
  }

  lemma DeliveredInOrder(a: World, delivered: seq<Entry>)
    requires Ordered(a) && delivered <= a.send.accepted
    ensures forall tid: Tid :: Subsequence(Of(tid, delivered), Of(tid, a.send.sent))
  {
    hide Of, Subsequence, Queued;
    SubsequencePrefix(delivered, a.send.accepted, a.send.reached);
    forall tid: Tid ensures Subsequence(Of(tid, delivered), Of(tid, a.send.sent)) {
      assert ThreadOrder(a, tid);
      OfMono(tid, delivered, a.send.reached);
      OfAppend(tid, a.send.reached, Queued(a.queue));
      SubsequenceRefl(Of(tid, Pipeline(a)));
      SubsequencePrefix(Of(tid, a.send.reached), Of(tid, Pipeline(a)), Of(tid, Pipeline(a)));
      SubsequenceTrans(Of(tid, delivered), Of(tid, a.send.reached), Of(tid, Pipeline(a)));
      SubsequenceTrans(Of(tid, delivered), Of(tid, Pipeline(a)), Of(tid, a.send.sent));
    }
  }

  /** Once the sender is drained, the receiver has read everything, and no message met a failed direct
      ::send or a kConnected check, every sendFrame call has been delivered: as many as were made,
      and each thread's in full and in order. */
  lemma {:induction false} EndToEndComplete(sender: seq<Event>, receiver: seq<Event>)
    requires var a, b := Run(sender), Run(receiver);
      && b.recv.got == a.wire && !b.recv.big
      && a.out == [] && Queued(a.queue) == []
      && a.send.failed == 0 && a.send.refusedCalls == 0 && a.send.refusedInLoop == 0
    requires forall e <- Run(sender).send.accepted :: Sendable(e.payload)
    ensures var a, b := Run(sender), Run(receiver);
      && b.recv.frames == Payloads(a.send.accepted) && b.inp == []
      && |a.send.accepted| == |a.send.sent|
      && forall tid: Tid :: Of(tid, a.send.accepted) == Of(tid, a.send.sent)
  {
    hide Run, Of, Queued, Subsequence, Stream, Blocked, Reading, WriteSide, Lifecycle;
    var a, b := Run(sender), Run(receiver);
    RunInv(sender);
    RunInv(receiver);
    RunOrdered(sender);
    var ps := Payloads(a.send.accepted);
    forall p <- ps ensures Sendable(p) {
      var i :| 0 <= i < |ps| && ps[i] == p;
      assert a.send.accepted[i] in a.send.accepted;
    }
    assert a.wire == a.wire + a.out == Stream(ps);
    ReceivedFromStream(b.recv.got, b.recv.frames, b.inp, ps);
    assert Pipeline(a) == a.send.accepted;
    forall tid: Tid ensures Of(tid, a.send.accepted) == Of(tid, a.send.sent) {
      assert ThreadOrder(a, tid);
    }
  }

  /** One payload that is empty or has more than 16 MiB, and fewer than 2^32 bytes, jams the stream: nothing
      framed after it is ever dispatched. */
  lemma BadPayloadJams(got: seq<byte>, frames: seq<Payload>, rest: seq<byte>,
                       good: seq<Payload>, bad: Payload, more: seq<Payload>)
    requires Reading(got, frames, rest) && got <= Stream(good + [bad] + more)
    requires AllSendable(good) && !Sendable(bad) && |bad| < TWO_32
    ensures frames <= good
  {
    hide Frame, LenAt;
    StreamAppend(good + [bad], more);
    StreamSnoc(good, bad);
    var q := Frame(bad) + Stream(more);
    Assoc(Stream(good), Frame(bad), Stream(more));
    BadFrameBlocks(bad, Stream(more));
    StreamPrefix(frames, rest, good, q);
  }
}
