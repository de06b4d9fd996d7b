/** What each operation of a connection does to its state, its buffers and its socket, and what follows
    over runs. */
module ConnectionEffects {
  import opened Sequences
  import opened Framing
  import opened Poller
  import opened Connection
  import T = Transport

  /** The kernel watches the connection's fd for output. */
  predicate WatchesOutput(c: Chan) {
    c.kernel.Some? && c.kernel.value.write
  }

  // ---- sending ----

  /** sendInLoop unless kConnected: the message is dropped. */
  lemma NotConnectedDrops(w: World, e: Entry, k: Kernel)
    requires w.state != Connected
    ensures SendInLoop(w, e, k) ==
            w.(send := w.send.(reached := w.send.reached + [e], refusedInLoop := w.send.refusedInLoop + 1))
  {
  }

  /** Behind pending output: all of it is kept, whatever the kernel would take. */
  lemma PendingKeeps(w: World, e: Entry, k: Kernel)
    requires w.state == Connected && (w.out != [] || w.ch.events.write)
    ensures SendInLoop(w, e, k) ==
            w.(send := w.send.(reached := w.send.reached + [e], accepted := w.send.accepted + [e]),
               out := w.out + Frame(e.payload))
  {
    hide Frame;
  }

  /** With nothing pending: dropped on an error of ::send; otherwise as many of the first bytes as the kernel
      takes are on the socket, the rest is kept, and EPOLLOUT is watched if there is any. */
  lemma DirectWrites(w: World, e: Entry, k: Kernel)
    requires Mirror(w.ch) && w.state == Connected && w.out == [] && !w.ch.events.write
    ensures var w', s := SendInLoop(w, e, k), w.send.(reached := w.send.reached + [e]);
      match k
      case Refused => w' == w.(lateSend := w.lateSend || w.shutWr, send := s.(failed := s.failed + 1))
      case Took(n) =>
        var m := Frame(e.payload);
        var taken := if n < |m| then n else |m|;
        && w' == w.(lateSend := w.lateSend || w.shutWr, send := s.(accepted := s.accepted + [e]),
                    wire := w.wire + m[..taken], out := m[taken..], ch := w'.ch)
        && w'.ch.events == Events(w.ch.events.read, taken < |m|)
        && (if taken < |m| then WatchesOutput(w'.ch) else w'.ch == w.ch)
  {
    Watched(w.ch);
    if k.Took? {
      TakenPart(w, e, k.n);
    }
    hide Frame, Apply, Mirror;
  }

  lemma Watched(c: Chan)
    requires Mirror(c)
    ensures Apply(c, EnableWriting).events == Events(c.events.read, true) && WatchesOutput(Apply(c, EnableWriting))
  {
    MaskEffect(c);
    WatchEffect(c, EnableWriting);
  }

  lemma TakenPart(w: World, e: Entry, n: nat)
    requires w.state == Connected && w.out == [] && !w.ch.events.write
    ensures var m := Frame(e.payload);
      var taken := if n < |m| then n else |m|;
      SendInLoop(w, e, Took(n)) ==
      w.(send := w.send.(reached := w.send.reached + [e], accepted := w.send.accepted + [e]),
         lateSend := w.lateSend || w.shutWr, wire := w.wire + m[..taken], out := m[taken..],
         ch := if taken < |m| then Apply(w.ch, EnableWriting) else w.ch)
  {
    hide Frame, Apply;
    var m := Frame(e.payload);
    var taken := if n < |m| then n else |m|;
    assert Min(n, |m|) == taken && w.out + m[taken..] == m[taken..];
  }

  /** handleWrite, with output pending and EPOLLOUT watched: as many of the first pending bytes as the kernel
      takes go to the socket and leave the buffer; when none are left, EPOLLOUT is no longer watched and,
      from kDisconnecting, the socket is half-closed. An error moves no byte. */
  lemma WriteEffect(w: World, k: Kernel)
    requires Mirror(w.ch) && w.ch.events.write && w.out != []
    ensures var w' := HandleWrite(w, k);
      match k
      case Refused => w' == w.(lateSend := w.lateSend || w.shutWr)
      case Took(n) =>
        var taken := if n < |w.out| then n else |w.out|;
        && w' == w.(lateSend := w.lateSend || w.shutWr, wire := w.wire + w.out[..taken], out := w.out[taken..],
                    ch := w'.ch, shutWr := w'.shutWr)
        && (taken < |w.out| ==> w'.ch == w.ch && w'.shutWr == w.shutWr)
        && (taken == |w.out| ==>
              && w'.out == [] && w'.ch.events == Events(w.ch.events.read, false) && !WatchesOutput(w'.ch)
              && (w'.shutWr <==> w.shutWr || w.state == Disconnecting))
  {
    MaskEffect(w.ch);
    WatchEffect(w.ch, DisableWriting);
    Unwatched(w.ch);
    hide Apply, Mirror;
    assert w.out[..|w.out|] == w.out && w.out[|w.out|..] == [];
  }

  /** The other two cases: nothing to do, and a needless EPOLLOUT. */
  lemma WriteIdle(w: World, k: Kernel)
    requires Mirror(w.ch) && !(w.ch.events.write && w.out != [])
    ensures var w' := HandleWrite(w, k);
      if w.ch.events.write
      then w' == w.(ch := w'.ch) && w'.ch.events == Events(w.ch.events.read, false) && !WatchesOutput(w'.ch)
      else w' == w
  {
    MaskEffect(w.ch);
    Unwatched(w.ch);
    hide Apply, Mirror;
  }

  lemma Unwatched(c: Chan)
    requires Mirror(c)
    ensures !WatchesOutput(Apply(c, DisableWriting))
  {
    MaskEffect(c);
    WatchEffect(c, DisableWriting);
  }

  /** A sendFrame call, from any thread: turned away exactly when the state is not kConnected, and was not
      either when the tests were made. Otherwise, on another thread, the message goes to the end of the
      queue; on the loop thread it is sent at once. */
  lemma CallEffect(w: World, e: Entry, stale: bool, k: Kernel)
    requires w.destroying ==> e.tid != LOOP
    ensures var w' := Step(w, SendFrame(e, stale, k));
      var refused := w.state != Connected && !(stale && w.state in {Disconnecting, Disconnected});
      var called := w.(send := w.send.(sent := w.send.sent + [e]));
      && (refused ==> w' == called.(send := called.send.(refusedCalls := w.send.refusedCalls + 1)))
      && (!refused && e.tid != LOOP ==> w' == called.(queue := w.queue + [DoSend(e)]))
      && (!refused && e.tid == LOOP ==> w' == SendInLoop(called, e, k))
      && w'.send.refusedCalls == w.send.refusedCalls + (if refused then 1 else 0)
  {
    SendRefusesNothing(w.(send := w.send.(sent := w.send.sent + [e])), e, k);
    hide SendInLoop;
  }

  lemma SendRefusesNothing(w: World, e: Entry, k: Kernel)
    ensures SendInLoop(w, e, k).send.refusedCalls == w.send.refusedCalls
  {
    hide Frame, Apply;
  }

  // ---- closing ----

  /** The compare-exchange of shutdown() and forceClose(). */
  lemma CasEffect(w: World)
    ensures CasDisconnecting(w) ==
            if w.state != Connected then w else
              w.(state := Disconnecting,
                 life := w.life.(localClose := true, lateClose := w.life.lateClose || w.destroying))
  {
  }

  /** shutdown(): nothing unless kConnected; otherwise kDisconnecting, and on the loop thread the half-close at
      once unless EPOLLOUT is watched, on another the functor still to be queued. */
  lemma ShutdownEffect(w: World, tid: Tid)
    requires w.destroying ==> tid != LOOP
    ensures var w' := Step(w, CallShutdown(tid));
      var won := w.(state := Disconnecting,
                    life := w.life.(localClose := true, lateClose := w.life.lateClose || w.destroying));
      w' == if w.state != Connected then w
            else if tid == LOOP then
              won.(shutWr := w.shutWr || !w.ch.events.write, life := won.life.(ranShutdown := true))
            else won.(shutdownOwed := true)
  {
  }

  /** The pushes of other threads, and the compare-exchange of their forceClose(). */
  lemma OthersEffect(w: World)
    ensures Step(w, PostShutdown) ==
            if w.shutdownOwed then w.(queue := w.queue + [DoShutdown], shutdownOwed := false) else w
    ensures Step(w, PostForceClose) == w.(queue := w.queue + [DoForceClose])
    ensures Step(w, CasForceClose) == CasDisconnecting(w)
  {
  }

  /** handleClose: nothing unless kConnected or kDisconnecting and for the first time; otherwise no event is
      watched, the table entry is gone and connectDestroyed is queued; the state stays. */
  lemma CloseEffect(w: World)
    requires Inv(w)
    ensures var w' := HandleClose(w);
      if w.state == Connecting || w.state == Disconnected || w.closeRequested then w' == w else
      && w' == w.(closeRequested := true, inTable := false, queue := w.queue + [DoDestroy],
                  ch := w'.ch, life := w.life.(closes := w.life.closes + 1))
      && w'.ch.events == NO_EVENTS && w'.ch.kernel == None && w'.ch.inMap
  {
    MaskEffect(w.ch);
    WatchEffect(w.ch, DisableAll);
    hide Apply, Conserved, Receives;
  }

  /** What a user callback on the loop thread calls. */
  lemma LoopCallEffect(w: World, c: Call)
    requires !w.destroying
    ensures Step(w, LoopCall(c)) == DoCall(w, c)
    ensures match c
      case CSend(p, k) => DoCall(w, c) == Step(w, SendFrame(Entry(LOOP, p), false, k))
      case CShutdown => DoCall(w, c) == Step(w, CallShutdown(LOOP))
      case CForceClose => DoCall(w, c) == HandleClose(CasDisconnecting(w))
  {
    hide CallSend, HandleClose, CasDisconnecting, Shutdown;
  }

  // ---- events and functors ----

  /** What the poller delivers. A read adds its bytes to what was buffered, hands the complete frames to the
      service, keeps the rest, and makes the service's calls; end of file and hang-up close. */
  lemma DeliveryEffect(w: World, r: ReadResult, cs: seq<Call>)
    requires !w.destroying
    ensures var d := Delivered(w); var w' := Step(w, Readable(r, cs));
      match r
      case Bytes(chunk) =>
        var got := Dispatch(w.inp + chunk);
        w' == DoCalls(d.(inp := got.rest,
                         recv := d.recv.(got := w.recv.got + chunk, frames := w.recv.frames + got.frames,
                                         big := w.recv.big || (|w.inp| + |chunk| >= TWO_31 && !got.stuck))), cs)
      case Eof => w' == HandleClose(d)
      case ReadError => w' == d
    ensures Step(w, HangUp) == HandleClose(Delivered(w))
    ensures forall k: Kernel :: Step(w, Writable(k)) == HandleWrite(Delivered(w), k)
    ensures Delivered(w) == if w.life.destroys > 0 then w.(life := w.life.(stray := true)) else w
  {
    hide Dispatch, DoCalls, HandleClose, HandleWrite;
    if r.Bytes? {
      assert Fits(w.inp, r.chunk) <==> |w.inp| + |r.chunk| < TWO_31 || Dispatch(w.inp + r.chunk).stuck;
    }
  }

  /** The functor at the head of the queue leaves it and does what it was posted for. */
  lemma FunctorEffect(w: World, k: Kernel)
    requires !w.destroying && w.queue != []
    ensures var w' := Step(w, RunNext(k)); var u := w.(queue := w.queue[1..]);
      match w.queue[0]
      case DoEstablish => w' == ConnectEstablished(u)
      case DoSend(e) => w' == SendInLoop(u, e, k)
      case DoShutdown => w' == u.(shutWr := w.shutWr || !w.ch.events.write, life := w.life.(ranShutdown := true))
      case DoForceClose => w' == HandleClose(u)
      case DoDestroy => w' == LoadState(u)
  {
    hide ConnectEstablished, SendInLoop, HandleClose, LoadState;
  }

  /** connectEstablished: only from kConnecting; the up notification, and the fd watched for input alone. */
  lemma EstablishEffect(w: World)
    requires Inv(w)
    ensures var w' := ConnectEstablished(w);
      if w.state != Connecting then w' == w else
      && w' == w.(state := Connected, ch := w'.ch, life := w.life.(ups := w.life.ups + 1))
      && w'.ch.kernel == Some(Events(true, false)) == Some(w'.ch.events) && w'.ch.inMap
  {
    MaskEffect(w.ch);
    WatchEffect(w.ch, EnableReading);
    hide Apply, Conserved, Receives;
  }

  /** connectDestroyed up to the load of the state: kConnected leads to the store; otherwise the channel is
      removed at once. */
  lemma LoadEffect(w: World)
    requires Mirror(w.ch)
    ensures var w' := LoadState(w);
      if w.state == Connected then w' == w.(destroying := true, life := w.life.(sawUp := true)) else
      && w' == w.(ch := w'.ch, life := w.life.(destroys := w.life.destroys + 1))
      && w'.ch.kernel == None && !w'.ch.inMap
  {
    WatchEffect(w.ch, Remove);
    hide Apply, Mirror;
  }

  /** And from the store on: kDisconnected whatever the state is by now, the down notification, the removal. */
  lemma FinishEffect(w: World)
    requires Mirror(w.ch)
    ensures var w' := Step(w, FinishDestroy);
      if !w.destroying then w' == w else
      && w' == w.(state := Disconnected, destroying := false, ch := w'.ch,
                  life := w.life.(downs := w.life.downs + 1, destroys := w.life.destroys + 1))
      && w'.ch.kernel == None && !w'.ch.inMap && w'.ch.events == NO_EVENTS
  {
    DisabledRemoved(w.ch);
    FinishIs(w);
    hide Step, Apply, Mirror;
  }

  lemma FinishIs(w: World)
    ensures Step(w, FinishDestroy) ==
            if !w.destroying then w
            else w.(state := Disconnected, destroying := false, ch := Apply(Apply(w.ch, DisableAll), Remove),
                    life := w.life.(downs := w.life.downs + 1, destroys := w.life.destroys + 1))
  {
    hide Apply;
  }

  lemma DisabledRemoved(c: Chan)
    requires Mirror(c)
    ensures var c' := Apply(Apply(c, DisableAll), Remove); c'.kernel == None && !c'.inMap && c'.events == NO_EVENTS
  {
    MaskEffect(c);
    WatchEffect(c, DisableAll);
    MaskEffect(Apply(c, DisableAll));
    WatchEffect(Apply(c, DisableAll), Remove);
    hide Apply, Mirror;
  }

  /** Nothing begins on the loop thread while it is inside connectDestroyed. */
  lemma LoopBusy(w: World, ev: Event)
    requires w.destroying
    requires ev.LoopCall? || ev.RunNext? || ev.Readable? || ev.Writable? || ev.HangUp?
             || (ev.SendFrame? && ev.e.tid == LOOP) || (ev.CallShutdown? && ev.tid == LOOP)
    ensures Step(w, ev) == w
  {
  }

  // ---- over runs ----

  /** The state is kConnected at every sendFrame call of this event. */
  ghost predicate CalledConnected(w: World, ev: Event) {
    match ev
    case SendFrame(_, _, _) => w.state == Connected
    case LoopCall(c) => c.CSend? ==> w.state == Connected
    case Readable(r, cs) =>
      r.Bytes? ==>
        forall j | 0 <= j < |cs| :: cs[j].CSend? ==> DoCalls(Cut(Delivered(w), r.chunk), cs[..j]).state == Connected
    case _ => true
  }

  ghost predicate AlwaysCalledConnected(evs: seq<Event>) {
    forall i | 0 <= i < |evs| :: CalledConnected(Run(evs[..i]), evs[i])
  }

  /** If every sendFrame call of a run finds the state kConnected, none is turned away. */
  lemma {:induction false} NoneTurnedAway(evs: seq<Event>)
    requires AlwaysCalledConnected(evs)
    ensures Run(evs).send.refusedCalls == 0
  {
    if evs != [] {
      hide Step, CalledConnected;
      var init, ev := evs[..|evs| - 1], evs[|evs| - 1];
      forall i | 0 <= i < |init| ensures CalledConnected(Run(init[..i]), init[i]) {
        assert init[..i] == evs[..i] && CalledConnected(Run(evs[..i]), evs[i]);
      }
      NoneTurnedAway(init);
      assert evs[..|init|] == init && CalledConnected(Run(evs[..|init|]), evs[|init|]);
      ConnectedStep(Run(init), ev);
      assert evs == init + [ev];
      RunSnoc(init, ev);
    }
  }

  lemma ConnectedStep(w: World, ev: Event)
    requires CalledConnected(w, ev)
    ensures Step(w, ev).send.refusedCalls == w.send.refusedCalls
  {
    if w.destroying && OnLoopThread(ev) {
      return;
    }
    hide CallSend, DoCalls, HandleWrite, HandleClose, Cut, Shutdown, CasDisconnecting, FinishDestroyed, RunFunctor;
    match ev
    case SendFrame(e, stale, k) => ConnectedCall(w, e, stale, k);
    case LoopCall(c) => ConnectedLoopCall(w, c);
    case Readable(r, cs) =>
      hide HandleRead;
      ConnectedRead(w, r, cs);
    case RunNext(k) => if w.queue != [] { FunctorRefuses(w.(queue := w.queue[1..]), w.queue[0], k); }
    case _ => SilentStep(w, ev);
  }

  lemma SilentStep(w: World, ev: Event)
    requires !ev.SendFrame? && !ev.LoopCall? && !ev.Readable? && !ev.RunNext?
    ensures Step(w, ev).send.refusedCalls == w.send.refusedCalls
  {
    if w.destroying && OnLoopThread(ev) {
      return;
    }
    hide CallSend, HandleRead, DoCall, HandleWrite, HandleClose, Shutdown, CasDisconnecting, FinishDestroyed;
    hide RunFunctor;
    match ev
    case CallShutdown(tid) => SendingNothing(w, Refused, tid);
    case Writable(k) => SendingNothing(Delivered(w), k, LOOP);
    case HangUp => SendingNothing(Delivered(w), Refused, LOOP);
    case CasForceClose => SendingNothing(w, Refused, LOOP);
    case FinishDestroy => SendingNothing(w, Refused, LOOP);
    case PostShutdown =>
    case PostForceClose =>
  }

  lemma ConnectedRead(w: World, r: ReadResult, cs: seq<Call>)
    requires CalledConnected(w, Readable(r, cs))
    ensures HandleRead(Delivered(w), r, cs).send.refusedCalls == w.send.refusedCalls
  {
    var d := Delivered(w);
    hide Cut, DoCalls, HandleClose;
    match r
    case Bytes(chunk) =>
      CutSends(d, chunk);
      ConnectedCalls(Cut(d, chunk), cs);
    case Eof => SendingNothing(d, Refused, LOOP);
    case ReadError =>
  }

  lemma CutSends(w: World, chunk: seq<byte>)
    ensures Cut(w, chunk).send == w.send
  {
    hide Dispatch;
  }

  lemma SendingNothing(w: World, k: Kernel, tid: Tid)
    ensures HandleClose(w).send == w.send && Shutdown(w, tid).send == w.send && CasDisconnecting(w).send == w.send
    ensures HandleWrite(w, k).send == w.send && FinishDestroyed(w).send == w.send
  {
    T.WriteKeepsLog(w, k);
    T.ShutdownKeepsLog(w, tid);
    T.CloseKeepsLog(w);
    T.FinishKeepsLog(w);
    hide HandleClose, Shutdown, CasDisconnecting, HandleWrite, FinishDestroyed;
  }

  lemma FunctorRefuses(w: World, f: Functor, k: Kernel)
    ensures RunFunctor(w, f, k).send.refusedCalls == w.send.refusedCalls
  {
    hide SendInLoop;
    if f.DoSend? {
      SendRefusesNothing(w, f.e, k);
    } else {
      T.FunctorKeepsLog(w, f, k);
      hide RunFunctor;
    }
  }

  lemma ConnectedCall(w: World, e: Entry, stale: bool, k: Kernel)
    requires w.state == Connected
    ensures CallSend(w, e, stale, k).send.refusedCalls == w.send.refusedCalls
  {
    SendRefusesNothing(w.(send := w.send.(sent := w.send.sent + [e])), e, k);
    hide SendInLoop;
  }

  lemma ConnectedLoopCall(w: World, c: Call)
    requires c.CSend? ==> w.state == Connected
    ensures DoCall(w, c).send.refusedCalls == w.send.refusedCalls
  {
    hide CallSend, Shutdown, HandleClose, CasDisconnecting;
    match c
    case CSend(p, k) => ConnectedCall(w, Entry(LOOP, p), false, k);
    case CShutdown => SendingNothing(w, Refused, LOOP);
    case CForceClose =>
      SendingNothing(w, Refused, LOOP);
      SendingNothing(CasDisconnecting(w), Refused, LOOP);
  }

  lemma {:induction false} ConnectedCalls(w: World, cs: seq<Call>)
    requires forall j | 0 <= j < |cs| :: cs[j].CSend? ==> DoCalls(w, cs[..j]).state == Connected
    ensures DoCalls(w, cs).send.refusedCalls == w.send.refusedCalls
  {
    if cs != [] {
      hide DoCall;
      var init := cs[..|cs| - 1];
      forall j | 0 <= j < |init| && init[j].CSend? ensures DoCalls(w, init[..j]).state == Connected {
        assert init[..j] == cs[..j];
      }
      ConnectedCalls(w, init);
      assert cs[..|init|] == init;
      ConnectedLoopCall(DoCalls(w, init), cs[|init|]);
    }
  }

  /** Before the close, one EPOLLOUT at which the kernel takes everything pending empties the buffer; the
      accepted messages are on the socket; and if shutdownInLoop has run, so is the half-close. */
  lemma OneWriteDrains(evs: seq<Event>, n: nat)
    requires !Run(evs).closeRequested && n >= |Run(evs).out|
    ensures var w, w' := Run(evs), Run(evs + [Writable(Took(n))]);
      && w'.out == [] && w'.wire == w.wire + w.out == Stream(Payloads(w.send.accepted))
      && !WatchesOutput(w'.ch)
      && (w.life.ranShutdown ==> w'.shutWr)
  {
    var w, ev := Run(evs), Writable(Took(n));
    RunSnoc(evs, ev);
    T.ShutdownTheorem(evs + [ev]);
    RunInv(evs);
    hide Run;
    var w' := Step(w, ev);
    NotDestroyed(w);
    WritesAll(w, n);
  }

  lemma NotDestroyed(w: World)
    requires Inv(w) && !w.closeRequested
    ensures w.life.destroys == 0 && !w.destroying && Delivered(w) == w
    ensures Mirror(w.ch) && (w.out != [] <==> w.ch.events.write)
    ensures Conserved(w) && (w.life.ranShutdown ==> Rank(w.state) >= 2) && w.state != Disconnected
    ensures w.life.ranShutdown && w.out == [] ==> w.shutWr
  {
  }

  lemma WritesAll(w: World, n: nat)
    requires !w.destroying && Delivered(w) == w && Mirror(w.ch) && (w.out != [] <==> w.ch.events.write) && n >= |w.out|
    ensures var w' := Step(w, Writable(Took(n)));
      && w'.out == [] && w'.wire == w.wire + w.out && !WatchesOutput(w'.ch) && w'.life == w.life
      && (w.out != [] ==> (w'.shutWr <==> w.shutWr || w.state == Disconnecting)) && (w.out == [] ==> w' == w)
  {
    hide Apply;
    assert w.out[..|w.out|] == w.out && w.out[|w.out|..] == [];
    if w.out != [] {
      WriteEffect(w, Took(n));
    } else {
      WriteIdle(w, Took(n));
      assert w.wire + [] == w.wire;
    }
    hide HandleWrite;
  }
}
