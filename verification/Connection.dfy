/** One nwl::TcpConnection with its socket, its loop's queue of functors and the peer's bytes, as a
    state machine over atomic steps. Threads other than the loop thread may step between any two
    actions of the loop. */
module Connection {
  import opened Sequences
  import opened Framing
  import opened Poller

  datatype ConnState = Connecting | Connected | Disconnecting | Disconnected

  function Rank(s: ConnState): nat {
    match s
    case Connecting => 0
    case Connected => 1
    case Disconnecting => 2
    case Disconnected => 3
  }

  type Tid = nat

  /** The thread that runs the connection's EventLoop. */
  const LOOP: Tid := 0

  /** A sendFrame call. */
  datatype Entry = Entry(tid: Tid, payload: Payload)

  /** Work queued on the loop for this connection. */
  datatype Functor = DoEstablish | DoSend(e: Entry) | DoShutdown | DoForceClose | DoDestroy

  /** What one ::send returns: a byte count (never more than offered) or -1. */
  datatype Kernel = Took(n: nat) | Refused

  datatype World = World(
    // TcpConnection
    state: ConnState, closeRequested: bool, ch: Chan, out: seq<byte>, inp: seq<byte>,
    // the loop's queue and the server's connection table
    queue: seq<Functor>, inTable: bool,
    // the loop thread is inside connectDestroyed: state_ was read as kConnected, and is still to be stored
    destroying: bool,
    // the socket: bytes the kernel took, SHUT_WR issued, a ::send issued after SHUT_WR
    wire: seq<byte>, shutWr: bool, lateSend: bool,
    // shutdown() won its state change but has not queued its functor yet
    shutdownOwed: bool,
    // histories
    send: SendLog, recv: RecvLog, life: LifeLog)

  datatype SendLog = SendLog(
    sent: seq<Entry>,        // sendFrame calls, in call order
    reached: seq<Entry>,     // sendInLoop executions
    accepted: seq<Entry>,    // messages taken over by the kernel or the output buffer
    refusedCalls: nat,       // turned away by the checks in sendFrame and send
    refusedInLoop: nat,      // turned away by the check in sendInLoop
    failed: nat)             // dropped because the direct ::send failed

  datatype RecvLog = RecvLog(
    got: seq<byte>,          // bytes read
    frames: seq<Payload>,    // payloads dispatched
    big: bool)               // a pass over the buffer met 2^31 bytes or more and no invalid length

  datatype LifeLog = LifeLog(
    ups: nat, downs: nat,    // connectionCallback_ called by connectEstablished, by connectDestroyed
    closes: nat,             // closeCallback_
    destroys: nat,           // connectDestroyed
    localClose: bool,        // shutdown() or forceClose() moved the state
    sawUp: bool,             // connectDestroyed read kConnected
    lateClose: bool,         // shutdown() or forceClose() moved the state between that read and the store
    ranShutdown: bool,       // shutdownInLoop has run
    stray: bool)             // the poller delivered an event after connectDestroyed

  /** After TcpServer::handleNewConnection. */
  const INIT := World(Connecting, false, FRESH, [], [], [DoEstablish], true, false, [], false, false, false,
    SendLog([], [], [], 0, 0, 0), RecvLog([], [], false), LifeLog(0, 0, 0, 0, false, false, false, false, false))

  // ---- the methods of TcpConnection ----

  function ConnectEstablished(w: World): World {
    if w.state != Connecting then w else
      w.(state := Connected, ch := Apply(w.ch, EnableReading), life := w.life.(ups := w.life.ups + 1))
  }

  function TurnedAway(w: World, e: Entry): World {
    w.(send := w.send.(reached := w.send.reached + [e], refusedInLoop := w.send.refusedInLoop + 1))
  }

  /** Nothing is pending: straight to the kernel, and what it does not take is kept. */
  function SentDirect(w: World, e: Entry, k: Kernel): World {
    var m, late, s := Frame(e.payload), w.lateSend || w.shutWr, w.send.(reached := w.send.reached + [e]);
    match k
    case Refused => w.(lateSend := late, send := s.(failed := s.failed + 1))
    case Took(n) =>
      var n := Min(n, |m|);
      w.(lateSend := late, send := s.(accepted := s.accepted + [e]),
         wire := w.wire + m[..n], out := w.out + m[n..],
         ch := if n < |m| then Apply(w.ch, EnableWriting) else w.ch)
  }

  /** Behind what is pending. */
  function Appended(w: World, e: Entry): World {
    w.(send := w.send.(reached := w.send.reached + [e], accepted := w.send.accepted + [e]),
       out := w.out + Frame(e.payload))
  }

  function SendInLoop(w: World, e: Entry, k: Kernel): World {
    if w.state != Connected then TurnedAway(w, e)
    else if w.out == [] && !w.ch.events.write then SentDirect(w, e, k)
    else Appended(w, e)
  }

  /** EPOLLOUT with output pending. */
  function Flushed(w: World, k: Kernel): World {
    var late := w.lateSend || w.shutWr;
    if k.Refused? then w.(lateSend := late) else
    var n := Min(k.n, |w.out|);
    if n < |w.out| then w.(lateSend := late, wire := w.wire + w.out[..n], out := w.out[n..]) else
      w.(lateSend := late, wire := w.wire + w.out, out := [],
         ch := Apply(w.ch, DisableWriting), shutWr := w.shutWr || w.state == Disconnecting)
  }

  function HandleWrite(w: World, k: Kernel): World {
    if !w.ch.events.write then w
    else if w.out == [] then w.(ch := Apply(w.ch, DisableWriting))
    else Flushed(w, k)
  }

  function ShutdownInLoop(w: World): World {
    w.(shutWr := w.shutWr || !w.ch.events.write, life := w.life.(ranShutdown := true))
  }

  /** The compare-exchange kConnected to kDisconnecting. */
  function CasDisconnecting(w: World): World {
    if w.state != Connected then w else
      w.(state := Disconnecting, life := w.life.(localClose := true, lateClose := w.life.lateClose || w.destroying))
  }

  /** shutdown() up to the point where another thread still has to queue shutdownInLoop. */
  function Shutdown(w: World, tid: Tid): World {
    if w.state != Connected then w
    else if tid == LOOP then ShutdownInLoop(CasDisconnecting(w))
    else CasDisconnecting(w).(shutdownOwed := true)
  }

  /** handleClose, and TcpServer::removeConnection which it calls. */
  function HandleClose(w: World): World {
    if w.state in {Connecting, Disconnected} || w.closeRequested then w else
      w.(closeRequested := true, ch := Apply(w.ch, DisableAll), inTable := false,
         queue := w.queue + [DoDestroy], life := w.life.(closes := w.life.closes + 1))
  }

  /** connectDestroyed up to its test of state_: a load. Other threads may act before the store. */
  function LoadState(w: World): World {
    if w.state == Connected then w.(destroying := true, life := w.life.(sawUp := true)) else RemoveChannel(w)
  }

  /** The branch of the test: the store, whatever the state is by now, and the down notification. */
  function NotifyDown(w: World): World {
    w.(state := Disconnected, destroying := false, ch := Apply(w.ch, DisableAll),
       life := w.life.(downs := w.life.downs + 1))
  }

  function RemoveChannel(w: World): World {
    w.(ch := Apply(w.ch, Remove), life := w.life.(destroys := w.life.destroys + 1))
  }

  /** The rest of connectDestroyed after a load that returned kConnected. */
  function FinishDestroyed(w: World): World {
    if w.destroying then RemoveChannel(NotifyDown(w)) else w
  }

  /** The tests of the state in sendFrame and in send let the call through. stale: they were made at an
      earlier moment, when the state was kConnected; it never returns to kConnecting. */
  predicate TestsPass(w: World, stale: bool) {
    w.state == Connected || (stale && w.state != Connecting)
  }

  /** sendFrame and send. */
  function CallSend(w: World, e: Entry, stale: bool, k: Kernel): World {
    var w' := w.(send := w.send.(sent := w.send.sent + [e]));
    if !TestsPass(w, stale) then
      w'.(send := w'.send.(refusedCalls := w'.send.refusedCalls + 1))
    else if e.tid == LOOP then
      SendInLoop(w', e, k)
    else
      w'.(queue := w'.queue + [DoSend(e)])
  }

  // ---- steps ----

  /** A call made by a user callback on the loop thread. */
  datatype Call = CSend(payload: Payload, k: Kernel) | CShutdown | CForceClose

  function DoCall(w: World, c: Call): World {
    match c
    case CSend(p, k) => CallSend(w, Entry(LOOP, p), false, k)
    case CShutdown => Shutdown(w, LOOP)
    case CForceClose => HandleClose(CasDisconnecting(w))
  }

  function DoCalls(w: World, cs: seq<Call>): World {
    if cs == [] then w else DoCall(DoCalls(w, cs[..|cs| - 1]), cs[|cs| - 1])
  }

  lemma {:induction false} DoCallsAppend(w: World, a: seq<Call>, b: seq<Call>)
    ensures DoCalls(w, a + b) == DoCalls(DoCalls(w, a), b)
    decreases |b|
  {
    hide DoCall;
    if b == [] {
      assert a + b == a;
    } else {
      var init := b[..|b| - 1];
      assert (a + b)[..|a + b| - 1] == a + init;
      DoCallsAppend(w, a, init);
    }
  }

  /** w with another receiving side. */
  function WithInput(w: World, inp: seq<byte>, recv: RecvLog): World {
    w.(inp := inp, recv := recv)
  }

  /** Calls neither look at the receiving side nor change it. */
  lemma DoCallInput(w: World, c: Call, inp: seq<byte>, recv: RecvLog)
    ensures DoCall(WithInput(w, inp, recv), c) == WithInput(DoCall(w, c), inp, recv)
  {
    hide CallSend, Shutdown, CasDisconnecting, HandleClose, WithInput;
    match c
    case CSend(p, k) => CallSendInput(w, Entry(LOOP, p), k, inp, recv);
    case CShutdown => ShutdownInput(w, inp, recv);
    case CForceClose =>
      CasInput(w, inp, recv);
      CloseInput(CasDisconnecting(w), inp, recv);
  }

  lemma CasInput(w: World, inp: seq<byte>, recv: RecvLog)
    ensures CasDisconnecting(WithInput(w, inp, recv)) == WithInput(CasDisconnecting(w), inp, recv)
  {
  }

  lemma ShutdownInput(w: World, inp: seq<byte>, recv: RecvLog)
    ensures Shutdown(WithInput(w, inp, recv), LOOP) == WithInput(Shutdown(w, LOOP), inp, recv)
  {
  }

  lemma CloseInput(w: World, inp: seq<byte>, recv: RecvLog)
    ensures HandleClose(WithInput(w, inp, recv)) == WithInput(HandleClose(w), inp, recv)
  {
    hide Apply;
  }

  lemma CallSendInput(w: World, e: Entry, k: Kernel, inp: seq<byte>, recv: RecvLog)
    requires e.tid == LOOP
    ensures CallSend(WithInput(w, inp, recv), e, false, k) == WithInput(CallSend(w, e, false, k), inp, recv)
  {
    hide SendInLoop;
    SendInput(w.(send := w.send.(sent := w.send.sent + [e])), e, k, inp, recv);
  }

  lemma SendInput(w: World, e: Entry, k: Kernel, inp: seq<byte>, recv: RecvLog)
    ensures SendInLoop(WithInput(w, inp, recv), e, k) == WithInput(SendInLoop(w, e, k), inp, recv)
  {
    AppendInput(w, e, inp, recv);
    DirectInput(w, e, k, inp, recv);
    hide TurnedAway, SentDirect, Appended;
  }

  lemma AppendInput(w: World, e: Entry, inp: seq<byte>, recv: RecvLog)
    ensures TurnedAway(WithInput(w, inp, recv), e) == WithInput(TurnedAway(w, e), inp, recv)
    ensures Appended(WithInput(w, inp, recv), e) == WithInput(Appended(w, e), inp, recv)
  {
    hide Frame;
  }

  lemma DirectInput(w: World, e: Entry, k: Kernel, inp: seq<byte>, recv: RecvLog)
    ensures SentDirect(WithInput(w, inp, recv), e, k) == WithInput(SentDirect(w, e, k), inp, recv)
  {
    hide Frame, Apply;
    match k
    case Refused =>
    case Took(n) =>
      var m := Frame(e.payload);
      if n < |m| {
        assert Min(n, |m|) == n;
      } else {
        assert Min(n, |m|) == |m|;
      }
  }

  lemma {:induction false} DoCallsInput(w: World, cs: seq<Call>, inp: seq<byte>, recv: RecvLog)
    ensures DoCalls(WithInput(w, inp, recv), cs) == WithInput(DoCalls(w, cs), inp, recv)
  {
    hide DoCall, WithInput;
    if cs != [] {
      DoCallsInput(w, cs[..|cs| - 1], inp, recv);
      DoCallInput(DoCalls(w, cs[..|cs| - 1]), cs[|cs| - 1], inp, recv);
    }
  }

  /** The calls made while the first n payloads of a pass are served; calls(i) belong to the i-th. */
  function AllCalls(calls: nat -> seq<Call>, n: nat): seq<Call> {
    if n == 0 then [] else AllCalls(calls, n - 1) + calls(n - 1)
  }

  datatype ReadResult = Bytes(chunk: seq<byte>) | Eof | ReadError

  /** The chunk has been appended to the input buffer and complete frames have been taken out. */
  function Cut(w: World, chunk: seq<byte>): World {
    var d := Dispatch(w.inp + chunk);
    w.(inp := d.rest,
       recv := RecvLog(w.recv.got + chunk, w.recv.frames + d.frames, w.recv.big || !Fits(w.inp, chunk)))
  }

  /** handleRead: the message callback is the framing loop, and cs is what it calls back into the
      connection: what the service does for each payload, and shutdown() at an invalid length. Making the
      calls after the cut is the same as making them while cutting, as TcpConnections.TcpConnection.OnMessage
      does. Where other threads act between two calls, the later ones come as LoopCalls. */
  function HandleRead(w: World, r: ReadResult, cs: seq<Call>): World {
    match r
    case Bytes(chunk) => DoCalls(Cut(w, chunk), cs)
    case Eof => HandleClose(w)
    case ReadError => w
  }

  datatype Event =
    | SendFrame(e: Entry, stale: bool, k: Kernel)  // any thread
    | CallShutdown(tid: Tid)                       // any thread
    | PostShutdown                                 // the push of the thread that won shutdown()
    | CasForceClose                                // forceClose(), any thread: the state change
    | PostForceClose                               // and the push
    | LoopCall(c: Call)                            // a timer or another handler on the loop thread
    | RunNext(k: Kernel)                           // the loop executes the next queued functor
    | FinishDestroy                                // and connectDestroyed goes on after its load
    | Readable(r: ReadResult, cs: seq<Call>)       // handleRead
    | Writable(k: Kernel)                          // handleWrite
    | HangUp                                       // EPOLLHUP without EPOLLIN

  /** The poller delivers an event. That none comes after connectDestroyed is Reactor.ReactorTheorem. */
  function Delivered(w: World): World {
    w.(life := w.life.(stray := w.life.stray || w.life.destroys > 0))
  }

  function RunFunctor(w: World, f: Functor, k: Kernel): World {
    match f
    case DoEstablish => ConnectEstablished(w)
    case DoSend(e) => SendInLoop(w, e, k)
    case DoShutdown => ShutdownInLoop(w)
    case DoForceClose => HandleClose(w)
    case DoDestroy => LoadState(w)
  }

  /** Something the loop thread begins. */
  predicate OnLoopThread(ev: Event) {
    match ev
    case SendFrame(e, _, _) => e.tid == LOOP
    case CallShutdown(tid) => tid == LOOP
    case PostShutdown => false
    case CasForceClose => false
    case PostForceClose => false
    case FinishDestroy => false
    case _ => true
  }

  /** The loop thread begins nothing while it is inside connectDestroyed. */
  function Step(w: World, ev: Event): World {
    if w.destroying && OnLoopThread(ev) then w else
    match ev
    case SendFrame(e, stale, k) => CallSend(w, e, stale, k)
    case CallShutdown(tid) => Shutdown(w, tid)
    case PostShutdown => if w.shutdownOwed then w.(queue := w.queue + [DoShutdown], shutdownOwed := false) else w
    case CasForceClose => CasDisconnecting(w)
    case PostForceClose => w.(queue := w.queue + [DoForceClose])
    case LoopCall(c) => DoCall(w, c)
    case RunNext(k) => if w.queue == [] then w else RunFunctor(w.(queue := w.queue[1..]), w.queue[0], k)
    case FinishDestroy => FinishDestroyed(w)
    case Readable(r, cs) => HandleRead(Delivered(w), r, cs)
    case Writable(k) => HandleWrite(Delivered(w), k)
    case HangUp => HandleClose(Delivered(w))
  }

  function Steps(w: World, evs: seq<Event>): World {
    if evs == [] then w else Step(Steps(w, evs[..|evs| - 1]), evs[|evs| - 1])
  }

  function Run(evs: seq<Event>): World {
    Steps(INIT, evs)
  }

  lemma NoSteps()
    ensures Run([]) == INIT
  {
  }

  lemma RunSnoc(evs: seq<Event>, ev: Event)
    ensures Run(evs + [ev]) == Step(Run(evs), ev)
  {
    assert (evs + [ev])[..|evs|] == evs;
  }

  // ---- invariants ----

  function Payloads(es: seq<Entry>): seq<Payload> {
    seq(|es|, i requires 0 <= i < |es| => es[i].payload)
  }

  /** Bytes on the socket followed by the output buffer are the accepted messages, in order. */
  ghost predicate Conserved(w: World) {
    w.wire + w.out == Stream(Payloads(w.send.accepted))
  }

  /** EPOLLOUT is watched exactly while output is pending; SHUT_WR is final; user space and kernel agree. */
  ghost predicate WriteSide(w: World) {
    && Mirror(w.ch)
    && (!w.closeRequested ==> (w.out != [] <==> w.ch.events.write))
    && (w.shutWr ==> Rank(w.state) >= 2 && !w.ch.events.write)
    && !w.lateSend
    && (w.life.ranShutdown && !w.closeRequested && w.out == [] ==> w.shutWr)
    && (w.life.ranShutdown || DoShutdown in w.queue || w.shutdownOwed ==> Rank(w.state) >= 2)
  }

  function CountDestroy(q: seq<Functor>): nat {
    if q == [] then 0 else CountDestroy(q[..|q| - 1]) + if q[|q| - 1] == DoDestroy then 1 else 0
  }

  ghost predicate Lifecycle(w: World) {
    && w.life.ups == (if w.state == Connecting then 0 else 1)
    && w.life.closes == (if w.closeRequested then 1 else 0)
    && w.life.destroys + CountDestroy(w.queue) + (if w.destroying then 1 else 0) == w.life.closes
    && w.life.downs == (if w.state == Disconnected then 1 else 0)
    && w.inTable == !w.closeRequested
    && (w.closeRequested ==> w.state != Connecting)
    && (w.life.destroys == 0 ==> w.state != Disconnected)
    && (w.life.destroys == 1 ==> w.state in {Disconnecting, Disconnected})
    && (w.life.destroys == 1 && !w.life.stray ==> w.ch.index == New)
    && (w.life.localClose ==> Rank(w.state) >= 2)
    && (w.life.sawUp <==> w.destroying || w.state == Disconnected)
    && (w.destroying ==> w.state in {Connected, Disconnecting} && (w.life.lateClose <==> w.state == Disconnecting))
    && (w.state == Disconnecting ==> w.life.localClose && (w.life.lateClose <==> w.destroying))
    && (w.state == Disconnected ==> (w.life.localClose <==> w.life.lateClose))
    && (w.life.lateClose ==> w.life.localClose)
    && (w.state == Connecting ==> w.ch == FRESH)
    && (w.state != Connecting && !w.closeRequested ==> w.ch.events.read && w.ch.index == Added)
    && (w.closeRequested && w.life.destroys == 0 ==> !w.ch.events.read && w.ch.index != New)
  }

  ghost predicate Receives(w: World) {
    && Reading(w.recv.got, w.recv.frames, w.inp)
    && (!w.recv.big ==> Received(w.recv.got, w.recv.frames, w.inp))
  }

  ghost predicate Inv(w: World) {
    Conserved(w) && WriteSide(w) && Lifecycle(w) && Receives(w)
  }

  lemma CountSnoc(q: seq<Functor>, f: Functor)
    ensures CountDestroy(q + [f]) == CountDestroy(q) + if f == DoDestroy then 1 else 0
  {
    assert (q + [f])[..|q|] == q;
  }

  lemma {:induction false} CountUncons(q: seq<Functor>)
    requires q != []
    ensures CountDestroy(q) == CountDestroy(q[1..]) + if q[0] == DoDestroy then 1 else 0
  {
    if |q| > 1 {
      var init := q[..|q| - 1];
      CountUncons(init);
      assert q[1..][..|q| - 2] == init[1..];
    }
  }

  lemma AcceptConserves(w: World, e: Entry)
    ensures Stream(Payloads(w.send.accepted + [e])) == Stream(Payloads(w.send.accepted)) + Frame(e.payload)
  {
    assert Payloads(w.send.accepted + [e]) == Payloads(w.send.accepted) + [e.payload];
    StreamSnoc(Payloads(w.send.accepted), e.payload);
  }

  lemma SendInLoopInv(w: World, e: Entry, k: Kernel)
    requires Inv(w)
    ensures Inv(SendInLoop(w, e, k))
  {
    hide Inv, TurnedAway, SentDirect, Appended;
    if w.state != Connected {
      TurnedAwayInv(w, e);
    } else if w.out == [] && !w.ch.events.write {
      SentDirectInv(w, e, k);
    } else {
      AppendedInv(w, e);
    }
  }

  lemma TurnedAwayInv(w: World, e: Entry)
    requires Inv(w)
    ensures Inv(TurnedAway(w, e))
  {
    hide Received, Reading, Stream, CountDestroy;
  }

  lemma AppendedInv(w: World, e: Entry)
    requires Inv(w) && w.state == Connected && !(w.out == [] && !w.ch.events.write)
    ensures Inv(Appended(w, e))
  {
    hide Frame, Received, Reading, Stream, CountDestroy;
    AcceptConserves(w, e);
    assert w.wire + (w.out + Frame(e.payload)) == (w.wire + w.out) + Frame(e.payload);
  }

  lemma SentDirectInv(w: World, e: Entry, k: Kernel)
    requires Inv(w) && w.state == Connected && w.out == [] && !w.ch.events.write
    ensures Inv(SentDirect(w, e, k))
  {
    hide Frame, Received, Reading, Stream, CountDestroy;
    AcceptConserves(w, e);
    var m := Frame(e.payload);
    if k.Took? {
      var n := Min(k.n, |m|);
      assert m == m[..n] + m[n..];
      assert (w.wire + m[..n]) + (w.out + m[n..]) == (w.wire + w.out) + m;
    }
  }

  lemma HandleWriteInv(w: World, k: Kernel)
    requires Inv(w) && (w.life.destroys > 0 ==> w.life.stray)
    ensures Inv(HandleWrite(w, k))
  {
    if w.ch.events.write && w.out != [] {
      FlushedInv(w, k);
      hide Inv, Flushed;
    } else {
      hide Received, Reading, Stream, CountDestroy, Flushed;
    }
  }

  lemma FlushedInv(w: World, k: Kernel)
    requires Inv(w) && (w.life.destroys > 0 ==> w.life.stray) && w.ch.events.write && w.out != []
    ensures Inv(Flushed(w, k))
  {
    hide Received, Reading, Stream, CountDestroy;
    var w' := Flushed(w, k);
    assert w'.wire + w'.out == w.wire + w.out;
  }

  lemma ShutdownInv(w: World, tid: Tid)
    requires Inv(w)
    ensures Inv(Shutdown(w, tid)) && Inv(CasDisconnecting(w))
    ensures Rank(w.state) >= 2 ==> Inv(ShutdownInLoop(w))
  {
    hide Received, Reading, Stream;
  }

  lemma HandleCloseInv(w: World)
    requires Inv(w)
    ensures Inv(HandleClose(w))
  {
    hide Received, Reading, Stream;
    CountSnoc(w.queue, DoDestroy);
  }

  lemma CallSendInv(w: World, e: Entry, stale: bool, k: Kernel)
    requires Inv(w)
    ensures Inv(CallSend(w, e, stale, k))
  {
    hide Received, Reading, Stream, SendInLoop, Inv;
    var w' := w.(send := w.send.(sent := w.send.sent + [e]));
    var w'' := w.(send := w'.send.(refusedCalls := w'.send.refusedCalls + 1));
    CountersInv(w, w'.send);
    CountersInv(w, w''.send);
    SendInLoopInv(w', e, k);
    PushInv(w', DoSend(e));
  }

  lemma CountersInv(w: World, s: SendLog)
    requires Inv(w) && s.accepted == w.send.accepted
    ensures Inv(w.(send := s))
  {
    hide Received, Reading, Stream;
  }

  lemma PushInv(w: World, f: Functor)
    requires Inv(w) && !f.DoDestroy?
    requires f.DoShutdown? ==> Rank(w.state) >= 2
    ensures Inv(w.(queue := w.queue + [f]))
  {
    hide Received, Reading, Stream;
    CountSnoc(w.queue, f);
  }

  lemma DoCallInv(w: World, c: Call)
    requires Inv(w)
    ensures Inv(DoCall(w, c))
  {
    hide Inv;
    match c
    case CSend(p, k) => CallSendInv(w, Entry(LOOP, p), false, k);
    case CShutdown => ShutdownInv(w, LOOP);
    case CForceClose => ShutdownInv(w, LOOP); HandleCloseInv(CasDisconnecting(w));
  }

  lemma {:induction false} DoCallsInv(w: World, cs: seq<Call>)
    requires Inv(w)
    ensures Inv(DoCalls(w, cs))
  {
    hide Inv, DoCall;
    if cs != [] {
      DoCallsInv(w, cs[..|cs| - 1]);
      DoCallInv(DoCalls(w, cs[..|cs| - 1]), cs[|cs| - 1]);
    }
  }

  lemma CutReceives(w: World, chunk: seq<byte>)
    requires Receives(w)
    ensures Receives(Cut(w, chunk))
  {
    ArriveKeepsReceived(w.recv.got, Receiver(w.recv.frames, w.inp), chunk);
    hide Dispatch, Reading, Fits;
    assert Received(w.recv.got, w.recv.frames, w.inp) ==> Reading(w.recv.got, w.recv.frames, w.inp) by {
      ReceivedReads(w.recv.got, w.recv.frames, w.inp);
    }
  }

  lemma ReceivedReads(got: seq<byte>, frames: seq<Payload>, rest: seq<byte>)
    ensures Received(got, frames, rest) ==> Reading(got, frames, rest)
  {
  }

  lemma HandleReadInv(w: World, r: ReadResult, cs: seq<Call>)
    requires Inv(w)
    ensures Inv(HandleRead(w, r, cs))
  {
    hide Stream, DoCalls, Dispatch, Received, Reading;
    match r
    case Bytes(chunk) =>
      var w1 := Cut(w, chunk);
      CutReceives(w, chunk);
      assert Inv(w1);
      DoCallsInv(w1, cs);
    case Eof => HandleCloseInv(w);
    case ReadError =>
  }

  lemma DeliveredInv(w: World)
    requires Inv(w)
    ensures Inv(Delivered(w))
  {
    hide Received, Reading, Stream;
  }

  lemma PopInv(w: World)
    requires Inv(w) && w.queue != []
    ensures w.queue[0] != DoDestroy ==> Inv(w.(queue := w.queue[1..]))
  {
    hide Received, Reading, Stream;
    CountUncons(w.queue);
    assert forall f <- w.queue[1..] :: f in w.queue;
  }

  lemma DestroyInv(w: World)
    requires Inv(w) && w.queue != [] && w.queue[0] == DoDestroy
    requires !w.destroying
    ensures Inv(LoadState(w.(queue := w.queue[1..])))
  {
    hide Received, Reading, Stream;
    CountUncons(w.queue);
    assert forall f <- w.queue[1..] :: f in w.queue;
  }

  /** Whatever other threads have done since the load. */
  lemma FinishInv(w: World)
    requires Inv(w)
    ensures Inv(FinishDestroyed(w))
  {
    hide Received, Reading, Stream, CountDestroy;
  }

  lemma RunNextInv(w: World, k: Kernel)
    requires Inv(w) && w.queue != [] && !w.destroying
    ensures Inv(RunFunctor(w.(queue := w.queue[1..]), w.queue[0], k))
  {
    hide Stream, Received, Reading;
    PopInv(w);
    var w1 := w.(queue := w.queue[1..]);
    match w.queue[0]
    case DoEstablish => EstablishInv(w);
    case DoSend(e) => SendInLoopInv(w1, e, k);
    case DoShutdown => ShutdownInv(w1, LOOP);
    case DoForceClose => HandleCloseInv(w1);
    case DoDestroy => DestroyInv(w);
  }

  lemma EstablishInv(w: World)
    requires Inv(w) && w.queue != [] && w.queue[0] == DoEstablish
    ensures Inv(ConnectEstablished(w.(queue := w.queue[1..])))
  {
    hide Stream, Received, Reading;
    PopInv(w);
  }

  lemma StepInv(w: World, ev: Event)
    requires Inv(w)
    ensures Inv(Step(w, ev))
  {
    hide Stream, Received, Reading;
    if w.destroying && OnLoopThread(ev) {
      return;
    }
    hide Inv;
    match ev
    case SendFrame(e, stale, k) => CallSendInv(w, e, stale, k);
    case CallShutdown(tid) => ShutdownInv(w, tid);
    case PostShutdown => if w.shutdownOwed { PushInv(w, DoShutdown); }
    case CasForceClose => ShutdownInv(w, LOOP);
    case PostForceClose => PushInv(w, DoForceClose);
    case LoopCall(c) => DoCallInv(w, c);
    case RunNext(k) => if w.queue != [] { RunNextInv(w, k); }
    case FinishDestroy => FinishInv(w);
    case Readable(r, cs) => DeliveredInv(w); HandleReadInv(Delivered(w), r, cs);
    case Writable(k) => DeliveredInv(w); HandleWriteInv(Delivered(w), k);
    case HangUp => DeliveredInv(w); HandleCloseInv(Delivered(w));
  }

  lemma {:induction false} RunInv(evs: seq<Event>)
    ensures Inv(Run(evs))
  {
    hide Step, Inv;
    if evs != [] {
      RunInv(evs[..|evs| - 1]);
      StepInv(Run(evs[..|evs| - 1]), evs[|evs| - 1]);
    } else {
      InitInv();
    }
  }

  lemma InitInv()
    ensures Inv(INIT)
  {
    assert [DoEstablish][..0] == [];
    assert CountDestroy([DoEstablish]) == 0;
    assert Payloads([]) == [];
  }
}
