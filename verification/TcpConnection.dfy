/** nwl::TcpConnection as an object: each method does to its Buffers, Channel and socket what the
    state machine of module Connection says. */
module TcpConnections {
  import opened Sequences
  import opened Buffers
  import opened Framing
  import opened Poller
  import C = Connection

  type ConnState = C.ConnState

  class TcpConnection {
    /** channel_ together with its entries in the poller and in the kernel. A channel call changes it
        as Poller.Channel.Update and EpollPoller.RemoveChannel do (both are proved to be Apply). */
    var ch: Chan
    const outputBuffer: Buffer
    const inputBuffer: Buffer
    var state: ConnState
    var closeRequested: bool

    /** The loop's functors for this connection, the server's table entry, the functor still owed by a
        thread that won shutdown(). */
    var queue: seq<C.Functor>
    var inTable: bool
    var shutdownOwed: bool
    /** connectDestroyed has read kConnected and not yet stored kDisconnected. */
    var destroying: bool

    /** The socket. */
    var wire: seq<byte>
    var shutWr: bool
    ghost var lateSend: bool

    ghost var sendLog: C.SendLog
    ghost var recvLog: C.RecvLog
    ghost var life: C.LifeLog

    ghost predicate Valid()
      reads this, outputBuffer, inputBuffer
    {
      && outputBuffer.Valid() && inputBuffer.Valid()
      && outputBuffer != inputBuffer && outputBuffer.data != inputBuffer.data
    }

    ghost function View(): C.World
      requires Valid()
      reads this, outputBuffer, outputBuffer.data, inputBuffer, inputBuffer.data
    {
      C.World(state, closeRequested, ch, outputBuffer.Contents(), inputBuffer.Contents(),
        queue, inTable, destroying, wire, shutWr, lateSend, shutdownOwed, sendLog, recvLog, life)
    }

    /** A freshly accepted fd, as TcpServer::handleNewConnection leaves it. When the IO loop is the accepting
        loop itself, runInLoop has run connectEstablished already. */
    constructor (sameLoop: bool)
      ensures fresh(outputBuffer) && fresh(inputBuffer) && fresh(outputBuffer.data) && fresh(inputBuffer.data)
      ensures Valid() && View() == if sameLoop then C.ConnectEstablished(C.INIT.(queue := [])) else C.INIT
    {
      ch := FRESH;
      outputBuffer := new Buffer(1024);
      inputBuffer := new Buffer(1024);
      state, closeRequested := C.Connecting, false;
      queue, inTable, shutdownOwed := if sameLoop then [] else [C.DoEstablish], true, false;
      destroying := false;
      wire, shutWr, lateSend := [], false, false;
      sendLog, recvLog := C.SendLog([], [], [], 0, 0, 0), C.RecvLog([], [], false);
      life := C.LifeLog(0, 0, 0, 0, false, false, false, false, false);
      new;
      if sameLoop {
        ConnectEstablished();
      }
    }

    method AppendOutput(bytes: seq<byte>)
      requires Valid()
      modifies outputBuffer, outputBuffer.data
      ensures Valid() && (outputBuffer.data == old(outputBuffer.data) || fresh(outputBuffer.data))
      ensures View() == old(View()).(out := old(View()).out + bytes)
    {
      outputBuffer.Append(bytes);
    }

    method RetrieveOutput(n: nat) returns (left: nat)
      requires Valid() && n <= |View().out|
      modifies outputBuffer
      ensures Valid() && outputBuffer.data == old(outputBuffer.data)
      ensures View() == old(View()).(out := old(View()).out[n..])
      ensures left == |View().out|
    {
      outputBuffer.Retrieve(n);
      left := outputBuffer.ReadableBytes();
    }

    /** readFd. */
    method ReadInput(inbound: seq<byte>, limit: int) returns (n: int)
      requires Valid()
      modifies this`recvLog, inputBuffer, inputBuffer.data
      ensures Valid() && (inputBuffer.data == old(inputBuffer.data) || fresh(inputBuffer.data))
      ensures -1 <= n <= |inbound| && (limit < 0 <==> n == -1)
      ensures n == 0 <==> limit == 0 || (limit > 0 && inbound == [])
      ensures n <= 0 ==> View() == old(View())
      ensures n > 0 ==>
                var v, chunk := old(View()), inbound[..n];
                View() == C.WithInput(v, v.inp + chunk,
                                      C.RecvLog(v.recv.got + chunk, v.recv.frames, v.recv.big || !Fits(v.inp, chunk)))
    {
      hide Fits, Buffer.Valid;
      ghost var v := View();
      n := inputBuffer.ReadFd(inbound, limit);
      if n > 0 {
        var chunk := inbound[..n];
        recvLog := C.RecvLog(recvLog.got + chunk, recvLog.frames, recvLog.big || !Fits(v.inp, chunk));
      }
    }

    /** One turn of the onMessage loop. */
    method TakeNext() returns (next: Next)
      requires Valid() && |View().inp| >= HEADER_LEN
      modifies this`recvLog, inputBuffer
      ensures Valid() && inputBuffer.data == old(inputBuffer.data)
      ensures var v, s := old(View()), old(View()).inp;
        match next
        case Wait => View() == v && Dispatch(s) == Dispatched([], s, false)
        case BadLength => View() == v && Dispatch(s) == Dispatched([], s, true)
        case Whole(p) =>
          && View() == C.WithInput(v, View().inp, v.recv.(frames := v.recv.frames + [p]))
          && Dispatch(s) == Prepend([p], Dispatch(View().inp)) && |View().inp| < |s|
    {
      hide Dispatch, Buffer.Valid, Prepend;
      next := NextFrame(inputBuffer);
      if next.Whole? {
        recvLog := recvLog.(frames := recvLog.frames + [next.payload]);
      }
    }

    /** onMessage: the service is called for each payload before the next one is cut; calls(i) is what it
        does on this connection for the i-th. */
    method OnMessage(calls: nat -> seq<C.Call>)
      requires Valid()
      modifies this, outputBuffer, outputBuffer.data, inputBuffer
      ensures Valid() && inputBuffer.data == old(inputBuffer.data)
      ensures outputBuffer.data == old(outputBuffer.data) || fresh(outputBuffer.data)
      ensures var v, d := old(View()), Dispatch(old(View()).inp);
        var served := C.DoCalls(C.WithInput(v, d.rest, v.recv.(frames := v.recv.frames + d.frames)),
                                C.AllCalls(calls, |d.frames|));
        View() == if d.stuck then C.Shutdown(served, C.LOOP) else served
    {
      hide Dispatch, C.DoCalls, C.Shutdown, C.WithInput, C.AllCalls;
      ghost var v := View();
      ghost var frames: seq<Payload> := [];
      StartServing(v, calls);
      var i := 0;
      var readable := inputBuffer.ReadableBytes();
      while readable >= HEADER_LEN
        invariant Valid() && inputBuffer.data == old(inputBuffer.data)
        invariant outputBuffer.data == old(outputBuffer.data) || fresh(outputBuffer.data)
        invariant readable == |View().inp| && i == |frames|
        invariant Serving(v, View(), calls, frames)
        decreases readable
      {
        ghost var before := View();
        var next := TakeNext();
        match next {
          case Wait =>
            DoneServing(v, View(), calls, frames, false);
            return;
          case BadLength =>
            DoneServing(v, View(), calls, frames, true);
            Shutdown(C.LOOP);
            return;
          case Whole(p) =>
            ghost var taken := View();
            MakeCalls(calls(i));
            OneMoreServed(v, before, taken, View(), calls, frames, p);
            frames := frames + [p];
            i := i + 1;
            readable := inputBuffer.ReadableBytes();
        }
      }
      ShortDispatch(View().inp);
      DoneServing(v, View(), calls, frames, false);
    }

    method IsWriting() returns (b: bool)
      requires Valid()
      ensures b == View().ch.events.write
    {
      b := ch.events.write;
    }

    method ConnectEstablished()
      requires Valid()
      modifies this
      ensures Valid() && View() == C.ConnectEstablished(old(View()))
    {
      hide Apply;
      if state != C.Connecting {
        return;
      }
      state := C.Connected;
      ch := Apply(ch, EnableReading);
      life := life.(ups := life.ups + 1);
    }

    /** ::send: the kernel takes a prefix of data or reports an error. */
    method KernelSend(data: seq<byte>, k: C.Kernel) returns (nwrote: int)
      requires Valid()
      modifies this`wire, this`lateSend
      ensures nwrote == if k.Refused? then -1 else Min(k.n, |data|)
      ensures Valid() && View() == old(View()).(lateSend := old(lateSend || shutWr),
                                                wire := old(wire) + data[..Max(nwrote, 0)])
    {
      lateSend := lateSend || shutWr;
      nwrote := if k.Refused? then -1 else Min(k.n, |data|);
      wire := wire + data[..Max(nwrote, 0)];
    }

    method SendInLoop(message: seq<byte>, k: C.Kernel, ghost e: C.Entry)
      requires Valid() && message == Frame(e.payload)
      modifies this, outputBuffer, outputBuffer.data
      ensures Valid() && (outputBuffer.data == old(outputBuffer.data) || fresh(outputBuffer.data))
      ensures View() == C.SendInLoop(old(View()), e, k)
    {
      hide Frame, Apply, C.SentDirect;
      if state != C.Connected {
        sendLog := sendLog.(reached := sendLog.reached + [e], refusedInLoop := sendLog.refusedInLoop + 1);
        return;
      }
      var readable := outputBuffer.ReadableBytes();
      var writing := IsWriting();
      if readable == 0 && !writing {
        SendDirect(message, k, e);
      } else {
        sendLog := sendLog.(reached := sendLog.reached + [e], accepted := sendLog.accepted + [e]);
        AppendOutput(message);
      }
    }

    /** The branch that writes straight to the kernel and keeps what it did not take. */
    method SendDirect(message: seq<byte>, k: C.Kernel, ghost e: C.Entry)
      requires Valid() && message == Frame(e.payload)
      requires outputBuffer.Contents() == []
      modifies this, outputBuffer, outputBuffer.data
      ensures Valid() && (outputBuffer.data == old(outputBuffer.data) || fresh(outputBuffer.data))
      ensures View() == C.SentDirect(old(View()), e, k)
    {
      hide Frame, Apply, Buffer.Contents, Buffer.Valid;
      var nwrote := KernelSend(message, k);
      if nwrote < 0 {
        assert wire == old(wire);
        sendLog := sendLog.(reached := sendLog.reached + [e], failed := sendLog.failed + 1);
        return;
      }
      sendLog := sendLog.(reached := sendLog.reached + [e], accepted := sendLog.accepted + [e]);
      if nwrote < |message| {
        AppendOutput(message[nwrote..]);
        ch := Apply(ch, EnableWriting);
      }
    }

    method HandleWrite(k: C.Kernel)
      requires Valid()
      modifies this, outputBuffer
      ensures Valid() && outputBuffer.data == old(outputBuffer.data)
      ensures View() == C.HandleWrite(old(View()), k)
    {
      hide Apply;
      var writing := IsWriting();
      if !writing {
        return;
      }
      var readable := outputBuffer.ReadableBytes();
      if readable > 0 {
        Flush(readable, k);
      } else {
        ch := Apply(ch, DisableWriting);
      }
    }

    /** The branch of handleWrite with output pending. */
    method Flush(readable: nat, k: C.Kernel)
      requires Valid() && readable == |View().out| > 0
      modifies this, outputBuffer
      ensures Valid() && outputBuffer.data == old(outputBuffer.data)
      ensures View() == C.Flushed(old(View()), k)
    {
      hide Apply, Buffer.Contents, Buffer.Valid;
      var pending := outputBuffer.Peek(readable);
      assert pending == View().out && pending[..|pending|] == pending && pending[|pending|..] == [];
      var nwrote := KernelSend(pending, k);
      if nwrote <= 0 {
        assert pending[..0] == [] && pending[0..] == pending && wire == old(wire);
        return;
      }
      var left := RetrieveOutput(nwrote);
      if left == 0 {
        StopWriting();
      }
    }

    /** Everything is written. */
    method StopWriting()
      requires Valid()
      modifies this`ch, this`shutWr
      ensures Valid() && View() == old(View()).(ch := Apply(old(ch), DisableWriting),
                                                shutWr := old(shutWr) || state == C.Disconnecting)
    {
      hide Apply;
      ch := Apply(ch, DisableWriting);
      if state == C.Disconnecting {
        shutWr := true;
      }
    }

    method ShutdownInLoop()
      requires Valid()
      modifies this
      ensures Valid() && View() == C.ShutdownInLoop(old(View()))
    {
      var writing := IsWriting();
      if !writing {
        shutWr := true;
      }
      life := life.(ranShutdown := true);
    }

    method Shutdown(tid: C.Tid)
      requires Valid()
      modifies this
      ensures Valid() && View() == C.Shutdown(old(View()), tid)
    {
      if state != C.Connected {
        return;
      }
      state := C.Disconnecting;
      life := life.(localClose := true, lateClose := life.lateClose || destroying);
      if tid == C.LOOP {
        ShutdownInLoop();
      } else {
        shutdownOwed := true;
      }
    }

    /** forceClose() called on the loop thread. */
    method ForceClose()
      requires Valid()
      modifies this
      ensures Valid() && View() == C.HandleClose(C.CasDisconnecting(old(View())))
    {
      if state == C.Connected {
        state := C.Disconnecting;
        life := life.(localClose := true, lateClose := life.lateClose || destroying);
      }
      if state == C.Connected || state == C.Disconnecting {
        HandleClose();
      }
    }

    method HandleClose()
      requires Valid()
      modifies this
      ensures Valid() && View() == C.HandleClose(old(View()))
    {
      hide Apply;
      if !(state == C.Connected || state == C.Disconnecting) || closeRequested {
        return;
      }
      closeRequested := true;
      ch := Apply(ch, DisableAll);
      life := life.(closes := life.closes + 1);
      RemoveConnection();
    }

    /** TcpServer::removeConnection. */
    method RemoveConnection()
      requires Valid()
      modifies this`inTable, this`queue
      ensures Valid() && View() == old(View()).(inTable := false, queue := old(queue) + [C.DoDestroy])
    {
      inTable := false;
      queue := queue + [C.DoDestroy];
    }

    /** connectDestroyed; between is what other threads do after its load of the state, before the store. */
    method ConnectDestroyed(between: seq<C.Event>)
      requires Valid() && !destroying
      requires forall ev <- between :: !C.OnLoopThread(ev) && !ev.FinishDestroy?
      modifies this, outputBuffer, outputBuffer.data
      ensures Valid() && (outputBuffer.data == old(outputBuffer.data) || fresh(outputBuffer.data))
      ensures View() == if old(state) == C.Connected
              then C.FinishDestroyed(C.Steps(C.LoadState(old(View())), between))
              else C.RemoveChannel(old(View()))
    {
      hide C.Step, C.RemoveChannel, C.FinishDestroyed;
      BeginDestroy();
      if destroying {
        ghost var v := View();
        assert between[..|between|] == between;
        for i := 0 to |between|
          invariant Valid() && (outputBuffer.data == old(outputBuffer.data) || fresh(outputBuffer.data))
          invariant View() == C.Steps(v, between[..i])
        {
          assert between[..i + 1][..i] == between[..i] && between[i] in between;
          Perform(between[i]);
        }
        FinishDestroy();
      }
    }

    /** Up to the load. */
    method BeginDestroy()
      requires Valid() && !destroying
      modifies this
      ensures Valid() && View() == C.LoadState(old(View()))
      ensures destroying <==> old(state) == C.Connected
    {
      hide Apply;
      if state == C.Connected {
        destroying := true;
        life := life.(sawUp := true);
      } else {
        RemoveChannel();
      }
    }

    /** From the store on. */
    method FinishDestroy()
      requires Valid()
      modifies this
      ensures Valid() && View() == C.FinishDestroyed(old(View()))
    {
      hide C.NotifyDown, C.RemoveChannel;
      if destroying {
        NotifyDown();
        RemoveChannel();
      }
    }

    method RemoveChannel()
      requires Valid()
      modifies this
      ensures Valid() && View() == C.RemoveChannel(old(View()))
    {
      hide Apply;
      ch := Apply(ch, Remove);
      life := life.(destroys := life.destroys + 1);
    }

    method NotifyDown()
      requires Valid()
      modifies this
      ensures Valid() && View() == C.NotifyDown(old(View()))
    {
      hide Apply;
      state := C.Disconnected;
      destroying := false;
      ch := Apply(ch, DisableAll);
      life := life.(downs := life.downs + 1);
    }

    /** chatservice::sendFrame followed by TcpConnection::send. */
    method SendFrame(e: C.Entry, stale: bool, k: C.Kernel)
      requires Valid()
      modifies this, outputBuffer, outputBuffer.data
      ensures Valid() && (outputBuffer.data == old(outputBuffer.data) || fresh(outputBuffer.data))
      ensures View() == C.CallSend(old(View()), e, stale, k)
    {
      hide C.SendInLoop;
      sendLog := sendLog.(sent := sendLog.sent + [e]);
      var pass := state == C.Connected || (stale && state != C.Connecting);
      if !pass {
        sendLog := sendLog.(refusedCalls := sendLog.refusedCalls + 1);
        return;
      }
      if e.tid == C.LOOP {
        var frame := Header(|e.payload|) + e.payload;
        SendInLoop(frame, k, e);
      } else {
        queue := queue + [C.DoSend(e)];
      }
    }

    method DoCall(c: C.Call)
      requires Valid()
      modifies this, outputBuffer, outputBuffer.data
      ensures Valid() && (outputBuffer.data == old(outputBuffer.data) || fresh(outputBuffer.data))
      ensures View() == C.DoCall(old(View()), c)
    {
      hide C.CallSend, C.Shutdown, C.HandleClose;
      match c
      case CSend(p, k) => SendFrame(C.Entry(C.LOOP, p), false, k);
      case CShutdown => Shutdown(C.LOOP);
      case CForceClose => ForceClose();
    }

    /** handleRead with onMessage as message callback. */
    method HandleRead(inbound: seq<byte>, limit: int, calls: nat -> seq<C.Call>) returns (r: C.ReadResult)
      requires Valid()
      modifies this, outputBuffer, outputBuffer.data, inputBuffer, inputBuffer.data
      ensures Valid()
      ensures outputBuffer.data == old(outputBuffer.data) || fresh(outputBuffer.data)
      ensures inputBuffer.data == old(inputBuffer.data) || fresh(inputBuffer.data)
      ensures r.ReadError? <==> limit < 0
      ensures r.Eof? <==> limit == 0 || (limit > 0 && inbound == [])
      ensures r.Bytes? ==> r.chunk <= inbound && r.chunk != []
      ensures View() == C.HandleRead(old(View()), r, Served(old(View()), r, calls))
    {
      hide C.DoCalls, C.DoCall, C.Shutdown, C.HandleClose, Dispatch, Fits;
      var n := ReadInput(inbound, limit);
      if n > 0 {
        r := C.Bytes(inbound[..n]);
        ghost var d := Dispatch(View().inp);
        ghost var cut := C.WithInput(View(), d.rest, View().recv.(frames := View().recv.frames + d.frames));
        ShutdownLast(cut, C.AllCalls(calls, |d.frames|));
        OnMessage(calls);
      } else if n == 0 {
        r := C.Eof;
        HandleClose();
      } else {
        r := C.ReadError;
      }
    }

    /** The rest of shutdown() on another thread: queueInLoop. */
    method PostShutdown()
      requires Valid()
      modifies this
      ensures Valid() && View() == C.Step(old(View()), C.PostShutdown)
    {
      if shutdownOwed {
        queue, shutdownOwed := queue + [C.DoShutdown], false;
      }
    }

    /** The two halves of forceClose() on another thread. */
    method CasForceClose()
      requires Valid()
      modifies this
      ensures Valid() && View() == C.Step(old(View()), C.CasForceClose)
    {
      if state == C.Connected {
        state := C.Disconnecting;
        life := life.(localClose := true, lateClose := life.lateClose || destroying);
      }
    }

    method PostForceClose()
      requires Valid()
      modifies this
      ensures Valid() && View() == C.Step(old(View()), C.PostForceClose)
    {
      queue := queue + [C.DoForceClose];
    }

    /** The poller delivers an event. */
    ghost method Deliver()
      requires Valid()
      modifies this`life
      ensures Valid() && View() == C.Delivered(old(View()))
    {
      life := life.(stray := life.stray || life.destroys > 0);
    }

    /** Every other thing that can happen to a connection, by the method that does it. */
    method Perform(ev: C.Event)
      requires Valid() && !ev.Readable?
      modifies this, outputBuffer, outputBuffer.data
      ensures Valid() && (outputBuffer.data == old(outputBuffer.data) || fresh(outputBuffer.data))
      ensures View() == C.Step(old(View()), ev)
    {
      hide C.CallSend, C.DoCall, C.Shutdown, C.HandleClose, C.HandleWrite, C.RunFunctor, C.CasDisconnecting;
      hide C.FinishDestroyed;
      if destroying && C.OnLoopThread(ev) {
        return;
      }
      match ev
      case SendFrame(e, stale, k) => SendFrame(e, stale, k);
      case CallShutdown(tid) => Shutdown(tid);
      case PostShutdown => PostShutdown();
      case CasForceClose => CasForceClose();
      case PostForceClose => PostForceClose();
      case LoopCall(c) => DoCall(c);
      case RunNext(k) => RunNext(k);
      case FinishDestroy => FinishDestroy();
      case Writable(k) => Deliver(); HandleWrite(k);
      case HangUp => Deliver(); HandleClose();
    }

    method PerformRead(inbound: seq<byte>, limit: int, calls: nat -> seq<C.Call>) returns (r: C.ReadResult)
      requires Valid()
      modifies this, outputBuffer, outputBuffer.data, inputBuffer, inputBuffer.data
      ensures Valid()
      ensures outputBuffer.data == old(outputBuffer.data) || fresh(outputBuffer.data)
      ensures inputBuffer.data == old(inputBuffer.data) || fresh(inputBuffer.data)
      ensures View() == C.Step(old(View()), C.Readable(r, Served(old(View()), r, calls)))
    {
      hide C.HandleRead;
      if destroying {
        return C.ReadError;
      }
      Deliver();
      r := HandleRead(inbound, limit, calls);
    }

    method MakeCalls(calls: seq<C.Call>)
      requires Valid()
      modifies this, outputBuffer, outputBuffer.data
      ensures Valid() && (outputBuffer.data == old(outputBuffer.data) || fresh(outputBuffer.data))
      ensures View() == C.DoCalls(old(View()), calls)
    {
      hide C.DoCall;
      assert calls[..|calls|] == calls;
      for i := 0 to |calls|
        invariant Valid() && (outputBuffer.data == old(outputBuffer.data) || fresh(outputBuffer.data))
        invariant View() == C.DoCalls(old(View()), calls[..i])
      {
        assert calls[..i + 1][..i] == calls[..i];
        DoCall(calls[i]);
      }
    }

    /** One functor of the loop's batch. */
    method RunNext(k: C.Kernel)
      requires Valid() && !destroying
      modifies this, outputBuffer, outputBuffer.data
      ensures Valid() && (outputBuffer.data == old(outputBuffer.data) || fresh(outputBuffer.data))
      ensures View() == C.Step(old(View()), C.RunNext(k))
    {
      hide C.SendInLoop, C.HandleClose, C.LoadState, C.ConnectEstablished, C.ShutdownInLoop;
      if queue == [] {
        return;
      }
      var f := queue[0];
      queue := queue[1..];
      match f
      case DoEstablish => ConnectEstablished();
      case DoSend(e) => SendInLoop(Header(|e.payload|) + e.payload, k, e);
      case DoShutdown => ShutdownInLoop();
      case DoForceClose => HandleClose();
      case DoDestroy => BeginDestroy();
    }
  }

  /** The calls made during a read: those for the payloads it completes, and shutdown() at an invalid length. */
  ghost function Served(w: C.World, r: C.ReadResult, calls: nat -> seq<C.Call>): seq<C.Call> {
    if !r.Bytes? then [] else
      var d := Dispatch(w.inp + r.chunk);
      if d.stuck then C.AllCalls(calls, |d.frames|) + [C.CShutdown] else C.AllCalls(calls, |d.frames|)
  }

  lemma ShutdownLast(w: C.World, cs: seq<C.Call>)
    ensures C.DoCalls(w, cs + [C.CShutdown]) == C.Shutdown(C.DoCalls(w, cs), C.LOOP)
  {
    hide C.Shutdown;
    assert (cs + [C.CShutdown])[..|cs|] == cs;
  }

  /** The onMessage loop started at v, has served these payloads and is now at u. */
  ghost predicate Serving(v: C.World, u: C.World, calls: nat -> seq<C.Call>, frames: seq<Payload>) {
    && Dispatch(v.inp) == Prepend(frames, Dispatch(u.inp))
    && u == C.WithInput(C.DoCalls(v, C.AllCalls(calls, |frames|)), u.inp, v.recv.(frames := v.recv.frames + frames))
  }

  lemma StartServing(v: C.World, calls: nat -> seq<C.Call>)
    ensures Serving(v, v, calls, [])
  {
    hide Dispatch;
    assert [] + Dispatch(v.inp).frames == Dispatch(v.inp).frames;
    assert v.recv.frames + [] == v.recv.frames;
  }

  lemma OneMoreServed(v: C.World, u: C.World, taken: C.World, u': C.World,
                      calls: nat -> seq<C.Call>, frames: seq<Payload>, p: Payload)
    requires Serving(v, u, calls, frames)
    requires Dispatch(u.inp) == Prepend([p], Dispatch(taken.inp))
    requires taken == C.WithInput(u, taken.inp, u.recv.(frames := u.recv.frames + [p]))
    requires u' == C.DoCalls(taken, calls(|frames|))
    ensures Serving(v, u', calls, frames + [p])
  {
    hide Dispatch, C.DoCalls;
    var made := C.DoCalls(v, C.AllCalls(calls, |frames|));
    var recv := v.recv.(frames := v.recv.frames + frames + [p]);
    assert taken == C.WithInput(made, taken.inp, recv);
    C.DoCallsInput(made, calls(|frames|), taken.inp, recv);
    C.DoCallsAppend(v, C.AllCalls(calls, |frames|), calls(|frames|));
    assert C.AllCalls(calls, |frames + [p]|) == C.AllCalls(calls, |frames|) + calls(|frames|);
    assert (frames + [p]) + Dispatch(taken.inp).frames == frames + ([p] + Dispatch(taken.inp).frames);
    assert v.recv.frames + (frames + [p]) == v.recv.frames + frames + [p];
  }

  lemma DoneServing(v: C.World, u: C.World, calls: nat -> seq<C.Call>, frames: seq<Payload>, stuck: bool)
    requires Serving(v, u, calls, frames) && Dispatch(u.inp) == Dispatched([], u.inp, stuck)
    ensures var d := Dispatch(v.inp);
      && d == Dispatched(frames, u.inp, stuck)
      && u == C.DoCalls(C.WithInput(v, d.rest, v.recv.(frames := v.recv.frames + d.frames)),
                        C.AllCalls(calls, |d.frames|))
  {
    hide Dispatch, C.DoCalls, C.AllCalls;
    assert frames + [] == frames;
    C.DoCallsInput(v, C.AllCalls(calls, |frames|), u.inp, v.recv.(frames := v.recv.frames + frames));
  }

  lemma ShortDispatch(s: seq<byte>)
    requires |s| < HEADER_LEN
    ensures Dispatch(s) == Dispatched([], s, false)
  {
  }

  /** Something that happens to a connection: a read, with what the peer has sent, or anything else. */
  datatype Command = Do(ev: C.Event) | Read(inbound: seq<byte>, limit: int, calls: nat -> seq<C.Call>)

  /** Whatever happens to a connection object, in whatever order, is a run of the state machine. Nothing is
      read while the loop thread is inside connectDestroyed. */
  method Drive(commands: seq<Command>) returns (c: TcpConnection, ghost evs: seq<C.Event>)
    requires forall m <- commands :: m.Do? ==> !m.ev.Readable?
    ensures fresh(c) && c.Valid() && c.View() == C.Run(evs) && |evs| == |commands|
    ensures forall i | 0 <= i < |commands| ::
              if commands[i].Do? then evs[i] == commands[i].ev else evs[i].Readable?
  {
    hide C.Step, C.Run, Buffer.Valid;
    C.NoSteps();
    c := new TcpConnection(false);
    evs := [];
    for i := 0 to |commands|
      invariant fresh(c) && c.Valid() && fresh(c.outputBuffer) && fresh(c.inputBuffer)
      invariant fresh(c.outputBuffer.data) && fresh(c.inputBuffer.data)
      invariant c.View() == C.Run(evs) && |evs| == i
      invariant forall j | 0 <= j < i :: if commands[j].Do? then evs[j] == commands[j].ev else evs[j].Readable?
    {
      assert commands[i] in commands;
      ghost var w := c.View();
      ghost var ev;
      match commands[i] {
        case Do(e) =>
          c.Perform(e);
          ev := e;
        case Read(inbound, limit, calls) =>
          var r := c.PerformRead(inbound, limit, calls);
          ev := C.Readable(r, Served(w, r, calls));
      }
      assert (evs + [ev])[..i] == evs;
      C.RunSnoc(evs, ev);
      evs := evs + [ev];
    }
  }
}
