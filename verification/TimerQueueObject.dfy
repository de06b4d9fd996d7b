/** nwl::TimerQueue as an object. heap is the memory its Timers live in: a delete removes an address,
    and every dereference has to find its address there. */
module TimerQueueObject {
  import opened T = TimerQueue

  class TimerQueue {
    var heap: map<Addr, Timer>
    var timers: seq<Entry>
    var activeTimers: map<nat, Addr>
    var canceledWhilePending: set<nat>
    var timerfd: Arming
    var numCreated: nat
    /** Timers whose addTimerInLoop has been posted but not run. */
    var queued: set<Addr>
    /** Threads inside addTimer that have posted and not yet made the TimerId, by what they handed over. */
    var unread: set<(Addr, nat)>
    /** The rest of the state machine's state. */
    ghost var rest: State

    ghost function View(): State
      reads this
    {
      rest.(heap := heap, queued := queued, unread := unread,
            timers := timers, active := activeTimers, canceled := canceledWhilePending,
            arming := timerfd, created := numCreated)
    }

    constructor ()
      ensures View() == INIT && Inv(View())
    {
      heap, timers, activeTimers, canceledWhilePending := map[], [], map[], {};
      timerfd, numCreated, queued, unread := Disarmed, 0, {}, {};
      rest := INIT;
    }

    /** new Timer; it now belongs to the functor that will file it. */
    method NewTimer(a: Addr, when: Us, interval: Us, repeat: bool)
      requires Inv(View()) && a !in heap && a < LAST_ADDR
      modifies this
      ensures Inv(View()) && View() == Allocate(old(View()), a, when, interval, repeat)
    {
      hide Inv;
      AllocateInv(View(), a, when, interval, repeat);
      numCreated := numCreated + 1;
      heap := heap[a := Timer(when, interval, repeat, numCreated)];
      queued := queued + {a};
    }

    /** addTimer on another thread, up to and including the post. */
    method PostTimer(a: Addr, when: Us, interval: Us, repeat: bool)
      requires Inv(View()) && a !in heap && a < LAST_ADDR
      modifies this
      ensures Inv(View()) && View() == Post(old(View()), a, when, interval, repeat)
    {
      hide Inv;
      PostInv(View(), a, when, interval, repeat);
      NewTimer(a, when, interval, repeat);
      unread := unread + {(a, numCreated)};
    }

    /** The rest of it: TimerId(timer, timer->sequence()). The memory is what it is by now. */
    method FinishPost(a: Addr, q: nat) returns (id: nat)
      requires Inv(View()) && (a, q) in unread
      modifies this
      ensures Inv(View()) && View() == ReadId(old(View()), a, q)
      ensures id == q || View().staleRead
    {
      hide Inv;
      ReadIdInv(View(), a, q);
      id := if a in heap then heap[a].sequence else 0;
      rest := rest.(staleRead := rest.staleRead || Stale(View(), a, q));
      unread := unread - {(a, q)};
    }

    /** addTimer on the loop thread. */
    method AddTimer(a: Addr, when: Us, interval: Us, repeat: bool, clock: Us) returns (id: nat)
      requires Inv(View()) && a !in heap && a < LAST_ADDR
      modifies this
      ensures Inv(View()) && View() == AddLocal(old(View()), a, when, interval, repeat, clock)
      ensures id == View().created == old(View().created) + 1 && id in View().active && View().active[id] == a
    {
      hide Inv, AddLocal, AddInLoop;
      AddLocalIs(View(), a, when, interval, repeat, clock);
      NewTimer(a, when, interval, repeat);
      FiledIs(View(), a, clock);
      AddTimerInLoop(a, clock);
      id := heap[a].sequence;
    }

    method AddTimerInLoop(a: Addr, clock: Us)
      requires Inv(View()) && a in queued
      modifies this
      ensures Inv(View()) && View() == AddInLoop(old(View()), a, clock)
    {
      hide Inv;
      AddInv(View(), a, clock);
      InvFacts(View());
      queued := queued - {a};
      var t := heap[a];
      var earliestChanged := timers == [] || t.expiration < timers[0].when;
      timers := Insert(timers, Entry(t.expiration, a));
      activeTimers := activeTimers[t.sequence := a];
      if earliestChanged {
        timerfd := Armed(t.expiration, clock);
      }
    }

    method Cancel(sequence: nat)
      requires Inv(View())
      modifies this
      ensures Inv(View()) && View() == CancelInLoop(old(View()), sequence)
    {
      hide Inv;
      CancelInv(View(), sequence);
      InvFacts(View());
      if sequence in activeTimers {
        var a := activeTimers[sequence];
        timers := Erase(timers, Entry(heap[a].expiration, a));
        heap := heap - {a};
        activeTimers := activeTimers - {sequence};
      } else {
        canceledWhilePending := canceledWhilePending + {sequence};
      }
    }

    /** getExpired: moves the due entries out of both containers. */
    method GetExpired(now: Us) returns (expired: seq<Entry>)
      requires Inv(View()) && !View().reading
      modifies this
      ensures Inv(View()) && View() == BeginRead(old(View()), now) && expired == View().batch
    {
      hide Inv, Sorted;
      BeginInv(View(), now);
      InvFacts(View());
      var end := ExpiredCount(timers, now);
      expired := [];
      for i := 0 to end
        invariant timers == old(timers) && heap == old(heap) && expired == timers[..i]
        invariant View() == old(View()).(active := activeTimers)
        invariant activeTimers == old(activeTimers) - NumbersOf(heap, timers[..i])
      {
        NumbersSnoc(heap, timers, i);
        expired := expired + [timers[i]];
        activeTimers := activeTimers - {heap[timers[i].addr].sequence};
      }
      assert forall e <- expired :: e in timers;
      timers := timers[end..];
      rest := rest.(batch := expired, reading := true, now := now, pos := 0, outcome := []);
    }

    /** Something a callback does on the loop thread, or another thread inside addTimer. */
    method Perform(ev: Event)
      requires Inv(View()) && Call(ev)
      modifies this
      ensures Inv(View()) && View() == Step(old(View()), ev)
    {
      hide Inv;
      match ev {
        case EvPost(a, when, interval, repeat) =>
          if a !in heap && a < LAST_ADDR {
            PostTimer(a, when, interval, repeat);
          }
        case EvReadId(a, q) =>
          if (a, q) in unread {
            var id := FinishPost(a, q);
          }
        case EvAddLocal(a, when, interval, repeat, clock) =>
          if a !in heap && a < LAST_ADDR {
            var id := AddTimer(a, when, interval, repeat, clock);
          }
        case EvAdd(a, clock) =>
          if a in queued {
            AddTimerInLoop(a, clock);
          }
        case EvCancel(sequence) => Cancel(sequence);
      }
    }

    /** One turn of the firing loop. */
    method Fire(e: Entry) returns (run: bool)
      requires Inv(View()) && View().reading && View().pos < |View().batch| && e == View().batch[View().pos]
      modifies this
      ensures Inv(View()) && View() == FireNext(old(View())) && View().outcome == old(View().outcome) + [run]
    {
      hide Inv;
      FireInv(View());
      InvFacts(View());
      assert e in View().batch;
      var q := heap[e.addr].sequence;
      run := q !in canceledWhilePending;
      if run {
        rest := rest.(runs := rest.runs + [Fired(q, e.when, rest.now)],
                      outcome := rest.outcome + [true], pos := rest.pos + 1);
      } else {
        canceledWhilePending := canceledWhilePending - {q};
        rest := rest.(outcome := rest.outcome + [false], pos := rest.pos + 1);
      }
    }

    /** One turn of the closing loop. */
    method Close(e: Entry, now: Us)
      requires Inv(View()) && now == View().now && View().reading && View().batch != [] && e == View().batch[0]
      modifies this
      ensures Inv(View()) && View() == Settle(old(View()))
    {
      hide Inv, Insert;
      SettleInv(View());
      InvFacts(View());
      assert e in View().batch;
      InvFiling(View());
      var t := heap[e.addr];
      if t.expiration > 0 && t.repeat {
        var t' := t.(expiration := (now + t.interval) % TWO_64);
        heap := heap[e.addr := t'];
        activeTimers := activeTimers[t.sequence := e.addr];
        timers := Insert(timers, Entry(t'.expiration, e.addr));
      } else {
        heap := heap - {e.addr};
      }
      rest := rest.(batch := rest.batch[1..], pos := if rest.pos > 0 then rest.pos - 1 else 0);
    }

    /** handleRead; callback(i) is what happens between the i-th entry's turn and the next if its callback
        is run: what the callback does, and other threads. */
    method HandleRead(now: Us, clock: Us, callback: nat -> seq<Event>) returns (ghost trace: seq<Event>)
      requires Inv(View()) && !View().reading
      requires forall i: nat :: Harmless(callback(i))
      modifies this
      ensures Inv(View()) && NoFinish(trace)
      ensures var s := RunFrom(BeginRead(old(View()), now), trace);
        && s.pos == |s.batch| == |s.outcome| && View() == FinishRead(s, clock)
        && trace == Script(s.outcome, callback)
    {
      hide Inv, Handled, Step, BeginRead, FinishRead, SettleAll, Harmless;
      FiringTheorem(View(), now, []);
      BeginFacts(View(), now);
      var expired := GetExpired(now);
      ghost var s0 := View();
      trace := FireBatch(expired, callback, s0);
      ghost var s1 := View();
      CloseBatch(expired, now);
      FinishInv(s1, clock);
      FinishUp(clock, s1);
    }

    method FireBatch(expired: seq<Entry>, callback: nat -> seq<Event>, ghost s0: State)
      returns (ghost trace: seq<Event>)
      requires Inv(s0) && View() == s0 && Handled(s0, s0) && s0.pos == 0 && expired == s0.batch
      requires forall i: nat :: Harmless(callback(i))
      modifies this
      ensures Inv(View()) && View() == RunFrom(s0, trace) && NoFinish(trace)
      ensures Handled(s0, View()) && View().pos == |expired| == |View().outcome|
      ensures trace == Script(View().outcome, callback)
      ensures View().reading && View().batch == expired && View().now == s0.now
    {
      hide Inv, Step, Picked, Harmless, NoFinish, RunFrom;
      trace := [];
      Nothing(s0);
      for i := 0 to |expired|
        invariant Inv(View()) && View() == RunFrom(s0, trace) && NoFinish(trace)
        invariant Handled(s0, View()) && View().pos == i && trace == Script(View().outcome, callback)
      {
        ghost var before, done := trace, View().outcome;
        ghost var run;
        trace, run := TurnOfFiring(expired[i], callback(i), s0, trace);
        assert View().outcome[..i] == done;
      }
    }

    method CloseBatch(expired: seq<Entry>, now: Us)
      requires Inv(View()) && View().reading && View().batch == expired && now == View().now
      modifies this
      ensures View() == SettleAll(old(View()))
    {
      hide Inv, Settle;
      for i := 0 to |expired|
        invariant Inv(View()) && View().reading && View().now == now && View().batch == expired[i..]
        invariant SettleAll(View()) == SettleAll(old(View()))
      {
        SettleKeeps(View());
        assert expired[i..][1..] == expired[i + 1..];
        Close(expired[i], now);
      }
    }

    ghost predicate Harmless(evs: seq<Event>) {
      forall ev <- evs :: Call(ev)
    }

    method TurnOfFiring(e: Entry, calls: seq<Event>, ghost s0: State, ghost before: seq<Event>)
      returns (ghost trace: seq<Event>, ghost ran: bool)
      requires Inv(View()) && Inv(s0) && View() == RunFrom(s0, before) && NoFinish(before)
      requires Handled(s0, View()) && View().reading && View().pos < |View().batch| && e == View().batch[View().pos]
      requires Harmless(calls)
      modifies this
      ensures Inv(View()) && View() == RunFrom(s0, trace) && NoFinish(trace)
      ensures Handled(s0, View()) && View().pos == old(View().pos) + 1
      ensures View().outcome == old(View().outcome) + [ran] && trace == before + Turn(ran, calls)
    {
      hide Inv, FireNext, Picked, Handled, NoFinish, Harmless;
      var run := Fire(e);
      ran, trace := run, before + [EvFireNext];
      RunSnoc(s0, before, EvFireNext);
      NoFinishSnoc(before, EvFireNext);
      StepHandled(s0, old(View()), EvFireNext);
      FirePos(old(View()));
      if run {
        trace := MakeCalls(calls, s0, trace);
      }
    }

    method MakeCalls(calls: seq<Event>, ghost s0: State, ghost before: seq<Event>) returns (ghost trace: seq<Event>)
      requires Inv(View()) && Inv(s0) && View() == RunFrom(s0, before) && NoFinish(before)
      requires Handled(s0, View()) && Harmless(calls)
      modifies this
      ensures Inv(View()) && View() == RunFrom(s0, trace) && NoFinish(trace) && Handled(s0, View())
      ensures View().pos == old(View().pos) && View().outcome == old(View().outcome) && trace == before + calls
    {
      hide Inv, Handled, NoFinish, RunFrom, Step;
      trace := before;
      for j := 0 to |calls|
        invariant Inv(View()) && View() == RunFrom(s0, trace) && NoFinish(trace) && Handled(s0, View())
        invariant View().pos == old(View().pos) && View().outcome == old(View().outcome) && trace == before + calls[..j]
      {
        assert calls[j] in calls && calls[..j + 1] == calls[..j] + [calls[j]];
        StepHandled(s0, View(), calls[j]);
        RunSnoc(s0, trace, calls[j]);
        NoFinishSnoc(trace, calls[j]);
        CallPos(View(), calls[j]);
        Perform(calls[j]);
        trace := trace + [calls[j]];
      }
    }

    method FinishUp(clock: Us, ghost s1: State)
      requires View() == SettleAll(s1) && Inv(FinishRead(s1, clock))
      modifies this
      ensures View() == FinishRead(s1, clock)
    {
      timerfd := if timers == [] then Disarmed else Armed(timers[0].when, clock);
      canceledWhilePending := {};
      rest := rest.(reading := false, pos := 0);
    }
  }

  ghost predicate NoFinish(evs: seq<Event>) {
    forall ev <- evs :: !ev.EvFinishRead?
  }

  lemma NoFinishSnoc(evs: seq<Event>, ev: Event)
    requires NoFinish(evs) && !ev.EvFinishRead?
    ensures NoFinish(evs + [ev])
  {
  }

  lemma Nothing(s: State)
    ensures RunFrom(s, []) == s && NoFinish([])
  {
  }

  lemma BeginFacts(s: State, now: Us)
    ensures var s0 := BeginRead(s, now); s0.pos == 0 && s0.reading && s0.now == now && RunFrom(s0, []) == s0
  {
  }

  lemma SettleKeeps(s: State)
    requires s.batch != []
    ensures var s' := Settle(s); s'.reading == s.reading && s'.now == s.now && s'.batch == s.batch[1..]
    ensures SettleAll(s) == SettleAll(Settle(s))
  {
  }

  lemma NumbersSnoc(heap: map<Addr, Timer>, ts: seq<Entry>, i: nat)
    requires i < |ts| && ts[i].addr in heap
    ensures ts[..i + 1] == ts[..i] + [ts[i]]
    ensures NumbersOf(heap, ts[..i + 1]) == NumbersOf(heap, ts[..i]) + {heap[ts[i].addr].sequence}
  {
    assert ts[..i + 1] == ts[..i] + [ts[i]];
  }

  /** What makes every dereference safe. */
  lemma InvFacts(s: State)
    requires Inv(s)
    ensures forall a <- s.queued :: a in s.heap && FiledAs(s, a) !in s.timers
    ensures forall q <- s.active :: s.active[q] in s.heap
    ensures forall i | 0 <= i < |s.timers| :: s.timers[i].addr in s.heap
    ensures forall e <- s.batch :: e.addr in s.heap
    ensures forall e <- s.timers :: e.addr in s.heap
  {
    forall a | a in s.queued ensures a in s.heap && FiledAs(s, a) !in s.timers {
      assert OneOwner(s, a);
    }
    assert forall i | 0 <= i < |s.timers| :: s.timers[i] in s.timers;
  }

  lemma InvFiling(s: State)
    requires Inv(s) && s.batch != []
    ensures forall w: Us :: Entry(w, s.batch[0].addr) !in s.timers
  {
    InvHead(s);
  }

  lemma FirePos(s: State)
    requires s.pos < |s.batch|
    ensures FireNext(s).pos == s.pos + 1
  {
  }

  lemma CallPos(s: State, ev: Event)
    requires Call(ev)
    ensures Step(s, ev).pos == s.pos && Step(s, ev).outcome == s.outcome
  {
    hide AddInLoop, CancelInLoop, Post, ReadId, Allocate;
    match ev
    case EvPost(a, when, interval, repeat) => PostPos(s, a, when, interval, repeat);
    case EvReadId(a, q) => ReadPos(s, a, q);
    case EvAddLocal(a, when, interval, repeat, clock) =>
      var p := Post(s, a, when, interval, repeat);
      PostPos(s, a, when, interval, repeat);
      FilePos(p, a, clock, 0);
      ReadPos(AddInLoop(p, a, clock), a, s.created + 1);
    case EvAdd(a, clock) => FilePos(s, a, clock, 0);
    case EvCancel(q) => FilePos(s, 0, 0, q);
  }

  lemma PostPos(s: State, a: Addr, when: Us, interval: Us, repeat: bool)
    ensures var s' := Post(s, a, when, interval, repeat); s'.pos == s.pos && s'.outcome == s.outcome
  {
  }

  lemma ReadPos(s: State, a: Addr, q: nat)
    ensures ReadId(s, a, q).pos == s.pos && ReadId(s, a, q).outcome == s.outcome
  {
  }

  lemma FilePos(s: State, a: Addr, clock: Us, q: nat)
    ensures AddInLoop(s, a, clock).pos == s.pos && AddInLoop(s, a, clock).outcome == s.outcome
    ensures CancelInLoop(s, q).pos == s.pos && CancelInLoop(s, q).outcome == s.outcome
  {
    hide Insert, Erase;
  }

  /** Not an action of handleRead itself. */
  ghost predicate Call(ev: Event) {
    !ev.EvBeginRead? && !ev.EvFireNext? && !ev.EvFinishRead?
  }

  /** A turn of the firing loop, with what its callback does if it is run. */
  ghost function Turn(run: bool, calls: seq<Event>): seq<Event> {
    [EvFireNext] + if run then calls else []
  }

  /** The events of a firing loop with these outcomes. */
  ghost function Script(outcome: seq<bool>, callback: nat -> seq<Event>): seq<Event> {
    if outcome == [] then [] else
      Script(outcome[..|outcome| - 1], callback) + Turn(outcome[|outcome| - 1], callback(|outcome| - 1))
  }

  lemma FiledIs(s: State, a: Addr, clock: Us)
    requires Inv(s) && a in s.queued
    ensures var f := AddInLoop(s, a, clock);
      f.heap == s.heap && a in s.heap && f.created == s.created && f.active == s.active[s.heap[a].sequence := a]
  {
    InvFacts(s);
  }
}
