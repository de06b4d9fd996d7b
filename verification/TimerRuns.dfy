/** Continuations of a run of the timer queue: what can be made to happen from a given state. */
module TimerRuns {
  import opened TimerQueue

  const MAX_US: Us := TWO_64 - 1

  lemma {:induction false} RunAppend(s: State, a: seq<Event>, b: seq<Event>)
    ensures RunFrom(s, a + b) == RunFrom(RunFrom(s, a), b)
    decreases |b|
  {
    hide RunFrom, Step;
    if b == [] {
      assert a + b == a;
      RunNone(RunFrom(s, a));
    } else {
      var init, ev := b[..|b| - 1], b[|b| - 1];
      RunAppend(s, a, init);
      assert b == init + [ev];
      assert a + b == (a + init) + [ev];
      RunSnoc(s, a + init, ev);
      RunSnoc(RunFrom(s, a), init, ev);
    }
  }

  lemma RunNone(s: State)
    ensures RunFrom(s, []) == s
  {
  }

  lemma RunOne(s: State, ev: Event)
    ensures RunFrom(s, [ev]) == Step(s, ev)
  {
    assert [ev][..0] == [];
    assert RunFrom(s, []) == s;
  }

  lemma {:induction false} SettleAllKeeps(s: State)
    requires Inv(s) && s.reading
    ensures var s' := SettleAll(s);
      && s'.runs == s.runs && s'.created == s.created && s'.heap.Keys <= s.heap.Keys
      && forall a <- s'.heap :: s'.heap[a].sequence == s.heap[a].sequence
    decreases |s.batch|
  {
    hide Inv, Rearms;
    if s.batch != [] {
      SettleInv(s);
      SettleAllKeeps(Settle(s));
    }
  }

  /** Invocations are only ever added. */
  lemma StepRunsGrow(s: State, ev: Event)
    requires Inv(s)
    ensures s.runs <= Step(s, ev).runs
  {
    hide Inv, SettleAll;
    if ev.EvFinishRead? && s.reading {
      SettleAllKeeps(s);
    }
  }

  lemma {:induction false} RunsGrow(s: State, evs: seq<Event>)
    requires Inv(s)
    ensures s.runs <= RunFrom(s, evs).runs
  {
    if evs != [] {
      hide Step, Inv;
      RunsGrow(s, evs[..|evs| - 1]);
      RunInv(s, evs[..|evs| - 1]);
      StepRunsGrow(RunFrom(s, evs[..|evs| - 1]), evs[|evs| - 1]);
    }
  }

  /** n turns of the firing loop with nothing else in between. */
  function Turns(n: nat): seq<Event> {
    if n == 0 then [] else Turns(n - 1) + [EvFireNext]
  }

  /** Between s and s' the callback of timer q was run. */
  ghost predicate Ran(q: nat, s: State, s': State) {
    s.runs <= s'.runs && exists r <- s'.runs[|s.runs|..] :: r.sequence == q
  }

  lemma RanLonger(q: nat, s: State, m: State, s': State)
    requires Ran(q, s, m) && m.runs <= s'.runs
    ensures Ran(q, s, s')
  {
    var r :| r in m.runs[|s.runs|..] && r.sequence == q;
    assert s'.runs[|s.runs|..] == m.runs[|s.runs|..] + s'.runs[|m.runs|..];
    assert r in s'.runs[|s.runs|..];
  }

  lemma RanLater(q: nat, s: State, m: State, s': State)
    requires s.runs <= m.runs && Ran(q, m, s')
    ensures Ran(q, s, s')
  {
    var r :| r in s'.runs[|m.runs|..] && r.sequence == q;
    assert s'.runs[|s.runs|..] == m.runs[|s.runs|..] + s'.runs[|m.runs|..];
    assert r in s'.runs[|s.runs|..];
  }

  /** s' is s after n turns: every callback that is not cancelled has run, and nothing else has changed. */
  ghost predicate Turned(s: State, s': State, n: nat) {
    && s.pos + n <= |s.batch| && s.runs <= s'.runs && s'.canceled <= s.canceled
    && s' == s.(pos := s.pos + n, canceled := s'.canceled, outcome := s'.outcome, runs := s'.runs)
    && forall i | s.pos <= i < s.pos + n && s.batch[i].addr in s.heap ::
         s.heap[s.batch[i].addr].sequence !in s.canceled ==> Ran(s.heap[s.batch[i].addr].sequence, s, s')
  }

  lemma {:induction false} TurnsRun(s: State, n: nat)
    requires Inv(s) && s.reading && s.pos + n <= |s.batch|
    ensures Inv(RunFrom(s, Turns(n))) && Turned(s, RunFrom(s, Turns(n)), n)
  {
    hide Inv, Step, FireNext;
    if n == 0 {
      assert RunFrom(s, []) == s;
    } else {
      TurnsRun(s, n - 1);
      var m := RunFrom(s, Turns(n - 1));
      RunSnoc(s, Turns(n - 1), EvFireNext);
      TurnIs(m);
      FireInv(m);
      hide RunFrom, Turns;
      OneMoreTurn(s, m, n - 1);
    }
  }

  lemma TurnIs(s: State)
    requires s.reading && s.pos < |s.batch|
    ensures Step(s, EvFireNext) == FireNext(s)
  {
  }

  lemma OneMoreTurn(s: State, m: State, n: nat)
    requires Inv(m) && Turned(s, m, n) && s.pos + n < |s.batch|
    ensures Turned(s, FireNext(m), n + 1)
  {
    var s', k := FireNext(m), m.pos;
    assert m.batch[k] in m.batch;
    TurnRan(m);
    hide Inv, Ran;
    var r := s.heap[s.batch[k].addr].sequence;
    if r !in m.canceled {
      RanLater(r, s, m, s');
    }
    forall i | s.pos <= i < k && s.batch[i].addr in s.heap && s.heap[s.batch[i].addr].sequence !in s.canceled
      ensures Ran(s.heap[s.batch[i].addr].sequence, s, s')
    {
      RanLonger(s.heap[s.batch[i].addr].sequence, s, m, s');
    }
  }

  lemma TurnRan(s: State)
    requires s.pos < |s.batch| && s.batch[s.pos].addr in s.heap
    ensures var q := s.heap[s.batch[s.pos].addr].sequence;
      s.runs <= FireNext(s).runs && (q !in s.canceled ==> Ran(q, s, FireNext(s)))
  {
    var q, s' := s.heap[s.batch[s.pos].addr].sequence, FireNext(s);
    if q !in s.canceled {
      assert s'.runs[|s.runs|..][0].sequence == q;
    }
  }

  /** The handleRead in progress runs to its end undisturbed. */
  function Drain(s: State): seq<Event>
    requires s.pos <= |s.batch|
  {
    Turns(|s.batch| - s.pos) + [EvFinishRead(0)]
  }

  lemma PosFits(s: State)
    requires Inv(s)
    ensures s.pos <= |s.batch|
  {
  }

  lemma DrainFacts(s: State)
    requires Inv(s) && s.reading
    ensures var m, d := RunFrom(s, Turns(|s.batch| - s.pos)), RunFrom(s, Drain(s));
      && Inv(m) && m.reading && m == s.(pos := |s.batch|, canceled := m.canceled, outcome := m.outcome, runs := m.runs)
      && d == FinishRead(m, 0) && Inv(d) && !d.reading && d.canceled == {}
      && d.unread == s.unread && d.created == s.created
  {
    hide Inv, RunFrom;
    PosFits(s);
    TurnsRun(s, |s.batch| - s.pos);
    var m := RunFrom(s, Turns(|s.batch| - s.pos));
    RunSnoc(s, Turns(|s.batch| - s.pos), EvFinishRead(0));
    FinishFacts(m);
  }

  lemma FinishFacts(m: State)
    requires Inv(m) && m.reading && m.pos == |m.batch|
    ensures var d := FinishRead(m, 0);
      && d == Step(m, EvFinishRead(0)) && Inv(d) && !d.reading && d.canceled == {}
      && d.unread == m.unread && d.created == m.created
  {
    hide Inv, SettleAll;
    FinishInv(m, 0);
    SettleAllReads(m);
    SettleAllKeeps(m);
  }

  /** handleRead at the end of time takes every filed timer. */
  lemma EverythingDue(s: State)
    requires Inv(s) && !s.reading
    ensures var b := BeginRead(s, MAX_US);
      && Inv(b) && b.reading && b.pos == 0 && b.heap == s.heap && b.canceled == s.canceled && b.runs == s.runs
      && b.unread == s.unread && b.queued == s.queued && b.created == s.created
      && forall e <- s.timers :: e in b.batch
  {
    BeginInv(s, MAX_US);
    BatchExact(s, MAX_US);
  }

  lemma ActiveFiled(s: State, q: nat)
    requires Inv(s) && q in s.active
    ensures s.active[q] in s.heap && s.heap[s.active[q]].sequence == q && FiledAs(s, s.active[q]) in s.timers
  {
  }

  /** A timer of the batch whose turn has not come and that nobody has cancelled runs. */
  lemma TurnComes(s: State, i: nat)
    requires Inv(s) && s.reading && s.pos <= i < |s.batch| && s.batch[i].addr in s.heap
    requires s.heap[s.batch[i].addr].sequence !in s.canceled
    ensures Ran(s.heap[s.batch[i].addr].sequence, s, RunFrom(s, Turns(i + 1 - s.pos)))
  {
    hide Inv, Ran, RunFrom, Turns;
    TurnsRun(s, i + 1 - s.pos);
  }

  /** A filed timer that nobody has cancelled can be made to run. */
  lemma FiledRuns(s: State, q: nat) returns (evs: seq<Event>)
    requires Inv(s) && !s.reading && q in s.active && q !in s.canceled
    ensures Ran(q, s, RunFrom(s, evs))
  {
    hide Inv, RunFrom, Step, BeginRead, Turns, Ran;
    var i, b := PlaceInBatch(s, q);
    evs := [EvBeginRead(MAX_US)] + Turns(i + 1);
    RunAppend(s, [EvBeginRead(MAX_US)], Turns(i + 1));
    TurnComes(b, i);
    RanLater(q, s, b, RunFrom(s, evs));
  }

  lemma PlaceInBatch(s: State, q: nat) returns (i: nat, b: State)
    requires Inv(s) && !s.reading && q in s.active
    ensures b == RunFrom(s, [EvBeginRead(MAX_US)]) && Inv(b) && b.reading && b.pos == 0 && i < |b.batch|
    ensures b.batch[i].addr in b.heap && b.heap[b.batch[i].addr].sequence == q
    ensures b.runs == s.runs && b.canceled == s.canceled
  {
    EverythingDue(s);
    ActiveFiled(s, q);
    RunOne(s, EvBeginRead(MAX_US));
    b := BeginRead(s, MAX_US);
    assert b == Step(s, EvBeginRead(MAX_US));
    hide Inv, RunFrom, Step, BeginRead;
    i :| 0 <= i < |b.batch| && b.batch[i] == FiledAs(s, s.active[q]);
  }

  /** Another thread adds a one-shot timer, and the loop files, fires and deletes it before that thread
      reads its number, without anybody cancelling anything: possible from every state. */
  lemma HandOffRace(s: State, a: Addr, when: Us, interval: Us, repeat: bool) returns (evs: seq<Event>)
    requires Inv(s) && a !in s.heap && a < LAST_ADDR && !(when > 0 && repeat)
    ensures var p := Step(s, EvPost(a, when, interval, repeat));
      LateRead(RunFrom(p, evs), EvReadId(a, s.created + 1)) && forall ev <- evs :: !ev.EvCancel?
  {
    hide Inv, Drain, RunFrom;
    var p := Posted(s, a, when, interval, repeat);
    assert !Rearms(p.heap[a]);
    if s.reading {
      var d := DrainPosted(p, a);
      var more := FireAndDelete(d, a);
      evs := Drain(p) + more;
      RunAppend(p, Drain(p), more);
      DrainCancels(p);
    } else {
      evs := FireAndDelete(p, a);
    }
  }

  /** The timer waits for its addTimerInLoop, and its number for its reader. */
  ghost predicate HandedOff(s: State, a: Addr) {
    a in s.heap && a in s.queued && (a, s.heap[a].sequence) in s.unread
  }

  lemma Posted(s: State, a: Addr, when: Us, interval: Us, repeat: bool) returns (p: State)
    requires Inv(s) && a !in s.heap && a < LAST_ADDR
    ensures p == Step(s, EvPost(a, when, interval, repeat)) && Inv(p) && HandedOff(p, a)
    ensures p.reading == s.reading && p.heap[a] == Timer(when, interval, repeat, s.created + 1)
  {
    p := Post(s, a, when, interval, repeat);
    PostInv(s, a, when, interval, repeat);
  }

  lemma DrainCancels(s: State)
    requires s.pos <= |s.batch|
    ensures forall ev <- Drain(s) :: !ev.EvCancel?
  {
    TurnsCancel(|s.batch| - s.pos);
  }

  lemma {:induction false} TurnsCancel(n: nat)
    ensures forall ev <- Turns(n) :: !ev.EvCancel?
  {
    if n > 0 {
      TurnsCancel(n - 1);
    }
  }

  /** The handleRead in progress leaves it where it is. */
  lemma DrainPosted(s: State, a: Addr) returns (d: State)
    requires Inv(s) && s.reading && HandedOff(s, a)
    ensures s.pos <= |s.batch| && d == RunFrom(s, Drain(s)) && Inv(d) && !d.reading
    ensures HandedOff(d, a) && d.heap[a] == s.heap[a]
  {
    PosFits(s);
    DrainFacts(s);
    QueuedApart(s, a);
    hide Inv, FinishRead, RunFrom, Drain;
    var m := RunFrom(s, Turns(|s.batch| - s.pos));
    d := RunFrom(s, Drain(s));
    FinishKeeps(m, 0);
  }

  lemma QueuedApart(s: State, a: Addr)
    requires Inv(s) && a in s.queued
    ensures forall e <- s.batch :: e.addr != a
  {
    assert OneOwner(s, a);
  }

  lemma FireAndDelete(s: State, a: Addr) returns (evs: seq<Event>)
    requires Inv(s) && !s.reading && HandedOff(s, a) && !Rearms(s.heap[a])
    ensures LateRead(RunFrom(s, evs), EvReadId(a, s.heap[a].sequence)) && forall ev <- evs :: !ev.EvCancel?
  {
    hide Inv, Drain, FinishRead, AddInLoop, RunFrom;
    var f := AddInLoop(s, a, 0);
    AddInv(s, a, 0);
    FiledFacts(s, a);
    EverythingDue(f);
    var b := BeginRead(f, MAX_US);
    DrainFacts(b);
    var m := RunFrom(b, Turns(|b.batch| - b.pos));
    assert FiledAs(f, a) in m.batch;
    DeletedByFinish(m, a);
    var e1, e2 := EvAdd(a, 0), EvBeginRead(MAX_US);
    evs := [e1, e2] + Drain(b);
    TwoEvents(s, e1, e2);
    RunAppend(s, [e1, e2], Drain(b));
    DrainCancels(b);
  }

  /** The end of handleRead deletes a one-shot timer of the batch. */
  lemma DeletedByFinish(m: State, a: Addr)
    requires Inv(m) && m.reading && a in m.heap && FiledAs(m, a) in m.batch && !Rearms(m.heap[a])
    ensures Deleted(FinishRead(m, 0), m.heap[a].sequence)
  {
    FinishTheorem(m, 0);
    SettleAllKeeps(m);
    var d := FinishRead(m, 0);
    SameNumbers(m);
    hide SettleAll, FinishRead, Sorted, Owned, Agree, HandedOver, Rearms;
    assert a !in d.heap;
  }

  lemma SameNumbers(m: State)
    requires Inv(m) && m.reading
    ensures forall b <- FinishRead(m, 0).heap :: b in m.heap && FinishRead(m, 0).heap[b].sequence == m.heap[b].sequence
  {
    hide Inv, SettleAll;
    SettleAllKeeps(m);
  }

  /** This call of addTimer can end with a stale read of the timer's number: in the call itself, or by what
      the loop does before its caller gets to the read. */
  ghost predicate CanEndStale(s: State, call: Event)
    requires call.EvPost? || call.EvAddLocal?
  {
    || (Step(s, call).staleRead && !s.staleRead)
    || (call.EvPost? &&
        exists evs: seq<Event> :: LateRead(RunFrom(Step(s, call), evs), EvReadId(call.a, s.created + 1)))
  }

  /** From every state: if and only if the caller is not the loop thread. A periodic timer is deleted in time
      only when its number is cancelled. */
  lemma HandOffExact(s: State, call: Event)
    requires Inv(s) && (call.EvPost? || call.EvAddLocal?) && call.a !in s.heap && call.a < LAST_ADDR
    ensures CanEndStale(s, call) <==> call.EvPost?
  {
    hide RunFrom, LateRead;
    var a := call.a;
    match call
    case EvAddLocal(_, when, interval, repeat, clock) =>
      StepReadsStale(s, call);
      assert !LateRead(s, call) by { NotARead(s, call); }
    case EvPost(_, when, interval, repeat) =>
      var p := Posted(s, a, when, interval, repeat);
      if when > 0 && repeat {
        CancelDeletes(p, a);
        assert LateRead(RunFrom(p, [EvAdd(a, 0), EvCancel(s.created + 1)]), EvReadId(a, s.created + 1));
      } else {
        var evs := HandOffRace(s, a, when, interval, repeat);
      }
  }

  lemma NotARead(s: State, ev: Event)
    requires !ev.EvReadId?
    ensures !LateRead(s, ev)
  {
  }

  lemma CancelDeletes(s: State, a: Addr)
    requires Inv(s) && HandedOff(s, a)
    ensures var q := s.heap[a].sequence; LateRead(RunFrom(s, [EvAdd(a, 0), EvCancel(q)]), EvReadId(a, q))
  {
    var q, f := s.heap[a].sequence, AddInLoop(s, a, 0);
    TwoEvents(s, EvAdd(a, 0), EvCancel(q));
    AddInv(s, a, 0);
    FiledFacts(s, a);
    hide AddInLoop, RunFrom, Sorted, Owned, Agree, HandedOver, Erase;
    assert Step(s, EvAdd(a, 0)) == f;
  }

  lemma FiledFacts(s: State, a: Addr)
    requires Inv(s) && a in s.queued
    ensures var f := AddInLoop(s, a, 0);
      && f.heap == s.heap && a in s.heap && FiledAs(f, a) in f.timers && f.reading == s.reading && f.unread == s.unread
      && f.active == s.active[s.heap[a].sequence := a] && f.canceled == s.canceled
      && f.created == s.created && f.runs == s.runs
  {
    assert OneOwner(s, a);
    InsertSpec(s.timers, FiledAs(s, a));
  }

  lemma TwoEvents(s: State, e1: Event, e2: Event)
    ensures RunFrom(s, [e1, e2]) == Step(Step(s, e1), e2)
  {
    hide Step;
    RunOne(s, e1);
    RunSnoc(s, [e1], e2);
    assert [e1] + [e2] == [e1, e2];
  }
}
