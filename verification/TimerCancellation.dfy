/** Which cancellations of a timer are final. */
module TimerCancellation {
  import opened TimerQueue
  import opened TimerRuns

  /** The timer has been deleted; its number is never used again. */
  ghost predicate Gone(s: State, q: nat) {
    q <= s.created && Deleted(s, q)
  }

  /** It is a timer of the current batch that will be deleted at the end, and its callback has been
      handled already or will be skipped. */
  ghost predicate DoomedAt(s: State, q: nat, i: nat)
    requires i < |s.batch|
  {
    var a := s.batch[i].addr;
    && a in s.heap && s.heap[a].sequence == q && !Rearms(s.heap[a])
    && (i < s.pos || q in s.canceled)
  }

  ghost predicate Doomed(s: State, q: nat) {
    s.reading && q <= s.created && exists i | 0 <= i < |s.batch| :: DoomedAt(s, q, i)
  }

  ghost predicate Silent(s: State, q: nat) {
    Gone(s, q) || Doomed(s, q)
  }

  /** No invocation of q was added. */
  ghost predicate NoRunOf(q: nat, s: State, s': State) {
    && s.runs <= s'.runs
    && forall r <- s'.runs[|s.runs|..] :: r.sequence != q
  }

  lemma FireSilent(s: State, q: nat)
    requires Inv(s) && Silent(s, q) && s.reading && s.pos < |s.batch|
    ensures Silent(FireNext(s), q) && NoRunOf(q, s, FireNext(s))
  {
    var s' := FireNext(s);
    assert s.batch[s.pos] in s.batch;
    if Doomed(s, q) {
      var i :| 0 <= i < |s.batch| && DoomedAt(s, q, i);
      BatchUnique(s, i, s.pos);
      hide Inv;
      assert DoomedAt(s', q, i);
    }
  }

  lemma FinishSilent(s: State, q: nat, clock: Us)
    requires Inv(s) && Silent(s, q) && s.reading
    ensures Gone(FinishRead(s, clock), q) && FinishRead(s, clock).runs == s.runs
  {
    SettledAll(s);
    SettleAllInv(s);
    SettleAllKeeps(s);
    var s1 := SettleAll(s);
    hide SettleAll, Sorted;
    forall a | a in s1.heap ensures s1.heap[a].sequence != q {
      assert a in s.heap && s1.heap[a].sequence == s.heap[a].sequence;
      if Doomed(s, q) {
        var i :| 0 <= i < |s.batch| && DoomedAt(s, q, i);
        assert s.batch[i] in s.batch && SettledAs(s, s1, s.batch[i]);
      }
    }
  }

  /** The batch and its timers stay, and so do cancellations; new timers have new numbers. */
  ghost predicate Undisturbed(s: State, s': State) {
    && s'.created >= s.created && s'.reading == s.reading && s'.batch == s.batch && s'.pos == s.pos
    && s.canceled <= s'.canceled
    && (forall a <- s'.heap :: (a in s.heap && s'.heap[a] == s.heap[a]) || s'.heap[a].sequence > s.created)
    && (forall e <- s.batch :: e.addr in s.heap ==> e.addr in s'.heap && s'.heap[e.addr] == s.heap[e.addr])
  }

  lemma UndisturbedSilent(s: State, s': State, q: nat)
    requires Silent(s, q) && Undisturbed(s, s')
    ensures Silent(s', q)
  {
    if Doomed(s, q) {
      var i :| 0 <= i < |s.batch| && DoomedAt(s, q, i);
      assert s.batch[i] in s.batch && DoomedAt(s', q, i);
    }
  }

  lemma AddUndisturbed(s: State, a: Addr, clock: Us)
    requires Inv(s) && a in s.queued
    ensures Undisturbed(s, AddInLoop(s, a, clock)) && AddInLoop(s, a, clock).runs == s.runs
  {
    hide Sorted, Agree, Numbered, HandedOver;
    assert OneOwner(s, a);
  }

  lemma AllocateUndisturbed(s: State, a: Addr, when: Us, interval: Us, repeat: bool)
    requires Inv(s)
    ensures Undisturbed(s, Allocate(s, a, when, interval, repeat))
  {
    hide Sorted, Agree, Owned, HandedOver;
  }

  lemma CancelUndisturbed(s: State, q: nat)
    requires Inv(s)
    ensures Undisturbed(s, CancelInLoop(s, q)) && CancelInLoop(s, q).runs == s.runs
  {
    hide Sorted, Numbered, HandedOver;
    if q in s.active {
      assert OneOwner(s, s.active[q]);
      hide Owned;
    }
  }

  lemma UndisturbedTwice(s: State, m: State, s': State)
    requires Undisturbed(s, m) && Undisturbed(m, s')
    ensures Undisturbed(s, s')
  {
  }

  lemma AddLocalUndisturbed(s: State, a: Addr, when: Us, interval: Us, repeat: bool, clock: Us)
    requires Inv(s)
    ensures var s' := AddLocal(s, a, when, interval, repeat, clock); Undisturbed(s, s') && s'.runs == s.runs
  {
    if a !in s.heap && a < LAST_ADDR {
      hide Inv, AddInLoop, AddLocal;
      AddLocalIs(s, a, when, interval, repeat, clock);
      var m := Allocate(s, a, when, interval, repeat);
      AllocateUndisturbed(s, a, when, interval, repeat);
      AddUndisturbed(m, a, clock);
      UndisturbedTwice(s, m, AddInLoop(m, a, clock));
    }
  }

  lemma PostUndisturbed(s: State, a: Addr, when: Us, interval: Us, repeat: bool)
    requires Inv(s)
    ensures var s' := Post(s, a, when, interval, repeat); Undisturbed(s, s') && s'.runs == s.runs
  {
    hide Inv;
    AllocateUndisturbed(s, a, when, interval, repeat);
  }

  /** Adding and cancelling disturb neither the batch nor the firing. */
  lemma StepUndisturbed(s: State, ev: Event)
    requires Inv(s) && !ev.EvBeginRead? && !ev.EvFireNext? && !ev.EvFinishRead?
    ensures Undisturbed(s, Step(s, ev)) && Step(s, ev).runs == s.runs
  {
    hide Inv, AddInLoop, AddLocal, CancelInLoop, Post;
    match ev
    case EvPost(a, when, interval, repeat) => PostUndisturbed(s, a, when, interval, repeat);
    case EvReadId(_, _) =>
    case EvAdd(a, clock) => if a in s.queued { AddUndisturbed(s, a, clock); }
    case EvAddLocal(a, when, interval, repeat, clock) => AddLocalUndisturbed(s, a, when, interval, repeat, clock);
    case EvCancel(p) => CancelUndisturbed(s, p);
  }

  lemma BeginSilent(s: State, q: nat, now: Us)
    requires Silent(s, q) && !s.reading
    ensures Silent(BeginRead(s, now), q) && BeginRead(s, now).runs == s.runs
  {
  }

  /** A silent timer stays silent and its callback never runs again, whatever happens. */
  lemma {:induction false} SilentForever(s: State, q: nat, evs: seq<Event>)
    requires Inv(s) && Silent(s, q)
    ensures var s' := RunFrom(s, evs); Silent(s', q) && NoRunOf(q, s, s')
  {
    if evs != [] {
      hide Step, Inv, Silent;
      var init, ev := evs[..|evs| - 1], evs[|evs| - 1];
      SilentForever(s, q, init);
      RunInv(s, init);
      var m := RunFrom(s, init);
      StepSilent(m, q, ev);
      var s' := RunFrom(s, evs);
      assert s'.runs[|s.runs|..] == m.runs[|s.runs|..] + s'.runs[|m.runs|..];
    }
  }

  lemma StepSilent(s: State, q: nat, ev: Event)
    requires Inv(s) && Silent(s, q)
    ensures Silent(Step(s, ev), q) && NoRunOf(q, s, Step(s, ev))
  {
    hide Inv, Gone, Doomed, Undisturbed, FireNext, FinishRead, BeginRead;
    assert s.runs[|s.runs|..] == [];
    match ev
    case EvFireNext => if s.reading && s.pos < |s.batch| { FireSilent(s, q); }
    case EvFinishRead(clock) => if s.reading && s.pos == |s.batch| { FinishSilent(s, q, clock); }
    case EvBeginRead(now) => if !s.reading { BeginSilent(s, q, now); }
    case _ =>
      hide Step, Silent;
      StepUndisturbed(s, ev);
      UndisturbedSilent(s, Step(s, ev), q);
  }

  /** The two places from which cancel() cannot remove a timer: addTimerInLoop has not run yet, or it
      is a periodic timer of the batch being fired. */
  ghost predicate OutOfReach(s: State, q: nat) {
    exists a <- s.heap :: s.heap[a].sequence == q
      && (a in s.queued || (FiledAs(s, a) in s.batch && Rearms(s.heap[a])))
  }

  // ---- what can still run ----

  /** Some continuation runs the callback of q. */
  ghost predicate CanRun(s: State, q: nat) {
    exists evs: seq<Event> :: Ran(q, s, RunFrom(s, evs))
  }

  lemma CanRunAfter(s: State, pre: seq<Event>, q: nat)
    requires Inv(s) && CanRun(RunFrom(s, pre), q)
    ensures CanRun(s, q)
  {
    var m := RunFrom(s, pre);
    hide Inv, RunFrom, Ran;
    var evs :| Ran(q, m, RunFrom(m, evs));
    RunsGrow(s, pre);
    RunAppend(s, pre, evs);
    RanLater(q, s, m, RunFrom(m, evs));
    assert Ran(q, s, RunFrom(s, pre + evs));
  }

  lemma SilentCannotRun(s: State, q: nat)
    requires Inv(s) && Silent(s, q)
    ensures !CanRun(s, q)
  {
    hide Inv, RunFrom, Silent;
    forall evs: seq<Event> ensures !Ran(q, s, RunFrom(s, evs)) {
      SilentForever(s, q, evs);
    }
  }

  /** With no handleRead in progress, a timer whose cancellation is not remembered can run if and only if
      it has not been deleted. */
  lemma AliveExact(s: State, q: nat)
    requires Inv(s) && !s.reading && q !in s.canceled && q <= s.created
    ensures CanRun(s, q) <==> !Gone(s, q)
  {
    if Gone(s, q) {
      SilentCannotRun(s, q);
    } else {
      var a :| a in s.heap && s.heap[a].sequence == q;
      WaitingSomewhere(s, a);
      hide Inv, RunFrom, Ran, Gone;
      if a in s.queued {
        AddInv(s, a, 0);
        FiledFacts(s, a);
        RunOne(s, EvAdd(a, 0));
        var f := AddInLoop(s, a, 0);
        var evs := FiledRuns(f, q);
        CanRunAfter(s, [EvAdd(a, 0)], q);
      } else {
        var evs := FiledRuns(s, q);
      }
    }
  }

  lemma WaitingSomewhere(s: State, a: Addr)
    requires Inv(s) && !s.reading && a in s.heap
    ensures a in s.queued || s.heap[a].sequence in s.active
  {
    assert OneOwner(s, a);
  }

  /** The handleRead in progress, if any, or else one that finds nothing but timers due at time 0, ends
      with every cancellation forgotten and the timers out of cancel's reach still there. */
  lemma Forgotten(s: State, q: nat) returns (pre: seq<Event>)
    requires Inv(s) && OutOfReach(s, q) && q <= s.created
    ensures var d := RunFrom(s, pre);
      Inv(d) && !d.reading && d.canceled == {} && d.created == s.created && !Gone(d, q)
  {
    hide RunFrom, Inv, Drain, FinishRead;
    if s.reading {
      DrainFacts(s);
      DrainKeeps(s, q);
      pre := Drain(s);
    } else {
      var b := BeginRead(s, 0);
      BeginInv(s, 0);
      BeginKeeps(s, q);
      RunOne(s, EvBeginRead(0));
      DrainFacts(b);
      DrainKeeps(b, q);
      pre := [EvBeginRead(0)] + Drain(b);
      RunAppend(s, [EvBeginRead(0)], Drain(b));
    }
  }

  lemma BeginKeeps(s: State, q: nat)
    requires Inv(s) && OutOfReach(s, q) && !s.reading
    ensures var b := BeginRead(s, 0);
      OutOfReach(b, q) && b.reading && b.created == s.created && b == Step(s, EvBeginRead(0))
  {
    var a :| a in s.heap && s.heap[a].sequence == q && a in s.queued;
    assert a in BeginRead(s, 0).heap;
  }

  lemma DrainKeeps(s: State, q: nat)
    requires Inv(s) && OutOfReach(s, q) && s.reading && q <= s.created
    ensures s.pos <= |s.batch| && !Gone(RunFrom(s, Drain(s)), q)
  {
    PosFits(s);
    DrainFacts(s);
    var a :| a in s.heap && s.heap[a].sequence == q
      && (a in s.queued || (FiledAs(s, a) in s.batch && Rearms(s.heap[a])));
    QueuedNotInBatch(s, a);
    hide RunFrom, Inv, Drain, FinishRead, Rearms, Gone;
    var m := RunFrom(s, Turns(|s.batch| - s.pos));
    assert Rearms(m.heap[a]) || FiledAs(m, a) !in m.batch;
    FinishDeletes(m, q, 0);
  }

  lemma QueuedNotInBatch(s: State, a: Addr)
    requires Inv(s) && a in s.heap
    ensures a in s.queued ==> forall e <- s.batch :: e.addr != a
  {
    assert OneOwner(s, a);
  }

  /** Cancelling an issued timer is final if and only if it is within reach: then no continuation runs
      its callback, and otherwise some continuation does. */
  lemma CancelExact(s: State, q: nat)
    requires Inv(s) && q <= s.created
    ensures CanRun(CancelInLoop(s, q), q) <==> OutOfReach(s, q)
    ensures Silent(CancelInLoop(s, q), q) <==> !OutOfReach(s, q)
  {
    var c := CancelInLoop(s, q);
    CancelInv(s, q);
    if OutOfReach(s, q) {
      StillOutOfReach(s, q);
      hide Inv, RunFrom, Ran, Silent, CancelInLoop;
      var pre := Forgotten(c, q);
      AliveExact(RunFrom(c, pre), q);
      CanRunAfter(c, pre, q);
      assert Silent(c, q) ==> !CanRun(c, q) by {
        if Silent(c, q) {
          SilentCannotRun(c, q);
        }
      }
    } else {
      InReachSilent(s, q);
      hide Inv, RunFrom, Ran, Silent, CancelInLoop, OutOfReach, CanRun;
      SilentCannotRun(c, q);
    }
  }

  lemma StillOutOfReach(s: State, q: nat)
    requires Inv(s) && OutOfReach(s, q)
    ensures var c := CancelInLoop(s, q);
      OutOfReach(c, q) && q !in s.active && c == s.(canceled := s.canceled + {q})
  {
    var a :| a in s.heap && s.heap[a].sequence == q
      && (a in s.queued || (FiledAs(s, a) in s.batch && Rearms(s.heap[a])));
    assert OneOwner(s, a);
    assert q !in s.active;
    var c := CancelInLoop(s, q);
    assert a in c.heap && FiledAs(c, a) == FiledAs(s, a);
  }

  lemma InReachSilent(s: State, q: nat)
    requires Inv(s) && q <= s.created && !OutOfReach(s, q)
    ensures Silent(CancelInLoop(s, q), q)
  {
    var c := CancelInLoop(s, q);
    if !Gone(s, q) {
      var a :| a in s.heap && s.heap[a].sequence == q;
      assert OneOwner(s, a);
      if q !in s.active {
        var i :| 0 <= i < |s.batch| && s.batch[i] == FiledAs(s, a);
        assert DoomedAt(c, q, i);
      }
    }
  }

  // ---- until the next handleRead finishes ----

  /** Nothing runs q's callback before the end of a handleRead. */
  ghost predicate Muted(s: State, q: nat) {
    Gone(s, q) || (q <= s.created && q in s.canceled) || HandledOnce(s, q)
  }

  ghost predicate HandledOnce(s: State, q: nat) {
    && s.reading && q <= s.created
    && exists i | 0 <= i < |s.batch| ::
         i < s.pos && s.batch[i].addr in s.heap && s.heap[s.batch[i].addr].sequence == q
  }

  lemma UndisturbedMuted(s: State, s': State, q: nat)
    requires Muted(s, q) && Undisturbed(s, s')
    ensures Muted(s', q)
  {
    if HandledOnce(s, q) {
      var i :| 0 <= i < |s.batch| && i < s.pos && s.batch[i].addr in s.heap && s.heap[s.batch[i].addr].sequence == q;
      assert s.batch[i] in s.batch && s'.batch[i].addr in s'.heap;
    }
  }

  lemma FireMuted(s: State, q: nat)
    requires Inv(s) && Muted(s, q) && s.reading && s.pos < |s.batch|
    ensures Muted(FireNext(s), q) && NoRunOf(q, s, FireNext(s))
  {
    var s', k := FireNext(s), s.pos;
    assert s.batch[k] in s.batch;
    if HandledOnce(s, q) {
      var i :| 0 <= i < |s.batch| && i < s.pos && s.batch[i].addr in s.heap && s.heap[s.batch[i].addr].sequence == q;
      BatchUnique(s, i, k);
      hide Inv;
      assert s'.batch[i].addr in s'.heap && i < s'.pos;
    } else if s.heap[s.batch[k].addr].sequence == q {
      hide Inv;
      assert s'.batch[k].addr in s'.heap && k < s'.pos;
    }
  }

  lemma StepMuted(s: State, q: nat, ev: Event)
    requires Inv(s) && Muted(s, q) && !ev.EvFinishRead?
    ensures Muted(Step(s, ev), q) && NoRunOf(q, s, Step(s, ev))
  {
    hide Inv, Muted, Undisturbed;
    assert s.runs[|s.runs|..] == [];
    match ev
    case EvBeginRead(now) => if !s.reading { BeginMuted(s, q, now); }
    case EvFireNext => if s.reading && s.pos < |s.batch| { FireMuted(s, q); }
    case _ =>
      hide Step;
      StepUndisturbed(s, ev);
      UndisturbedMuted(s, Step(s, ev), q);
  }

  lemma BeginMuted(s: State, q: nat, now: Us)
    requires Muted(s, q) && !s.reading
    ensures Muted(BeginRead(s, now), q) && BeginRead(s, now).runs == s.runs
  {
  }

  lemma {:induction false} RunMuted(s: State, q: nat, evs: seq<Event>)
    requires Inv(s) && Muted(s, q) && forall ev <- evs :: !ev.EvFinishRead?
    ensures Muted(RunFrom(s, evs), q) && NoRunOf(q, s, RunFrom(s, evs))
  {
    if evs != [] {
      hide Step, Inv, Muted;
      var init, ev := evs[..|evs| - 1], evs[|evs| - 1];
      assert ev in evs;
      RunMuted(s, q, init);
      RunInv(s, init);
      var m := RunFrom(s, init);
      StepMuted(m, q, ev);
      var s' := RunFrom(s, evs);
      assert s'.runs[|s.runs|..] == m.runs[|s.runs|..] + s'.runs[|m.runs|..];
    }
  }

  /** A timer the end of handleRead will not delete: a periodic one, or one outside the batch. */
  ghost predicate Survives(s: State, q: nat) {
    exists a <- s.heap :: s.heap[a].sequence == q && (Rearms(s.heap[a]) || FiledAs(s, a) !in s.batch)
  }

  /** How long a cancellation holds, wherever the timer was, be it queued or in the batch: until the end
      of the first handleRead that finishes after it nothing runs the callback; from then on something
      can run it if and only if that handleRead did not delete the timer. */
  lemma CancelHolds(s: State, q: nat, evs: seq<Event>, clock: Us)
    requires Inv(s) && q <= s.created && forall ev <- evs :: !ev.EvFinishRead?
    ensures var c := CancelInLoop(s, q); var m := RunFrom(c, evs);
      && NoRunOf(q, c, m)
      && (m.reading && m.pos == |m.batch| ==> (CanRun(FinishRead(m, clock), q) <==> Survives(m, q)))
  {
    var c := CancelInLoop(s, q);
    CancelInv(s, q);
    CancelMutes(s, q);
    hide Inv, CancelInLoop, RunFrom, Muted, CanRun, Survives;
    RunMuted(c, q, evs);
    RunInv(c, evs);
    CreatedGrows(c, evs);
    var m := RunFrom(c, evs);
    if m.reading && m.pos == |m.batch| {
      FinishSurvives(m, q, clock);
    }
  }

  lemma CancelMutes(s: State, q: nat)
    requires Inv(s) && q <= s.created
    ensures Muted(CancelInLoop(s, q), q) && CancelInLoop(s, q).created == s.created
  {
  }

  lemma {:induction false} CreatedGrows(s: State, evs: seq<Event>)
    requires Inv(s)
    ensures s.created <= RunFrom(s, evs).created
  {
    if evs != [] {
      hide Step, Inv;
      CreatedGrows(s, evs[..|evs| - 1]);
      RunInv(s, evs[..|evs| - 1]);
      StepCreated(RunFrom(s, evs[..|evs| - 1]), evs[|evs| - 1]);
    }
  }

  lemma StepCreated(s: State, ev: Event)
    requires Inv(s)
    ensures s.created <= Step(s, ev).created
  {
    hide Inv, SettleAll, Insert, Erase, NumbersOf, ExpiredCount;
    if ev.EvFinishRead? && s.reading {
      SettleAllKeeps(s);
    }
  }

  lemma FinishSurvives(m: State, q: nat, clock: Us)
    requires Inv(m) && m.reading && q <= m.created
    ensures CanRun(FinishRead(m, clock), q) <==> Survives(m, q)
  {
    FinishInv(m, clock);
    FinishDeletes(m, q, clock);
    FinishKeepsCreated(m, clock);
    hide Inv, FinishRead, CanRun, Survives;
    AliveExact(FinishRead(m, clock), q);
  }

  lemma FinishKeepsCreated(m: State, clock: Us)
    requires Inv(m) && m.reading
    ensures var f := FinishRead(m, clock); !f.reading && f.canceled == {} && f.created == m.created
  {
    hide SettleAll, Inv;
    SettleAllKeeps(m);
  }

  lemma FinishDeletes(m: State, q: nat, clock: Us)
    requires Inv(m) && m.reading && q <= m.created
    ensures Gone(FinishRead(m, clock), q) <==> !Survives(m, q)
  {
    var f := FinishRead(m, clock);
    SettleAllKeeps(m);
    BatchFiled(m);
    FinishTheorem(m, clock);
    FinishKeeps(m, clock);
    FinishNumbers(m, clock);
    hide Inv, FinishRead, Rearms;
    if Survives(m, q) {
      var a :| a in m.heap && m.heap[a].sequence == q && (Rearms(m.heap[a]) || FiledAs(m, a) !in m.batch);
      if FiledAs(m, a) in m.batch {
        assert a in f.heap && f.heap[a].sequence == q;
      } else {
        assert forall e <- m.batch :: e.addr != a;
        assert a in f.heap && f.heap[a].sequence == q;
      }
    } else {
      forall a | a in f.heap ensures f.heap[a].sequence != q {
        assert a in m.heap && (FiledAs(m, a) in m.batch ==> Rearms(m.heap[a]));
      }
    }
  }

  lemma BatchFiled(m: State)
    requires Inv(m)
    ensures forall e <- m.batch :: e.addr in m.heap && FiledAs(m, e.addr) == e
  {
  }

  lemma FinishNumbers(m: State, clock: Us)
    requires Inv(m) && m.reading
    ensures var f := FinishRead(m, clock);
      f.created == m.created && forall a <- f.heap :: a in m.heap && f.heap[a].sequence == m.heap[a].sequence
  {
    hide SettleAll, Inv;
    SettleAllKeeps(m);
  }

  /** A timer found in activeTimers_ is deleted on the spot: its callback never runs again. */
  lemma CancelActive(s: State, q: nat, evs: seq<Event>)
    requires Inv(s) && q in s.active
    ensures Gone(CancelInLoop(s, q), q)
    ensures NoRunOf(q, CancelInLoop(s, q), RunFrom(CancelInLoop(s, q), evs))
  {
    CancelInv(s, q);
    SilentForever(CancelInLoop(s, q), q, evs);
  }

  /** A one-shot timer of the batch cancelled by a callback before its turn is never run. */
  lemma CancelInBatch(s: State, i: nat, evs: seq<Event>)
    requires Inv(s) && s.reading && s.pos <= i < |s.batch|
    requires s.batch[i].addr in s.heap && !Rearms(s.heap[s.batch[i].addr])
    ensures var q := s.heap[s.batch[i].addr].sequence;
      NoRunOf(q, CancelInLoop(s, q), RunFrom(CancelInLoop(s, q), evs))
  {
    var a := s.batch[i].addr;
    var q := s.heap[a].sequence;
    assert s.batch[i] in s.batch && OneOwner(s, a);
    CancelInv(s, q);
    assert DoomedAt(CancelInLoop(s, q), q, i);
    SilentForever(CancelInLoop(s, q), q, evs);
  }

  /** A periodic timer of the batch survives its cancellation: once the batch is finished it is filed
      again, active, for now + interval, with the cancellation forgotten. */
  lemma PeriodicSurvivesCancel(s: State, i: nat, clock: Us)
    requires Inv(s) && s.reading && i < |s.batch| && s.batch[i].addr in s.heap && Rearms(s.heap[s.batch[i].addr])
    ensures var a := s.batch[i].addr;
      var t := s.heap[a];
      var s' := FinishRead(CancelInLoop(s, t.sequence), clock);
      && s'.canceled == {}
      && t.sequence in s'.active && s'.active[t.sequence] == a
      && Entry((s.now + t.interval) % TWO_64, a) in s'.timers
  {
    var a := s.batch[i].addr;
    var t := s.heap[a];
    var e := s.batch[i];
    assert e in s.batch && OneOwner(s, a);
    CancelInv(s, t.sequence);
    assert t.sequence !in s.active;
    var c := CancelInLoop(s, t.sequence);
    assert c.heap == s.heap && c.batch == s.batch && c.now == s.now;
    hide Inv, FinishRead, CancelInLoop, OneOwner;
    FinishTheorem(c, clock);
    assert e in c.batch;
  }
}
