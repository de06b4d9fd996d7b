/** What each step of the event loop does, and when a request to quit ends it. */
module EventLoopEffects {
  import opened EventLoop

  // ---- what each step does ----

  /** queueInLoop on another thread: the functor goes to the end of the queue under the thread's name; the
      wakeup that follows counts the eventfd up by one and leaves the queue alone. */
  lemma PostEffect(s: Loop, t: Tid, f: Functor)
    requires t != LOOP
    ensures t !in s.mid && t !in s.quitting ==>
              Step(s, Push(t, f)) == s.(pending := s.pending + [Post(t, f)], pushed := s.pushed + [Post(t, f)],
                                        mid := s.mid[t := Post(t, f)])
    ensures t in s.mid ==> Step(s, Wake(t)) == s.(eventfd := s.eventfd + 1, mid := s.mid - {t})
  {
  }

  /** queueInLoop on the loop thread: it owes a wakeup only while a batch is being run. */
  lemma LoopPostEffect(s: Loop, f: Functor)
    requires !s.oweWake && (s.phase == Created || s.phase == Dispatching || s.inFunctor)
    ensures Step(s, LoopPush(f)) ==
            s.(pending := s.pending + [Post(LOOP, f)], pushed := s.pushed + [Post(LOOP, f)], oweWake := s.calling)
    ensures Step(Step(s, LoopPush(f)), LoopWake) ==
            s.(pending := s.pending + [Post(LOOP, f)], pushed := s.pushed + [Post(LOOP, f)],
               eventfd := s.eventfd + if s.calling then 1 else 0)
  {
  }

  /** quit(): the flag is set, and another thread counts the eventfd up after that. */
  lemma QuitEffect(s: Loop, t: Tid)
    requires t != LOOP
    ensures t !in s.mid ==> Step(s, SetQuit(t)) == s.(quit := true, quitting := s.quitting + {t})
    ensures t in s.quitting ==> Step(s, QuitWake(t)) == s.(eventfd := s.eventfd + 1, quitting := s.quitting - {t})
    ensures !s.oweWake && (s.phase == Created || s.phase == Dispatching || s.inFunctor) ==>
              Step(s, LoopQuit) == s.(quit := true)
  {
  }

  /** loop() itself: the reset of quit_, the test, the poll and the traversal of the active channels. */
  lemma LoopEffect(s: Loop, active: seq<ChannelId>, wake: bool)
    requires wake ==> s.eventfd > 0
    ensures s.phase == Created ==> Step(s, Enter) == s.(phase := Top, quit := false)
    ensures s.phase == Top && s.quit ==> Step(s, TestQuit) == s.(phase := Exited)
    ensures s.phase == Top && !s.quit ==> Step(s, TestQuit) == s.(phase := Polling)
    ensures s.phase == Polling ==>
              Step(s, PollReturns(active, wake)) == s.(phase := Dispatching, active := active, wakeActive := wake)
    ensures s.phase == Dispatching && s.wakeActive ==> Step(s, HandleWakeup) == s.(eventfd := 0, wakeActive := false)
    ensures s.phase == Dispatching && s.active != [] ==>
              s.active == [s.active[0]] + Step(s, HandleNext).active &&
              Step(s, HandleNext) == s.(active := Step(s, HandleNext).active)
  {
  }

  /** doPendingFunctors: the flag, the swap, and the functors of the batch one by one. */
  lemma BatchEffect(s: Loop)
    ensures s.phase == Dispatching && s.active == [] ==>
              Step(s, EndDispatch) == s.(phase := Swapping, calling := true)
    ensures s.phase == Swapping ==> Step(s, Swap) == s.(phase := Running, batch := s.pending, pending := [])
    ensures s.phase == Running && !s.inFunctor && s.batch != [] ==>
              var s' := Step(s, Begin);
              && s.batch == [s.batch[0]] + s'.batch
              && s' == s.(inFunctor := true, batch := s'.batch, executed := s.executed + [s.batch[0]])
    ensures s.inFunctor && !s.oweWake ==> Step(s, Finish) == s.(inFunctor := false)
    ensures s.phase == Running && !s.inFunctor && s.batch == [] ==>
              Step(s, EndBatch) == s.(phase := Top, calling := false, rounds := s.rounds + 1)
  {
  }

  // ---- the one post that can wait ----

  /** queueInLoop on the loop thread leaves out the wakeup when no batch is running. Before loop() nothing
      makes up for that: the first poll starts with the functor in the queue and nothing in the eventfd,
      and no other thread on its way to a wakeup. */
  lemma EarlyPostWaits(f: Functor)
    ensures var s := RunFrom(INIT, [LoopPush(f), Enter, TestQuit]);
      s.phase == Polling && s.eventfd == 0 && s.mid == map[] && s.pending == [Post(LOOP, f)]
  {
    var e1, e2, e3 := LoopPush(f), Enter, TestQuit;
    assert [e1, e2, e3] == [e1, e2] + [e3] && [e1, e2] == [e1] + [e2] && [e1] == [] + [e1];
    RunSnoc(INIT, [], e1);
    RunSnoc(INIT, [e1], e2);
    RunSnoc(INIT, [e1, e2], e3);
    LoopPostEffect(INIT, f);
    LoopEffect(Step(INIT, e1), [], false);
    LoopEffect(Step(Step(INIT, e1), e2), [], false);
    assert RunFrom(INIT, []) == INIT;
    hide RunFrom, Step;
  }

  // ---- quitting ----

  /** This event is a quit() that takes place: the store of one on another thread, or one on the loop thread. */
  predicate Quits(s: Loop, ev: Event) {
    match ev
    case SetQuit(t) => t != LOOP && t !in s.mid
    case LoopQuit => InCallback(s)
    case _ => false
  }

  ghost predicate QuitDuring(s: Loop, evs: seq<Event>) {
    exists i :: 0 <= i < |evs| && Quits(RunFrom(s, evs[..i]), evs[i])
  }

  lemma StepQuits(s: Loop, ev: Event)
    requires s.phase != Created
    ensures Step(s, ev).phase != Created && (Step(s, ev).quit <==> s.quit || Quits(s, ev))
  {
    NotCreatedAgain(s, ev);
    if ev.SetQuit? || ev.LoopQuit? {
      QuitStep(s, ev);
    } else if !ev.Enter? {
      OthersKeepQuit(s, ev);
    }
  }

  lemma NotCreatedAgain(s: Loop, ev: Event)
    requires s.phase != Created
    ensures Step(s, ev).phase != Created
  {
    hide InCallback;
    if ev.Push? || ev.Wake? || ev.SetQuit? || ev.QuitWake? || ev.LoopPush? || ev.LoopWake? || ev.LoopQuit? {
      PostsKeepPhase(s, ev);
    }
  }

  lemma PostsKeepPhase(s: Loop, ev: Event)
    requires ev.Push? || ev.Wake? || ev.SetQuit? || ev.QuitWake? || ev.LoopPush? || ev.LoopWake? || ev.LoopQuit?
    ensures Step(s, ev).phase == s.phase
  {
    hide InCallback;
  }

  lemma QuitStep(s: Loop, ev: Event)
    requires ev.SetQuit? || ev.LoopQuit?
    ensures Step(s, ev).quit <==> s.quit || Quits(s, ev)
  {
    hide InCallback;
  }

  lemma OthersKeepQuit(s: Loop, ev: Event)
    requires !ev.SetQuit? && !ev.LoopQuit? && !ev.Enter?
    ensures Step(s, ev).quit == s.quit && !Quits(s, ev)
  {
    hide InCallback;
  }

  lemma QuitNone(s: Loop)
    ensures !QuitDuring(s, [])
  {
  }

  lemma QuitDuringSnoc(s: Loop, evs: seq<Event>, ev: Event)
    ensures QuitDuring(s, evs + [ev]) <==> QuitDuring(s, evs) || Quits(RunFrom(s, evs), ev)
  {
    hide RunFrom, Quits;
    var all := evs + [ev];
    assert forall i :: 0 <= i <= |evs| ==> all[..i] == evs[..i];
    assert evs[..|evs|] == evs;
    if Quits(RunFrom(s, evs), ev) {
      assert Quits(RunFrom(s, all[..|evs|]), all[|evs|]);
    }
    if QuitDuring(s, evs) {
      var i :| 0 <= i < |evs| && Quits(RunFrom(s, evs[..i]), evs[i]);
      assert Quits(RunFrom(s, all[..i]), all[i]);
    }
  }

  lemma {:induction false} QuitSince(s: Loop, evs: seq<Event>)
    requires s.phase != Created && !s.quit
    ensures var s' := RunFrom(s, evs); s'.phase != Created && (s'.quit <==> QuitDuring(s, evs))
    decreases |evs|
  {
    hide Step, Quits, QuitDuring;
    if evs == [] {
      QuitNone(s);
    } else {
      var init, ev := evs[..|evs| - 1], evs[|evs| - 1];
      assert evs == init + [ev];
      QuitSince(s, init);
      QuitDuringSnoc(s, init, ev);
      StepQuits(RunFrom(s, init), ev);
    }
  }

  ghost predicate ExitedByQuit(s: Loop) {
    s.phase == Exited ==> s.quit
  }

  lemma StepExited(s: Loop, ev: Event)
    requires ExitedByQuit(s)
    ensures ExitedByQuit(Step(s, ev))
  {
    hide InCallback;
  }

  lemma {:induction false} RunExited(s: Loop, evs: seq<Event>)
    requires ExitedByQuit(s)
    ensures ExitedByQuit(RunFrom(s, evs))
    decreases |evs|
  {
    hide Step, ExitedByQuit;
    if evs != [] {
      RunExited(s, evs[..|evs| - 1]);
      StepExited(RunFrom(s, evs[..|evs| - 1]), evs[|evs| - 1]);
    }
  }

  /** Which quit() ends the loop: exactly those made since loop() was entered. One made earlier, as by a
      thread that has just been handed the loop, is undone by the reset at entry, whatever it was. */
  lemma QuitTheorem(s: Loop, evs: seq<Event>)
    requires s.phase == Created
    ensures var t := Step(s, Enter);
      var s' := RunFrom(t, evs);
      && (s'.quit <==> QuitDuring(t, evs))
      && (s'.phase == Exited ==> QuitDuring(t, evs))
      && (s'.phase == Top ==> (Step(s', TestQuit).phase == Exited <==> QuitDuring(t, evs)))
  {
    var t := Step(s, Enter);
    var s' := RunFrom(t, evs);
    LoopEffect(s, [], false);
    QuitSince(t, evs);
    RunExited(t, evs);
    LoopEffect(s', [], false);
    hide QuitDuring, RunFrom, Step;
  }

  /** From here on at most one more round is completed. */
  function RoundsLeft(s: Loop): nat {
    if s.phase == Top || s.phase == Exited then 0 else 1
  }

  lemma StepEnding(s: Loop, ev: Event)
    requires s.quit && s.phase != Created
    ensures var s' := Step(s, ev);
      && s'.quit && s'.phase != Created && s.rounds <= s'.rounds
      && s'.rounds + RoundsLeft(s') <= s.rounds + RoundsLeft(s)
      && (RoundsLeft(s) == 0 ==> s'.executed == s.executed)
  {
    NotCreatedAgain(s, ev);
    if ev.TestQuit? || ev.EndBatch? {
      hide InCallback;
    } else {
      OtherEnding(s, ev);
    }
  }

  lemma OtherEnding(s: Loop, ev: Event)
    requires s.quit && s.phase != Created && !ev.TestQuit? && !ev.EndBatch?
    ensures var s' := Step(s, ev);
      && s'.quit && s'.rounds == s.rounds && RoundsLeft(s') == RoundsLeft(s)
      && (RoundsLeft(s) == 0 ==> s'.executed == s.executed)
  {
    hide InCallback;
    if ev.Push? || ev.Wake? || ev.SetQuit? || ev.QuitWake? {
      OthersEnding(s, ev);
    }
  }

  lemma OthersEnding(s: Loop, ev: Event)
    requires s.quit && (ev.Push? || ev.Wake? || ev.SetQuit? || ev.QuitWake?)
    ensures var s' := Step(s, ev);
      s'.quit && s'.rounds == s.rounds && s'.phase == s.phase && s'.executed == s.executed
  {
    hide InCallback;
  }

  /** Once quit_ is set inside loop(), at most one more round is completed, and none from the top of the
      loop on: what has not run by then never runs. */
  lemma {:induction false} QuitStops(s: Loop, evs: seq<Event>)
    requires s.quit && s.phase != Created
    ensures var s' := RunFrom(s, evs);
      && s'.quit && s'.phase != Created && s.rounds <= s'.rounds
      && s'.rounds + RoundsLeft(s') <= s.rounds + RoundsLeft(s)
      && (RoundsLeft(s) == 0 ==> s'.rounds == s.rounds && s'.executed == s.executed)
    decreases |evs|
  {
    hide Step;
    if evs != [] {
      QuitStops(s, evs[..|evs| - 1]);
      StepEnding(RunFrom(s, evs[..|evs| - 1]), evs[|evs| - 1]);
    }
  }
}
