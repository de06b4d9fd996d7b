/** SyncTimerQueue: a bounded queue in two stages. Producers put tasks into a heap ordered by due time,
    the scheduler moves the due ones to a FIFO, workers take them. Every step is one critical section. */
module SyncTimerQueue {
  /** Clock ticks are nanoseconds. */
  datatype Task = Task(id: nat, due: nat)

  const MS: nat := 1000000

  datatype State = State(
    cap: nat, running: bool,
    waiting: multiset<Task>,   // wait_delay_q_
    ready: seq<Task>,          // ready_run_q_
    // histories
    accepted: multiset<Task>, taken: seq<Task>,
    released: seq<(Task, nat)>) // moves to ready_run_q_, with the scheduler's clock

  function Init(cap: nat): State {
    State(cap, true, multiset{}, [], multiset{}, [], [])
  }

  predicate IsFull(s: State) {
    |s.waiting| + |s.ready| >= s.cap
  }

  /** InnerEnqueue once wait_for is over: 1 it timed out, 2 the queue is stopped, 0 the task is in.
      wait_for returns the value of its predicate. */
  function Enqueue(s: State, t: Task): (State, int) {
    if IsFull(s) && s.running then (s, 1)
    else if !s.running then (s, 2)
    else (s.(waiting := s.waiting + multiset{t}, accepted := s.accepted + multiset{t}), 0)
  }

  /** TakeTask once its wait is over: only called when something is ready or the queue is stopped. */
  function Take(s: State): (State, int) {
    if s.ready != [] then (s.(ready := s.ready[1..], taken := s.taken + [s.ready[0]]), 0) else (s, 2)
  }

  function Stopped(s: State): State {
    s.(running := false)
  }

  ghost predicate SortedByDue(ts: seq<Task>) {
    forall i, j :: 0 <= i < j < |ts| ==> ts[i].due <= ts[j].due
  }

  function Stamped(ts: seq<Task>, now: nat): seq<(Task, nat)> {
    seq(|ts|, i requires 0 <= i < |ts| => (ts[i], now))
  }

  /** One migration at time now: everything due leaves the heap, in due order; equal due times come
      out in an order the heap does not promise. */
  ghost predicate Migrates(s: State, now: nat, moved: seq<Task>) {
    && SortedByDue(moved)
    && multiset(moved) <= s.waiting
    && (forall t <- moved :: t.due <= now)
    && (forall t <- s.waiting - multiset(moved) :: t.due > now)
  }

  function Migrated(s: State, now: nat, moved: seq<Task>): State {
    s.(waiting := s.waiting - multiset(moved), ready := s.ready + moved, released := s.released + Stamped(moved, now))
  }

  datatype Event = EvEnqueue(t: Task) | EvTake | EvStop | EvMigrate(now: nat, moved: seq<Task>)

  ghost function Step(s: State, ev: Event): State {
    match ev
    case EvEnqueue(t) => Enqueue(s, t).0
    case EvTake => if s.ready != [] || !s.running then Take(s).0 else s
    case EvStop => Stopped(s)
    case EvMigrate(now, moved) => if Migrates(s, now, moved) then Migrated(s, now, moved) else s
  }

  ghost function Run(cap: nat, evs: seq<Event>): State {
    if evs == [] then Init(cap) else Step(Run(cap, evs[..|evs| - 1]), evs[|evs| - 1])
  }

  function Tasks(rs: seq<(Task, nat)>): seq<Task> {
    seq(|rs|, i requires 0 <= i < |rs| => rs[i].0)
  }

  ghost predicate Inv(s: State) {
    && |s.waiting| + |s.ready| <= s.cap
    && s.accepted == s.waiting + multiset(s.ready) + multiset(s.taken)
    && s.taken + s.ready == Tasks(s.released)
    && (forall r <- s.released :: r.0.due <= r.1)
  }

  lemma Split(w: multiset<Task>, moved: seq<Task>)
    requires multiset(moved) <= w
    ensures w == (w - multiset(moved)) + multiset(moved)
    ensures |w| == |w - multiset(moved)| + |moved|
  {
    assert w == (w - multiset(moved)) + multiset(moved);
  }

  lemma TasksAppend(a: seq<(Task, nat)>, moved: seq<Task>, now: nat)
    ensures Tasks(a + Stamped(moved, now)) == Tasks(a) + moved
  {
  }

  lemma MigrateInv(s: State, now: nat, moved: seq<Task>)
    requires Inv(s) && Migrates(s, now, moved)
    ensures Inv(Migrated(s, now, moved))
  {
    hide Tasks, Stamped, SortedByDue;
    Split(s.waiting, moved);
    TasksAppend(s.released, moved, now);
    assert (s.taken + s.ready) + moved == s.taken + (s.ready + moved);
    assert multiset(s.ready + moved) == multiset(s.ready) + multiset(moved);
    StampsDue(moved, now);
  }

  lemma StampsDue(moved: seq<Task>, now: nat)
    requires forall t <- moved :: t.due <= now
    ensures forall r <- Stamped(moved, now) :: r.0.due <= r.1
  {
    forall i | 0 <= i < |moved| ensures Stamped(moved, now)[i].0.due <= Stamped(moved, now)[i].1 {
      assert moved[i] in moved;
    }
  }

  /** top() of the heap: one of the tasks with the earliest due time. */
  predicate IsTop(t: Task, w: multiset<Task>) {
    t in w && forall u <- w :: t.due <= u.due
  }

  /** The migration loop has moved these so far. */
  ghost predicate Moving(s: State, now: nat, moved: seq<Task>) {
    && multiset(moved) <= s.waiting && SortedByDue(moved)
    && (forall t <- moved :: t.due <= now && forall u <- s.waiting - multiset(moved) :: t.due <= u.due)
  }

  lemma MovingNone(s: State, now: nat)
    ensures Moving(s, now, [])
  {
  }

  lemma MovingSnoc(s: State, now: nat, moved: seq<Task>, top: Task)
    requires Moving(s, now, moved) && IsTop(top, s.waiting - multiset(moved)) && top.due <= now
    ensures Moving(s, now, moved + [top])
  {
    var m := moved + [top];
    assert multiset(m) == multiset(moved) + multiset{top};
    assert forall u <- s.waiting - multiset(m) :: u in s.waiting - multiset(moved);
    forall i, j | 0 <= i < j < |m| ensures m[i].due <= m[j].due {
      if j == |moved| {
        assert moved[i] in moved;
      }
    }
  }

  lemma MovingDone(s: State, now: nat, moved: seq<Task>, top: Task)
    requires Moving(s, now, moved) && IsTop(top, s.waiting - multiset(moved)) && top.due > now
    ensures Migrates(s, now, moved)
  {
  }

  lemma MovedAll(s: State, now: nat, moved: seq<Task>)
    requires Moving(s, now, moved) && |s.waiting - multiset(moved)| == 0
    ensures Migrates(s, now, moved)
  {
  }

  lemma MigratedSnoc(s: State, now: nat, moved: seq<Task>, top: Task)
    ensures Migrated(s, now, moved + [top]) ==
            var m := Migrated(s, now, moved);
            m.(waiting := m.waiting - multiset{top}, ready := m.ready + [top], released := m.released + [(top, now)])
  {
    assert s.ready + (moved + [top]) == (s.ready + moved) + [top];
    assert Stamped(moved + [top], now) == Stamped(moved, now) + [(top, now)];
    assert s.released + (Stamped(moved, now) + [(top, now)]) == (s.released + Stamped(moved, now)) + [(top, now)];
    assert s.waiting - multiset(moved + [top]) == s.waiting - multiset(moved) - multiset{top};
  }

  lemma StepInv(s: State, ev: Event)
    requires Inv(s)
    ensures Inv(Step(s, ev))
  {
    match ev
    case EvMigrate(now, moved) => if Migrates(s, now, moved) { MigrateInv(s, now, moved); }
    case EvTake =>
      if s.ready != [] {
        assert s.ready == [s.ready[0]] + s.ready[1..];
        assert (s.taken + [s.ready[0]]) + s.ready[1..] == s.taken + s.ready;
      }
    case _ =>
  }

  /** Under any interleaving: the bound holds, nothing is lost or duplicated, workers receive the tasks
      in the order in which they were released, and none was released before it was due. */
  lemma {:induction false} QueueTheorem(cap: nat, evs: seq<Event>)
    ensures var s := Run(cap, evs);
      && s.cap == cap && |s.waiting| + |s.ready| <= cap
      && s.accepted == s.waiting + multiset(s.ready) + multiset(s.taken)
      && s.taken <= Tasks(s.released)
      && (forall r <- s.released :: r.0.due <= r.1)
      && Inv(s)
  {
    if evs != [] {
      hide Step;
      QueueTheorem(cap, evs[..|evs| - 1]);
      StepInv(Run(cap, evs[..|evs| - 1]), evs[|evs| - 1]);
      StepCap(Run(cap, evs[..|evs| - 1]), evs[|evs| - 1]);
    }
  }

  /** Releases are only ever added at the end. */
  lemma {:induction false} ReleasedGrows(cap: nat, before: seq<Event>, after: seq<Event>)
    ensures Run(cap, before).released <= Run(cap, before + after).released
    decreases |after|
  {
    hide Step;
    if after == [] {
      assert before + after == before;
    } else {
      var init, ev := after[..|after| - 1], after[|after| - 1];
      ReleasedGrows(cap, before, init);
      assert before + after == (before + init) + [ev];
      RunSnoc(cap, before + init, ev);
      StepReleased(Run(cap, before + init), ev);
    }
  }

  lemma StepReleased(s: State, ev: Event)
    ensures s.released <= Step(s, ev).released
  {
    hide Migrates, Stamped;
  }

  /** A migrated batch is served as a block: after what was released earlier, before whatever is
      released later, in due order, with every task due by then and no other. */
  lemma BatchOrder(cap: nat, before: seq<Event>, now: nat, moved: seq<Task>, after: seq<Event>)
    requires Migrates(Run(cap, before), now, moved)
    ensures var s, s' := Run(cap, before), Run(cap, before + [EvMigrate(now, moved)] + after);
      && Tasks(s.released) + moved <= s'.taken + s'.ready
      && SortedByDue(moved)
      && forall t <- s.waiting :: t in moved <==> t.due <= now
  {
    hide Run, Migrates, SortedByDue;
    var s, ev := Run(cap, before), EvMigrate(now, moved);
    RunSnoc(cap, before, ev);
    ReleasedGrows(cap, before + [ev], after);
    QueueTheorem(cap, before + [ev] + after);
    TasksAppend(s.released, moved, now);
    var r, r' := Run(cap, before + [ev]).released, Run(cap, before + [ev] + after).released;
    assert Tasks(r) <= Tasks(r');
    MigratesFacts(s, now, moved);
  }

  lemma MigratesFacts(s: State, now: nat, moved: seq<Task>)
    requires Migrates(s, now, moved)
    ensures SortedByDue(moved) && forall t <- s.waiting :: t in moved <==> t.due <= now
  {
    forall t | t in s.waiting ensures t in moved <==> t.due <= now {
      if t !in moved {
        assert t in s.waiting - multiset(moved);
      }
    }
  }

  lemma RunSnoc(cap: nat, evs: seq<Event>, ev: Event)
    ensures Run(cap, evs + [ev]) == Step(Run(cap, evs), ev)
  {
    assert (evs + [ev])[..|evs|] == evs;
  }

  lemma StepCap(s: State, ev: Event)
    ensures Step(s, ev).cap == s.cap
  {
  }

  /** The result codes: 2 from TakeTask means stopped with nothing ready; 0 from InnerEnqueue means room
      was left and the queue was running, 2 that it was stopped, whether full or not, and 1 that it was full
      while running; 1 and 2 leave everything as it was. */
  lemma ResultCodes(s: State, t: Task)
    requires Inv(s)
    ensures (s.ready != [] || !s.running) ==> (Take(s).1 == 2 <==> !s.running && s.ready == [])
    ensures Enqueue(s, t).1 == 0 <==> s.running && |s.waiting| + |s.ready| < s.cap
    ensures Enqueue(s, t).1 == 2 <==> !s.running
    ensures Enqueue(s, t).1 == 1 <==> s.running && |s.waiting| + |s.ready| >= s.cap
    ensures Enqueue(s, t).1 != 0 ==> Enqueue(s, t).0 == s
  {
  }

  // ---- what each operation does ----

  /** PutDelayTask that returns 0: this task, with its due time, is waiting, and nothing else changes. */
  lemma EnqueueEffect(s: State, t: Task)
    requires s.running && |s.waiting| + |s.ready| < s.cap
    ensures var s' := Step(s, EvEnqueue(t));
      && s'.waiting[t] == s.waiting[t] + 1 && (forall u :: u != t ==> s'.waiting[u] == s.waiting[u])
      && s' == s.(waiting := s'.waiting, accepted := s.accepted + multiset{t})
  {
  }

  /** TakeTask with something ready: the oldest ready task is handed out and is ready no longer. */
  lemma TakeEffect(s: State)
    requires s.ready != []
    ensures Step(s, EvTake) == s.(ready := s.ready[1..], taken := s.taken + [s.ready[0]])
    ensures Take(s) == (Step(s, EvTake), 0)
  {
  }

  lemma StopEffect(s: State)
    ensures Step(s, EvStop) == s.(running := false)
    ensures s.ready == [] ==> Step(s, EvTake) == s
    ensures !(s.running && |s.waiting| + |s.ready| < s.cap) ==> forall t :: Step(s, EvEnqueue(t)) == s
  {
  }

  /** A migration: what is due leaves the heap and is ready behind everything else. */
  lemma MigrateEffect(s: State, now: nat, moved: seq<Task>)
    requires Migrates(s, now, moved)
    ensures var s' := Step(s, EvMigrate(now, moved));
      && s'.waiting + multiset(moved) == s.waiting && s'.ready == s.ready + moved
      && Tasks(s'.released) == Tasks(s.released) + moved
      && s' == s.(waiting := s'.waiting, ready := s'.ready, released := s'.released)
  {
    TasksAppend(s.released, moved, now);
  }

  /** The tasks that calls of TakeTask have returned with code 0, in order. */
  ghost function Returned(cap: nat, evs: seq<Event>): seq<Task> {
    if evs == [] then [] else
      var init, s := evs[..|evs| - 1], Run(cap, evs[..|evs| - 1]);
      if evs[|evs| - 1].EvTake? && s.ready != [] then Returned(cap, init) + [s.ready[0]] else Returned(cap, init)
  }

  /** They are the first of the releases, as many as there were such calls: none is returned twice, none
      left out, none before its turn. */
  lemma {:induction false} ReturnedTheorem(cap: nat, evs: seq<Event>)
    ensures var s := Run(cap, evs);
      && Returned(cap, evs) == s.taken <= Tasks(s.released)
      && Tasks(s.released) == Returned(cap, evs) + s.ready
  {
    QueueTheorem(cap, evs);
    if evs != [] {
      hide Migrates, Stamped, Tasks;
      var init := evs[..|evs| - 1];
      ReturnedTheorem(cap, init);
      TakenSame(Run(cap, init), evs[|evs| - 1]);
    }
  }

  lemma TakenSame(s: State, ev: Event)
    ensures Step(s, ev).taken == if ev.EvTake? && s.ready != [] then s.taken + [s.ready[0]] else s.taken
  {
    hide Migrates, Stamped;
  }

  // ---- arming ----

  datatype Timespec = Timespec(sec: nat, nsec: nat)

  /** ResetTimerFd; the all-zero value disarms the timerfd. */
  function ResetTimerFd(top: nat, now: nat): Timespec {
    if top <= now then Timespec(0, 1) else
      var diff := (top - now) / MS;
      Timespec(diff / 1000, diff % 1000 * MS)
  }

  /** With a task waiting, the whole milliseconds left before it is due are what gets armed, never more
      than what is left; and the timerfd is disarmed exactly when less than one millisecond is left. */
  lemma ResetExact(top: nat, now: nat)
    ensures var ts := ResetTimerFd(top, now);
      && ts.nsec < 1000000000
      && (top > now ==> ts.sec * 1000000000 + ts.nsec == (top - now) / MS * MS <= top - now)
      && (ts == Timespec(0, 0) <==> now < top < now + MS)
  {
    if top > now {
      var diff := (top - now) / MS;
      assert diff == diff / 1000 * 1000 + diff % 1000;
    }
  }

  /** A task due in 5.5 ms: armed for 5 ms; when that fires nothing is due, and the timerfd is then disarmed. */
  lemma StallExample(now: nat)
    ensures ResetTimerFd(now + 5500000, now) == Timespec(0, 5 * MS)
    ensures ResetTimerFd(now + 5500000, now + 5 * MS) == Timespec(0, 0)
  {
  }

  // ---- the object ----

  class TimerQueue {
    const maxCap: nat
    var running: bool
    var waitDelayQ: multiset<Task>
    var readyRunQ: seq<Task>
    ghost var accepted: multiset<Task>
    ghost var taken: seq<Task>
    ghost var released: seq<(Task, nat)>

    ghost function View(): State
      reads this
    {
      State(maxCap, running, waitDelayQ, readyRunQ, accepted, taken, released)
    }

    constructor (maxCap: nat)
      ensures View() == Init(maxCap)
    {
      this.maxCap := maxCap;
      running, waitDelayQ, readyRunQ := true, multiset{}, [];
      accepted, taken, released := multiset{}, [], [];
    }

    method InnerEnqueue(t: Task) returns (code: int)
      modifies this
      ensures (View(), code) == Enqueue(old(View()), t)
    {
      var ok := |waitDelayQ| + |readyRunQ| < maxCap || !running;
      if !ok {
        return 1;
      }
      if !running {
        return 2;
      }
      waitDelayQ := waitDelayQ + multiset{t};
      accepted := accepted + multiset{t};
      return 0;
    }

    /** The migration loop of ScheduleLoop; top() is some task with the earliest due time. */
    method Migrate(now: nat) returns (ghost moved: seq<Task>)
      modifies this
      ensures Migrates(old(View()), now, moved) && View() == Migrated(old(View()), now, moved)
    {
      hide Migrated, Stamped, Moving, IsTop, Migrates, Tasks, SortedByDue, Step;
      moved := [];
      ghost var s := View();
      MigratedNone(s, now);
      MovingNone(s, now);
      while |waitDelayQ| > 0
        invariant View() == Migrated(s, now, moved) && waitDelayQ == s.waiting - multiset(moved)
        invariant Moving(s, now, moved)
        decreases |waitDelayQ|
      {
        EarliestExists(waitDelayQ);
        var top :| top in waitDelayQ && IsTop(top, waitDelayQ);
        if top.due > now {
          MovingDone(s, now, moved, top);
          return;
        }
        MigratedSnoc(s, now, moved, top);
        MovingSnoc(s, now, moved, top);
        moved := Release(top, now, moved);
      }
      MovedAll(s, now, moved);
    }

    method Release(top: Task, now: nat, ghost before: seq<Task>) returns (ghost moved: seq<Task>)
      requires IsTop(top, waitDelayQ)
      modifies this
      ensures View() == old(View()).(waiting := old(waitDelayQ) - multiset{top}, ready := old(readyRunQ) + [top],
                                     released := old(released) + [(top, now)])
      ensures moved == before + [top] && |waitDelayQ| < old(|waitDelayQ|)
    {
      waitDelayQ := waitDelayQ - multiset{top};
      readyRunQ := readyRunQ + [top];
      released := released + [(top, now)];
      moved := before + [top];
    }

    method TakeTask() returns (out: seq<Task>, code: int)
      requires readyRunQ != [] || !running
      modifies this
      ensures (View(), code) == Take(old(View()))
      ensures code == 0 ==> out == [old(readyRunQ[0])]
    {
      if readyRunQ != [] {
        out := [readyRunQ[0]];
        taken := taken + out;
        readyRunQ := readyRunQ[1..];
        return out, 0;
      }
      return [], 2;
    }

    method Stop()
      modifies this`running
      ensures View() == Stopped(old(View()))
    {
      running := false;
    }
  }

  lemma MigratedNone(s: State, now: nat)
    ensures Migrated(s, now, []) == s
  {
    assert s.ready + [] == s.ready && s.released + Stamped([], now) == s.released;
    assert s.waiting - multiset([]) == s.waiting;
  }

  lemma {:induction false} EarliestExists(w: multiset<Task>)
    requires |w| > 0
    ensures exists t :: t in w && IsTop(t, w)
    decreases |w|
  {
    var t :| t in w;
    var rest := w - multiset{t};
    assert forall u :: u in w <==> u == t || u in rest;
    if |rest| > 0 {
      EarliestExists(rest);
      var m :| m in rest && IsTop(m, rest);
      assert m in w;
      if t.due <= m.due {
        assert IsTop(t, w);
      } else {
        assert IsTop(m, w);
      }
    } else {
      assert IsTop(t, w);
    }
  }
}
