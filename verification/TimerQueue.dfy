/** nwl::TimerQueue: an ordered set of (expiration, Timer*) beside a map from sequence number to Timer*,
    with timers that are allocated and deleted by hand and callbacks that add and cancel timers while a
    batch is being fired. */
module TimerQueue {
  import opened Sequences

  const TWO_64: nat := 0x1_0000_0000_0000_0000

  /** A pointer, compared as an integer. No object lies at the last address. */
  type Addr = nat
  const LAST_ADDR: Addr := TWO_64 - 1

  /** uint64_t microseconds. */
  type Us = x: nat | x < TWO_64

  datatype Timer = Timer(expiration: Us, interval: Us, repeat: bool, sequence: nat)

  datatype Entry = Entry(when: Us, addr: Addr)

  predicate Less(a: Entry, b: Entry) {
    a.when < b.when || (a.when == b.when && a.addr < b.addr)
  }

  // ---- the ordered set ----

  ghost predicate Sorted(ts: seq<Entry>) {
    forall i, j :: 0 <= i < j < |ts| ==> Less(ts[i], ts[j])
  }

  function Insert(ts: seq<Entry>, e: Entry): seq<Entry> {
    if ts == [] || Less(e, ts[0]) then [e] + ts else [ts[0]] + Insert(ts[1..], e)
  }

  function Erase(ts: seq<Entry>, e: Entry): seq<Entry> {
    if ts == [] then [] else if ts[0] == e then ts[1..] else [ts[0]] + Erase(ts[1..], e)
  }

  /** The position of lower_bound(now, ~0). */
  function ExpiredCount(ts: seq<Entry>, now: Us): (n: nat)
    ensures n <= |ts|
  {
    if ts == [] || !Less(ts[0], Entry(now, LAST_ADDR)) then 0 else 1 + ExpiredCount(ts[1..], now)
  }

  lemma {:induction false} InsertSpec(ts: seq<Entry>, e: Entry)
    requires Sorted(ts) && e !in ts
    ensures Sorted(Insert(ts, e))
    ensures forall x :: x in Insert(ts, e) <==> x == e || x in ts
    ensures Insert(ts, e)[0] == if ts == [] || Less(e, ts[0]) then e else ts[0]
  {
    if ts != [] && !Less(e, ts[0]) {
      InsertSpec(ts[1..], e);
      var r := Insert(ts[1..], e);
      assert ts == [ts[0]] + ts[1..];
      forall i, j | 0 <= i < j < |r| + 1 ensures Less(([ts[0]] + r)[i], ([ts[0]] + r)[j]) {
        if i == 0 {
          assert r[j - 1] in r;
          assert r[j - 1] == e || r[j - 1] in ts[1..];
        }
      }
    }
  }

  lemma {:induction false} EraseSpec(ts: seq<Entry>, e: Entry)
    requires Sorted(ts)
    ensures Sorted(Erase(ts, e))
    ensures forall x :: x in Erase(ts, e) <==> x != e && x in ts
    ensures Erase(ts, e) != [] ==> Erase(ts, e)[0].when >= ts[0].when
  {
    if ts != [] {
      assert ts == [ts[0]] + ts[1..];
      assert ts[0] !in ts[1..];
      if ts[0] != e {
        EraseSpec(ts[1..], e);
        var r := Erase(ts[1..], e);
        forall i, j | 0 <= i < j < |r| + 1 ensures Less(([ts[0]] + r)[i], ([ts[0]] + r)[j]) {
          if i == 0 {
            assert r[j - 1] in r;
            assert r[j - 1] in ts[1..];
          }
        }
      }
    }
  }

  /** getExpired takes exactly the entries that are due. */
  lemma {:induction false} ExpiredSpec(ts: seq<Entry>, now: Us)
    requires Sorted(ts) && forall e <- ts :: e.addr < LAST_ADDR
    ensures var n := ExpiredCount(ts, now);
      (forall i | 0 <= i < n :: ts[i].when <= now) && (forall i | n <= i < |ts| :: ts[i].when > now)
  {
    if ts != [] && Less(ts[0], Entry(now, LAST_ADDR)) {
      ExpiredSpec(ts[1..], now);
      var n := ExpiredCount(ts[1..], now);
      forall i | n + 1 <= i < |ts| ensures ts[i].when > now {
        assert ts[i] == ts[1..][i - 1];
      }
      forall i | 0 <= i < n + 1 ensures ts[i].when <= now {
        assert i > 0 ==> ts[i] == ts[1..][i - 1];
      }
    } else if ts != [] {
      assert ts[0] in ts;
    }
  }

  // ---- arming ----

  /** Unsigned 64-bit subtraction, then at least 100 microseconds. */
  function MicrosFromNow(when: Us, now: Us): nat {
    var diff := (when - now) % TWO_64;
    if diff < 100 then 100 else diff
  }

  datatype Timespec = Timespec(sec: nat, nsec: nat)

  function ToTimespec(micros: nat): Timespec {
    Timespec(micros / 1000000, micros % 1000000 * 1000)
  }

  lemma TimespecExact(micros: nat)
    ensures var ts := ToTimespec(micros);
      ts.sec * 1000000000 + ts.nsec == micros * 1000 && ts.nsec < 1000000000
  {
    assert micros == micros / 1000000 * 1000000 + micros % 1000000;
  }

  /** The delay is the remaining time, at least 100 microseconds, exactly when the target is not in the
      past (or so far in the past that the difference wraps all the way round). */
  lemma MicrosExact(when: Us, now: Us)
    ensures MicrosFromNow(when, now) == Max(100, when - now) <==> when >= now || TWO_64 - (now - when) <= 100
    ensures when < now ==> MicrosFromNow(when, now) == Max(100, TWO_64 - (now - when))
  {
    if when < now {
      assert (when - now) % TWO_64 == TWO_64 + when - now;
    }
  }

  // ---- the state ----

  /** One timerfd_settime: for which expiration and at what time. */
  datatype Arming = Disarmed | Armed(target: Us, at: Us)

  /** When the timerfd becomes readable. */
  function Deadline(a: Arming): nat
    requires a.Armed?
  {
    a.at + MicrosFromNow(a.target, a.at)
  }

  /** A callback invocation: which timer, due when, run in the handleRead at what time. */
  datatype Fired = Fired(sequence: nat, when: Us, at: Us)

  datatype State = State(
    heap: map<Addr, Timer>,   // allocated and not deleted
    queued: set<Addr>,        // allocated by addTimer, addTimerInLoop still to run
    unread: set<(Addr, nat)>, // handed to the loop by a thread that has still to read timer->sequence()
    timers: seq<Entry>, active: map<nat, Addr>, canceled: set<nat>,
    batch: seq<Entry>,        // handleRead's local vector
    reading: bool, now: Us, pos: nat,
    arming: Arming,
    created: nat,             // s_numCreated
    fault: bool,              // the queue used a dangling pointer, freed one again, or an emplace failed
    staleRead: bool,          // addTimer read a timer that had been deleted
    // histories
    runs: seq<Fired>,
    outcome: seq<bool>)       // of the current batch: was the callback run or skipped

  const INIT := State(map[], {}, {}, [], map[], {}, [], false, 0, 0, Disarmed, 0, false, false, [], [])

  /** addTimer up to the point where addTimerInLoop is run or posted; a is whatever new returned. */
  function Allocate(s: State, a: Addr, when: Us, interval: Us, repeat: bool): State {
    if a in s.heap || a >= LAST_ADDR then s else
      s.(heap := s.heap[a := Timer(when, interval, repeat, s.created + 1)],
         created := s.created + 1, queued := s.queued + {a})
  }

  /** addTimer on another thread, up to and including the post. */
  function Post(s: State, a: Addr, when: Us, interval: Us, repeat: bool): State {
    if a in s.heap || a >= LAST_ADDR then s else
      Allocate(s, a, when, interval, repeat).(unread := s.unread + {(a, s.created + 1)})
  }

  /** The timer with this number has been deleted. */
  ghost predicate Deleted(s: State, q: nat) {
    forall a <- s.heap :: s.heap[a].sequence != q
  }

  /** The address no longer holds the timer that was handed over: it is free, or another timer's. */
  predicate Stale(s: State, a: Addr, q: nat) {
    a !in s.heap || s.heap[a].sequence != q
  }

  /** The end of addTimer: timer->sequence() for the TimerId. */
  function ReadId(s: State, a: Addr, q: nat): State {
    if (a, q) !in s.unread then s else
      s.(unread := s.unread - {(a, q)}, staleRead := s.staleRead || Stale(s, a, q))
  }

  /** addTimer on the loop thread, where runInLoop calls addTimerInLoop before it returns. */
  function AddLocal(s: State, a: Addr, when: Us, interval: Us, repeat: bool, clock: Us): State {
    if a in s.heap || a >= LAST_ADDR then s else
      ReadId(AddInLoop(Post(s, a, when, interval, repeat), a, clock), a, s.created + 1)
  }

  function AddInLoop(s: State, a: Addr, clock: Us): State {
    if a !in s.heap then s.(fault := true) else
    var t := s.heap[a];
    var e := Entry(t.expiration, a);
    var earliestChanged := s.timers == [] || e.when < s.timers[0].when;
    if e in s.timers then
      s.(fault := true, heap := s.heap - {a}, queued := s.queued - {a})
    else
      s.(queued := s.queued - {a}, timers := Insert(s.timers, e), active := s.active[t.sequence := a],
         arming := if earliestChanged then Armed(e.when, clock) else s.arming)
  }

  function CancelInLoop(s: State, q: nat): State {
    if q in s.active then
      var a := s.active[q];
      if a !in s.heap then s.(fault := true) else
      s.(timers := Erase(s.timers, Entry(s.heap[a].expiration, a)), heap := s.heap - {a}, active := s.active - {q})
    else
      s.(canceled := s.canceled + {q})
  }

  /** The sequence numbers of a batch, for erasing them from activeTimers_. */
  function NumbersOf(heap: map<Addr, Timer>, es: seq<Entry>): set<nat> {
    set e | e in es && e.addr in heap :: heap[e.addr].sequence
  }

  /** handleRead up to the first callback: read the clock, extract what is due. */
  function BeginRead(s: State, now: Us): State {
    var n := ExpiredCount(s.timers, now);
    var expired := s.timers[..n];
    s.(batch := expired, timers := s.timers[n..], active := s.active - NumbersOf(s.heap, expired),
       reading := true, now := now, pos := 0, outcome := [],
       fault := s.fault || exists e <- expired :: e.addr !in s.heap)
  }

  /** One turn of the firing loop, up to the call of the callback. */
  function FireNext(s: State): State
    requires s.pos < |s.batch|
  {
    var e := s.batch[s.pos];
    if e.addr !in s.heap then s.(fault := true, pos := s.pos + 1) else
    var q := s.heap[e.addr].sequence;
    if q in s.canceled then
      s.(canceled := s.canceled - {q}, outcome := s.outcome + [false], pos := s.pos + 1)
    else
      s.(runs := s.runs + [Fired(q, e.when, s.now)], outcome := s.outcome + [true], pos := s.pos + 1)
  }

  predicate Rearms(t: Timer) {
    t.expiration > 0 && t.repeat
  }

  function Restarted(t: Timer, now: Us): Timer {
    t.(expiration := (now + t.interval) % TWO_64)
  }

  /** One turn of the closing loop: re-insert a periodic timer, delete a one-shot one. */
  function Settle(s: State): State
    requires s.batch != []
  {
    var a := s.batch[0].addr;
    var s := s.(batch := s.batch[1..], pos := if s.pos > 0 then s.pos - 1 else 0);
    if a !in s.heap then s.(fault := true) else
    var t := s.heap[a];
    if !Rearms(t) then s.(heap := s.heap - {a}) else
    var t' := Restarted(t, s.now);
    var e := Entry(t'.expiration, a);
    if e in s.timers then
      s.(fault := true, heap := s.heap - {a}, active := s.active - {t.sequence})
    else
      s.(heap := s.heap[a := t'], active := s.active[t.sequence := a], timers := Insert(s.timers, e))
  }

  function SettleAll(s: State): State
    decreases |s.batch|
  {
    if s.batch == [] then s else SettleAll(Settle(s))
  }

  /** The rest of handleRead: settle, re-arm, forget the cancellations. */
  function FinishRead(s: State, clock: Us): State {
    var s := SettleAll(s);
    s.(reading := false, pos := 0, canceled := {},
       arming := if s.timers == [] then Disarmed else Armed(s.timers[0].when, clock))
  }

  datatype Event =
    | EvPost(a: Addr, when: Us, interval: Us, repeat: bool)                 // addTimer, another thread
    | EvReadId(a: Addr, sequence: nat)                                      // and its return
    | EvAddLocal(a: Addr, when: Us, interval: Us, repeat: bool, clock: Us)  // addTimer, the loop thread
    | EvAdd(a: Addr, clock: Us)                                             // the posted addTimerInLoop
    | EvCancel(sequence: nat)
    | EvBeginRead(now: Us)
    | EvFireNext
    | EvFinishRead(clock: Us)

  /** Callbacks, other handlers and posted functors are all sequences of these events; those of a
      callback come between two EvFireNext. Events that are not enabled change nothing. */
  function Step(s: State, ev: Event): State {
    match ev
    case EvPost(a, when, interval, repeat) => Post(s, a, when, interval, repeat)
    case EvReadId(a, q) => ReadId(s, a, q)
    case EvAddLocal(a, when, interval, repeat, clock) => AddLocal(s, a, when, interval, repeat, clock)
    case EvAdd(a, clock) => if a in s.queued then AddInLoop(s, a, clock) else s
    case EvCancel(q) => CancelInLoop(s, q)
    case EvBeginRead(now) => if s.reading then s else BeginRead(s, now)
    case EvFireNext => if s.reading && s.pos < |s.batch| then FireNext(s) else s
    case EvFinishRead(clock) => if s.reading && s.pos == |s.batch| then FinishRead(s, clock) else s
  }

  function RunFrom(s: State, evs: seq<Event>): State {
    if evs == [] then s else Step(RunFrom(s, evs[..|evs| - 1]), evs[|evs| - 1])
  }

  // ---- containers and ownership ----

  /** The entry under which a timer is filed. */
  function FiledAs(s: State, a: Addr): Entry
    requires a in s.heap
  {
    Entry(s.heap[a].expiration, a)
  }

  /** Every allocated timer has exactly one owner: a queued addTimerInLoop, timers_ or the batch. */
  ghost predicate OneOwner(s: State, a: Addr)
    requires a in s.heap
  {
    var inQueue, inTimers, inBatch := a in s.queued, FiledAs(s, a) in s.timers, FiledAs(s, a) in s.batch;
    && (inQueue || inTimers || inBatch)
    && !(inQueue && inTimers) && !(inQueue && inBatch) && !(inTimers && inBatch)
  }

  ghost predicate Owned(s: State) {
    && (forall a <- s.heap :: a < LAST_ADDR && OneOwner(s, a))
    && s.queued <= s.heap.Keys
  }

  /** Entries carry the expiration of their timer, and the two containers describe the same timers. */
  ghost predicate Agree(s: State) {
    && (forall e <- s.timers :: e.addr in s.heap && s.heap[e.addr].expiration == e.when
          && s.heap[e.addr].sequence in s.active && s.active[s.heap[e.addr].sequence] == e.addr)
    && (forall q <- s.active :: s.active[q] in s.heap && s.heap[s.active[q]].sequence == q
          && Entry(s.heap[s.active[q]].expiration, s.active[q]) in s.timers)
    && (forall e <- s.batch :: e.addr in s.heap && s.heap[e.addr].expiration == e.when)
  }

  ghost predicate Numbered(s: State) {
    && (forall a, b :: a in s.heap && b in s.heap && s.heap[a].sequence == s.heap[b].sequence ==> a == b)
    && (forall a <- s.heap :: s.heap[a].sequence <= s.created)
  }

  /** What a thread still has to read is where it handed it over, unless it has been deleted. */
  ghost predicate HandedOver(s: State) {
    && (forall p <- s.unread :: p.1 <= s.created)
    && (forall p <- s.unread, a <- s.heap :: s.heap[a].sequence == p.1 ==> a == p.0)
  }

  ghost predicate Inv(s: State) {
    && Sorted(s.timers) && Sorted(s.batch)
    && Owned(s) && Agree(s) && Numbered(s) && HandedOver(s)
    && (!s.reading ==> s.batch == []) && s.pos <= |s.batch|
    && !s.fault
  }

  // ---- what each operation does ----

  /** addTimer on another thread: a new timer as asked for, with the next number, in nobody's container. */
  lemma PostEffect(s: State, a: Addr, when: Us, interval: Us, repeat: bool)
    requires a !in s.heap && a < LAST_ADDR
    ensures Step(s, EvPost(a, when, interval, repeat)) ==
            s.(heap := s.heap[a := Timer(when, interval, repeat, s.created + 1)], created := s.created + 1,
               queued := s.queued + {a}, unread := s.unread + {(a, s.created + 1)})
  {
  }

  /** addTimerInLoop: the timer leaves the queue for both containers. */
  lemma AddEffect(s: State, a: Addr, clock: Us)
    requires Inv(s) && a in s.queued
    ensures a in s.heap
    ensures var s', t := Step(s, EvAdd(a, clock)), s.heap[a];
      && s' == s.(queued := s.queued - {a}, timers := s'.timers, active := s.active[t.sequence := a],
                  arming := s'.arming)
      && Sorted(s'.timers) && forall e :: e in s'.timers <==> e == Entry(t.expiration, a) || e in s.timers
  {
    assert OneOwner(s, a);
    InsertSpec(s.timers, FiledAs(s, a));
    hide Insert, Sorted, Agree, Numbered, HandedOver;
  }

  /** addTimer on the loop thread is both at once, and its number is read. */
  lemma AddLocalEffect(s: State, a: Addr, when: Us, interval: Us, repeat: bool, clock: Us)
    requires Inv(s) && a !in s.heap && a < LAST_ADDR
    ensures var s', q := Step(s, EvAddLocal(a, when, interval, repeat, clock)), s.created + 1;
      && s' == s.(heap := s.heap[a := Timer(when, interval, repeat, q)], created := q,
                  timers := s'.timers, active := s.active[q := a], arming := s'.arming)
      && Sorted(s'.timers) && forall e :: e in s'.timers <==> e == Entry(when, a) || e in s.timers
  {
    AddLocalIs(s, a, when, interval, repeat, clock);
    var m := Allocate(s, a, when, interval, repeat);
    AddEffect(m, a, clock);
    QueuedLive(s, a);
    AddSteps(s, a, when, interval, repeat, clock);
    hide Inv, AddInLoop, AddLocal, Sorted, Step;
    assert m.queued - {a} == s.queued;
  }

  lemma AddSteps(s: State, a: Addr, when: Us, interval: Us, repeat: bool, clock: Us)
    ensures Step(s, EvAddLocal(a, when, interval, repeat, clock)) == AddLocal(s, a, when, interval, repeat, clock)
    ensures var m := Allocate(s, a, when, interval, repeat);
      a in m.queued ==> Step(m, EvAdd(a, clock)) == AddInLoop(m, a, clock)
  {
    hide AddInLoop, AddLocal, Allocate;
  }

  lemma QueuedLive(s: State, a: Addr)
    requires Inv(s) && a !in s.heap
    ensures a !in s.queued
  {
  }

  /** cancel: a filed timer leaves both containers and is deleted; any other number is remembered. */
  lemma CancelEffect(s: State, q: nat)
    requires Inv(s)
    ensures var s' := Step(s, EvCancel(q));
      if q in s.active then
        && s' == s.(timers := s'.timers, heap := s.heap - {s.active[q]}, active := s.active - {q})
        && s.active[q] in s.heap
        && forall e :: e in s'.timers <==> e in s.timers && e != Entry(s.heap[s.active[q]].expiration, s.active[q])
      else
        s' == s.(canceled := s.canceled + {q})
  {
    if q in s.active {
      EraseSpec(s.timers, FiledAs(s, s.active[q]));
    }
    hide Erase, Sorted, Owned, Numbered, HandedOver;
  }

  /** handleRead takes what is due off the head of timers_ into its batch, nothing of it handled yet. */
  lemma BeginEffect(s: State, now: Us)
    requires Inv(s) && !s.reading
    ensures var s' := Step(s, EvBeginRead(now));
      && s' == s.(batch := s'.batch, timers := s'.timers, active := s'.active, reading := true, now := now,
                  pos := 0, outcome := [])
      && s.timers == s'.batch + s'.timers
  {
    BeginClean(s, now);
    BeginSteps(s, now);
    hide Inv, NumbersOf, ExpiredCount, Step;
    var n := ExpiredCount(s.timers, now);
    assert s.timers == s.timers[..n] + s.timers[n..];
  }

  lemma BeginSteps(s: State, now: Us)
    requires !s.reading
    ensures Step(s, EvBeginRead(now)) == BeginRead(s, now)
  {
    hide BeginRead;
  }

  lemma BeginClean(s: State, now: Us)
    requires Inv(s) && !s.reading
    ensures !s.fault && !BeginRead(s, now).fault
  {
    BeginInv(s, now);
    hide Agree, Owned, Sorted, Numbered, HandedOver, BeginRead;
  }

  /** And activeTimers_ keeps the numbers of those that stay behind, and no others. */
  lemma BeginActive(s: State, now: Us)
    requires Inv(s) && !s.reading
    ensures var s' := Step(s, EvBeginRead(now));
      && (forall q :: q in s'.active <==>
            q in s.active && s.active[q] in s.heap && FiledAs(s, s.active[q]) in s'.timers)
      && (forall q <- s.active :: s.active[q] in s.heap)
      && (forall q <- s'.active :: s'.active[q] == s.active[q])
  {
    BeginSteps(s, now);
    hide Step;
    BeginInv(s, now);
    var n := ExpiredCount(s.timers, now);
    var s' := BeginRead(s, now);
    SortedSplit(s.timers, n);
    hide Sorted, Owned, HandedOver;
    forall q | q in s.active ensures q in s'.active <==> FiledAs(s, s.active[q]) in s'.timers {
      var e := FiledAs(s, s.active[q]);
      assert e in s.timers;
      if e in s'.batch {
        assert q in NumbersOf(s.heap, s'.batch);
      }
    }
  }

  /** The next timer's turn: run, with its number, due time and the batch's time recorded, unless its number
      is remembered as cancelled, which is then forgotten. */
  lemma TurnEffect(s: State)
    requires Inv(s) && s.reading && s.pos < |s.batch|
    ensures s.batch[s.pos].addr in s.heap
    ensures var e := s.batch[s.pos]; var q := s.heap[e.addr].sequence;
      Step(s, EvFireNext) ==
      if q in s.canceled
      then s.(pos := s.pos + 1, outcome := s.outcome + [false], canceled := s.canceled - {q})
      else s.(pos := s.pos + 1, outcome := s.outcome + [true], runs := s.runs + [Fired(q, e.when, s.now)])
  {
    assert s.batch[s.pos] in s.batch;
    hide Sorted, Owned, Numbered, HandedOver;
  }

  /** Which timers are periodic, and what restart() makes of one. */
  lemma RestartEffect(t: Timer, now: Us)
    ensures Rearms(t) <==> t.repeat && t.expiration != 0
    ensures Restarted(t, now) == Timer((now + t.interval) % TWO_64, t.interval, t.repeat, t.sequence)
  {
  }

  /** The reader of a number is done; it reads a stale timer exactly if its timer is gone by then. */
  lemma ReadEffect(s: State, a: Addr, q: nat)
    ensures var s' := Step(s, EvReadId(a, q));
      && s' == s.(unread := s.unread - {(a, q)}, staleRead := s'.staleRead)
      && (s'.staleRead <==>
            s.staleRead || ((a, q) in s.unread && (a in s.heap ==> s.heap[a].sequence != q)))
  {
    assert (a, q) !in s.unread ==> s.unread - {(a, q)} == s.unread;
  }

  // ---- every operation keeps them ----

  lemma AllocateInv(s: State, a: Addr, when: Us, interval: Us, repeat: bool)
    requires Inv(s)
    ensures Inv(Allocate(s, a, when, interval, repeat))
  {
    AllocateOwned(s, a, when, interval, repeat);
    AllocateAgrees(s, a, when, interval, repeat);
    hide Sorted, Owned, Agree, Numbered, HandedOver;
  }

  lemma AllocateOwned(s: State, a: Addr, when: Us, interval: Us, repeat: bool)
    requires Inv(s)
    ensures Owned(Allocate(s, a, when, interval, repeat))
  {
    hide Sorted, Numbered, HandedOver;
    var s' := Allocate(s, a, when, interval, repeat);
    forall b | b in s'.heap ensures b < LAST_ADDR && OneOwner(s', b) {
      assert b in s.heap ==> OneOwner(s, b) && FiledAs(s', b) == FiledAs(s, b);
    }
  }

  lemma AllocateAgrees(s: State, a: Addr, when: Us, interval: Us, repeat: bool)
    requires Inv(s)
    ensures var s' := Allocate(s, a, when, interval, repeat); Agree(s') && Numbered(s') && HandedOver(s')
  {
    AllocateNumbers(s, a, when, interval, repeat);
    hide Sorted, Owned, Numbered, HandedOver;
  }

  lemma AllocateNumbers(s: State, a: Addr, when: Us, interval: Us, repeat: bool)
    requires Inv(s)
    ensures var s' := Allocate(s, a, when, interval, repeat); Numbered(s') && HandedOver(s')
  {
    hide Sorted, Owned, Agree;
  }

  lemma PostInv(s: State, a: Addr, when: Us, interval: Us, repeat: bool)
    requires Inv(s)
    ensures Inv(Post(s, a, when, interval, repeat))
  {
    AllocateInv(s, a, when, interval, repeat);
    if a !in s.heap && a < LAST_ADDR {
      UnreadInv(Allocate(s, a, when, interval, repeat), s.unread + {(a, s.created + 1)}) by {
        hide Sorted, Owned, Agree;
      }
    }
    hide Inv, Allocate;
  }

  /** Only HandedOver is about the numbers still to be read. */
  lemma UnreadInv(s: State, unread: set<(Addr, nat)>)
    requires Inv(s) && HandedOver(s.(unread := unread))
    ensures Inv(s.(unread := unread))
  {
    hide Sorted, HandedOver;
    var s' := s.(unread := unread);
    forall b | b in s'.heap ensures OneOwner(s', b) {
      assert OneOwner(s, b);
    }
    AgreeSame(s, s');
    hide Agree, Numbered;
  }

  /** On the loop thread the timer is still there when its number is read. */
  lemma AddLocalIs(s: State, a: Addr, when: Us, interval: Us, repeat: bool, clock: Us)
    requires Inv(s) && a !in s.heap && a < LAST_ADDR
    ensures var m := Allocate(s, a, when, interval, repeat);
      Inv(m) && a in m.queued && AddLocal(s, a, when, interval, repeat, clock) == AddInLoop(m, a, clock)
  {
    hide Sorted, Numbered, Agree, OneOwner, Insert;
    var m := Allocate(s, a, when, interval, repeat);
    AllocateInv(s, a, when, interval, repeat);
    AddInv(m, a, clock);
    assert (a, s.created + 1) !in s.unread;
    assert s.unread + {(a, s.created + 1)} - {(a, s.created + 1)} == s.unread;
  }

  lemma AddLocalInv(s: State, a: Addr, when: Us, interval: Us, repeat: bool, clock: Us)
    requires Inv(s)
    ensures Inv(AddLocal(s, a, when, interval, repeat, clock))
  {
    hide Inv, AddInLoop, Allocate;
    if a !in s.heap && a < LAST_ADDR {
      AddLocalIs(s, a, when, interval, repeat, clock);
      AddInv(Allocate(s, a, when, interval, repeat), a, clock);
    }
  }

  lemma ReadIdInv(s: State, a: Addr, q: nat)
    requires Inv(s)
    ensures Inv(ReadId(s, a, q))
  {
    hide Sorted, Numbered, Agree;
    var s' := ReadId(s, a, q);
    forall b | b in s'.heap ensures OneOwner(s', b) {
      assert OneOwner(s, b);
    }
    AgreeSame(s, s');
  }

  lemma AgreeSame(s: State, s': State)
    requires Agree(s) && Numbered(s)
    requires s'.heap == s.heap && s'.timers == s.timers && s'.active == s.active && s'.batch == s.batch
    requires s'.created == s.created
    ensures Agree(s') && Numbered(s')
  {
  }

  lemma AddInv(s: State, a: Addr, clock: Us)
    requires Inv(s) && a in s.queued
    ensures Inv(AddInLoop(s, a, clock))
  {
    assert OneOwner(s, a);
    InsertSpec(s.timers, FiledAs(s, a));
  }

  lemma CancelInv(s: State, q: nat)
    requires Inv(s)
    ensures Inv(CancelInLoop(s, q))
  {
    if q in s.active {
      EraseSpec(s.timers, FiledAs(s, s.active[q]));
      CancelOwned(s, q);
      CancelAgree(s, q);
      hide Sorted, Erase, Owned, Agree, Numbered;
    }
  }

  lemma CancelOwned(s: State, q: nat)
    requires Inv(s) && q in s.active
    ensures Owned(CancelInLoop(s, q))
  {
    var a := s.active[q];
    EraseSpec(s.timers, FiledAs(s, a));
    hide Sorted, Erase, Numbered;
    var s' := CancelInLoop(s, q);
    assert OneOwner(s, a);
    forall b | b in s'.heap ensures OneOwner(s', b) {
      assert OneOwner(s, b) && FiledAs(s', b) == FiledAs(s, b) != FiledAs(s, a);
    }
  }

  lemma CancelAgree(s: State, q: nat)
    requires Inv(s) && q in s.active
    ensures Agree(CancelInLoop(s, q)) && Numbered(CancelInLoop(s, q))
  {
    hide Inv, CancelInLoop;
    var s' := CancelInLoop(s, q);
    forall e: Entry ensures AgreeOn(s', e) {
      CancelEntry(s, q, e);
    }
    forall p: nat ensures NumberOn(s', p) {
      CancelNumber(s, q, p);
    }
    CancelNumbered(s, q);
    AgreeByParts(s');
  }

  /** Agree, entry by entry and number by number. */
  ghost predicate AgreeOn(s: State, e: Entry) {
    && (e in s.timers ==>
          e.addr in s.heap && s.heap[e.addr].expiration == e.when
          && s.heap[e.addr].sequence in s.active && s.active[s.heap[e.addr].sequence] == e.addr)
    && (e in s.batch ==> e.addr in s.heap && s.heap[e.addr].expiration == e.when)
  }

  ghost predicate NumberOn(s: State, q: nat) {
    q in s.active ==>
      s.active[q] in s.heap && s.heap[s.active[q]].sequence == q
      && Entry(s.heap[s.active[q]].expiration, s.active[q]) in s.timers
  }

  lemma AgreeByParts(s: State)
    requires (forall e: Entry :: AgreeOn(s, e)) && forall q: nat :: NumberOn(s, q)
    ensures Agree(s)
  {
    assert forall e <- s.timers :: AgreeOn(s, e);
    assert forall e <- s.batch :: AgreeOn(s, e);
    assert forall q <- s.active :: NumberOn(s, q);
  }

  lemma AgreeParts(s: State, e: Entry, q: nat)
    requires Agree(s)
    ensures AgreeOn(s, e) && NumberOn(s, q)
  {
  }

  lemma CancelEntry(s: State, q: nat, e: Entry)
    requires Inv(s) && q in s.active
    ensures AgreeOn(CancelInLoop(s, q), e)
  {
    AgreeParts(s, e, q);
    var a := s.active[q];
    EraseSpec(s.timers, FiledAs(s, a));
    assert OneOwner(s, a);
    hide Agree, Owned, Sorted, Erase, Numbered;
  }

  lemma CancelNumber(s: State, q: nat, p: nat)
    requires Inv(s) && q in s.active
    ensures NumberOn(CancelInLoop(s, q), p)
  {
    AgreeParts(s, FiledAs(s, s.active[q]), p);
    AgreeParts(s, FiledAs(s, s.active[q]), q);
    EraseSpec(s.timers, FiledAs(s, s.active[q]));
    hide Agree, Owned, Sorted, Erase, Numbered;
  }

  lemma CancelNumbered(s: State, q: nat)
    requires Inv(s)
    ensures Numbered(CancelInLoop(s, q))
  {
    hide Agree, Owned, Sorted, Erase;
  }

  lemma SortedSplit(ts: seq<Entry>, n: nat)
    requires Sorted(ts) && n <= |ts|
    ensures Sorted(ts[..n]) && Sorted(ts[n..])
    ensures forall e :: e in ts <==> e in ts[..n] || e in ts[n..]
    ensures forall e :: !(e in ts[..n] && e in ts[n..])
  {
    assert ts == ts[..n] + ts[n..];
    forall i, j | 0 <= i < n && 0 <= j < |ts| - n ensures ts[..n][i] != ts[n..][j] {
      assert Less(ts[i], ts[n + j]);
    }
  }

  lemma BeginInv(s: State, now: Us)
    requires Inv(s) && !s.reading
    ensures Inv(BeginRead(s, now))
  {
    var n := ExpiredCount(s.timers, now);
    SortedSplit(s.timers, n);
    BeginOwned(s, now);
    BeginAgree(s, now);
  }

  lemma BeginOwned(s: State, now: Us)
    requires Inv(s) && !s.reading
    ensures Owned(BeginRead(s, now)) && Numbered(BeginRead(s, now)) && !BeginRead(s, now).fault
  {
    SortedSplit(s.timers, ExpiredCount(s.timers, now));
    var s' := BeginRead(s, now);
    forall a | a in s'.heap ensures OneOwner(s', a) {
      assert OneOwner(s, a);
    }
  }

  lemma BeginAgree(s: State, now: Us)
    requires Inv(s) && !s.reading
    ensures Agree(BeginRead(s, now))
  {
    var n := ExpiredCount(s.timers, now);
    var b, r := s.timers[..n], s.timers[n..];
    SortedSplit(s.timers, n);
    var s' := BeginRead(s, now);
    forall q | q in s'.active ensures FiledAs(s, s.active[q]) in r {
      var e := FiledAs(s, s.active[q]);
      assert e in b ==> q in NumbersOf(s.heap, b);
    }
    forall e | e in r ensures s.heap[e.addr].sequence in s'.active {
      assert forall x <- b :: x != e && x in s.timers;
    }
  }

  lemma FireInv(s: State)
    requires Inv(s) && s.reading && s.pos < |s.batch|
    ensures Inv(FireNext(s))
  {
    assert s.batch[s.pos] in s.batch;
  }

  lemma SettleInv(s: State)
    requires Inv(s) && s.reading && s.batch != []
    ensures Inv(Settle(s))
  {
    hide Settle, Inv, Rearms;
    InvHead(s);
    if Rearms(s.heap[s.batch[0].addr]) {
      SettlePeriodic(s);
    } else {
      SettleOneShot(s);
    }
  }

  /** What the closing loop finds at the head of the batch. */
  lemma InvHead(s: State)
    requires Inv(s) && s.batch != []
    ensures var e := s.batch[0];
      && e.addr in s.heap && FiledAs(s, e.addr) == e
      && e.addr !in s.queued && e !in s.timers && e !in s.batch[1..]
      && s.heap[e.addr].sequence !in s.active
  {
    var e := s.batch[0];
    SortedSplit(s.batch, 1);
    assert e in s.batch && e in s.batch[..1];
    assert OneOwner(s, e.addr);
  }

  lemma SettleOneShot(s: State)
    requires Inv(s) && s.reading && s.batch != []
    requires s.batch[0].addr in s.heap && !Rearms(s.heap[s.batch[0].addr])
    ensures Inv(Settle(s))
  {
    InvHead(s);
    SortedSplit(s.batch, 1);
    OneShotOwned(s);
    OneShotAgrees(s);
    hide Owned, Agree, Numbered, HandedOver, Rearms;
  }

  lemma OneShotOwned(s: State)
    requires Inv(s) && s.reading && s.batch != []
    requires s.batch[0].addr in s.heap && !Rearms(s.heap[s.batch[0].addr])
    ensures Owned(Settle(s))
  {
    InvHead(s);
    SortedSplit(s.batch, 1);
    hide Sorted, Agree, Numbered, HandedOver;
    var s' := Settle(s);
    forall a | a in s'.heap ensures OneOwner(s', a) {
      assert OneOwner(s, a) && FiledAs(s, a) != s.batch[0];
    }
  }

  lemma OneShotAgrees(s: State)
    requires Inv(s) && s.reading && s.batch != []
    requires s.batch[0].addr in s.heap && !Rearms(s.heap[s.batch[0].addr])
    ensures Agree(Settle(s)) && Numbered(Settle(s)) && HandedOver(Settle(s))
  {
    HeadApart(s);
    OneShotNumbers(s);
    hide Sorted, Owned, Numbered, HandedOver, Rearms;
  }

  lemma OneShotNumbers(s: State)
    requires Inv(s) && s.reading && s.batch != []
    requires s.batch[0].addr in s.heap && !Rearms(s.heap[s.batch[0].addr])
    ensures Numbered(Settle(s)) && HandedOver(Settle(s))
  {
    hide Sorted, Owned, Agree, Rearms;
  }

  /** The timer at the head of the batch is in neither container. */
  lemma HeadApart(s: State)
    requires Inv(s) && s.batch != []
    ensures s.batch[0].addr in s.heap
    ensures forall e <- s.timers :: e.addr != s.batch[0].addr
    ensures forall q <- s.active :: s.active[q] != s.batch[0].addr
    ensures forall e <- s.batch[1..] :: e in s.batch && e.addr != s.batch[0].addr
  {
    InvHead(s);
    hide Owned, Numbered, HandedOver;
    var a := s.batch[0].addr;
    forall e | e in s.batch[1..] ensures e in s.batch && e.addr != a {
      assert e in s.batch;
    }
    forall q | q in s.active ensures s.active[q] != a {
      assert FiledAs(s, s.active[q]) in s.timers;
    }
  }

  lemma SettlePeriodic(s: State)
    requires Inv(s) && s.reading && s.batch != []
    requires s.batch[0].addr in s.heap && Rearms(s.heap[s.batch[0].addr])
    ensures Inv(Settle(s))
  {
    InvHead(s);
    SortedSplit(s.batch, 1);
    var a0 := s.batch[0].addr;
    var f := Entry(Restarted(s.heap[a0], s.now).expiration, a0);
    assert f !in s.timers;
    assert f !in s.batch[1..] by { assert forall x <- s.batch[1..] :: x in s.batch; }
    InsertSpec(s.timers, f);
    PeriodicOwned(s, f);
    PeriodicAgree(s, f);
    PeriodicHanded(s, f);
    hide Restarted, Agree, Owned, Numbered, HandedOver, Rearms;
  }

  lemma PeriodicHanded(s: State, f: Entry)
    requires Inv(s) && s.reading && s.batch != []
    requires s.batch[0].addr in s.heap && Rearms(s.heap[s.batch[0].addr])
    requires f == Entry(Restarted(s.heap[s.batch[0].addr], s.now).expiration, s.batch[0].addr)
    requires f !in s.timers
    ensures HandedOver(Settle(s))
  {
    hide Owned, Agree, Sorted, Numbered, Insert;
  }

  lemma PeriodicAgree(s: State, f: Entry)
    requires Inv(s) && s.reading && s.batch != []
    requires s.batch[0].addr in s.heap && Rearms(s.heap[s.batch[0].addr])
    requires f == Entry(Restarted(s.heap[s.batch[0].addr], s.now).expiration, s.batch[0].addr)
    requires f !in s.timers
    ensures Agree(Settle(s)) && Numbered(Settle(s))
  {
    InvHead(s);
    SortedSplit(s.batch, 1);
    InsertSpec(s.timers, f);
    var t := Restarted(s.heap[f.addr], s.now);
    hide Owned, Sorted, Insert, Restarted, Rearms, HandedOver;
    assert forall e <- s.batch[1..] :: e in s.batch && e.addr != f.addr;
    Refile(s, f.addr, t, Insert(s.timers, f));
    assert Settle(s).queued == s.queued;
  }

  /** Filing timer a, which no container holds any more, under its new expiration. */
  lemma Refile(s: State, a: Addr, t: Timer, timers: seq<Entry>)
    requires Agree(s) && Numbered(s) && a in s.heap && t.sequence == s.heap[a].sequence
    requires t.sequence !in s.active && s.batch != [] && forall e <- s.batch[1..] :: e in s.batch && e.addr != a
    requires forall x :: x in timers <==> x == Entry(t.expiration, a) || x in s.timers
    ensures var s' := s.(heap := s.heap[a := t], active := s.active[t.sequence := a],
                         timers := timers, batch := s.batch[1..]);
      Agree(s') && Numbered(s')
  {
    assert forall e <- s.timers :: e.addr != a;
  }

  lemma PeriodicOwned(s: State, f: Entry)
    requires Inv(s) && s.reading && s.batch != []
    requires s.batch[0].addr in s.heap && Rearms(s.heap[s.batch[0].addr])
    requires f == Entry(Restarted(s.heap[s.batch[0].addr], s.now).expiration, s.batch[0].addr)
    requires f !in s.timers && f !in s.batch[1..]
    ensures Owned(Settle(s))
  {
    InvHead(s);
    SortedSplit(s.batch, 1);
    InsertSpec(s.timers, f);
    hide Restarted, Agree, Numbered, Sorted;
    var s' := Settle(s);
    forall a | a in s'.heap ensures OneOwner(s', a) {
      assert a != s.batch[0].addr ==> OneOwner(s, a) && FiledAs(s, a) != s.batch[0];
    }
  }

  lemma {:induction false} SettleAllInv(s: State)
    requires Inv(s) && s.reading
    ensures Inv(SettleAll(s)) && SettleAll(s).reading && SettleAll(s).batch == []
    decreases |s.batch|
  {
    hide Inv;
    if s.batch != [] {
      SettleInv(s);
      SettleAllInv(Settle(s));
    }
  }

  lemma FinishInv(s: State, clock: Us)
    requires Inv(s) && s.reading
    ensures Inv(FinishRead(s, clock))
  {
    hide SettleAll;
    SettleAllInv(s);
    var s1 := SettleAll(s);
    var s' := FinishRead(s, clock);
    forall a | a in s'.heap ensures OneOwner(s', a) {
      assert OneOwner(s1, a);
    }
  }

  lemma StepInv(s: State, ev: Event)
    requires Inv(s)
    ensures Inv(Step(s, ev))
  {
    hide Post, ReadId, AddLocal, AddInLoop, CancelInLoop, BeginRead, FireNext, FinishRead;
    hide Agree, Numbered, Sorted, OneOwner, HandedOver;
    match ev
    case EvPost(a, when, interval, repeat) => PostInv(s, a, when, interval, repeat);
    case EvReadId(a, q) => ReadIdInv(s, a, q);
    case EvAddLocal(a, when, interval, repeat, clock) => AddLocalInv(s, a, when, interval, repeat, clock);
    case EvAdd(a, clock) => if a in s.queued { AddInv(s, a, clock); }
    case EvCancel(q) => CancelInv(s, q);
    case EvBeginRead(now) => if !s.reading { BeginInv(s, now); }
    case EvFireNext => if s.reading && s.pos < |s.batch| { FireInv(s); }
    case EvFinishRead(clock) => if s.reading && s.pos == |s.batch| { FinishInv(s, clock); }
  }

  lemma {:induction false} RunInv(s: State, evs: seq<Event>)
    requires Inv(s)
    ensures Inv(RunFrom(s, evs))
  {
    hide Step, Inv;
    if evs != [] {
      RunInv(s, evs[..|evs| - 1]);
      StepInv(RunFrom(s, evs[..|evs| - 1]), evs[|evs| - 1]);
    }
  }

  /** The posting thread reads the timer's number only now, and the timer has been deleted meanwhile. */
  ghost predicate LateRead(s: State, ev: Event) {
    ev.EvReadId? && (ev.a, ev.sequence) in s.unread && Deleted(s, ev.sequence)
  }

  /** Some event of the run was a late read. */
  ghost predicate ReadLate(evs: seq<Event>) {
    exists i | 0 <= i < |evs| :: LateRead(RunFrom(INIT, evs[..i]), evs[i])
  }

  /** addTimer's last line uses a dangling pointer exactly when the timer has been deleted, which it
      never is on the loop thread. */
  lemma StepReadsStale(s: State, ev: Event)
    requires Inv(s)
    ensures Step(s, ev).staleRead <==> s.staleRead || LateRead(s, ev)
  {
    hide AddInLoop, CancelInLoop, BeginRead, FireNext, FinishRead, Sorted, Agree, Owned;
    match ev
    case EvReadId(a, q) =>
      if (a, q) in s.unread {
        assert Stale(s, a, q) <==> Deleted(s, q);
      }
    case EvAddLocal(a, when, interval, repeat, clock) =>
      if a !in s.heap && a < LAST_ADDR {
        hide Inv, AddLocal;
        AddLocalIs(s, a, when, interval, repeat, clock);
        OthersReadNothing(Allocate(s, a, when, interval, repeat), EvAdd(a, clock));
      }
    case EvPost(_, _, _, _) =>
    case _ => OthersReadNothing(s, ev);
  }

  lemma OthersReadNothing(s: State, ev: Event)
    requires Inv(s) && !ev.EvPost? && !ev.EvReadId? && !ev.EvAddLocal?
    ensures Step(s, ev).staleRead == s.staleRead
  {
    hide Inv, Settle;
    if ev.EvFinishRead? && s.reading {
      SettleAllReads(s);
    }
  }

  lemma {:induction false} SettleAllReads(s: State)
    ensures SettleAll(s).staleRead == s.staleRead && SettleAll(s).unread == s.unread
    decreases |s.batch|
  {
    if s.batch != [] {
      SettleAllReads(Settle(s));
    }
  }

  /** Over every run, and so at every point where a callback can act: the queue never uses a dangling
      pointer, deletes nothing twice, and no emplace fails; timers_ and activeTimers_ describe the same
      timers; every allocated timer has exactly one owner. addTimer itself uses a dangling pointer if and
      only if its caller, on another thread, reads the number of a timer that is already deleted. */
  lemma {:induction false} OwnershipTheorem(evs: seq<Event>)
    ensures var s := RunFrom(INIT, evs);
      && !s.fault
      && Sorted(s.timers) && Agree(s)
      && (forall a <- s.heap :: OneOwner(s, a))
      && (s.staleRead <==> ReadLate(evs))
  {
    InitAimed();
    RunInv(INIT, evs);
    if evs != [] {
      hide Step, LateRead;
      var init, ev := evs[..|evs| - 1], evs[|evs| - 1];
      OwnershipTheorem(init);
      RunInv(INIT, init);
      hide Inv, Agree, Sorted;
      StepReadsStale(RunFrom(INIT, init), ev);
      ReadLateSnoc(init, ev);
      assert evs == init + [ev];
    }
  }

  lemma ReadLateSnoc(evs: seq<Event>, ev: Event)
    ensures ReadLate(evs + [ev]) <==> ReadLate(evs) || LateRead(RunFrom(INIT, evs), ev)
  {
    hide LateRead, RunFrom;
    var all := evs + [ev];
    assert all[..|evs|] == evs;
    assert forall i | 0 <= i < |evs| :: all[..i] == evs[..i] && all[i] == evs[i];
    if ReadLate(all) {
      var i :| 0 <= i < |all| && LateRead(RunFrom(INIT, all[..i]), all[i]);
      assert i < |evs| ==> LateRead(RunFrom(INIT, evs[..i]), evs[i]);
    }
    if ReadLate(evs) {
      var i :| 0 <= i < |evs| && LateRead(RunFrom(INIT, evs[..i]), evs[i]);
      assert LateRead(RunFrom(INIT, all[..i]), all[i]);
    }
    if LateRead(RunFrom(INIT, evs), ev) {
      assert LateRead(RunFrom(INIT, all[..|evs|]), all[|evs|]);
    }
  }

  // ---- arming ----

  /** Outside handleRead a non-empty queue is armed for its head or for something earlier. */
  ghost predicate Aimed(s: State) {
    !s.reading && s.timers != [] ==> s.arming.Armed? && s.arming.target <= s.timers[0].when
  }

  lemma StepAimed(s: State, ev: Event)
    requires Inv(s) && Aimed(s)
    ensures Aimed(Step(s, ev))
  {
    match ev
    case EvAdd(a, clock) => if a in s.queued { AddAimed(s, a, clock); }
    case EvAddLocal(a, when, interval, repeat, clock) =>
      if a !in s.heap && a < LAST_ADDR {
        hide Inv, AddInLoop, AddLocal;
        AddLocalIs(s, a, when, interval, repeat, clock);
        AddAimed(Allocate(s, a, when, interval, repeat), a, clock);
      }
    case EvCancel(q) =>
      if q in s.active {
        EraseSpec(s.timers, FiledAs(s, s.active[q]));
      }
    case _ =>
  }

  lemma AddAimed(s: State, a: Addr, clock: Us)
    requires Inv(s) && Aimed(s) && a in s.queued
    ensures Aimed(AddInLoop(s, a, clock))
  {
    assert OneOwner(s, a);
    InsertSpec(s.timers, FiledAs(s, a));
  }

  lemma {:induction false} RunAimed(evs: seq<Event>)
    ensures Inv(RunFrom(INIT, evs)) && Aimed(RunFrom(INIT, evs))
  {
    hide Step, Inv, Aimed;
    if evs != [] {
      RunAimed(evs[..|evs| - 1]);
      StepInv(RunFrom(INIT, evs[..|evs| - 1]), evs[|evs| - 1]);
      StepAimed(RunFrom(INIT, evs[..|evs| - 1]), evs[|evs| - 1]);
    } else {
      InitAimed();
    }
  }

  lemma InitAimed()
    ensures Inv(INIT) && Aimed(INIT)
  {
  }

  /** How a handleRead leaves the timerfd: disarmed if and only if no timer is left; otherwise set for the
      first one left, and due by the remaining time with a floor of 100 microseconds if that one is not past. */
  lemma FinishArms(s: State, clock: Us)
    requires Inv(s) && s.reading && s.pos == |s.batch|
    ensures var s' := Step(s, EvFinishRead(clock));
      && (s'.arming == Disarmed <==> s'.timers == [])
      && (s'.timers != [] ==> s'.arming == Armed(s'.timers[0].when, clock))
      && (s'.timers != [] && s'.timers[0].when >= clock ==>
            Deadline(s'.arming) == clock + Max(100, s'.timers[0].when - clock))
  {
    hide Inv, SettleAll;
    var s' := Step(s, EvFinishRead(clock));
    if s'.timers != [] {
      MicrosExact(s'.timers[0].when, clock);
    }
  }

  /** How filing a timer does: only the one that becomes the first sets the timerfd. */
  lemma AddArms(s: State, a: Addr, clock: Us)
    requires Inv(s) && a in s.queued
    ensures a in s.heap
    ensures var s', when := Step(s, EvAdd(a, clock)), s.heap[a].expiration;
      var earliest := s.timers == [] || when < s.timers[0].when;
      && (earliest ==> s'.timers != [] && s'.timers[0] == Entry(when, a) && s'.arming == Armed(when, clock))
      && (earliest && when >= clock ==> Deadline(s'.arming) == clock + Max(100, when - clock))
      && (!earliest ==> s'.arming == s.arming && s'.timers != [] && s'.timers[0].when == s.timers[0].when)
  {
    assert OneOwner(s, a);
    InsertSpec(s.timers, FiledAs(s, a));
    hide Inv, Insert;
    MicrosExact(s.heap[a].expiration, clock);
  }

  /** The event set the timerfd, and left these timers: for the first of them, at the event's time. */
  ghost predicate Sets(ev: Event, after: State, arming: Arming) {
    && after.timers != []
    && match ev
       case EvAdd(_, clock) => arming == Armed(after.timers[0].when, clock)
       case EvAddLocal(_, _, _, _, clock) => arming == Armed(after.timers[0].when, clock)
       case EvFinishRead(clock) => arming == Armed(after.timers[0].when, clock)
       case _ => false
  }

  /** It left the timerfd disarmed, or as it was, or set it for the first timer. */
  ghost predicate ArmsFirst(s: State, ev: Event, s': State) {
    s'.arming.Armed? ==> s'.arming == s.arming || Sets(ev, s', s'.arming)
  }

  lemma StepArms(s: State, ev: Event)
    requires Inv(s)
    ensures ArmsFirst(s, ev, Step(s, ev))
  {
    hide ArmsFirst, Step;
    match ev
    case EvAdd(a, clock) => AddSets(s, a, clock);
    case EvAddLocal(a, when, interval, repeat, clock) => AddLocalSets(s, a, when, interval, repeat, clock);
    case EvFinishRead(clock) => FinishSets(s, clock);
    case _ => OthersKeepArming(s, ev);
  }

  lemma AddSets(s: State, a: Addr, clock: Us)
    requires Inv(s)
    ensures ArmsFirst(s, EvAdd(a, clock), Step(s, EvAdd(a, clock)))
  {
    if a in s.queued {
      AddArms(s, a, clock);
      hide Inv, Step;
    }
  }

  lemma AddLocalSets(s: State, a: Addr, when: Us, interval: Us, repeat: bool, clock: Us)
    requires Inv(s)
    ensures var ev := EvAddLocal(a, when, interval, repeat, clock); ArmsFirst(s, ev, Step(s, ev))
  {
    hide Inv, AddLocal, AddInLoop;
    if a !in s.heap && a < LAST_ADDR {
      var m := Allocate(s, a, when, interval, repeat);
      AddLocalIs(s, a, when, interval, repeat, clock);
      AddArms(m, a, clock);
      assert Step(s, EvAddLocal(a, when, interval, repeat, clock)) == Step(m, EvAdd(a, clock));
    } else {
      AddLocalRefused(s, a, when, interval, repeat, clock);
    }
  }

  lemma AddLocalRefused(s: State, a: Addr, when: Us, interval: Us, repeat: bool, clock: Us)
    requires a in s.heap || a >= LAST_ADDR
    ensures AddLocal(s, a, when, interval, repeat, clock) == s
  {
  }

  lemma FinishSets(s: State, clock: Us)
    requires Inv(s)
    ensures ArmsFirst(s, EvFinishRead(clock), Step(s, EvFinishRead(clock)))
  {
    if s.reading && s.pos == |s.batch| {
      FinishArms(s, clock);
      hide Inv, Step;
    }
  }

  lemma OthersKeepArming(s: State, ev: Event)
    requires !ev.EvAdd? && !ev.EvAddLocal? && !ev.EvFinishRead?
    ensures ArmsFirst(s, ev, Step(s, ev))
  {
    hide Erase, NumbersOf, ExpiredCount;
  }

  /** The i-th event of the run set the timerfd as it is at the end. */
  ghost predicate SetBy(evs: seq<Event>, i: nat)
    requires i < |evs|
  {
    Sets(evs[i], RunFrom(INIT, evs[..i + 1]), RunFrom(INIT, evs).arming)
  }

  lemma {:induction false} RunArms(evs: seq<Event>) returns (i: nat)
    requires RunFrom(INIT, evs).arming.Armed?
    ensures i < |evs| && SetBy(evs, i)
  {
    if evs == [] {
      assert false;
    } else {
      var init, ev := evs[..|evs| - 1], evs[|evs| - 1];
      InitAimed();
      RunInv(INIT, init);
      StepArms(RunFrom(INIT, init), ev);
      hide Step, Inv, Sets;
      var s, s' := RunFrom(INIT, init), RunFrom(INIT, evs);
      assert evs[..|evs|] == evs;
      if Sets(ev, s', s'.arming) {
        i := |evs| - 1;
      } else {
        i := RunArms(init);
        assert init[..i + 1] == evs[..i + 1];
      }
    }
  }

  /** The timer at the head of timers_ when that event had set the timerfd, and the time it was set at. */
  ghost function HeadThen(evs: seq<Event>, i: nat): Us
    requires i < |evs| && SetBy(evs, i)
  {
    RunFrom(INIT, evs[..i + 1]).timers[0].when
  }

  function ClockOf(ev: Event): Us {
    match ev
    case EvAdd(_, clock) => clock
    case EvAddLocal(_, _, _, _, clock) => clock
    case EvFinishRead(clock) => clock
    case _ => 0
  }

  /** Whenever timers wait outside handleRead the timerfd is set. It was set by a filing or by the end of a
      handleRead, for the timer that was first after it and is due no later than the first one now; and it
      is due by the first one's expiration, or 100 microseconds after it was set, if and only if that timer
      was not past when it was set (or so far past that the subtraction wraps all the way round). */
  lemma ArmingTheorem(evs: seq<Event>) returns (i: nat)
    requires var s := RunFrom(INIT, evs); !s.reading && s.timers != []
    ensures i < |evs| && SetBy(evs, i)
    ensures var s, head, clock := RunFrom(INIT, evs), HeadThen(evs, i), ClockOf(evs[i]);
      && s.arming == Armed(head, clock) && head <= s.timers[0].when
      && (Deadline(s.arming) <= Max(s.timers[0].when, clock + 100) <==> head >= clock || TWO_64 - (clock - head) <= 100)
  {
    RunAimed(evs);
    var s := RunFrom(INIT, evs);
    i := RunArms(evs);
    hide Inv, RunFrom, MicrosFromNow;
    MicrosExact(s.arming.target, s.arming.at);
  }

  /** A timer added one microsecond late is armed for 2^64 - 1 microseconds ahead. */
  lemma LateArming(when: Us, clock: Us)
    requires clock == when + 1
    ensures var s := RunFrom(INIT, [EvAddLocal(1, when, 0, false, clock)]);
      && s.timers == [Entry(when, 1)] && s.arming == Armed(when, clock)
      && Deadline(Armed(when, clock)) == clock + TWO_64 - 1
  {
    var ev := EvAddLocal(1, when, 0, false, clock);
    RunSnoc(INIT, [], ev);
    assert [] + [ev] == [ev];
    assert RunFrom(INIT, []) == INIT;
    MicrosExact(when, clock);
  }

  lemma RunSnoc(s: State, evs: seq<Event>, ev: Event)
    ensures RunFrom(s, evs + [ev]) == Step(RunFrom(s, evs), ev)
  {
    assert (evs + [ev])[..|evs|] == evs;
  }

  // ---- firing ----

  /** The invocations for the handled part of a batch. */
  ghost function Picked(heap: map<Addr, Timer>, es: seq<Entry>, outcome: seq<bool>, now: Us): seq<Fired>
    requires |outcome| == |es| && forall e <- es :: e.addr in heap
  {
    if es == [] then [] else
      var n := |es| - 1;
      assert forall e <- es[..n] :: e in es;
      var init := Picked(heap, es[..n], outcome[..n], now);
      if outcome[n] then init + [Fired(heap[es[n].addr].sequence, es[n].when, now)] else init
  }

  /** s has handled part of the batch extracted in s0. */
  ghost predicate Handled(s0: State, s: State) {
    && s.reading && s.batch == s0.batch && s.now == s0.now
    && s.pos == |s.outcome| <= |s.batch|
    && (forall e <- s.batch :: e.addr in s0.heap && e.addr in s.heap && s.heap[e.addr] == s0.heap[e.addr])
    && s.runs == s0.runs + Picked(s0.heap, PrefixOf(s.batch, s.pos), s.outcome, s0.now)
  }

  /** es[..n], whose elements are elements of es. */
  ghost function PrefixOf(es: seq<Entry>, n: nat): (p: seq<Entry>)
    requires n <= |es|
    ensures |p| == n && forall e <- p :: e in es
  {
    es[..n]
  }

  lemma FireHandled(s0: State, s: State)
    requires Inv(s) && Handled(s0, s) && s.pos < |s.batch|
    ensures Handled(s0, FireNext(s))
  {
    hide Agree, Sorted, Owned;
    var s' := FireNext(s);
    assert s.batch[s.pos] in s.batch;
    var p' := PrefixOf(s.batch, s.pos + 1);
    assert p'[..s.pos] == PrefixOf(s.batch, s.pos) && s'.outcome[..s.pos] == s.outcome;
    if s'.outcome[s.pos] {
      assert s'.runs == s0.runs + (Picked(s0.heap, PrefixOf(s.batch, s.pos), s.outcome, s0.now) + [s'.runs[|s.runs|]]);
    }
  }

  /** A cancellation never reaches a timer of the batch. */
  lemma CancelHandled(s0: State, s: State, q: nat)
    requires Inv(s) && Handled(s0, s)
    ensures Handled(s0, CancelInLoop(s, q))
  {
    hide Sorted, Picked, Numbered;
    if q in s.active {
      assert OneOwner(s, s.active[q]);
      hide Owned;
      assert forall e <- s.batch :: e.addr != s.active[q];
    }
  }

  lemma AddHandled(s0: State, s: State, a: Addr, clock: Us)
    requires Inv(s) && Handled(s0, s) && a in s.queued
    ensures Handled(s0, AddInLoop(s, a, clock))
  {
    hide Sorted, Picked, Numbered, Insert;
    assert OneOwner(s, a);
    hide Owned;
  }

  lemma StepHandled(s0: State, s: State, ev: Event)
    requires Inv(s) && Handled(s0, s) && !ev.EvFinishRead?
    ensures Handled(s0, Step(s, ev))
  {
    hide AddInLoop, AddLocal, CancelInLoop, FireNext, BeginRead, FinishRead, Owned, Agree, Numbered, Sorted, Picked;
    hide HandedOver;
    match ev
    case EvFireNext => if s.pos < |s.batch| { FireHandled(s0, s); }
    case EvCancel(q) => CancelHandled(s0, s, q);
    case EvAdd(a, clock) => if a in s.queued { AddHandled(s0, s, a, clock); }
    case EvAddLocal(a, when, interval, repeat, clock) => AddLocalHandled(s0, s, a, when, interval, repeat, clock);
    case _ =>
  }

  lemma AddLocalHandled(s0: State, s: State, a: Addr, when: Us, interval: Us, repeat: bool, clock: Us)
    requires Inv(s) && Handled(s0, s)
    ensures Handled(s0, AddLocal(s, a, when, interval, repeat, clock))
  {
    hide Inv, AddInLoop, Picked;
    if a !in s.heap && a < LAST_ADDR {
      AddLocalIs(s, a, when, interval, repeat, clock);
      AddHandled(s0, Allocate(s, a, when, interval, repeat), a, clock);
    }
  }

  /** q was cancelled before the turn of batch entry i: at a time when the batch was extracted already
      and i had not been handled, or earlier and remembered. */
  ghost predicate CanceledBefore(s0: State, evs: seq<Event>, q: nat, i: nat) {
    q in s0.canceled || exists j | 0 <= j < |evs| :: evs[j] == EvCancel(q) && RunFrom(s0, evs[..j]).pos <= i
  }

  /** Entry i of the batch as the run from s0 has left it: skipped, or, if its turn is still to come,
      bound to be skipped as things stand. */
  ghost predicate Skips(s: State, i: nat, q: nat)
    requires s.pos <= |s.outcome|
  {
    if i < s.pos then !s.outcome[i] else q in s.canceled
  }

  ghost predicate SkipsExactly(s0: State, evs: seq<Event>) {
    var s := RunFrom(s0, evs);
    && s.pos <= |s.outcome|
    && forall i | 0 <= i < |s0.batch| && s0.batch[i].addr in s0.heap ::
         var q := s0.heap[s0.batch[i].addr].sequence;
         Skips(s, i, q) <==> CanceledBefore(s0, evs, q, i)
  }

  lemma SortedDistinct(ts: seq<Entry>, i: nat, j: nat)
    requires Sorted(ts) && i < |ts| && j < |ts|
    ensures ts[i] == ts[j] ==> i == j
  {
    assert i < j ==> Less(ts[i], ts[j]);
    assert j < i ==> Less(ts[j], ts[i]);
  }

  /** The number of a batch entry identifies it. */
  lemma BatchUnique(s: State, i: nat, j: nat)
    requires Inv(s) && i < |s.batch| && j < |s.batch|
    requires s.batch[i].addr in s.heap && s.batch[j].addr in s.heap
    ensures s.heap[s.batch[i].addr].sequence == s.heap[s.batch[j].addr].sequence ==> i == j
  {
    SortedDistinct(s.batch, i, j);
    hide Sorted, Owned;
    assert s.batch[i] in s.batch && s.batch[j] in s.batch;
  }

  lemma CanceledSnoc(s0: State, evs: seq<Event>, ev: Event, q: nat, i: nat)
    ensures CanceledBefore(s0, evs + [ev], q, i) <==>
            CanceledBefore(s0, evs, q, i) || (ev == EvCancel(q) && RunFrom(s0, evs).pos <= i)
  {
    hide RunFrom;
    var all := evs + [ev];
    assert all[..|evs|] == evs;
    assert forall j | 0 <= j < |evs| :: all[..j] == evs[..j] && all[j] == evs[j];
    if CanceledBefore(s0, evs, q, i) && q !in s0.canceled {
      var j :| 0 <= j < |evs| && evs[j] == EvCancel(q) && RunFrom(s0, evs[..j]).pos <= i;
      assert all[j] == EvCancel(q) && RunFrom(s0, all[..j]).pos <= i;
    }
    if ev == EvCancel(q) && RunFrom(s0, evs).pos <= i {
      assert all[|evs|] == EvCancel(q) && RunFrom(s0, all[..|evs|]).pos <= i;
    }
  }

  /** What one step does to the fate of batch entry i. */
  lemma StepSkips(s: State, ev: Event, i: nat)
    requires Inv(s) && s.reading && s.pos == |s.outcome| && i < |s.batch| && s.batch[i].addr in s.heap
    requires !ev.EvFinishRead?
    ensures var s', q := Step(s, ev), s.heap[s.batch[i].addr].sequence;
      && s'.pos <= |s'.outcome|
      && (Skips(s', i, q) <==> Skips(s, i, q) || (ev == EvCancel(q) && s.pos <= i))
  {
    hide Insert, Erase, BeginRead, FinishRead, Sorted, HandedOver;
    var q := s.heap[s.batch[i].addr].sequence;
    assert s.batch[i] in s.batch;
    match ev
    case EvFireNext => if s.pos < |s.batch| { FireSkips(s, i); }
    case EvCancel(p) =>
      if p == q {
        NotActive(s, i);
      }
    case EvAddLocal(a, when, interval, repeat, clock) =>
      if a !in s.heap && a < LAST_ADDR {
        hide Inv, AddLocal;
        AddLocalIs(s, a, when, interval, repeat, clock);
      }
    case _ =>
  }

  lemma FireSkips(s: State, i: nat)
    requires Inv(s) && s.reading && s.pos == |s.outcome| && s.pos < |s.batch|
    requires i < |s.batch| && s.batch[i].addr in s.heap
    ensures var s', q := FireNext(s), s.heap[s.batch[i].addr].sequence;
      s'.pos <= |s'.outcome| && (Skips(s', i, q) <==> Skips(s, i, q))
  {
    assert s.batch[s.pos] in s.batch;
    if s.heap[s.batch[s.pos].addr].sequence == s.heap[s.batch[i].addr].sequence {
      BatchUnique(s, i, s.pos);
    }
    hide Sorted, Owned, Numbered, HandedOver;
  }

  /** cancel() does not find a timer of the batch. */
  lemma NotActive(s: State, i: nat)
    requires Inv(s) && i < |s.batch| && s.batch[i].addr in s.heap
    ensures s.heap[s.batch[i].addr].sequence !in s.active
  {
    hide Sorted, HandedOver;
    assert s.batch[i] in s.batch && OneOwner(s, s.batch[i].addr);
  }

  lemma {:induction false} RunSkips(s0: State, evs: seq<Event>)
    requires Inv(s0) && Handled(s0, s0) && s0.pos == 0 && forall ev <- evs :: !ev.EvFinishRead?
    ensures SkipsExactly(s0, evs)
  {
    RunHandled(s0, evs);
    if evs != [] {
      hide Step, Inv, Picked, Skips, CanceledBefore;
      var init, ev := evs[..|evs| - 1], evs[|evs| - 1];
      assert ev in evs && evs == init + [ev];
      RunSkips(s0, init);
      RunInv(s0, init);
      RunHandled(s0, init);
      var s := RunFrom(s0, init);
      forall i | 0 <= i < |s0.batch| && s0.batch[i].addr in s0.heap
        ensures var q := s0.heap[s0.batch[i].addr].sequence;
          Skips(RunFrom(s0, evs), i, q) <==> CanceledBefore(s0, evs, q, i)
      {
        assert s0.batch[i] in s.batch;
        StepSkips(s, ev, i);
        CanceledSnoc(s0, init, ev, s0.heap[s0.batch[i].addr].sequence, i);
      }
    }
  }

  lemma {:induction false} RunHandled(s0: State, evs: seq<Event>)
    requires Inv(s0) && Handled(s0, s0) && forall ev <- evs :: !ev.EvFinishRead?
    ensures Handled(s0, RunFrom(s0, evs))
  {
    hide Step, Inv, Handled;
    if evs != [] {
      var init, ev := evs[..|evs| - 1], evs[|evs| - 1];
      assert ev in evs;
      RunHandled(s0, init);
      RunInv(s0, init);
      StepHandled(s0, RunFrom(s0, init), ev);
    }
  }

  /** A handleRead at time now, whatever its callbacks and everybody else do meanwhile: the batch is
      exactly the timers due at now when it was extracted, in (expiration, pointer) order; the
      callbacks run so far are those of its handled part, once each and in that order, without the
      skipped ones; skipped are exactly those whose own number was cancelled before their turn; nobody
      deletes or changes a timer of the batch. */
  lemma FiringTheorem(s: State, now: Us, evs: seq<Event>)
    requires Inv(s) && !s.reading && forall ev <- evs :: !ev.EvFinishRead?
    ensures var s0 := BeginRead(s, now);
      && Sorted(s0.batch)
      && (forall e :: e in s0.batch <==> e in s.timers && e.when <= now)
      && s0.runs == s.runs
      && Handled(s0, RunFrom(s0, evs))
      && SkipsExactly(s0, evs)
  {
    BeginInv(s, now);
    BatchExact(s, now);
    var s0 := BeginRead(s, now);
    assert PrefixOf(s0.batch, 0) == [] && s0.runs + [] == s0.runs;
    assert Handled(s0, s0);
    assert s0.pos == 0;
    hide Handled, BeginRead, SkipsExactly;
    RunHandled(s0, evs);
    RunSkips(s0, evs);
  }

  lemma BatchExact(s: State, now: Us)
    requires Inv(s) && !s.reading
    ensures forall e :: e in BeginRead(s, now).batch <==> e in s.timers && e.when <= now
  {
    var n := ExpiredCount(s.timers, now);
    forall e | e in s.timers ensures e.addr < LAST_ADDR {
      assert e.addr in s.heap;
    }
    ExpiredSpec(s.timers, now);
    SortedSplit(s.timers, n);
    assert forall e <- s.timers[..n] :: e.when <= now;
    assert forall e <- s.timers[n..] :: e.when > now;
  }

  /** How a handleRead ends: periodic timers of the batch are filed again for now + interval (modulo
      2^64), cancelled or not; the others are deleted; no cancellation is remembered. */
  lemma FinishTheorem(s: State, clock: Us)
    requires Inv(s) && s.reading
    ensures var s' := FinishRead(s, clock);
      && s'.canceled == {}
      && forall e <- s.batch ::
           if Rearms(s.heap[e.addr]) then
             var t := Restarted(s.heap[e.addr], s.now);
             && e.addr in s'.heap && s'.heap[e.addr] == t
             && Entry(t.expiration, e.addr) in s'.timers
             && t.sequence in s'.active && s'.active[t.sequence] == e.addr
           else
             e.addr !in s'.heap
  {
    SettledAll(s);
    SettleAllInv(s);
    var s1, s' := SettleAll(s), FinishRead(s, clock);
    hide SettleAll, Sorted;
    forall e | e in s.batch && Rearms(s.heap[e.addr])
      ensures var t := Restarted(s.heap[e.addr], s.now);
        Entry(t.expiration, e.addr) in s1.timers && t.sequence in s1.active && s1.active[t.sequence] == e.addr
    {
      assert SettledAs(s, s1, e);
      assert OneOwner(s1, e.addr) && e.addr !in s1.queued;
    }
    assert forall e <- s.batch :: SettledAs(s, s1, e);
  }

  /** Timers outside the batch are left alone: same contents, still filed, still queued; none appears. */
  lemma FinishKeeps(s: State, clock: Us)
    requires Inv(s) && s.reading
    ensures var s' := FinishRead(s, clock);
      && s'.heap.Keys <= s.heap.Keys && s'.queued == s.queued
      && (forall a <- s.heap :: (forall e <- s.batch :: e.addr != a) ==> a in s'.heap && s'.heap[a] == s.heap[a])
      && (forall e <- s.timers :: e in s'.timers)
  {
    SettledAll(s);
    SettleAllInv(s);
    var s1 := SettleAll(s);
    hide SettleAll, Sorted, Numbered, SettledAs;
    forall e | e in s.timers ensures e in s1.timers {
      assert OneOwner(s, e.addr);
      assert forall b <- s.batch :: b.addr != e.addr;
      assert OneOwner(s1, e.addr);
    }
  }

  ghost predicate SettledAs(s: State, s': State, e: Entry)
    requires e.addr in s.heap
  {
    if Rearms(s.heap[e.addr]) then
      e.addr in s'.heap && s'.heap[e.addr] == Restarted(s.heap[e.addr], s.now)
    else
      e.addr !in s'.heap
  }

  lemma SettledHead(s: State)
    requires Inv(s) && s.reading && s.batch != []
    ensures SettledAs(s, Settle(s), s.batch[0])
    ensures forall a :: a != s.batch[0].addr ==> (a in Settle(s).heap <==> a in s.heap)
    ensures forall a <- s.heap :: a != s.batch[0].addr ==> Settle(s).heap[a] == s.heap[a]
    ensures forall e <- s.batch[1..] :: e in s.batch && e.addr != s.batch[0].addr
    ensures var s' := Settle(s);
      s'.queued == s.queued && s'.now == s.now && s'.reading && s'.batch == s.batch[1..]
  {
    InvHead(s);
    forall e | e in s.batch[1..] ensures e in s.batch && e.addr != s.batch[0].addr {
      assert e in s.batch;
    }
    assert Entry(Restarted(s.heap[s.batch[0].addr], s.now).expiration, s.batch[0].addr) !in s.timers;
  }

  lemma {:induction false} SettledAll(s: State)
    requires Inv(s) && s.reading
    ensures var s' := SettleAll(s);
      && (forall e <- s.batch :: SettledAs(s, s', e))
      && (forall a <- s.heap :: (forall e <- s.batch :: e.addr != a) ==> a in s'.heap && s'.heap[a] == s.heap[a])
      && s'.heap.Keys <= s.heap.Keys && s'.queued == s.queued
    decreases |s.batch|
  {
    hide Settle, Numbered, Owned, Rearms, Restarted, Sorted;
    if s.batch != [] {
      var e0, s1 := s.batch[0], Settle(s);
      SettledHead(s);
      SettleInv(s);
      SettledAll(s1);
      var s' := SettleAll(s1);
      assert s.batch == [e0] + s.batch[1..];
      assert e0.addr in s.heap && SettledAs(s, s', e0);
      forall e | e in s.batch && e != e0 ensures SettledAs(s, s', e) {
        assert e in s1.batch;
        assert SettledAs(s1, s', e);
      }
    }
  }
}
