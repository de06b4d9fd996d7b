/** What each step of the deduplication protocol does, and that a retransmission is answered from the cache. */
module IdempotenceEffects {
  import opened Idempotence

  /** The request at this id, moved to another stage of its handler. */
  function Moved(s: State, rid: Rid, st: Stage): map<Rid, (Request, Stage)>
    requires rid in s.requests
  {
    s.requests[rid := (s.requests[rid].0, st)]
  }

  // ---- what each step does ----

  /** The test at the entry of a handler. Without a msg_id it proceeds. Otherwise it proceeds exactly if the
      command went through and the key was absent, and then the key is there; a lost command leaves the
      key as it was, a lost answer does not. */
  lemma AcquireEffect(s: State, rid: Rid, net: Net)
    requires At(s, rid, Arrived)
    ensures var s', k := Step(s, Acquire(rid, net)), KeyOf(s.requests[rid].0);
      if s.requests[rid].0.msgId == 0 then s' == s.(requests := Moved(s, rid, Owner)) else
      match net
      case Fine =>
        if k in s.dedup then s' == s.(requests := Moved(s, rid, Duplicate))
        else s' == s.(requests := Moved(s, rid, Owner), dedup := s.dedup + {k}, granted := s.granted + [rid])
      case LostBefore => s' == s.(requests := Moved(s, rid, Duplicate), errors := s.errors + 1)
      case LostAfter => s' == s.(requests := Moved(s, rid, Duplicate), dedup := s.dedup + {k}, errors := s.errors + 1)
  {
    hide KeyOf;
  }

  /** The handler's body, its acknowledgement to the sender, and the write to the cache. */
  lemma BodyEffect(s: State, rid: Rid, ack: Ack)
    requires At(s, rid, Owner)
    ensures Step(s, Body(rid, ack)) == s.(requests := Moved(s, rid, Bodied(ack)), bodies := s.bodies + [(rid, ack)])
  {
  }

  lemma SendEffect(s: State, rid: Rid, ack: Ack)
    requires At(s, rid, Bodied(ack))
    ensures Step(s, SendAck(rid)) ==
            s.(requests := Moved(s, rid, Sent(ack)), replies := s.replies + [(rid, Produced(ack))])
  {
  }

  lemma CacheEffect(s: State, rid: Rid, ack: Ack, net: Net)
    requires At(s, rid, Sent(ack))
    ensures var s', k := Step(s, CacheAck(rid, net)), KeyOf(s.requests[rid].0);
      && s' == s.(requests := Moved(s, rid, Finished), acks := s'.acks, errors := s'.errors)
      && s'.acks == (if net == LostBefore then s.acks else s.acks[k := ack])
      && s'.errors == (if net == Fine then s.errors else s.errors + 1)
  {
    hide KeyOf;
  }

  /** The reply to a duplicate: exactly the cached acknowledgement if the command went through and there is
      one; otherwise oneChat's in-flight acknowledgement for a oneChat, and nothing for the others. */
  lemma LookUpEffect(s: State, rid: Rid, net: Net)
    requires At(s, rid, Duplicate)
    ensures var s', r := Step(s, LookUp(rid, net)), s.requests[rid].0;
      && s' == s.(requests := Moved(s, rid, Finished), replies := s'.replies, errors := s'.errors)
      && (net == Fine && KeyOf(r) in s.acks ==> s'.replies == s.replies + [(rid, Cached(s.acks[KeyOf(r)]))])
      && (!(net == Fine && KeyOf(r) in s.acks) && r.kind == OneChat ==>
            s'.replies == s.replies + [(rid, InFlight(r.msgId, r.seq_))])
      && (!(net == Fine && KeyOf(r) in s.acks) && r.kind != OneChat ==> s'.replies == s.replies)
      && s'.errors == (if net == Fine then s.errors else s.errors + 1)
  {
    hide KeyOf;
  }

  /** Arrivals and expirations. */
  lemma OutsideEffect(s: State, rid: Rid, r: Request, k: Key)
    ensures rid !in s.requests ==> Step(s, Arrive(rid, r)) == s.(requests := s.requests[rid := (r, Arrived)])
    ensures Step(s, ExpireAck(k)) == s.(acks := s.acks - {k})
    ensures k in s.dedup ==> Step(s, ExpireDedup(k)) == s.(dedup := s.dedup - {k}, expirations := s.expirations + [k])
  {
  }

  // ---- answered from the cache ----

  function After(s: State, evs: seq<Event>): State
    decreases |evs|
  {
    if evs == [] then s else After(Step(s, evs[0]), evs[1..])
  }

  lemma {:induction false} AfterSplit(s: State, a: seq<Event>, b: seq<Event>)
    ensures After(s, a + b) == After(After(s, a), b)
    decreases |a|
  {
    hide Step;
    if a == [] {
      assert a + b == b;
    } else {
      assert (a + b)[1..] == a[1..] + b;
      AfterSplit(Step(s, a[0]), a[1..], b);
    }
  }

  /** The handler of this request has sent this acknowledgement and is about to cache it. */
  ghost predicate AboutToCache(s: State, rid: Rid, k: Key, ack: Ack) {
    At(s, rid, Sent(ack)) && KeyOf(s.requests[rid].0) == k && k.msgId != 0
  }

  /** A handler at this stage has another acknowledgement to come for its key. */
  predicate Disagrees(st: Stage, ack: Ack) {
    st == Owner || ((st.Bodied? || st.Sent?) && st.ack != ack)
  }

  /** The key is taken, and no handler that is at work on it will come to another acknowledgement. */
  ghost predicate Undisputed(s: State, k: Key, ack: Ack) {
    && k in s.dedup
    && forall rid <- s.requests :: KeyOf(s.requests[rid].0) == k ==> !Disagrees(s.requests[rid].1, ack)
  }

  ghost predicate CachedAs(s: State, k: Key, ack: Ack) {
    k in s.acks && s.acks[k] == ack
  }

  ghost predicate Unexpired(k: Key, evs: seq<Event>) {
    ExpireAck(k) !in evs && ExpireDedup(k) !in evs
  }

  /** What is cached and undisputed stays so until a key expires. */
  lemma StepUndisputed(s: State, ev: Event, k: Key, ack: Ack)
    requires Undisputed(s, k, ack) && ev != ExpireDedup(k) && k.msgId != 0
    ensures Undisputed(Step(s, ev), k, ack)
  {
    var s' := Step(s, ev);
    forall rid | rid in s'.requests && KeyOf(s'.requests[rid].0) == k
      ensures !Disagrees(s'.requests[rid].1, ack)
    {
      StageUndisputed(s, ev, k, ack, rid);
    }
    hide KeyOf;
  }

  lemma StageUndisputed(s: State, ev: Event, k: Key, ack: Ack, rid: Rid)
    requires Undisputed(s, k, ack) && k.msgId != 0
    requires rid in Step(s, ev).requests && KeyOf(Step(s, ev).requests[rid].0) == k
    ensures !Disagrees(Step(s, ev).requests[rid].1, ack)
  {
    var r := Step(s, ev).requests[rid].0;
    assert KeyOf(r).msgId == r.msgId;
    hide KeyOf;
  }

  lemma StepCached(s: State, ev: Event, k: Key, ack: Ack)
    requires Undisputed(s, k, ack) && CachedAs(s, k, ack) && ev != ExpireAck(k)
    ensures CachedAs(Step(s, ev), k, ack)
  {
    hide KeyOf;
  }

  lemma {:induction false} StaysCached(s: State, k: Key, ack: Ack, evs: seq<Event>)
    requires Undisputed(s, k, ack) && CachedAs(s, k, ack) && Unexpired(k, evs) && k.msgId != 0
    ensures Undisputed(After(s, evs), k, ack) && CachedAs(After(s, evs), k, ack)
    decreases |evs|
  {
    hide Step, Undisputed, CachedAs;
    if evs != [] {
      StepUndisputed(s, evs[0], k, ack);
      StepCached(s, evs[0], k, ack);
      StaysCached(Step(s, evs[0]), k, ack, evs[1..]);
    }
  }

  /** Nothing but its own look-up takes a duplicate from its stage. */
  lemma {:induction false} StaysDuplicate(s: State, rid: Rid, evs: seq<Event>)
    requires At(s, rid, Duplicate) && forall ev <- evs :: !(ev.LookUp? && ev.rid == rid)
    ensures At(After(s, evs), rid, Duplicate) && After(s, evs).requests[rid].0 == s.requests[rid].0
    decreases |evs|
  {
    hide Step;
    if evs != [] {
      assert evs[0] in evs;
      StepStays(s, rid, evs[0]);
      StaysDuplicate(Step(s, evs[0]), rid, evs[1..]);
    }
  }

  lemma StepStays(s: State, rid: Rid, ev: Event)
    requires At(s, rid, Duplicate) && !(ev.LookUp? && ev.rid == rid)
    ensures var s' := Step(s, ev); At(s', rid, Duplicate) && s'.requests[rid].0 == s.requests[rid].0
  {
    hide KeyOf;
  }

  /** A retransmission: neither key expires, and after mid a request with this key, of whatever kind and on
      whatever node, has arrived. It makes its test at once, and its look-up after more. */
  ghost predicate Retransmitted(s: State, k: Key, mid: seq<Event>, again: Rid, more: seq<Event>) {
    var t := After(s, mid);
    && Unexpired(k, mid) && Unexpired(k, more) && (forall ev <- more :: !(ev.LookUp? && ev.rid == again))
    && At(t, again, Arrived) && KeyOf(t.requests[again].0) == k
  }

  /** Both commands being answered, its look-up sends exactly one reply, this acknowledgement from the cache. */
  ghost predicate Answered(s: State, mid: seq<Event>, again: Rid, more: seq<Event>, ack: Ack) {
    var t := After(Step(After(s, mid), Acquire(again, Fine)), more);
    Step(t, LookUp(again, Fine)).replies == t.replies + [(again, Cached(ack))]
  }

  lemma CachedIsAnswered(s: State, k: Key, ack: Ack, mid: seq<Event>, again: Rid, more: seq<Event>)
    requires Undisputed(s, k, ack) && CachedAs(s, k, ack) && k.msgId != 0
    requires Retransmitted(s, k, mid, again, more)
    ensures Answered(s, mid, again, more, ack)
  {
    hide Step, KeyOf, At;
    var t := After(s, mid);
    StaysCached(s, k, ack, mid);
    TakenForDuplicate(t, again, k);
    var t' := Step(t, Acquire(again, Fine));
    StaysDuplicate(t', again, more);
    StepUndisputed(t, Acquire(again, Fine), k, ack);
    StepCached(t, Acquire(again, Fine), k, ack);
    StaysCached(t', k, ack, more);
    LookUpEffect(After(t', more), again, Fine);
  }

  lemma TakenForDuplicate(s: State, rid: Rid, k: Key)
    requires At(s, rid, Arrived) && KeyOf(s.requests[rid].0) == k && k in s.dedup && k.msgId != 0
    ensures var s' := Step(s, Acquire(rid, Fine)); At(s', rid, Duplicate) && s'.requests[rid].0 == s.requests[rid].0
  {
    AcquireEffect(s, rid, Fine);
    hide Step;
    assert KeyOf(s.requests[rid].0).msgId == s.requests[rid].0.msgId;
    hide KeyOf;
  }

  /** When a handler's CacheAck reaches Redis, every retransmission from then on, as long as neither key
      expires, is answered with that acknowledgement if and only if the key is still taken and no other
      handler for it is on its way to a different one. */
  lemma AnsweredExact(s: State, rid: Rid, k: Key, ack: Ack, net: Net)
    requires AboutToCache(s, rid, k, ack) && net != LostBefore
    ensures var t := Step(s, CacheAck(rid, net));
      Undisputed(s, k, ack) <==>
      forall mid, again, more :: Retransmitted(t, k, mid, again, more) ==> Answered(t, mid, again, more, ack)
  {
    hide Step, Retransmitted, Answered;
    var t := Step(s, CacheAck(rid, net));
    JustCached(s, rid, k, ack, net);
    if Undisputed(s, k, ack) {
      forall mid, again, more | Retransmitted(t, k, mid, again, more) ensures Answered(t, mid, again, more, ack) {
        CachedIsAnswered(t, k, ack, mid, again, more);
      }
    } else {
      var mid, again := Dispute(t, rid, k, ack);
      assert Retransmitted(t, k, mid, again, []);
    }
  }

  lemma JustCached(s: State, rid: Rid, k: Key, ack: Ack, net: Net)
    requires AboutToCache(s, rid, k, ack) && net != LostBefore
    ensures var t := Step(s, CacheAck(rid, net));
      && CachedAs(t, k, ack) && (Undisputed(t, k, ack) <==> Undisputed(s, k, ack))
      && rid in t.requests && KeyOf(t.requests[rid].0) == k
  {
    CacheEffect(s, rid, ack, net);
    hide Step, KeyOf;
    var t := Step(s, CacheAck(rid, net));
    assert forall i <- s.requests :: i in t.requests && t.requests[i].0 == s.requests[i].0 &&
                                     (i != rid ==> t.requests[i].1 == s.requests[i].1);
  }

  /** Otherwise there is a retransmission that is not. */
  lemma Dispute(t: State, rid: Rid, k: Key, ack: Ack) returns (mid: seq<Event>, again: Rid)
    requires rid in t.requests && KeyOf(t.requests[rid].0) == k && k.msgId != 0
    requires CachedAs(t, k, ack) && !Undisputed(t, k, ack)
    ensures Retransmitted(t, k, mid, again, []) && !Answered(t, mid, again, [], ack)
  {
    hide Step, KeyOf;
    var r := t.requests[rid].0;
    if k !in t.dedup {
      again := Unused(t);
      mid := [Arrive(again, r)];
      OutsideEffect(t, again, r, k);
      RunsAgain(Step(t, mid[0]), again, k, ack);
      assert After(t, mid) == Step(t, mid[0]);
      AnsweredThere(t, mid, again, ack);
    } else {
      var other :| other in t.requests && KeyOf(t.requests[other].0) == k && Disagrees(t.requests[other].1, ack);
      var first, a := Overwrite(t, other, k, ack);
      var u := After(t, first);
      again := Unused(u);
      mid := first + [Arrive(again, r)];
      OutsideEffect(u, again, r, k);
      AfterSplit(t, first, [Arrive(again, r)]);
      OtherAnswer(Step(u, Arrive(again, r)), again, k, a, ack);
      assert After(t, mid) == Step(u, Arrive(again, r)) by {
        assert After(u, [Arrive(again, r)]) == Step(u, Arrive(again, r));
      }
      AnsweredThere(t, mid, again, ack);
    }
  }

  lemma AnsweredThere(t: State, mid: seq<Event>, again: Rid, ack: Ack)
    ensures Answered(t, mid, again, [], ack) == Answered(After(t, mid), [], again, [], ack)
  {
    hide Step;
  }

  /** An id no request has. */
  lemma Unused(s: State) returns (again: Rid)
    ensures again !in s.requests
  {
    again := UnusedIn(s.requests.Keys);
  }

  lemma {:induction false} UnusedIn(ids: set<Rid>) returns (n: nat)
    ensures forall i <- ids :: i < n
  {
    if ids == {} {
      n := 0;
    } else {
      var i :| i in ids;
      n := UnusedIn(ids - {i});
      n := if i < n then n else i + 1;
      assert ids == (ids - {i}) + {i};
    }
  }

  /** With the key gone the retransmission gets to run the body, and its look-up is none. */
  lemma RunsAgain(s: State, again: Rid, k: Key, ack: Ack)
    requires At(s, again, Arrived) && KeyOf(s.requests[again].0) == k && k !in s.dedup && k.msgId != 0
    ensures !Answered(s, [], again, [], ack)
  {
    AcquireEffect(s, again, Fine);
    assert KeyOf(s.requests[again].0).msgId == s.requests[again].0.msgId;
    hide KeyOf;
  }

  /** Another acknowledgement in the cache is what it gets. */
  lemma OtherAnswer(s: State, again: Rid, k: Key, a: Ack, ack: Ack)
    requires At(s, again, Arrived) && KeyOf(s.requests[again].0) == k && k in s.dedup && k.msgId != 0
    requires CachedAs(s, k, a) && a != ack
    ensures !Answered(s, [], again, [], ack)
  {
    TakenForDuplicate(s, again, k);
    var t := Step(s, Acquire(again, Fine));
    hide KeyOf;
    assert t.acks == s.acks;
    LookUpEffect(t, again, Fine);
    var sent := Step(t, LookUp(again, Fine)).replies;
    assert After(t, []) == t && sent[|sent| - 1] == (again, Cached(a));
    hide Step;
  }

  /** A handler with another acknowledgement to come can go on and put it in the cache. */
  lemma Overwrite(t: State, rid: Rid, k: Key, ack: Ack) returns (evs: seq<Event>, a: Ack)
    requires rid in t.requests && KeyOf(t.requests[rid].0) == k && Disagrees(t.requests[rid].1, ack)
    ensures a != ack && CachedAs(After(t, evs), k, a) && Unexpired(k, evs) && After(t, evs).dedup == t.dedup
    decreases match t.requests[rid].1 case Owner => 2 case Bodied(_) => 1 case _ => 0
  {
    hide Step, KeyOf;
    match t.requests[rid].1
    case Owner =>
      BodyEffect(t, rid, ack + [0]);
      evs, a := Overwrite(Step(t, Body(rid, ack + [0])), rid, k, ack);
      evs := [Body(rid, ack + [0])] + evs;
    case Bodied(b) =>
      SendEffect(t, rid, b);
      evs, a := Overwrite(Step(t, SendAck(rid)), rid, k, ack);
      evs := [SendAck(rid)] + evs;
    case Sent(b) =>
      CacheEffect(t, rid, b, Fine);
      evs, a := [CacheAck(rid, Fine)], b;
      assert After(t, evs) == Step(t, evs[0]);
  }

  // ---- runs in which the key never expired ----

  lemma {:induction false} RunAfter(evs: seq<Event>, more: seq<Event>)
    ensures Run(evs + more) == After(Run(evs), more)
    decreases |more|
  {
    hide Step, Run;
    if more == [] {
      assert evs + more == evs;
    } else {
      assert evs + more == (evs + [more[0]]) + more[1..];
      RunSnoc(evs, more[0]);
      RunAfter(evs + [more[0]], more[1..]);
    }
  }

  /** Then there is nobody to dispute it: the handler's key is taken, and it is the only one at work. */
  lemma NeverDisputed(evs: seq<Event>, rid: Rid, k: Key, ack: Ack)
    requires AboutToCache(Run(evs), rid, k, ack) && k !in Run(evs).expirations
    ensures Undisputed(Run(evs), k, ack)
  {
    var s := Run(evs);
    RunGenuine(evs);
    OwnBody(s, rid);
    var i := BodyAt(s, k, ack);
    OneBody(s.requests, s.bodies, i, k);
    GrantedExact(evs, k);
    RunRationed(evs, k);
    CountNone(s.expirations, k);
    hide Run, BodiesOf, KeyOf, Granted;
    forall other | other in s.requests && KeyOf(s.requests[other].0) == k
      ensures !Disagrees(s.requests[other].1, ack)
    {
      if s.requests[other].1 == Owner {
        HoldsRight(s, other, k);
      } else if s.requests[other].1.Bodied? || s.requests[other].1.Sent? {
        assert (other, s.requests[other].1.ack) in s.bodies;
        OneAck(s, k, ack, s.requests[other].1.ack);
      }
    }
  }

  lemma HoldsRight(s: State, rid: Rid, k: Key)
    requires rid in s.requests && s.requests[rid].1 == Owner && KeyOf(s.requests[rid].0) == k
    ensures |Owners(s, k)| >= 1
  {
    assert rid in Owners(s, k);
  }

  /** So a retransmission gets the original's acknowledgement: in every run in which a handler's CacheAck
      reaches Redis before the key ever expires, and neither key expires after that. */
  lemma AnsweredFromCache(evs: seq<Event>, rid: Rid, k: Key, ack: Ack, net: Net,
                          mid: seq<Event>, again: Rid, more: seq<Event>)
    requires AboutToCache(Run(evs), rid, k, ack) && k !in Run(evs).expirations && net != LostBefore
    requires Retransmitted(Run(evs + [CacheAck(rid, net)]), k, mid, again, more)
    ensures var done := evs + [CacheAck(rid, net)] + mid + [Acquire(again, Fine)] + more;
      Run(done + [LookUp(again, Fine)]).replies == Run(done).replies + [(again, Cached(ack))]
  {
    hide Run, Step, KeyOf, Retransmitted;
    var all, a := evs + [CacheAck(rid, net)], Acquire(again, Fine);
    RunSnoc(evs, CacheAck(rid, net));
    NeverDisputed(evs, rid, k, ack);
    JustCached(Run(evs), rid, k, ack, net);
    CachedIsAnswered(Run(all), k, ack, mid, again, more);
    RunAfter(all, mid);
    RunSnoc(all + mid, a);
    RunAfter(all + mid + [a], more);
    RunSnoc(all + mid + [a] + more, LookUp(again, Fine));
  }
}
