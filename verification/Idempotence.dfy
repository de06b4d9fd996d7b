/** The deduplication protocol of chatservice: any number of nodes share two families of Redis keys,
    dedup:{from}:{msg} taken with SET NX and ack:{from}:{msg} holding the reply. */
module Idempotence {
  import opened Sequences

  const TWO_32: nat := 0x1_0000_0000

  /** int fromId = req.from_id(): an int64 narrowed to 32 bits. */
  function Narrow(x: int): int {
    var m := x % TWO_32;
    if m < 0x8000_0000 then m else m - TWO_32
  }

  datatype Key = Key(from: int, msgId: int)

  datatype Kind = OneChat | AddFriend | DelFriend | GroupChat

  datatype Request = Request(kind: Kind, fromId: int, msgId: int, seq_: int)

  function KeyOf(r: Request): Key {
    Key(Narrow(r.fromId), r.msgId)
  }

  /** Which requests are taken for retransmissions of each other: same msg_id, and from_ids that agree
      in their low 32 bits. */
  lemma KeyExact(a: Request, b: Request)
    ensures KeyOf(a) == KeyOf(b) <==> a.msgId == b.msgId && (a.fromId - b.fromId) % TWO_32 == 0
  {
    var x, y := a.fromId, b.fromId;
    var q, d := x / TWO_32 - y / TWO_32, x % TWO_32 - y % TWO_32;
    assert x - y == q * TWO_32 + d;
    MultipleOf(q, d);
  }

  lemma MultipleOf(q: int, d: int)
    requires d < TWO_32 && -d < TWO_32
    ensures (q * TWO_32 + d) % TWO_32 == 0 <==> d == 0
  {
    if d < 0 {
      assert (q * TWO_32 + d) / TWO_32 == q - 1;
    } else {
      assert (q * TWO_32 + d) / TWO_32 == q;
    }
  }

  type Ack = seq<byte>

  /** What the sender of a request gets back. */
  datatype Reply =
    | Produced(ack: Ack)                 // from the handler body
    | Cached(ack: Ack)                   // a cached acknowledgement
    | InFlight(msgId: int, seq_: int)    // oneChat's default success

  /** Where a request stands on its node. */
  datatype Stage =
    | Arrived
    | Owner                // may run the body
    | Duplicate            // has to look for a cached acknowledgement
    | Bodied(ack: Ack)     // body executed, acknowledgement not yet sent
    | Sent(ack: Ack)       // sent, not yet cached
    | Finished

  type Rid = nat

  datatype State = State(
    dedup: set<Key>, acks: map<Key, Ack>,       // Redis
    requests: map<Rid, (Request, Stage)>,       // on all nodes
    // histories
    granted: seq<Rid>,                          // successful acquisitions of a dedup key
    bodies: seq<(Rid, Ack)>,                    // handler bodies executed
    replies: seq<(Rid, Reply)>,
    expirations: seq<Key>, errors: nat)         // dedup keys that timed out; failed commands

  const INIT := State({}, map[], map[], [], [], [], [], 0)

  /** The outcome of a Redis command: done, lost before it was executed, or executed with its answer lost. */
  datatype Net = Fine | LostBefore | LostAfter

  datatype Event =
    | Arrive(rid: Rid, r: Request)
    | Acquire(rid: Rid, net: Net)        // the msgId != 0 && !tryAcquireDedup test
    | Body(rid: Rid, ack: Ack)           // whatever the database and the other users make of it
    | SendAck(rid: Rid)
    | CacheAck(rid: Rid, net: Net)
    | LookUp(rid: Rid, net: Net)         // getCachedAck and the duplicate's reply
    | ExpireDedup(k: Key)
    | ExpireAck(k: Key)

  predicate At(s: State, rid: Rid, st: Stage) {
    rid in s.requests && s.requests[rid].1 == st
  }

  function Move(s: State, rid: Rid, st: Stage): State
    requires rid in s.requests
  {
    s.(requests := s.requests[rid := (s.requests[rid].0, st)])
  }

  function Step(s: State, ev: Event): State {
    match ev
    case Arrive(rid, r) => if rid in s.requests then s else s.(requests := s.requests[rid := (r, Arrived)])
    case Acquire(rid, net) =>
      if !At(s, rid, Arrived) then s else
      var r := s.requests[rid].0;
      var k := KeyOf(r);
      if r.msgId == 0 then Move(s, rid, Owner)
      else if net.LostBefore? then Move(s, rid, Duplicate).(errors := s.errors + 1)
      else if net.LostAfter? then Move(s, rid, Duplicate).(dedup := s.dedup + {k}, errors := s.errors + 1)
      else if k in s.dedup then Move(s, rid, Duplicate)
      else Move(s, rid, Owner).(dedup := s.dedup + {k}, granted := s.granted + [rid])
    case Body(rid, ack) =>
      if !At(s, rid, Owner) then s else Move(s, rid, Bodied(ack)).(bodies := s.bodies + [(rid, ack)])
    case SendAck(rid) =>
      if rid !in s.requests || !s.requests[rid].1.Bodied? then s else
      var ack := s.requests[rid].1.ack;
      Move(s, rid, Sent(ack)).(replies := s.replies + [(rid, Produced(ack))])
    case CacheAck(rid, net) =>
      if rid !in s.requests || !s.requests[rid].1.Sent? then s else
      var s' := Move(s, rid, Finished);
      if net.LostBefore? then s'.(errors := s.errors + 1) else
      s'.(acks := s.acks[KeyOf(s.requests[rid].0) := s.requests[rid].1.ack],
          errors := s.errors + if net.LostAfter? then 1 else 0)
    case LookUp(rid, net) =>
      if !At(s, rid, Duplicate) then s else
      var r := s.requests[rid].0;
      var k := KeyOf(r);
      var s' := Move(s, rid, Finished).(errors := s.errors + if net.Fine? then 0 else 1);
      if net.Fine? && k in s.acks then s'.(replies := s.replies + [(rid, Cached(s.acks[k]))])
      else if r.kind == OneChat then s'.(replies := s.replies + [(rid, InFlight(r.msgId, r.seq_))])
      else s'
    case ExpireDedup(k) => if k in s.dedup then s.(dedup := s.dedup - {k}, expirations := s.expirations + [k]) else s
    case ExpireAck(k) => s.(acks := s.acks - {k})
  }

  function Run(evs: seq<Event>): State {
    if evs == [] then INIT else Step(Run(evs[..|evs| - 1]), evs[|evs| - 1])
  }

  // ---- what the protocol keeps ----

  /** Bodies executed for a key. */
  ghost function BodiesOf(requests: map<Rid, (Request, Stage)>, bodies: seq<(Rid, Ack)>, k: Key): nat {
    if bodies == [] then 0 else
      var n, b := |bodies| - 1, bodies[|bodies| - 1];
      BodiesOf(requests, bodies[..n], k) + if b.0 in requests && KeyOf(requests[b.0].0) == k then 1 else 0
  }

  function Count(ks: seq<Key>, k: Key): nat {
    if ks == [] then 0 else Count(ks[..|ks| - 1], k) + if ks[|ks| - 1] == k then 1 else 0
  }

  /** The requests that hold the right to run the body for a key and have not used it yet. */
  ghost function Owners(s: State, k: Key): set<Rid> {
    set rid | rid in s.requests && s.requests[rid].1 == Owner && KeyOf(s.requests[rid].0) == k
  }

  /** Rights to run the body for a key given out so far: used and still held. */
  ghost function Rights(s: State, k: Key): nat {
    BodiesOf(s.requests, s.bodies, k) + |Owners(s, k)|
  }

  /** One for every time the key has been free: when it is present, none more is to come. */
  ghost predicate Rationed(s: State, k: Key) {
    Rights(s, k) <= Count(s.expirations, k) + if k in s.dedup then 1 else 0
  }

  /** This event is an Acquire on the key that gets as far as Redis. */
  predicate Reaches(s: State, ev: Event, k: Key) {
    && ev.Acquire? && At(s, ev.rid, Arrived) && !ev.net.LostBefore?
    && s.requests[ev.rid].0.msgId != 0 && KeyOf(s.requests[ev.rid].0) == k
  }

  /** And it is answered with the right to run the body. */
  predicate Grants(s: State, ev: Event, k: Key) {
    Reaches(s, ev, k) && ev.net.Fine? && k !in s.dedup
  }

  /** ack is an acknowledgement some body for the key produced. */
  ghost predicate ByBodyOf(s: State, k: Key, ack: Ack) {
    exists b <- s.bodies :: b.0 in s.requests && KeyOf(s.requests[b.0].0) == k && b.1 == ack
  }

  ghost predicate Honest(s: State, rid: Rid, reply: Reply)
    requires rid in s.requests
  {
    var r := s.requests[rid].0;
    match reply
    case Produced(ack) => (rid, ack) in s.bodies
    case Cached(ack) => r.msgId != 0 && ByBodyOf(s, KeyOf(r), ack)
    case InFlight(m, q) => r.kind == OneChat && m == r.msgId != 0 && q == r.seq_
  }

  ghost predicate StagesGenuine(s: State) {
    && (forall b <- s.bodies :: b.0 in s.requests)
    && (forall g <- s.granted :: g in s.requests)
    && (forall rid <- s.requests ::
          (s.requests[rid].1.Bodied? || s.requests[rid].1.Sent?) ==> (rid, s.requests[rid].1.ack) in s.bodies)
    && (forall rid <- s.requests :: s.requests[rid].1 == Duplicate ==> s.requests[rid].0.msgId != 0)
  }

  ghost predicate AcksGenuine(s: State) {
    forall k <- s.acks :: ByBodyOf(s, k, s.acks[k])
  }

  ghost predicate RepliesGenuine(s: State) {
    forall p <- s.replies :: p.0 in s.requests && Honest(s, p.0, p.1)
  }

  ghost predicate Genuine(s: State) {
    StagesGenuine(s) && AcksGenuine(s) && RepliesGenuine(s)
  }

  /** What no step changes: request contents and executed bodies. */
  ghost predicate Extends(s: State, s': State) {
    && (forall rid <- s.requests :: rid in s'.requests && s'.requests[rid].0 == s.requests[rid].0)
    && s.bodies <= s'.bodies && s.granted <= s'.granted
  }

  lemma StepExtends(s: State, ev: Event)
    ensures Extends(s, Step(s, ev))
  {
  }

  lemma ByBodyKept(s: State, s': State, k: Key, ack: Ack)
    requires Extends(s, s') && ByBodyOf(s, k, ack)
    ensures ByBodyOf(s', k, ack)
  {
    var b :| b in s.bodies && b.0 in s.requests && KeyOf(s.requests[b.0].0) == k && b.1 == ack;
    assert b in s'.bodies;
  }

  lemma HonestKept(s: State, s': State, rid: Rid, reply: Reply)
    requires Extends(s, s') && rid in s.requests && Honest(s, rid, reply)
    ensures Honest(s', rid, reply)
  {
    if reply.Cached? {
      ByBodyKept(s, s', KeyOf(s.requests[rid].0), reply.ack);
    }
  }

  lemma StepGenuine(s: State, ev: Event)
    requires Genuine(s)
    ensures Genuine(Step(s, ev))
  {
    hide Step, StagesGenuine, AcksGenuine, RepliesGenuine;
    StepStages(s, ev);
    StepAcks(s, ev);
    StepReplies(s, ev);
  }

  lemma StepStages(s: State, ev: Event)
    requires StagesGenuine(s)
    ensures StagesGenuine(Step(s, ev))
  {
    hide KeyOf;
    match ev
    case Acquire(rid, net) => AcquireStages(s, rid, net);
    case Body(rid, ack) => BodyStages(s, rid, ack);
    case SendAck(rid) => SendStages(s, rid);
    case _ =>
  }

  lemma AcquireStages(s: State, rid: Rid, net: Net)
    requires StagesGenuine(s)
    ensures StagesGenuine(Step(s, Acquire(rid, net)))
  {
    hide KeyOf;
  }

  lemma BodyStages(s: State, rid: Rid, ack: Ack)
    requires StagesGenuine(s)
    ensures StagesGenuine(Step(s, Body(rid, ack)))
  {
    hide KeyOf;
  }

  lemma SendStages(s: State, rid: Rid)
    requires StagesGenuine(s)
    ensures StagesGenuine(Step(s, SendAck(rid)))
  {
    hide KeyOf;
  }

  lemma StepAcks(s: State, ev: Event)
    requires StagesGenuine(s) && AcksGenuine(s)
    ensures AcksGenuine(Step(s, ev))
  {
    hide KeyOf, ByBodyOf;
    var s' := Step(s, ev);
    StepExtends(s, ev);
    forall k | k in s'.acks ensures ByBodyOf(s', k, s'.acks[k]) {
      if k in s.acks && s.acks[k] == s'.acks[k] {
        ByBodyKept(s, s', k, s.acks[k]);
      } else {
        OwnBody(s, ev.rid);
        ByBodyKept(s, s', k, s'.acks[k]);
      }
    }
  }

  lemma StepReplies(s: State, ev: Event)
    requires Genuine(s)
    ensures RepliesGenuine(Step(s, ev))
  {
    hide KeyOf, ByBodyOf;
    var s' := Step(s, ev);
    StepExtends(s, ev);
    forall p | p in s'.replies ensures p.0 in s'.requests && Honest(s', p.0, p.1) {
      if p in s.replies {
        HonestKept(s, s', p.0, p.1);
      } else if p.1.Cached? {
        ByBodyKept(s, s', KeyOf(s.requests[p.0].0), p.1.ack);
      }
    }
  }

  lemma OwnBody(s: State, rid: Rid)
    requires StagesGenuine(s) && rid in s.requests && s.requests[rid].1.Sent?
    ensures ByBodyOf(s, KeyOf(s.requests[rid].0), s.requests[rid].1.ack)
  {
    assert (rid, s.requests[rid].1.ack) in s.bodies;
  }

  lemma {:induction false} BodiesSame(m: map<Rid, (Request, Stage)>, m': map<Rid, (Request, Stage)>,
                                      bodies: seq<(Rid, Ack)>, k: Key)
    requires forall b <- bodies :: b.0 in m && b.0 in m' && m'[b.0].0 == m[b.0].0
    ensures BodiesOf(m', bodies, k) == BodiesOf(m, bodies, k)
  {
    if bodies != [] {
      assert bodies[|bodies| - 1] in bodies;
      BodiesSame(m, m', bodies[..|bodies| - 1], k);
    }
  }

  /** The only way to get a right is to be granted the key. */
  lemma StepRights(s: State, ev: Event, k: Key)
    requires StagesGenuine(s) && k.msgId != 0
    ensures Rights(Step(s, ev), k) == Rights(s, k) + if Grants(s, ev, k) then 1 else 0
  {
    var s' := Step(s, ev);
    StepExtends(s, ev);
    BodiesSame(s.requests, s'.requests, s.bodies, k);
    hide Step, Narrow, BodiesOf;
    match ev
    case Acquire(rid, net) => AcquireRights(s, rid, net, k);
    case Body(rid, ack) => BodyRights(s, rid, ack, k);
    case _ => OthersKeepRights(s, ev, k);
  }

  lemma AcquireRights(s: State, rid: Rid, net: Net, k: Key)
    requires k.msgId != 0
    requires var s' := Step(s, Acquire(rid, net));
      BodiesOf(s'.requests, s.bodies, k) == BodiesOf(s.requests, s.bodies, k)
    ensures Rights(Step(s, Acquire(rid, net)), k) == Rights(s, k) + if Grants(s, Acquire(rid, net), k) then 1 else 0
  {
    hide Narrow, BodiesOf;
    var s' := Step(s, Acquire(rid, net));
    if Grants(s, Acquire(rid, net), k) {
      assert Owners(s', k) == Owners(s, k) + {rid} && rid !in Owners(s, k);
    } else {
      assert Owners(s', k) == Owners(s, k);
    }
  }

  lemma BodyRights(s: State, rid: Rid, ack: Ack, k: Key)
    requires StagesGenuine(s)
    requires var s' := Step(s, Body(rid, ack)); BodiesOf(s'.requests, s.bodies, k) == BodiesOf(s.requests, s.bodies, k)
    ensures Rights(Step(s, Body(rid, ack)), k) == Rights(s, k)
  {
    hide Narrow;
    var s' := Step(s, Body(rid, ack));
    if At(s, rid, Owner) {
      assert s'.bodies[..|s.bodies|] == s.bodies;
      if KeyOf(s.requests[rid].0) == k {
        assert Owners(s', k) == Owners(s, k) - {rid} && rid in Owners(s, k);
      } else {
        assert Owners(s', k) == Owners(s, k);
      }
    }
  }

  lemma OthersKeepRights(s: State, ev: Event, k: Key)
    requires !ev.Acquire? && !ev.Body?
    requires var s' := Step(s, ev); BodiesOf(s'.requests, s.bodies, k) == BodiesOf(s.requests, s.bodies, k)
    ensures Rights(Step(s, ev), k) == Rights(s, k)
  {
    hide Narrow, BodiesOf;
    var s' := Step(s, ev);
    assert Owners(s', k) == Owners(s, k);
  }

  /** What one step does to a key in Redis and to the record of who was granted it. */
  lemma StepKeys(s: State, ev: Event, k: Key)
    requires k.msgId != 0
    ensures var s' := Step(s, ev);
      && (k in s'.dedup <==> (k in s.dedup && ev != ExpireDedup(k)) || Reaches(s, ev, k))
      && s'.expirations == (if ev.ExpireDedup? && ev.k in s.dedup then s.expirations + [ev.k] else s.expirations)
      && s'.granted == (if GrantsOwn(s, ev) then s.granted + [ev.rid] else s.granted)
  {
    hide Narrow;
  }

  predicate GrantsOwn(s: State, ev: Event) {
    ev.Acquire? && ev.rid in s.requests && Grants(s, ev, KeyOf(s.requests[ev.rid].0))
  }

  lemma StepRationed(s: State, ev: Event, k: Key)
    requires StagesGenuine(s) && Rationed(s, k) && k.msgId != 0
    ensures Rationed(Step(s, ev), k)
  {
    hide Step, Narrow, Rights;
    StepRights(s, ev, k);
    StepKeys(s, ev, k);
    var s' := Step(s, ev);
    if s'.expirations != s.expirations {
      assert s'.expirations[..|s.expirations|] == s.expirations;
    }
  }

  lemma {:induction false} RunGenuine(evs: seq<Event>)
    ensures Genuine(Run(evs))
  {
    if evs != [] {
      hide Step, Genuine;
      RunGenuine(evs[..|evs| - 1]);
      StepGenuine(Run(evs[..|evs| - 1]), evs[|evs| - 1]);
    }
  }

  lemma {:induction false} RunRationed(evs: seq<Event>, k: Key)
    requires k.msgId != 0
    ensures Rationed(Run(evs), k)
  {
    if evs != [] {
      hide Step, Rationed;
      RunRationed(evs[..|evs| - 1], k);
      RunGenuine(evs[..|evs| - 1]);
      StepRationed(Run(evs[..|evs| - 1]), evs[|evs| - 1], k);
    } else {
      assert Owners(INIT, k) == {};
    }
  }

  /** For any interleaving of requests and retransmissions on any number of nodes, with commands lost
      before or after execution: the handler body runs at most once for each (int32 from_id, msg_id)
      with a non-zero msg_id, plus once for every time the key has expired. */
  lemma AtMostOnce(evs: seq<Event>, k: Key)
    requires k.msgId != 0
    ensures var s := Run(evs); BodiesOf(s.requests, s.bodies, k) <= 1 + Count(s.expirations, k)
    ensures var s := Run(evs); k !in s.expirations ==> BodiesOf(s.requests, s.bodies, k) <= 1
  {
    RunRationed(evs, k);
    CountNone(Run(evs).expirations, k);
  }

  /** Every reply is what a body for the same key produced, byte for byte, or oneChat's in-flight
      acknowledgement carrying the request's own msg_id and seq. */
  lemma RepliesTheorem(evs: seq<Event>)
    ensures var s := Run(evs);
      forall p <- s.replies :: p.0 in s.requests && Honest(s, p.0, p.1)
  {
    RunGenuine(evs);
  }

  lemma {:induction false} CountNone(ks: seq<Key>, k: Key)
    ensures k !in ks ==> Count(ks, k) == 0
  {
    if ks != [] && k !in ks {
      CountNone(ks[..|ks| - 1], k);
    }
  }

  /** The acknowledgement in a reply to a request with key k, if the reply carries one that a body made. */
  ghost predicate Acknowledges(s: State, p: (Rid, Reply), k: Key, ack: Ack) {
    p.0 in s.requests && KeyOf(s.requests[p.0].0) == k && (p.1 == Produced(ack) || p.1 == Cached(ack))
  }

  /** While a key has not expired, every reply to a request with it carries the same acknowledgement, be it
      sent by the handler's body or from the cache (or is oneChat's in-flight one). */
  lemma CachedIsTheOne(evs: seq<Event>, k: Key, p: (Rid, Reply), a: Ack, q: (Rid, Reply), b: Ack)
    requires k.msgId != 0 && k !in Run(evs).expirations
    requires p in Run(evs).replies && q in Run(evs).replies
    requires Acknowledges(Run(evs), p, k, a) && Acknowledges(Run(evs), q, k, b)
    ensures a == b
  {
    var s := Run(evs);
    RunGenuine(evs);
    AcknowledgedByBody(s, p, k, a);
    AcknowledgedByBody(s, q, k, b);
    AtMostOnce(evs, k);
    hide Run, Genuine, ByBodyOf, BodiesOf, Acknowledges;
    OneAck(s, k, a, b);
  }

  lemma OneAck(s: State, k: Key, a: Ack, b: Ack)
    requires BodiesOf(s.requests, s.bodies, k) <= 1
    requires ByBodyOf(s, k, a) && ByBodyOf(s, k, b)
    ensures a == b
  {
    hide KeyOf, BodiesOf;
    var i := BodyAt(s, k, a);
    var j := BodyAt(s, k, b);
    if i < j {
      TwoBodies(s.requests, s.bodies, i, j, k);
    } else if j < i {
      TwoBodies(s.requests, s.bodies, j, i, k);
    }
  }

  lemma BodyAt(s: State, k: Key, a: Ack) returns (i: nat)
    requires ByBodyOf(s, k, a)
    ensures i < |s.bodies| && s.bodies[i].0 in s.requests
    ensures KeyOf(s.requests[s.bodies[i].0].0) == k && s.bodies[i].1 == a
  {
    hide KeyOf;
    var x :| x in s.bodies && x.0 in s.requests && KeyOf(s.requests[x.0].0) == k && x.1 == a;
    i :| 0 <= i < |s.bodies| && s.bodies[i] == x;
  }

  lemma AcknowledgedByBody(s: State, p: (Rid, Reply), k: Key, ack: Ack)
    requires Genuine(s) && p in s.replies && Acknowledges(s, p, k, ack)
    ensures ByBodyOf(s, k, ack)
  {
    hide KeyOf;
    assert Honest(s, p.0, p.1);
    if p.1 == Produced(ack) {
      assert (p.0, ack) in s.bodies;
    }
  }

  lemma {:induction false} OneBody(m: map<Rid, (Request, Stage)>, bodies: seq<(Rid, Ack)>, i: nat, k: Key)
    requires i < |bodies| && bodies[i].0 in m && KeyOf(m[bodies[i].0].0) == k
    ensures BodiesOf(m, bodies, k) >= 1
  {
    if i < |bodies| - 1 {
      OneBody(m, bodies[..|bodies| - 1], i, k);
    }
  }

  lemma {:induction false} TwoBodies(m: map<Rid, (Request, Stage)>, bodies: seq<(Rid, Ack)>, i: nat, j: nat, k: Key)
    requires i < j < |bodies| && bodies[i].0 in m && bodies[j].0 in m
    requires KeyOf(m[bodies[i].0].0) == k && KeyOf(m[bodies[j].0].0) == k
    ensures BodiesOf(m, bodies, k) >= 2
  {
    if j < |bodies| - 1 {
      TwoBodies(m, bodies[..|bodies| - 1], i, j, k);
    } else {
      OneBody(m, bodies[..|bodies| - 1], i, k);
    }
  }

  // ---- acknowledged but never handled ----

  /** The key was granted to some request. */
  ghost predicate Granted(s: State, k: Key) {
    exists g <- s.granted :: g in s.requests && KeyOf(s.requests[g].0) == k
  }

  /** The fate of the first Acquire on a key that got as far as Redis. */
  datatype First = NoneYet | Reached(answered: bool)

  function FirstAcquire(evs: seq<Event>, k: Key): First {
    if evs == [] then NoneYet else
      var init, ev := evs[..|evs| - 1], evs[|evs| - 1];
      var first := FirstAcquire(init, k);
      if first.NoneYet? && Reaches(Run(init), ev, k) then Reached(ev.net.Fine?) else first
  }

  ghost predicate GrantedAs(s: State, first: First, k: Key) {
    && (k in s.dedup <==> first.Reached?)
    && Rights(s, k) == (if first == Reached(true) then 1 else 0)
    && (Granted(s, k) <==> first == Reached(true))
  }

  /** While the key has not expired: some request is granted it if and only if the answer to the first
      Acquire that reached Redis was delivered; and then, and only then, exactly one request has run the
      body or still holds the right to. Every other request is told that it is a duplicate. */
  lemma {:induction false} GrantedExact(evs: seq<Event>, k: Key)
    requires k.msgId != 0 && k !in Run(evs).expirations
    ensures GrantedAs(Run(evs), FirstAcquire(evs, k), k)
  {
    if evs == [] {
      assert Owners(INIT, k) == {};
    } else {
      var init, ev := evs[..|evs| - 1], evs[|evs| - 1];
      var s := Run(init);
      hide Step, Narrow, Rights, Granted, Reaches;
      StepKeys(s, ev, k);
      GrantedExact(init, k);
      RunGenuine(init);
      StepRights(s, ev, k);
      StepGranted(s, ev, k);
    }
  }

  lemma StepGranted(s: State, ev: Event, k: Key)
    requires k.msgId != 0 && StagesGenuine(s)
    ensures Granted(Step(s, ev), k) <==> Granted(s, k) || Grants(s, ev, k)
  {
    hide Step, Narrow;
    StepKeys(s, ev, k);
    StepExtends(s, ev);
    var s' := Step(s, ev);
    if Granted(s, k) {
      var g :| g in s.granted && g in s.requests && KeyOf(s.requests[g].0) == k;
      assert g in s'.granted;
    }
    if Grants(s, ev, k) {
      assert ev.rid in s'.granted && ev.rid in s'.requests;
    }
  }

  /** This Acquire on the key was lost, or its answer was. */
  predicate Fails(s: State, ev: Event, k: Key) {
    && ev.Acquire? && At(s, ev.rid, Arrived) && !ev.net.Fine?
    && s.requests[ev.rid].0.msgId != 0 && KeyOf(s.requests[ev.rid].0) == k
  }

  /** No Acquire on the key ever failed. */
  ghost predicate Clean(evs: seq<Event>, k: Key) {
    evs == [] || (Clean(evs[..|evs| - 1], k) && !Fails(Run(evs[..|evs| - 1]), evs[|evs| - 1], k))
  }

  ghost predicate DuplicateOf(s: State, rid: Rid, k: Key) {
    rid in s.requests && s.requests[rid].1 == Duplicate && KeyOf(s.requests[rid].0) == k
  }

  ghost predicate InFlightFor(s: State, p: (Rid, Reply), k: Key) {
    p.1.InFlight? && p.0 in s.requests && KeyOf(s.requests[p.0].0) == k
  }

  /** Being in Redis, being a duplicate and being told so all rest on somebody's grant. */
  ghost predicate Backed(s: State, k: Key) {
    && (k in s.dedup ==> Granted(s, k))
    && (forall rid <- s.requests :: DuplicateOf(s, rid, k) ==> Granted(s, k))
    && (forall p <- s.replies :: InFlightFor(s, p, k) ==> Granted(s, k))
  }

  lemma StepDuplicates(s: State, ev: Event, k: Key)
    requires k.msgId != 0 && !Fails(s, ev, k)
    ensures var s' := Step(s, ev);
      forall rid <- s'.requests :: DuplicateOf(s', rid, k) ==> DuplicateOf(s, rid, k) || k in s.dedup
  {
    hide Narrow;
  }

  lemma StepInFlight(s: State, ev: Event, k: Key)
    requires RepliesGenuine(s)
    ensures var s' := Step(s, ev);
      forall p <- s'.replies :: InFlightFor(s', p, k) ==>
        (p in s.replies && InFlightFor(s, p, k)) || DuplicateOf(s, p.0, k)
  {
    hide KeyOf, Honest;
    StepExtends(s, ev);
  }

  /** If no Acquire on a key ever failed: whoever is told that a request with that key is in flight, or is
      turned away as a duplicate, is told the truth. Some request was granted the key, whether or not it
      has expired since. Failures of other commands, and on other keys, do not matter. */
  lemma {:induction false} InFlightBacked(evs: seq<Event>, k: Key)
    requires k.msgId != 0 && Clean(evs, k)
    ensures Backed(Run(evs), k)
  {
    if evs != [] {
      hide Step, Granted, Fails, DuplicateOf, InFlightFor, Reaches;
      var init, ev := evs[..|evs| - 1], evs[|evs| - 1];
      InFlightBacked(init, k);
      RunGenuine(init);
      StepDuplicates(Run(init), ev, k);
      StepInFlight(Run(init), ev, k);
      StepGranted(Run(init), ev, k);
      StepKeys(Run(init), ev, k);
      if Reaches(Run(init), ev, k) {
        CleanReaches(Run(init), ev, k);
      }
    }
  }

  lemma CleanReaches(s: State, ev: Event, k: Key)
    requires Reaches(s, ev, k) && !Fails(s, ev, k)
    ensures ev.net.Fine?
  {
  }

  /** With Redis unreachable a oneChat is acknowledged as successful although no body has run. */
  lemma AckedWithoutBody(r: Request)
    requires r.kind == OneChat && r.msgId != 0
    ensures var s := Run([Arrive(0, r), Acquire(0, LostBefore), LookUp(0, LostBefore)]);
      s.bodies == [] && s.replies == [(0, InFlight(r.msgId, r.seq_))]
  {
    ThreeSteps(Arrive(0, r), Acquire(0, LostBefore), LookUp(0, LostBefore));
  }

  lemma ThreeSteps(e1: Event, e2: Event, e3: Event)
    ensures Run([e1, e2, e3]) == Step(Step(Step(INIT, e1), e2), e3)
  {
    hide Step, Run;
    RunSnoc([], e1);
    RunSnoc([e1], e2);
    RunSnoc([e1, e2], e3);
    assert [] + [e1] == [e1] && [e1] + [e2] == [e1, e2] && [e1, e2] + [e3] == [e1, e2, e3];
    RunNone();
  }

  lemma RunNone()
    ensures Run([]) == INIT
  {
  }

  lemma RunSnoc(evs: seq<Event>, ev: Event)
    ensures Run(evs + [ev]) == Step(Run(evs), ev)
  {
    assert (evs + [ev])[..|evs|] == evs;
  }

  // ---- the objects ----

  /** RedisMgr over the shared server. Each command may be lost on the way or lose its answer. */
  class RedisMgr {
    var dedup: set<Key>
    var acks: map<Key, Ack>
    var errors: nat

    constructor ()
      ensures dedup == {} && acks == map[] && errors == 0
    {
      dedup, acks, errors := {}, map[], 0;
    }

    /** SET dedup:... NX */
    method TryAcquireDedup(k: Key, net: Net) returns (acquired: bool)
      modifies this
      ensures acquired <==> net.Fine? && k !in old(dedup)
      ensures dedup == if net.LostBefore? then old(dedup) else old(dedup) + {k}
      ensures errors == old(errors) + (if net.Fine? then 0 else 1) && acks == old(acks)
    {
      acquired := false;
      if net.Fine? {
        acquired := k !in dedup;
      } else {
        errors := errors + 1;
      }
      if !net.LostBefore? {
        dedup := dedup + {k};
      }
    }

    method CacheAck(k: Key, ack: Ack, net: Net)
      modifies this
      ensures acks == if net.LostBefore? then old(acks) else old(acks)[k := ack]
      ensures errors == old(errors) + (if net.Fine? then 0 else 1) && dedup == old(dedup)
    {
      if !net.LostBefore? {
        acks := acks[k := ack];
      }
      if !net.Fine? {
        errors := errors + 1;
      }
    }

    method GetCachedAck(k: Key, net: Net) returns (hit: bool, ack: Ack)
      modifies this`errors
      ensures hit <==> net.Fine? && k in acks
      ensures hit ==> ack == acks[k]
      ensures errors == old(errors) + if net.Fine? then 0 else 1
    {
      hit, ack := false, [];
      if !net.Fine? {
        errors := errors + 1;
      } else if k in acks {
        hit, ack := true, acks[k];
      }
    }
  }

  /** The handlers oneChat, addFriend, delFriend and groupChat, reduced to their use of RedisMgr and of
      the connection back to the sender. Other requests act between the two halves. */
  class ChatService {
    const redis: RedisMgr
    ghost var rest: State

    ghost function View(): State
      reads this, redis
    {
      rest.(dedup := redis.dedup, acks := redis.acks, errors := redis.errors)
    }

    constructor (redis: RedisMgr)
      requires redis.dedup == {} && redis.acks == map[] && redis.errors == 0
      ensures View() == INIT && this.redis == redis
    {
      this.redis := redis;
      rest := INIT;
    }

    /** The entry of a handler: either the right to run the body, or a reply (or silence) at once. */
    method Entry(rid: Rid, r: Request, net: Net, net2: Net) returns (proceed: bool, reply: seq<Reply>)
      requires rid !in View().requests
      modifies this, redis
      ensures proceed ==> reply == [] && At(View(), rid, Owner)
      ensures var a := Step(Step(old(View()), Arrive(rid, r)), Acquire(rid, net));
        View() == if proceed then a else Step(a, LookUp(rid, net2))
    {
      hide Step;
      proceed := Admit(rid, r, net);
      reply := [];
      if !proceed {
        reply := AnswerDuplicate(rid, r, net2);
      }
    }

    /** msgId != 0 && !tryAcquireDedup, negated. */
    method Admit(rid: Rid, r: Request, net: Net) returns (proceed: bool)
      requires rid !in View().requests
      modifies this, redis
      ensures At(View(), rid, if proceed then Owner else Duplicate) && View().requests[rid].0 == r
      ensures View() == Step(Step(old(View()), Arrive(rid, r)), Acquire(rid, net))
    {
      hide Narrow;
      rest := rest.(requests := rest.requests[rid := (r, Arrived)]);
      if r.msgId == 0 {
        proceed := true;
      } else {
        proceed := redis.TryAcquireDedup(KeyOf(r), net);
        if proceed {
          rest := rest.(granted := rest.granted + [rid]);
        } else {
          assert KeyOf(r) in old(redis.dedup) ==> old(redis.dedup) + {KeyOf(r)} == old(redis.dedup);
        }
      }
      rest := rest.(requests := rest.requests[rid := (r, if proceed then Owner else Duplicate)]);
    }

    /** The cached acknowledgement, or what the handler says without one. */
    method AnswerDuplicate(rid: Rid, r: Request, net: Net) returns (reply: seq<Reply>)
      requires At(View(), rid, Duplicate) && View().requests[rid].0 == r
      modifies this, redis
      ensures View() == Step(old(View()), LookUp(rid, net))
      ensures |reply| <= 1
      ensures View().replies == if reply == [] then old(View().replies) else old(View().replies) + [(rid, reply[0])]
    {
      hide Narrow;
      var hit, cachedAck := redis.GetCachedAck(KeyOf(r), net);
      reply := if hit then [Cached(cachedAck)] else if r.kind == OneChat then [InFlight(r.msgId, r.seq_)] else [];
      rest := rest.(requests := rest.requests[rid := (r, Finished)]);
      if reply != [] {
        rest := rest.(replies := rest.replies + [(rid, reply[0])]);
      }
    }

    /** The end of a handler: the body is done, its acknowledgement is sent, then cached. */
    method Complete(rid: Rid, r: Request, ack: Ack, net: Net) returns (reply: Reply)
      requires At(View(), rid, Owner) && View().requests[rid].0 == r
      modifies this, redis
      ensures reply == Produced(ack)
      ensures View() == Step(Step(Step(old(View()), Body(rid, ack)), SendAck(rid)), CacheAck(rid, net))
    {
      hide Narrow;
      reply := Produced(ack);
      rest := rest.(requests := rest.requests[rid := (r, Bodied(ack))][rid := (r, Sent(ack))][rid := (r, Finished)],
                    bodies := rest.bodies + [(rid, ack)], replies := rest.replies + [(rid, reply)]);
      redis.CacheAck(KeyOf(r), ack, net);
    }
  }
}
