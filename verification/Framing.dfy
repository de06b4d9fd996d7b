/** Length-prefixed framing: chatservice::sendFrame writes frames, ChatServer::onMessage cuts them. */
module Framing {
  import opened Sequences
  import opened Buffers

  const HEADER_LEN: nat := 4
  const MAX_FRAME: nat := 16 * 1024 * 1024
  const TWO_31: nat := 0x8000_0000
  const TWO_32: nat := 0x1_0000_0000

  type Payload = seq<byte>

  /** static_cast<int32_t> of an unsigned quantity. */
  function AsInt32(n: nat): (r: int)
    ensures n < TWO_31 ==> r == n
    ensures TWO_31 <= n < TWO_32 ==> r < 0
    ensures r < TWO_31
  {
    var m := n % TWO_32;
    if m < TWO_31 then m else m - TWO_32
  }

  /** Base-256 digits, most significant first. */
  function Digits(m: nat): (h: seq<byte>)
    requires m < TWO_32
    ensures |h| == HEADER_LEN
  {
    var q1 := m / 0x100;
    var q2 := q1 / 0x100;
    [q2 / 0x100, q2 % 0x100, q1 % 0x100, m % 0x100]
  }

  /** htonl of the size, as the four bytes that are appended. */
  function Header(n: nat): (h: seq<byte>)
    ensures |h| == HEADER_LEN
  {
    Digits(n % TWO_32)
  }

  /** What sendFrame hands to TcpConnection::send. */
  function Frame(p: Payload): (f: seq<byte>) {
    Header(|p|) + p
  }

  function BigEndian(a: int, b: int, c: int, d: int): int {
    a * 0x100_0000 + b * 0x1_0000 + c * 0x100 + d
  }

  /** ntohl of the first four bytes, as an int32_t. */
  function LenAt(s: seq<byte>): int
    requires |s| >= HEADER_LEN
  {
    var m := BigEndian(s[0], s[1], s[2], s[3]);
    if m < TWO_31 then m else m - TWO_32
  }

  lemma BigEndianDigits(m: nat)
    requires m < TWO_32
    ensures var h := Digits(m); BigEndian(h[0], h[1], h[2], h[3]) == m
  {
  }

  lemma HeaderRoundTrip(n: nat, tail: seq<byte>)
    ensures LenAt(Header(n) + tail) == AsInt32(n)
  {
    BigEndianDigits(n % TWO_32);
  }

  /** The four bytes on the wire, most significant first. */
  lemma HeaderBytes(n: nat)
    requires n < 0x1_0000_0000
    ensures |Header(n)| == 4
    ensures var a: int, b: int, c: int, d: int := Header(n)[0], Header(n)[1], Header(n)[2], Header(n)[3];
      n == a * 0x100_0000 + b * 0x1_0000 + c * 0x100 + d
  {
    HeaderIs(n);
    BigEndianDigits(n);
    hide Digits, Header;
  }

  lemma HeaderIs(n: nat)
    requires n < TWO_32
    ensures Header(n) == Digits(n)
  {
    hide Digits;
  }

  /** And what they are read as: a two's complement number of 32 bits. */
  lemma LenBytes(s: seq<byte>)
    requires |s| >= 4
    ensures var a: int, b: int, c: int, d: int := s[0], s[1], s[2], s[3];
      LenAt(s) == (if a < 0x80 then a else a - 0x100) * 0x100_0000 + b * 0x1_0000 + c * 0x100 + d
  {
  }

  predicate Sendable(p: Payload) {
    1 <= |p| <= MAX_FRAME
  }

  ghost predicate AllSendable(ps: seq<Payload>) {
    forall p <- ps :: Sendable(p)
  }

  predicate BadHead(s: seq<byte>) {
    |s| >= HEADER_LEN && !(0 < LenAt(s) <= MAX_FRAME)
  }

  /** No complete, valid frame at the head. */
  predicate Blocked(s: seq<byte>) {
    |s| < HEADER_LEN || BadHead(s) || |s| < HEADER_LEN + LenAt(s)
  }

  /** The length is read from the first four bytes only. */
  lemma SameHead(s: seq<byte>, t: seq<byte>)
    requires |s| >= HEADER_LEN && s <= t
    ensures LenAt(s) == LenAt(t)
  {
    assert forall i | 0 <= i < HEADER_LEN :: s[i] == t[i];
  }

  /** A carried payload can be read back off the head of the stream. */
  lemma FrameHead(p: Payload, tail: seq<byte>)
    requires Sendable(p)
    ensures var s := Frame(p) + tail;
      && |s| == HEADER_LEN + |p| + |tail|
      && LenAt(s) == |p|
      && s[HEADER_LEN..HEADER_LEN + |p|] == p
      && s[HEADER_LEN + |p|..] == tail
  {
    assert Frame(p) + tail == Header(|p|) + (p + tail);
    HeaderRoundTrip(|p|, p + tail);
  }

  /** The bytes of a sequence of frames. */
  function Stream(ps: seq<Payload>): seq<byte> {
    if ps == [] then [] else Frame(ps[0]) + Stream(ps[1..])
  }

  lemma {:induction false} StreamAppend(a: seq<Payload>, b: seq<Payload>)
    ensures Stream(a + b) == Stream(a) + Stream(b)
  {
    if a == [] {
      assert a + b == b;
    } else {
      assert (a + b)[1..] == a[1..] + b;
      StreamAppend(a[1..], b);
    }
  }

  lemma StreamSnoc(a: seq<Payload>, p: Payload)
    ensures Stream(a + [p]) == Stream(a) + Frame(p)
  {
    StreamAppend(a, [p]);
    assert [p][1..] == [] && Stream([p]) == Frame(p) + Stream([]);
  }

  // ---- the receiving loop ----

  datatype Dispatched = Dispatched(frames: seq<Payload>, rest: seq<byte>, stuck: bool)

  /** One pass of the onMessage loop over the readable bytes s: payloads handed to the service,
      bytes left in the buffer, and whether it gave up on an invalid length. */
  function Dispatch(s: seq<byte>): (d: Dispatched)
    decreases |s|
  {
    if |s| < HEADER_LEN then Dispatched([], s, false)
    else if BadHead(s) then Dispatched([], s, true)
    else if AsInt32(|s|) < HEADER_LEN + LenAt(s) || |s| < HEADER_LEN + LenAt(s) then Dispatched([], s, false)
    else
      var n := HEADER_LEN + LenAt(s);
      var d := Dispatch(s[n..]);
      d.(frames := [s[HEADER_LEN..n]] + d.frames)
  }

  /** The int32_t comparison never lets an incomplete frame through. */
  lemma CastIsConservative(n: nat, need: nat)
    requires AsInt32(n) >= need
    ensures n >= need
  {
  }

  /** The three exits of the loop and its one step, for a head whose length field is len. */
  lemma DispatchUnfold(s: seq<byte>, len: int)
    requires |s| >= HEADER_LEN && len == LenAt(s)
    ensures len <= 0 || len > MAX_FRAME ==> Dispatch(s) == Dispatched([], s, true)
    ensures 0 < len <= MAX_FRAME && AsInt32(|s|) < HEADER_LEN + len ==> Dispatch(s) == Dispatched([], s, false)
    ensures 0 < len <= MAX_FRAME && AsInt32(|s|) >= HEADER_LEN + len ==>
              && |s| >= HEADER_LEN + len
              && Dispatch(s) == Prepend([s[HEADER_LEN..HEADER_LEN + len]], Dispatch(s[HEADER_LEN + len..]))
  {
    hide LenAt;
    if 0 < len <= MAX_FRAME && AsInt32(|s|) >= HEADER_LEN + len {
      CastIsConservative(|s|, HEADER_LEN + len);
    }
  }

  /** Which lengths are taken: 1 to 16777216, and only once the whole frame is there. */
  lemma FirstFrame(s: seq<byte>)
    ensures |s| < 4 ==> Dispatch(s) == Dispatched([], s, false)
    ensures |s| >= 4 && (LenAt(s) <= 0 || LenAt(s) > 16777216) ==> Dispatch(s) == Dispatched([], s, true)
    ensures |s| >= 4 && 1 <= LenAt(s) <= 16777216 && |s| < 4 + LenAt(s) ==> Dispatch(s) == Dispatched([], s, false)
    ensures |s| >= 4 && 1 <= LenAt(s) <= 16777216 && 4 + LenAt(s) <= |s| < 0x8000_0000 ==>
              Dispatch(s).frames != [] && Dispatch(s).frames[0] == s[4..4 + LenAt(s)]
  {
    hide LenAt, Dispatch;
    if |s| >= HEADER_LEN {
      DispatchUnfold(s, LenAt(s));
    } else {
      ShortHead(s);
    }
    if |s| >= HEADER_LEN && 1 <= LenAt(s) <= MAX_FRAME && AsInt32(|s|) >= HEADER_LEN + LenAt(s) {
      CastIsConservative(|s|, HEADER_LEN + LenAt(s));
    }
  }

  lemma ShortHead(s: seq<byte>)
    requires |s| < HEADER_LEN
    ensures Dispatch(s) == Dispatched([], s, false)
  {
  }

  /** Consumes the length prefix and takes out the payload. */
  method TakeFrame(buffer: Buffer, len: nat) returns (payload: Payload)
    requires buffer.Valid() && |buffer.Contents()| >= HEADER_LEN + len
    modifies buffer
    ensures buffer.Valid() && buffer.data == old(buffer.data)
    ensures payload == old(buffer.Contents()[HEADER_LEN..HEADER_LEN + len])
    ensures buffer.Contents() == old(buffer.Contents()[HEADER_LEN + len..])
  {
    ghost var before := buffer.Contents();
    buffer.Retrieve(HEADER_LEN);
    payload := buffer.RetrieveAsString(len);
    TwoParts(before, payload, buffer.Contents());
  }

  lemma TwoParts(s: seq<byte>, p: Payload, rest: seq<byte>)
    requires |s| >= HEADER_LEN && s[HEADER_LEN..] == p + rest
    ensures p == s[HEADER_LEN..HEADER_LEN + |p|] && rest == s[HEADER_LEN + |p|..]
  {
    assert p == s[HEADER_LEN..][..|p|] && rest == s[HEADER_LEN..][|p|..];
  }

  /** What one turn of the onMessage loop finds at the head of the buffer. */
  datatype Next = Wait | BadLength | Whole(payload: Payload)

  /** One turn: leave the buffer alone, or take a frame out of it. */
  method NextFrame(buffer: Buffer) returns (next: Next)
    requires buffer.Valid() && |buffer.Contents()| >= HEADER_LEN
    modifies buffer
    ensures buffer.Valid() && buffer.data == old(buffer.data)
    ensures !next.Whole? ==> buffer.Contents() == old(buffer.Contents())
    ensures var s, t := old(buffer.Contents()), buffer.Contents();
      match next
      case Wait => Dispatch(s) == Dispatched([], s, false)
      case BadLength => Dispatch(s) == Dispatched([], s, true)
      case Whole(p) => Dispatch(s) == Prepend([p], Dispatch(t)) && |t| < |s|
  {
    hide LenAt, Dispatch;
    ghost var before := buffer.Contents();
    var readable := buffer.ReadableBytes();
    var head := buffer.Peek(HEADER_LEN);
    var len := LenAt(head);
    SameHead(head, before);
    DispatchUnfold(before, len);
    if len <= 0 || len > MAX_FRAME {
      return BadLength;
    }
    if AsInt32(readable) < HEADER_LEN + len {
      return Wait;
    }
    var payload := TakeFrame(buffer, len);
    return Whole(payload);
  }

  function Prepend(frames: seq<Payload>, d: Dispatched): Dispatched {
    d.(frames := frames + d.frames)
  }

  // ---- what a received stream means ----

  /** got is exactly the frames dispatched so far followed by the bytes still buffered. */
  ghost predicate Reading(got: seq<byte>, frames: seq<Payload>, rest: seq<byte>) {
    got == Stream(frames) + rest && AllSendable(frames)
  }

  /** And the buffer holds no further complete frame. */
  ghost predicate Received(got: seq<byte>, frames: seq<Payload>, rest: seq<byte>) {
    Reading(got, frames, rest) && Blocked(rest)
  }

  /** The bytes at a valid head are what sendFrame would have written for that payload. */
  lemma HeadIsFrame(s: seq<byte>)
    requires |s| >= HEADER_LEN && !BadHead(s) && |s| >= HEADER_LEN + LenAt(s)
    ensures var n := HEADER_LEN + LenAt(s); s == Frame(s[HEADER_LEN..n]) + s[n..]
  {
    HeadBytes(s);
    var n := HEADER_LEN + LenAt(s);
    hide LenAt, Header;
    var p := s[HEADER_LEN..n];
    assert Frame(p) == s[..HEADER_LEN] + p;
    assert s == (s[..HEADER_LEN] + p) + s[n..];
  }

  lemma DigitsBigEndian(a: byte, b: byte, c: byte, d: byte)
    ensures 0 <= BigEndian(a, b, c, d) < TWO_32 && Digits(BigEndian(a, b, c, d)) == [a, b, c, d]
  {
    var m, q2 := BigEndian(a, b, c, d), a as int * 0x100 + b;
    assert m / 0x100 == q2 * 0x100 + c && m / 0x100 / 0x100 == q2;
  }

  lemma HeadBytes(s: seq<byte>)
    requires |s| >= HEADER_LEN && !BadHead(s)
    ensures s[..HEADER_LEN] == Header(LenAt(s))
  {
    hide BigEndian, Digits;
    DigitsBigEndian(s[0], s[1], s[2], s[3]);
    assert LenAt(s) == BigEndian(s[0], s[1], s[2], s[3]);
  }

  /** Nothing is lost, reordered or invented by one pass. */
  lemma {:induction false} DispatchConserves(s: seq<byte>)
    ensures var d := Dispatch(s);
      && s == Stream(d.frames) + d.rest
      && AllSendable(d.frames)
      && (d.stuck <==> BadHead(d.rest))
    decreases |s|
  {
    hide LenAt, Frame;
    var d := Dispatch(s);
    if d.frames != [] {
      var n := HEADER_LEN + LenAt(s);
      DispatchConserves(s[n..]);
      HeadIsFrame(s);
      var d' := Dispatch(s[n..]);
      assert d.frames[1..] == d'.frames;
      Assoc(Frame(d.frames[0]), Stream(d'.frames), d.rest);
    }
  }

  lemma {:induction false} DispatchKeepsWindow(s: seq<byte>)
    requires |s| >= TWO_31
    ensures |Dispatch(s).rest| >= TWO_31
    decreases |s|
  {
    if Dispatch(s).frames != [] {
      DispatchKeepsWindow(s[HEADER_LEN + LenAt(s)..]);
    }
  }

  lemma {:induction false} DispatchDrains(s: seq<byte>)
    requires |s| < TWO_31
    ensures Blocked(Dispatch(s).rest)
    decreases |s|
  {
    if Dispatch(s).frames != [] {
      DispatchDrains(s[HEADER_LEN + LenAt(s)..]);
    }
  }

  /** The cast of readableBytes() to int32_t decides when the loop leaves a complete frame
      behind: never below 2^31 bytes, always from there on unless it met an invalid length. */
  lemma {:induction false} DispatchExact(s: seq<byte>)
    ensures Blocked(Dispatch(s).rest) <==> |s| < TWO_31 || Dispatch(s).stuck
    ensures TWO_31 <= |s| < TWO_32 ==> (Blocked(Dispatch(s).rest) <==> BadHead(s))
  {
    DispatchConserves(s);
    if |s| < TWO_31 {
      DispatchDrains(s);
    } else {
      DispatchKeepsWindow(s);
    }
  }

  /** A witness: one complete one-byte frame followed by 2^31 bytes is not dispatched at all. */
  lemma CastStallExample() returns (s: seq<byte>)
    ensures Dispatch(s).frames == [] && !Dispatch(s).stuck && !Blocked(s)
  {
    var tail := seq(TWO_31, _ => 0);
    s := Header(1) + ([0] + tail);
    HeaderRoundTrip(1, [0] + tail);
  }

  // ---- unique decoding ----

  /** If the bytes of f and a leftover are a prefix of the bytes of g and a blocked leftover, then f
      is a prefix of g. */
  lemma {:induction false} StreamPrefix(f: seq<Payload>, r: seq<byte>, g: seq<Payload>, q: seq<byte>)
    requires AllSendable(f) && AllSendable(g) && Blocked(q)
    requires Stream(f) + r <= Stream(g) + q
    ensures f <= g
    decreases |f|
  {
    hide LenAt, Frame;
    if f != [] {
      var s, t := Stream(f) + r, Stream(g) + q;
      var fr := Stream(f[1..]) + r;
      assert s == Frame(f[0]) + fr;
      assert g == [] ==> t == q;
      FrameHead(f[0], fr);
      SameHead(s, t);
      if g == [] {
        assert false;
      } else {
        var gr := Stream(g[1..]) + q;
        assert t == Frame(g[0]) + gr;
        FrameHead(g[0], gr);
        var n := HEADER_LEN + |f[0]|;
        assert s[HEADER_LEN..n] == t[HEADER_LEN..n] && s[n..] <= t[n..];
        StreamPrefix(f[1..], r, g[1..], q);
      }
    }
  }

  /** Every stream has at most one reading that leaves no complete frame. */
  lemma ReceivedUnique(s: seq<byte>, f: seq<Payload>, r: seq<byte>, g: seq<Payload>, q: seq<byte>)
    requires Received(s, f, r) && Received(s, g, q)
    ensures f == g && r == q
  {
    StreamPrefix(f, r, g, q);
    StreamPrefix(g, q, f, r);
    assert f == g[..|f|] == g;
    assert r == s[|Stream(f)|..] == q;
  }

  /** Of two readings of a stream and of a prefix of it, one goes on where the other stops. */
  lemma {:induction false} StreamComparable(f: seq<Payload>, r: seq<byte>, g: seq<Payload>, q: seq<byte>)
    requires AllSendable(f) && AllSendable(g)
    requires Stream(f) + r <= Stream(g) + q
    ensures f <= g || g <= f
    decreases |f|
  {
    hide LenAt, Frame;
    if f != [] && g != [] {
      var s, t := Stream(f) + r, Stream(g) + q;
      var fr, gr := Stream(f[1..]) + r, Stream(g[1..]) + q;
      assert s == Frame(f[0]) + fr && t == Frame(g[0]) + gr;
      FrameHead(f[0], fr);
      FrameHead(g[0], gr);
      SameHead(s, t);
      var n := HEADER_LEN + |f[0]|;
      assert s[HEADER_LEN..n] == t[HEADER_LEN..n] && s[n..] <= t[n..];
      StreamComparable(f[1..], r, g[1..], q);
    }
  }

  // ---- arrival in chunks ----

  datatype Receiver = Receiver(frames: seq<Payload>, pending: seq<byte>)

  /** handleRead followed by onMessage for one chunk. */
  function Arrive(r: Receiver, chunk: seq<byte>): Receiver {
    var d := Dispatch(r.pending + chunk);
    Receiver(r.frames + d.frames, d.rest)
  }

  function ArriveAll(r: Receiver, chunks: seq<seq<byte>>): Receiver {
    if chunks == [] then r else Arrive(ArriveAll(r, chunks[..|chunks| - 1]), chunks[|chunks| - 1])
  }

  /** With this chunk the readable bytes stay within int32_t, unless the pass ends at an invalid length. */
  predicate Fits(pending: seq<byte>, chunk: seq<byte>) {
    |pending| + |chunk| < TWO_31 || Dispatch(pending + chunk).stuck
  }

  /** So does every read of the sequence. The total is not bounded. */
  ghost predicate AllFit(chunks: seq<seq<byte>>) {
    chunks == [] ||
    var init := chunks[..|chunks| - 1];
    AllFit(init) && Fits(ArriveAll(Receiver([], []), init).pending, chunks[|chunks| - 1])
  }

  lemma Assoc(a: seq<byte>, b: seq<byte>, c: seq<byte>)
    ensures (a + b) + c == a + (b + c)
  {
  }

  /** A pass never loses, reorders or invents anything, and leaves no complete frame behind if and only
      if the chunk fits. */
  lemma ArriveKeepsReceived(got: seq<byte>, r: Receiver, chunk: seq<byte>)
    requires Reading(got, r.frames, r.pending)
    ensures var r' := Arrive(r, chunk);
      && Reading(got + chunk, r'.frames, r'.pending)
      && (Received(got + chunk, r'.frames, r'.pending) <==> Fits(r.pending, chunk))
  {
    hide Dispatch, Stream, Blocked;
    var s := r.pending + chunk;
    var d := Dispatch(s);
    DispatchConserves(s);
    StreamAppend(r.frames, d.frames);
    Assoc(Stream(r.frames), r.pending, chunk);
    Assoc(Stream(r.frames), Stream(d.frames), d.rest);
    DispatchExact(s);
  }

  lemma {:induction false} ArriveAllReceived(chunks: seq<seq<byte>>)
    ensures var r := ArriveAll(Receiver([], []), chunks);
      && Reading(Flatten(chunks), r.frames, r.pending)
      && (AllFit(chunks) ==> Received(Flatten(chunks), r.frames, r.pending))
  {
    if chunks != [] {
      hide Reading, Received;
      var init := chunks[..|chunks| - 1];
      ArriveAllReceived(init);
      ArriveKeepsReceived(Flatten(init), ArriveAll(Receiver([], []), init), chunks[|chunks| - 1]);
    }
  }

  /** Framing is independent of how the stream is cut into reads. */
  lemma ChunkingIrrelevant(a: seq<seq<byte>>, b: seq<seq<byte>>)
    requires AllFit(a) && AllFit(b) && Flatten(a) == Flatten(b)
    ensures ArriveAll(Receiver([], []), a) == ArriveAll(Receiver([], []), b)
  {
    ArriveAllReceived(a);
    ArriveAllReceived(b);
    var ra, rb := ArriveAll(Receiver([], []), a), ArriveAll(Receiver([], []), b);
    ReceivedUnique(Flatten(a), ra.frames, ra.pending, rb.frames, rb.pending);
  }

  lemma BadHeadIsNotStream(r: seq<byte>, g: seq<Payload>, q: seq<byte>)
    requires BadHead(r) && AllSendable(g) && r <= Stream(g) + q
    ensures g == []
  {
    hide LenAt, Frame;
    if g != [] {
      var tail := Stream(g[1..]) + q;
      assert Stream(g) + q == Frame(g[0]) + tail;
      FrameHead(g[0], tail);
      SameHead(r, Stream(g) + q);
      assert false;
    }
  }

  lemma BadHeadAbsorbs(f: seq<Payload>, r: seq<byte>, g: seq<Payload>, q: seq<byte>)
    requires f <= g && AllSendable(g) && BadHead(r)
    requires Stream(f) + r <= Stream(g) + q
    ensures f == g && r <= q
  {
    hide LenAt, Frame;
    var more := g[|f|..];
    assert g == f + more;
    StreamAppend(f, more);
    Assoc(Stream(f), Stream(more), q);
    assert r == (Stream(f) + r)[|Stream(f)|..];
    assert Stream(more) + q == (Stream(g) + q)[|Stream(f)|..];
    BadHeadIsNotStream(r, more, q);
    assert g == f;
  }

  /** A prefix of the stream, however it was cut, dispatches a prefix of the payloads of the whole; once
      the head is invalid nothing is ever dispatched again. */
  lemma PrefixAndAbsorption(a: seq<seq<byte>>, b: seq<seq<byte>>)
    requires AllFit(b) && Flatten(a) <= Flatten(b)
    ensures var ra, rb := ArriveAll(Receiver([], []), a), ArriveAll(Receiver([], []), b);
      && ra.frames <= rb.frames
      && (BadHead(ra.pending) ==> ra.frames == rb.frames && ra.pending <= rb.pending)
  {
    hide LenAt, Frame;
    ArriveAllReceived(a);
    ArriveAllReceived(b);
    var ra, rb := ArriveAll(Receiver([], []), a), ArriveAll(Receiver([], []), b);
    StreamPrefix(ra.frames, ra.pending, rb.frames, rb.pending);
    if BadHead(ra.pending) {
      BadHeadAbsorbs(ra.frames, ra.pending, rb.frames, rb.pending);
    }
  }

  /** Which payloads sendFrame can carry: the receiver's first dispatch is exactly p if and only
      if p has between 1 byte and 16 MiB (and the int32_t comparison does not wrap). Otherwise it waits
      for more when only the comparison wraps, and gives up on any other p the header can describe. */
  lemma SendableExact(p: Payload, tail: seq<byte>)
    ensures var s := Frame(p) + tail;
      var d, wraps := Dispatch(s), AsInt32(|s|) < HEADER_LEN + |p|;
      && (d.frames != [] && d.frames[0] == p <==> Sendable(p) && !wraps)
      && (Sendable(p) && wraps ==> d == Dispatched([], s, false))
      && (!Sendable(p) && |p| < TWO_32 ==> d == Dispatched([], s, true))
  {
    var s := Frame(p) + tail;
    assert s == Header(|p|) + (p + tail);
    HeaderRoundTrip(|p|, p + tail);
    if Dispatch(s).frames != [] {
      var n := HEADER_LEN + LenAt(s);
      assert |s[HEADER_LEN..n]| == LenAt(s);
      if Sendable(p) {
        assert s[HEADER_LEN..n] == p;
      }
    }
  }

  /** A larger payload is announced by its size modulo 2^32. When that is a valid length, so many of its
      first bytes are dispatched as a payload of their own: one byte of a payload of 2^32 + 1. */
  lemma GiantFragment(p: Payload)
    requires |p| >= TWO_32 && 1 <= |p| % TWO_32 <= MAX_FRAME
    ensures var fs := Dispatch(Frame(p)).frames; fs != [] && fs[0] == p[..|p| % TWO_32]
  {
    hide LenAt, Dispatch, Header, AsInt32;
    var s, n := Frame(p), |p| % TWO_32;
    HeaderRoundTrip(|p|, p);
    SmallRemainder(|p|);
    DispatchUnfold(s, n);
    assert s[HEADER_LEN..HEADER_LEN + n] == p[..n];
  }

  lemma SmallRemainder(n: nat)
    requires n % TWO_32 <= MAX_FRAME
    ensures AsInt32(n) == n % TWO_32 && AsInt32(HEADER_LEN + n) == HEADER_LEN + n % TWO_32
  {
    assert (HEADER_LEN + n) % TWO_32 == HEADER_LEN + n % TWO_32;
  }

  /** The payloads before the first one that sendFrame cannot carry. */
  function Carried(ps: seq<Payload>): (good: seq<Payload>)
    ensures good <= ps && AllSendable(good)
    ensures |good| < |ps| ==> !Sendable(ps[|good|])
  {
    if ps == [] || !Sendable(ps[0]) then [] else [ps[0]] + Carried(ps[1..])
  }

  /** From a prefix of the framed payloads, however large they are, the receiver has dispatched a prefix of
      those before the first unsendable one, each whole; or, if that one has 2^32 bytes or more, all of
      them and then possibly fragments. */
  lemma ReadingOfStream(got: seq<byte>, frames: seq<Payload>, rest: seq<byte>, sent: seq<Payload>)
    requires Reading(got, frames, rest) && got <= Stream(sent)
    ensures var good := Carried(sent);
      frames <= good || (good <= frames && |good| < |sent| && |sent[|good|]| >= TWO_32)
  {
    hide Frame, LenAt, Dispatch;
    var good := Carried(sent);
    if good == sent {
      assert Stream(sent) + [] == Stream(sent);
      StreamPrefix(frames, rest, good, []);
    } else {
      var bad, more := sent[|good|], sent[|good| + 1..];
      var q := Frame(bad) + Stream(more);
      assert sent == good + ([bad] + more) && ([bad] + more)[1..] == more;
      StreamAppend(good, [bad] + more);
      StreamComparable(frames, rest, good, q);
      if |bad| < TWO_32 {
        BadFrameBlocks(bad, Stream(more));
        StreamPrefix(frames, rest, good, q);
      }
    }
  }

  lemma BadFrameBlocks(bad: Payload, tail: seq<byte>)
    requires !Sendable(bad) && |bad| < TWO_32
    ensures Blocked(Frame(bad) + tail)
  {
    SendableExact(bad, tail);
    DispatchConserves(Frame(bad) + tail);
  }

  /** What the receiver got is a prefix of what was framed, and it has left no complete frame: it has
      dispatched a prefix of the payloads, and all of them when it got everything. */
  lemma ReceivedFromStream(got: seq<byte>, frames: seq<Payload>, rest: seq<byte>, sent: seq<Payload>)
    requires Received(got, frames, rest) && AllSendable(sent)
    requires got <= Stream(sent)
    ensures frames <= sent
    ensures got == Stream(sent) ==> frames == sent && rest == []
  {
    assert Stream(sent) == Stream(sent) + [];
    StreamPrefix(frames, rest, sent, []);
    if got == Stream(sent) {
      assert Received(got, sent, []);
      ReceivedUnique(got, frames, rest, sent, []);
    }
  }
}
