/** The protobuf subset written by hand in the stress client: varints, fields, the BaseMessage envelope
    and the splitting of received bytes into frames. */
module Codec {
  import opened Sequences
  import opened Framing

  const TWO_64: nat := 0x1_0000_0000_0000_0000

  // ---- Base 128 Varints ----

  /** The canonical encoding of a natural number. */
  function Varint(n: nat): (s: seq<byte>)
    ensures |s| >= 1
  {
    if n < 128 then [n] else [n % 128 + 128] + Varint(n / 128)
  }

  /** Arithmetic form of the Python loop: & 0x7F and >> 7 are % 128 and / 128. */
  method EncodeVarint(value: int) returns (out: seq<byte>)
    ensures out == Varint(value % TWO_64)
  {
    out := [];
    var v := value % TWO_64;
    while true
      invariant 0 <= v && out + Varint(v) == Varint(value % TWO_64)
      decreases v
    {
      var b := v % 128;
      ghost var before := v;
      v := v / 128;
      if v != 0 {
        assert Varint(before) == [b + 128] + Varint(v);
        assert out + ([b + 128] + Varint(v)) == (out + [b + 128]) + Varint(v);
        out := out + [b + 128];
      } else {
        out := out + [b];
        return;
      }
    }
  }

  datatype Scan = Truncated | Read(value: nat, next: nat)

  /** The number whose base-128 digits start at pos, least significant first. */
  function VarintAt(data: seq<byte>, pos: nat): (r: Scan)
    ensures r.Read? ==> pos < r.next <= |data|
    decreases |data| - pos
  {
    if pos >= |data| then Truncated
    else if data[pos] < 128 then Read(data[pos], pos + 1)
    else
      match VarintAt(data, pos + 1)
      case Truncated => Truncated
      case Read(v, next) => Read(data[pos] - 128 + 128 * v, next)
  }

  /** _decode_varint keeps 64 bits of the result. */
  function Uint64At(data: seq<byte>, pos: nat): (r: Scan)
    ensures r.Read? ==> pos < r.next <= |data| && r.value < TWO_64
  {
    match VarintAt(data, pos)
    case Truncated => Truncated
    case Read(v, next) => Read(v % TWO_64, next)
  }

  /** A number whose low digits are known, with v above them. */
  function Above(result: nat, scale: nat, v: nat): nat {
    result + scale * v
  }

  lemma OneDigit(result: nat, scale: nat, digit: nat, v: nat)
    requires result < scale && digit < 128
    ensures Above(result, scale, digit + 128 * v) == Above(Above(result, scale, digit), scale * 128, v)
    ensures Above(result, scale, digit) < scale * 128
  {
    assert scale * digit <= scale * 127;
  }

  /** The scan from start, given the one from pos after digits worth result. */
  function Resume(result: nat, scale: nat, r: Scan): Scan {
    match r
    case Truncated => Truncated
    case Read(v, next) => Read(Above(result, scale, v), next)
  }

  lemma ResumeNext(data: seq<byte>, pos: nat, result: nat, scale: nat)
    requires pos < |data| && data[pos] >= 128 && result < scale
    ensures var digit := data[pos] - 128;
      && Resume(result, scale, VarintAt(data, pos))
         == Resume(Above(result, scale, digit), scale * 128, VarintAt(data, pos + 1))
      && Above(result, scale, digit) < scale * 128
  {
    hide Above;
    OneDigit(result, scale, data[pos] - 128, 0);
    match VarintAt(data, pos + 1)
    case Truncated =>
    case Read(v, next) => OneDigit(result, scale, data[pos] - 128, v);
  }

  /** The Python loop; result |= digit << shift adds, as result stays below the shifted bit. */
  method DecodeVarint(data: seq<byte>, start: nat) returns (r: Scan)
    ensures r == Uint64At(data, start)
  {
    var pos, scale, result := start, 1, 0;
    assert Resume(0, 1, VarintAt(data, start)) == VarintAt(data, start);
    while true
      invariant result < scale
      invariant Resume(result, scale, VarintAt(data, pos)) == VarintAt(data, start)
      decreases |data| - pos
    {
      hide Above;
      if pos >= |data| {
        return Truncated;
      }
      var b := data[pos];
      pos := pos + 1;
      if b < 128 {
        return Read(Above(result, scale, b) % TWO_64, pos);
      }
      ResumeNext(data, pos - 1, result, scale);
      result, scale := Above(result, scale, b - 128), scale * 128;
    }
  }

  lemma {:induction false} VarintRoundTrip(n: nat, pre: seq<byte>, tail: seq<byte>)
    ensures VarintAt(pre + Varint(n) + tail, |pre|) == Read(n, |pre + Varint(n)|)
    decreases n
  {
    var data := pre + Varint(n) + tail;
    assert data[|pre|] == Varint(n)[0];
    if n >= 128 {
      var d: byte := n % 128 + 128;
      assert pre + Varint(n) == (pre + [d]) + Varint(n / 128);
      VarintRoundTrip(n / 128, pre + [d], tail);
    }
  }

  // ---- the bytes of a varint ----

  /** n >> 7 * i. */
  function Shift(n: nat, i: nat): nat {
    if i == 0 then n else Shift(n / 128, i - 1)
  }

  /** These are the base-128 digits of n, least significant first, each with its continuation bit. */
  ghost predicate DigitsOf(s: seq<byte>, n: nat) {
    && s != []
    && (forall i | 0 <= i < |s| - 1 :: s[i] >= 128)
    && s[|s| - 1] < 128
    && (forall i | 0 <= i < |s| :: s[i] % 128 == Shift(n, i) % 128)
    && Shift(n, |s|) == 0
  }

  lemma DigitsMore(b: byte, s: seq<byte>, n: nat)
    requires DigitsOf(s, n / 128) && b >= 128 && b % 128 == n % 128
    ensures DigitsOf([b] + s, n)
  {
    var t := [b] + s;
    assert forall i | 0 < i < |t| :: t[i] == s[i - 1];
    forall i | 0 <= i < |t| ensures t[i] % 128 == Shift(n, i) % 128 {
      if i > 0 {
        assert s[i - 1] % 128 == Shift(n / 128, i - 1) % 128;
      }
    }
  }

  /** The encoding is the digits of n and no more of them than needed. */
  lemma {:induction false} VarintBytes(n: nat)
    ensures var s := Varint(n); DigitsOf(s, n) && (|s| > 1 ==> s[|s| - 1] != 0)
  {
    if n >= 128 {
      VarintBytes(n / 128);
      DigitsMore(n % 128 + 128, Varint(n / 128), n);
    }
  }

  /** Decoding reads the digits up to the first byte without a continuation bit, needed or not; it fails
      exactly when there is none. */
  lemma {:induction false} VarintAtBytes(data: seq<byte>, pos: nat)
    requires pos <= |data|
    ensures VarintAt(data, pos) == Truncated <==> forall i | pos <= i < |data| :: data[i] >= 128
    ensures match VarintAt(data, pos) case Truncated => true
            case Read(v, next) => DigitsOf(data[pos..next], v)
    decreases |data| - pos
  {
    hide DigitsOf;
    if pos < |data| && data[pos] >= 128 {
      VarintAtBytes(data, pos + 1);
      match VarintAt(data, pos + 1)
      case Truncated =>
      case Read(v, next) =>
        assert data[pos..next] == [data[pos]] + data[pos + 1..next];
        OneMore(data[pos], v);
        DigitsMore(data[pos], data[pos + 1..next], data[pos] - 128 + 128 * v);
    } else if pos < |data| {
      OneByte(data[pos]);
      assert data[pos..pos + 1] == [data[pos]];
    }
  }

  lemma OneMore(b: byte, v: nat)
    requires b >= 128
    ensures (b - 128 + 128 * v) / 128 == v && (b - 128 + 128 * v) % 128 == b % 128
  {
  }

  lemma OneByte(b: byte)
    requires b < 128
    ensures DigitsOf([b], b)
  {
  }

  /** A varint cut short is recognised as such, wherever it stands and wherever it is cut. */
  lemma {:induction false} VarintCut(n: nat, pre: seq<byte>, k: nat)
    requires k < |Varint(n)|
    ensures VarintAt(pre + Varint(n)[..k], |pre|) == Truncated
    decreases n
  {
    if k > 0 {
      var d: byte := n % 128 + 128;
      assert pre + Varint(n)[..k] == (pre + [d]) + Varint(n / 128)[..k - 1];
      VarintCut(n / 128, pre + [d], k - 1);
    }
  }

  lemma Uint64RoundTrip(n: nat, pre: seq<byte>, tail: seq<byte>)
    requires n < TWO_64
    ensures Uint64At(pre + Varint(n) + tail, |pre|) == Read(n, |pre + Varint(n)|)
  {
    VarintRoundTrip(n, pre, tail);
  }

  // ---- Message Structure ----

  datatype Value = Num(n: int) | Raw(bytes: seq<byte>)

  datatype Field = Field(id: nat, value: Value)

  /** _field_varint and _field_length. */
  function EncodeField(f: Field): seq<byte> {
    match f.value
    case Num(n) => Varint(f.id * 8 % TWO_64) + Varint(n % TWO_64)
    case Raw(b) => Varint((f.id * 8 + 2) % TWO_64) + Varint(|b| % TWO_64) + b
  }

  function EncodeFields(fs: seq<Field>): seq<byte> {
    if fs == [] then [] else EncodeField(fs[0]) + EncodeFields(fs[1..])
  }

  datatype Fields = Invalid | Decoded(fs: seq<Field>)

  function Prepend(fs: seq<Field>, r: Fields): Fields {
    match r
    case Invalid => Invalid
    case Decoded(gs) => Decoded(fs + gs)
  }

  /** The outcome of reading one field: the field if there is one, and the next position, or the end. */
  datatype One = Failed | Got(fs: seq<Field>, next: nat) | Halt

  /** One turn of the loop of decode_scalar_fields. */
  function FieldAt(data: seq<byte>, pos: nat): (o: One)
    ensures o.Got? ==> o.next > pos && |o.fs| <= 1
  {
    match Uint64At(data, pos)
    case Truncated => Failed
    case Read(tag, p) =>
      var id := tag / 8;
      match tag % 8
      case 0 => (
        match Uint64At(data, p)
        case Truncated => Failed
        case Read(v, q) => Got([Field(id, Num(v))], q))
      case 2 => (
        match Uint64At(data, p)
        case Truncated => Failed
        // a slice that runs past the end is cut short
        case Read(n, q) => Got([Field(id, Raw(data[q..Min(q + n, |data|)]))], q + n))
      case 1 => Got([], p + 8)
      case 5 => Got([], p + 4)
      case _ => Halt
  }

  method DecodeField(data: seq<byte>, start: nat) returns (o: One)
    ensures o == FieldAt(data, start)
  {
    var tag := DecodeVarint(data, start);
    if tag.Truncated? {
      return Failed;
    }
    var wire, id, pos := tag.value % 8, tag.value / 8, tag.next;
    if wire == 0 || wire == 2 {
      var r := DecodeVarint(data, pos);
      if r.Truncated? {
        return Failed;
      }
      if wire == 0 {
        return Got([Field(id, Num(r.value))], r.next);
      }
      return Got([Field(id, Raw(data[r.next..Min(r.next + r.value, |data|)]))], r.next + r.value);
    } else if wire == 1 {
      return Got([], pos + 8);
    } else if wire == 5 {
      return Got([], pos + 4);
    }
    return Halt;
  }

  /** The five kinds of field, by the low three bits of the tag: a varint, a counted slice, eight bytes and
      four bytes to be skipped, and what ends the reading. */
  lemma FieldEffect(data: seq<byte>, pos: nat, tag: nat, p: nat)
    requires Uint64At(data, pos) == Read(tag, p)
    ensures tag % 8 == 0 ==>
              match Uint64At(data, p) case Truncated => FieldAt(data, pos) == Failed
              case Read(v, q) => FieldAt(data, pos) == Got([Field(tag / 8, Num(v))], q)
    ensures tag % 8 == 2 ==>
              match Uint64At(data, p) case Truncated => FieldAt(data, pos) == Failed
              case Read(n, q) =>
                && (q + n <= |data| ==> FieldAt(data, pos) == Got([Field(tag / 8, Raw(data[q..q + n]))], q + n))
                && (q + n > |data| ==> FieldAt(data, pos) == Got([Field(tag / 8, Raw(data[q..|data|]))], q + n))
    ensures tag % 8 == 1 ==> FieldAt(data, pos) == Got([], p + 8)
    ensures tag % 8 == 5 ==> FieldAt(data, pos) == Got([], p + 4)
    ensures tag % 8 in {3, 4, 6, 7} ==> FieldAt(data, pos) == Halt
  {
    hide Uint64At;
  }

  /** The bytes of a field with a small number: the tag in one byte, wire type 0 or 2. */
  lemma FieldBytes(f: Field)
    requires f.id < 16
    ensures f.value.Num? ==> EncodeField(f) == [f.id * 8] + Varint(f.value.n % TWO_64)
    ensures f.value.Raw? && |f.value.bytes| < TWO_64 ==>
              EncodeField(f) == [f.id * 8 + 2] + Varint(|f.value.bytes|) + f.value.bytes
  {
  }

  /** The fields decode_scalar_fields finds from pos on, in order; Invalid is its ValueError. */
  function FieldsAt(data: seq<byte>, pos: nat): Fields
    decreases |data| - pos
  {
    if pos >= |data| then Decoded([]) else
      match FieldAt(data, pos)
      case Failed => Invalid
      case Halt => Decoded([])
      case Got(fs, next) => Prepend(fs, FieldsAt(data, next))
  }

  lemma GroupNone()
    ensures Group([]) == map[]
  {
  }

  lemma GroupSnoc(fs: seq<Field>, f: Field)
    ensures Group(fs + [f]) == Group(fs)[f.id := Get(Group(fs), f.id) + [f.value]]
  {
    assert (fs + [f])[..|fs|] == fs;
  }

  /** The values of the fields with this number, in order. */
  function ValuesOf(fs: seq<Field>, id: nat): seq<Value> {
    if fs == [] then [] else (if fs[0].id == id then [fs[0].value] else []) + ValuesOf(fs[1..], id)
  }

  lemma {:induction false} ValuesSnoc(fs: seq<Field>, f: Field, id: nat)
    ensures ValuesOf(fs + [f], id) == ValuesOf(fs, id) + if f.id == id then [f.value] else []
  {
    if fs == [] {
      assert [f][1..] == [] && fs + [f] == [f];
    } else {
      assert (fs + [f])[1..] == fs[1..] + [f];
      ValuesSnoc(fs[1..], f, id);
    }
  }

  /** The dictionary has every field's value in the list under its number, in the order of the fields. */
  lemma {:induction false} GroupExact(fs: seq<Field>, id: nat)
    ensures Get(Group(fs), id) == ValuesOf(fs, id)
    ensures id in Group(fs) <==> ValuesOf(fs, id) != []
  {
    if fs != [] {
      var init, f := fs[..|fs| - 1], fs[|fs| - 1];
      assert fs == init + [f];
      GroupExact(init, id);
      GroupSnoc(init, f);
      ValuesSnoc(init, f, id);
    }
  }

  type Table = map<nat, seq<Value>>

  function Get(t: Table, id: nat): seq<Value> {
    if id in t then t[id] else []
  }

  /** The dictionary of lists. */
  function Group(fs: seq<Field>): Table {
    if fs == [] then map[] else
      var t, f := Group(fs[..|fs| - 1]), fs[|fs| - 1];
      t[f.id := Get(t, f.id) + [f.value]]
  }

  datatype TableResult = BadTable | Table(t: Table)

  method DecodeScalarFields(data: seq<byte>) returns (r: TableResult)
    ensures r == match FieldsAt(data, 0) case Invalid => BadTable case Decoded(fs) => Table(Group(fs))
  {
    hide FieldAt, Group, Get;
    var fields: Table, pos := map[], 0;
    ghost var done: seq<Field> := [];
    assert Prepend([], FieldsAt(data, 0)) == FieldsAt(data, 0) by {
      assert FieldsAt(data, 0).Decoded? ==> [] + FieldsAt(data, 0).fs == FieldsAt(data, 0).fs;
    }
    GroupNone();
    while pos < |data|
      invariant fields == Group(done) && FieldsAt(data, 0) == Prepend(done, FieldsAt(data, pos))
      decreases |data| - pos
    {
      var one := DecodeField(data, pos);
      match one {
        case Failed => return BadTable;
        case Halt =>
          assert done + [] == done;
          return Table(fields);
        case Got(fs, next) =>
          PrependTwice(done, fs, FieldsAt(data, next));
          if fs != [] {
            fields := fields[fs[0].id := Get(fields, fs[0].id) + [fs[0].value]];
            GroupSnoc(done, fs[0]);
            assert fs == [fs[0]];
          } else {
            assert done + fs == done;
          }
          done := done + fs;
          pos := next;
      }
    }
    assert done + [] == done;
    return Table(fields);
  }

  lemma PrependTwice(a: seq<Field>, b: seq<Field>, r: Fields)
    ensures Prepend(a, Prepend(b, r)) == Prepend(a + b, r)
  {
    if r.Decoded? {
      assert a + (b + r.fs) == (a + b) + r.fs;
    }
  }

  /** A field whose tag and length fit in 64 bits. */
  predicate Encodable(f: Field) {
    f.id * 8 + 2 < TWO_64 && (f.value.Raw? ==> |f.value.bytes| < TWO_64)
  }

  /** Integers come back as unsigned 64-bit values. */
  function Norm(f: Field): Field {
    if f.value.Num? then Field(f.id, Num(f.value.n % TWO_64)) else f
  }

  /** What a varint followed by a varint or by a counted slice reads as, wherever it stands. */
  lemma NumRoundTrip(id: nat, v: nat, pre: seq<byte>, tail: seq<byte>)
    requires id * 8 < TWO_64 && v < TWO_64
    ensures var e := Varint(id * 8) + Varint(v);
      FieldAt(pre + e + tail, |pre|) == Got([Field(id, Num(v))], |pre + e|)
  {
    hide Uint64At, Varint;
    var a, b := Varint(id * 8), Varint(v);
    assert pre + (a + b) + tail == pre + a + (b + tail) == (pre + a) + b + tail;
    Uint64RoundTrip(id * 8, pre, b + tail);
    Uint64RoundTrip(v, pre + a, tail);
  }

  lemma RawRoundTrip(id: nat, b: seq<byte>, pre: seq<byte>, tail: seq<byte>)
    requires id * 8 + 2 < TWO_64 && |b| < TWO_64
    ensures var e := Varint(id * 8 + 2) + Varint(|b|) + b;
      FieldAt(pre + e + tail, |pre|) == Got([Field(id, Raw(b))], |pre + e|)
  {
    hide Uint64At, Varint;
    var t, v := Varint(id * 8 + 2), Varint(|b|);
    var data := pre + (t + v + b) + tail;
    assert data == pre + t + (v + b + tail);
    assert data == (pre + t) + v + (b + tail);
    Uint64RoundTrip(id * 8 + 2, pre, v + b + tail);
    Uint64RoundTrip(|b|, pre + t, b + tail);
    var q := |(pre + t) + v|;
    assert data[q..q + |b|] == b;
    assert (id * 8 + 2) % 8 == 2 && (id * 8 + 2) / 8 == id;
  }

  lemma FieldRoundTrip(f: Field, pre: seq<byte>, tail: seq<byte>)
    requires Encodable(f)
    ensures FieldAt(pre + EncodeField(f) + tail, |pre|) == Got([Norm(f)], |pre + EncodeField(f)|)
  {
    hide FieldAt, Varint;
    match f.value
    case Num(n) => NumRoundTrip(f.id, n % TWO_64, pre, tail);
    case Raw(b) => RawRoundTrip(f.id, b, pre, tail);
  }

  function NormAll(fs: seq<Field>): seq<Field> {
    seq(|fs|, i requires 0 <= i < |fs| => Norm(fs[i]))
  }

  /** Decoding inverts encoding for every list of fields. */
  lemma {:induction false} FieldsRoundTrip(fs: seq<Field>, pre: seq<byte>)
    requires forall f <- fs :: Encodable(f)
    ensures FieldsAt(pre + EncodeFields(fs), |pre|) == Decoded(NormAll(fs))
    decreases |fs|
  {
    hide FieldAt, EncodeField;
    if fs == [] {
      assert pre + EncodeFields(fs) == pre;
    } else {
      var e, rest := EncodeField(fs[0]), EncodeFields(fs[1..]);
      var data := pre + EncodeFields(fs);
      assert data == pre + e + rest;
      FieldRoundTrip(fs[0], pre, rest);
      FieldsRoundTrip(fs[1..], pre + e);
      assert NormAll(fs) == [Norm(fs[0])] + NormAll(fs[1..]);
    }
  }

  // ---- the envelope ----

  /** The BaseMessage bytes inside encode_base_message. */
  function Envelope(msgType: int, payload: seq<byte>): seq<byte> {
    EncodeField(Field(1, Num(msgType))) + EncodeField(Field(2, Raw(payload)))
  }

  /** extract_int_field with default 0, and extract_bytes_field with default b"". */
  function FirstInt(t: Table, id: nat): int {
    if Get(t, id) != [] && Get(t, id)[0].Num? then Get(t, id)[0].n else 0
  }

  function FirstBytes(t: Table, id: nat): seq<byte> {
    if Get(t, id) != [] && Get(t, id)[0].Raw? then Get(t, id)[0].bytes else []
  }

  /** parse_base_message on a buffer that decodes. */
  method ParseBaseMessage(data: seq<byte>) returns (ok: bool, msgType: int, payload: seq<byte>)
    ensures ok <==> FieldsAt(data, 0).Decoded?
    ensures ok ==>
              var t := Group(FieldsAt(data, 0).fs);
              msgType == FirstInt(t, 1) && payload == FirstBytes(t, 2)
  {
    var r := DecodeScalarFields(data);
    match r {
      case BadTable => return false, 0, [];
      case Table(t) => return true, FirstInt(t, 1), FirstBytes(t, 2);
    }
  }

  /** Which value of a field number counts: the first, and only if it is of the right kind. */
  lemma FirstCounts(fs: seq<Field>, i: nat)
    requires i < |fs| && forall j | 0 <= j < i :: fs[j].id != fs[i].id
    ensures var t, id := Group(fs), fs[i].id;
      match fs[i].value
      case Num(n) => FirstInt(t, id) == n && FirstBytes(t, id) == []
      case Raw(b) => FirstInt(t, id) == 0 && FirstBytes(t, id) == b
  {
    GroupExact(fs, fs[i].id);
    FirstOf(fs, i);
    hide Group, ValuesOf;
  }

  lemma {:induction false} FirstOf(fs: seq<Field>, i: nat)
    requires i < |fs| && forall j | 0 <= j < i :: fs[j].id != fs[i].id
    ensures ValuesOf(fs, fs[i].id) != [] && ValuesOf(fs, fs[i].id)[0] == fs[i].value
  {
    if i > 0 {
      FirstOf(fs[1..], i - 1);
    }
  }

  /** The bytes of the envelope: field 1 as a varint, field 2 as a counted slice. */
  lemma EnvelopeBytes(msgType: int, payload: seq<byte>)
    requires |payload| < TWO_64
    ensures Envelope(msgType, payload) == [8] + Varint(msgType % TWO_64) + [18] + Varint(|payload|) + payload
  {
    FieldBytes(Field(1, Num(msgType)));
    FieldBytes(Field(2, Raw(payload)));
    hide EncodeField, Varint;
  }

  /** parse_base_message returns what encode_base_message was given; the type as an unsigned 64-bit value. */
  lemma EnvelopeRoundTrip(msgType: int, payload: seq<byte>)
    requires |payload| < TWO_64
    ensures var r := FieldsAt(Envelope(msgType, payload), 0);
      r.Decoded? && FirstInt(Group(r.fs), 1) == msgType % TWO_64 && FirstBytes(Group(r.fs), 2) == payload
  {
    hide FieldsAt, EncodeField;
    var a, b := Field(1, Num(msgType)), Field(2, Raw(payload));
    var fs := [a, b];
    assert fs[1..] == [b] && [b][1..] == [];
    assert EncodeFields([b]) == EncodeField(b) + EncodeFields([]);
    assert EncodeField(b) + [] == EncodeField(b);
    assert EncodeFields(fs) == Envelope(msgType, payload);
    assert [] + EncodeFields(fs) == EncodeFields(fs);
    FieldsRoundTrip(fs, []);
    var n := NormAll(fs);
    assert n == [Norm(a), b];
    assert n[..1] == [Norm(a)];
    GroupSnoc([], Norm(a));
    GroupSnoc([Norm(a)], b);
    assert n == [Norm(a)] + [b];
  }

  // ---- frames ----

  /** struct.unpack('>I'). */
  function Unsigned32(data: seq<byte>, pos: nat): nat
    requires pos + 4 <= |data|
  {
    BigEndian(data[pos], data[pos + 1], data[pos + 2], data[pos + 3])
  }

  /** The complete frames from pos on. */
  function FramesAt(data: seq<byte>, pos: nat): seq<Payload>
    decreases |data| - pos
  {
    if pos + 4 > |data| then [] else
      var n := Unsigned32(data, pos);
      if n <= 0 || pos + 4 + n > |data| then [] else
        [data[pos + 4..pos + 4 + n]] + FramesAt(data, pos + 4 + n)
  }

  method TrySplitMulti(data: seq<byte>) returns (out: seq<Payload>)
    ensures out == if FramesAt(data, 0) != [] then FramesAt(data, 0) else if data != [] then [data] else []
  {
    out := [];
    var pos := 0;
    assert [] + FramesAt(data, 0) == FramesAt(data, 0);
    while pos + 4 <= |data|
      invariant out + FramesAt(data, pos) == FramesAt(data, 0)
      decreases |data| - pos
    {
      var n := Unsigned32(data, pos);
      if n <= 0 || pos + 4 + n > |data| {
        assert out + [] == out;
        break;
      }
      var frame := data[pos + 4..pos + 4 + n];
      assert out + ([frame] + FramesAt(data, pos + 4 + n)) == (out + [frame]) + FramesAt(data, pos + 4 + n);
      out := out + [frame];
      pos := pos + 4 + n;
    }
    assert out + [] == out;
    if out == [] && data != [] {
      out := [data];
    }
  }

  lemma UnsignedHeader(n: nat, pre: seq<byte>, tail: seq<byte>)
    requires n < TWO_32
    ensures Unsigned32(pre + Header(n) + tail, |pre|) == n
  {
    hide BigEndian, Digits;
    BigEndianDigits(n);
    var h, s := Digits(n), pre + Header(n) + tail;
    assert Header(n) == h;
    assert s[|pre|] == h[0] && s[|pre| + 1] == h[1] && s[|pre| + 2] == h[2] && s[|pre| + 3] == h[3];
  }

  lemma OneFrame(p: Payload, pre: seq<byte>, tail: seq<byte>)
    requires 1 <= |p| < TWO_32
    ensures var data := pre + Frame(p) + tail;
      FramesAt(data, |pre|) == [p] + FramesAt(data, |pre + Frame(p)|)
  {
    hide Header, Unsigned32;
    var data := pre + Frame(p) + tail;
    assert data == pre + Header(|p|) + (p + tail);
    UnsignedHeader(|p|, pre, p + tail);
    assert data[|pre| + 4..|pre| + 4 + |p|] == p;
  }

  /** Splitting recovers every list of non-empty frames, followed by an incomplete one or nothing. */
  lemma {:induction false} FramesRoundTrip(ps: seq<Payload>, pre: seq<byte>, part: seq<byte>)
    requires forall p <- ps :: 1 <= |p| < TWO_32
    requires |part| < 4 || Unsigned32(part, 0) == 0 || |part| < 4 + Unsigned32(part, 0)
    ensures FramesAt(pre + Stream(ps) + part, |pre|) == ps
    decreases |ps|
  {
    hide Header, BigEndian, Frame;
    var data := pre + Stream(ps) + part;
    if ps == [] {
      assert data == pre + part;
      if |part| >= 4 {
        assert forall i | 0 <= i < 4 :: data[|pre| + i] == part[i];
      }
    } else {
      var p, rest := ps[0], Stream(ps[1..]);
      assert data == (pre + Frame(p)) + rest + part == pre + Frame(p) + (rest + part);
      OneFrame(p, pre, rest + part);
      FramesRoundTrip(ps[1..], pre + Frame(p), part);
      assert ps == [p] + ps[1..];
    }
  }

  /** Splitting any bytes: they are the frames found, followed by an incomplete frame, an empty one or
      nothing. */
  lemma {:induction false} FramesExact(data: seq<byte>, pos: nat)
    requires pos <= |data|
    ensures var ps := FramesAt(data, pos);
      && (forall p <- ps :: p != [])
      && |Stream(ps)| <= |data| - pos && data[pos..pos + |Stream(ps)|] == Stream(ps)
      && var part := data[pos + |Stream(ps)|..];
         |part| < 4 || Unsigned32(part, 0) == 0 || |part| < 4 + Unsigned32(part, 0)
    decreases |data| - pos
  {
    hide BigEndian, Header;
    if pos + 4 <= |data| {
      var n := Unsigned32(data, pos);
      SameBytes(data[pos..], data, pos);
      if n > 0 && pos + 4 + n <= |data| {
        hide Unsigned32, Frame;
        FramesExact(data, pos + 4 + n);
        FrameAt(data, pos);
        StreamAt(data, pos, data[pos + 4..pos + 4 + n], FramesAt(data, pos + 4 + n));
      }
    }
  }

  lemma FrameAt(data: seq<byte>, pos: nat)
    requires pos + 4 <= |data| && pos + 4 + Unsigned32(data, pos) <= |data|
    ensures var next := pos + 4 + Unsigned32(data, pos); data[pos..next] == Frame(data[pos + 4..next])
  {
    HeaderAt(data, pos);
    hide Unsigned32, Header;
    var next := pos + 4 + Unsigned32(data, pos);
    assert data[pos..next] == data[pos..pos + 4] + data[pos + 4..next];
  }

  lemma StreamAt(data: seq<byte>, pos: nat, p: Payload, ps: seq<Payload>)
    requires var next := pos + |Frame(p)|;
      && next + |Stream(ps)| <= |data| && data[pos..next] == Frame(p)
      && data[next..next + |Stream(ps)|] == Stream(ps)
    ensures |Stream([p] + ps)| == |Frame(p)| + |Stream(ps)|
    ensures data[pos..pos + |Stream([p] + ps)|] == Stream([p] + ps)
  {
    hide Frame;
    assert ([p] + ps)[1..] == ps;
    var next := pos + |Frame(p)|;
    var end := next + |Stream(ps)|;
    assert data[pos..end] == data[pos..next] + data[next..end];
  }

  lemma SameBytes(a: seq<byte>, data: seq<byte>, pos: nat)
    requires |a| >= 4 && pos + 4 <= |data| && forall i | 0 <= i < 4 :: a[i] == data[pos + i]
    ensures Unsigned32(a, 0) == Unsigned32(data, pos)
  {
  }

  /** The four bytes at a position are the header of the number they are read as. */
  lemma HeaderAt(data: seq<byte>, pos: nat)
    requires pos + 4 <= |data|
    ensures Header(Unsigned32(data, pos)) == data[pos..pos + 4]
  {
    var h := data[pos..pos + 4];
    var n := Unsigned32(data, pos);
    DigitsOfBigEndian(h[0], h[1], h[2], h[3]);
    HeaderIs(n);
    hide Digits, BigEndian, Header;
    assert h == [h[0], h[1], h[2], h[3]];
  }

  lemma DigitsOfBigEndian(a: byte, b: byte, c: byte, d: byte)
    ensures BigEndian(a, b, c, d) < TWO_32 && Digits(BigEndian(a, b, c, d)) == [a, b, c, d]
  {
    var x: int, y: int, z: int := a, b, c;
    var m := BigEndian(a, b, c, d);
    assert m / 0x100 == x * 0x1_0000 + y * 0x100 + z;
    assert m / 0x100 / 0x100 == x * 0x100 + y;
  }

  /** What the server frames, the client splits, also beyond the 16 MiB the server would take itself. */
  lemma ServerToClient(ps: seq<Payload>)
    requires forall p <- ps :: 1 <= |p| < TWO_32
    ensures FramesAt(Stream(ps), 0) == ps
  {
    assert [] + Stream(ps) + [] == Stream(ps);
    FramesRoundTrip(ps, [], []);
  }

  /** What the client frames, the server dispatches, up to 16 MiB of envelope and no further. */
  lemma ClientToServer(msgType: int, payload: seq<byte>)
    ensures var e := Envelope(msgType, payload);
      var d := Dispatch(Frame(e));
      && (|e| <= MAX_FRAME ==> d == Dispatched([e], [], false))
      && (|e| > MAX_FRAME && |e| < TWO_32 ==> d.frames == [] && d.stuck)
  {
    hide LenAt, BigEndian, Header;
    var e := Envelope(msgType, payload);
    assert Frame(e) + [] == Frame(e);
    SendableExact(e, []);
    if |e| <= MAX_FRAME {
      FrameHead(e, []);
      assert Dispatch([]) == Dispatched([], [], false);
    }
  }
}
