/** The generated encoder, which fills a buffer from its end, and decoder, which walks forward
    (etcd/api/mvccpb/kv.pb.go). */
module KvCodec {
  import opened RaftTypes
  import opened Varint
  import opened KvFormat
  import opened EventFormat

  // ---------------------------------------------------------------- writing backwards

  /** Nothing outside lo..hi has changed. */
  twostate predicate OnlyBetween(buf: array<Byte>, lo: nat, hi: nat)
    reads buf
  {
    forall k :: 0 <= k < buf.Length && !(lo <= k < hi) ==> buf[k] == old(buf[k])
  }

  /** A written group moves from what is to be written to what is. */
  lemma Moved(done: Bytes, rest: nat)
    requires rest >= 128
    ensures done + EncodeVarint(rest) == done + [rest % 128 + 128] + EncodeVarint(rest / 128)
    ensures |EncodeVarint(rest)| == 1 + |EncodeVarint(rest / 128)|
  {
  }

  /** Puts a number right before `offset`. */
  method EncodeVarintKv(buf: array<Byte>, offset: nat, v: nat) returns (base: nat)
    requires |EncodeVarint(v)| <= offset <= buf.Length
    modifies buf
    ensures base + |EncodeVarint(v)| == offset && buf[base..offset] == EncodeVarint(v) && OnlyBetween(buf, base, offset)
  {
    SovIsLength(v);
    base := offset - Sov(v);
    var at, rest := base, v;
    while rest >= 128
      invariant base <= at && at + |EncodeVarint(rest)| == offset
      invariant buf[base..at] + EncodeVarint(rest) == EncodeVarint(v)
      invariant OnlyBetween(buf, base, offset)
    {
      ghost var done := buf[base..at];
      buf[at] := rest % 128 + 128;
      assert buf[base..at + 1] == done + [rest % 128 + 128];
      Moved(done, rest);
      rest := rest / 128;
      at := at + 1;
    }
    ghost var done := buf[base..at];
    buf[at] := rest;
    assert buf[base..at + 1] == done + [rest];
  }

  /** Copies bytes right before i. */
  method PutBytes(buf: array<Byte>, i: nat, b: Bytes) returns (j: nat)
    requires |b| <= i <= buf.Length
    modifies buf
    ensures j + |b| == i && buf[j..i] == b && OnlyBetween(buf, j, i)
  {
    j := i - |b|;
    for k := 0 to |b|
      invariant buf[j..j + k] == b[..k] && OnlyBetween(buf, j, i)
    {
      buf[j + k] := b[k];
    }
  }

  /** What stood before `end` stands there still, with more in front of it. */
  lemma Joined(s: Bytes, j: nat, i: nat, end: nat)
    requires j <= i <= end <= |s|
    ensures s[j..end] == s[j..i] + s[i..end]
  {
  }

  method PutInt(buf: array<Byte>, i: nat, tag: Byte, x: Int64, ghost end: nat) returns (j: nat)
    requires |IntField(tag, x)| <= i <= end <= buf.Length
    modifies buf
    ensures j + |IntField(tag, x)| == i && buf[j..end] == IntField(tag, x) + old(buf[i..end]) && OnlyBetween(buf, j, i)
  {
    j := i;
    if x != 0 {
      j := EncodeVarintKv(buf, i, Word(x));
      j := j - 1;
      buf[j] := tag;
      Joined(buf[..], j, i, end);
      assert buf[j..i] == [tag] + buf[j + 1..i];
      assert buf[i..end] == old(buf[i..end]);
    }
  }

  /** Puts a length and a tag in front of the bytes k..i. */
  method PutHeader(buf: array<Byte>, k: nat, i: nat, tag: Byte, ghost end: nat) returns (j: nat)
    requires k <= i <= end <= buf.Length && 1 + |EncodeVarint(i - k)| <= k
    modifies buf
    ensures j + 1 + |EncodeVarint(i - k)| == k && OnlyBetween(buf, j, k)
    ensures buf[j..end] == [tag] + EncodeVarint(i - k) + old(buf[k..i]) + old(buf[i..end])
  {
    hide EncodeVarint;
    j := EncodeVarintKv(buf, k, i - k);
    j := j - 1;
    buf[j] := tag;
    assert buf[j..k] == [tag] + buf[j + 1..k];
    assert buf[k..i] == old(buf[k..i]) && buf[i..end] == old(buf[i..end]);
    assert buf[j..end] == buf[j..k] + buf[k..i] + buf[i..end];
  }

  method PutField(buf: array<Byte>, i: nat, tag: Byte, b: Bytes, ghost end: nat) returns (j: nat)
    requires |BytesField(tag, b)| <= i <= end <= buf.Length
    modifies buf
    ensures j + |BytesField(tag, b)| == i && buf[j..end] == BytesField(tag, b) + old(buf[i..end])
            && OnlyBetween(buf, j, i)
  {
    j := i;
    if |b| > 0 {
      hide EncodeVarint;
      var k := PutBytes(buf, i, b);
      assert buf[i..end] == old(buf[i..end]);
      j := PutHeader(buf, k, i, tag, end);
    }
  }

  /** The fields last to first, so that they stand first to last. */
  method MarshalKvBefore(m: KeyValue, buf: array<Byte>, end: nat) returns (i: nat)
    requires |EncodeKv(m)| <= end <= buf.Length
    modifies buf
    ensures i + |EncodeKv(m)| == end && buf[i..end] == EncodeKv(m) && OnlyBetween(buf, i, end)
  {
    hide BytesField, IntField;
    i := PutBytes(buf, end, m.unrecognized);
    i := PutInt(buf, i, 0x30, m.lease, end);
    i := PutField(buf, i, 0x2a, m.value, end);
    i := PutInt(buf, i, 0x20, m.version, end);
    i := PutInt(buf, i, 0x18, m.modRevision, end);
    i := PutInt(buf, i, 0x10, m.createRevision, end);
    i := PutField(buf, i, 0x0a, m.key, end);
    SevenRight(BytesField(0x0a, m.key), IntField(0x10, m.createRevision), IntField(0x18, m.modRevision),
               IntField(0x20, m.version), BytesField(0x2a, m.value), IntField(0x30, m.lease), m.unrecognized);
  }

  lemma SevenRight(a: Bytes, b: Bytes, c: Bytes, e: Bytes, f: Bytes, g: Bytes, h: Bytes)
    ensures a + (b + (c + (e + (f + (g + h))))) == a + b + c + e + f + g + h
  {
  }

  function IntSize(x: Int64): nat {
    if x != 0 then 1 + Sov(Word(x)) else 0
  }

  function BytesSize(b: Bytes): nat {
    if |b| > 0 then 1 + |b| + Sov(|b|) else 0
  }

  lemma FieldSizes(tag: Byte, x: Int64, b: Bytes)
    ensures IntSize(x) == |IntField(tag, x)| && BytesSize(b) == |BytesField(tag, b)|
  {
    SovIsLength(Word(x));
    SovIsLength(|b|);
  }

  /** The size computed beforehand is the number of bytes written. */
  function SizeKv(m: KeyValue): (n: nat)
    ensures n == |EncodeKv(m)|
  {
    FieldSizes(0x0a, m.createRevision, m.key);
    FieldSizes(0x18, m.modRevision, m.value);
    FieldSizes(0x20, m.version, []);
    FieldSizes(0x30, m.lease, []);
    EncodedLength(m);
    BytesSize(m.key) + IntSize(m.createRevision) + IntSize(m.modRevision) + IntSize(m.version) + BytesSize(m.value)
    + IntSize(m.lease) + |m.unrecognized|
  }

  lemma EncodedLength(m: KeyValue)
    ensures |EncodeKv(m)| ==
            |BytesField(0x0a, m.key)| + |IntField(0x10, m.createRevision)| + |IntField(0x18, m.modRevision)|
            + |IntField(0x20, m.version)| + |BytesField(0x2a, m.value)| + |IntField(0x30, m.lease)| + |m.unrecognized|
    ensures |BytesField(0x2a, m.value)| == BytesSize(m.value)
            && |IntField(0x10, m.createRevision)| == IntSize(m.createRevision)
  {
    FieldSizes(0x2a, 0, m.value);
    FieldSizes(0x10, m.createRevision, []);
  }

  /** Marshal allocates exactly the bytes it fills. */
  method MarshalKv(m: KeyValue) returns (buf: array<Byte>)
    ensures fresh(buf) && buf[..] == EncodeKv(m)
  {
    buf := new Byte[SizeKv(m)];
    var i := MarshalKvBefore(m, buf, buf.Length);
    assert buf[..] == buf[i..buf.Length];
  }

  method PutKv(buf: array<Byte>, i: nat, tag: Byte, kv: Option<KeyValue>, ghost end: nat) returns (j: nat)
    requires |KvField(tag, kv)| <= i <= end <= buf.Length
    modifies buf
    ensures j + |KvField(tag, kv)| == i && buf[j..end] == KvField(tag, kv) + old(buf[i..end]) && OnlyBetween(buf, j, i)
  {
    j := i;
    if kv.Some? {
      hide EncodeKv, EncodeVarint;
      var k := MarshalKvBefore(kv.value, buf, i);
      assert buf[i..end] == old(buf[i..end]);
      j := PutHeader(buf, k, i, tag, end);
    }
  }

  method MarshalEventBefore(m: Event, buf: array<Byte>, end: nat) returns (i: nat)
    requires |EncodeEvent(m)| <= end <= buf.Length
    modifies buf
    ensures i + |EncodeEvent(m)| == end && buf[i..end] == EncodeEvent(m) && OnlyBetween(buf, i, end)
  {
    hide KvField, IntField;
    i := PutBytes(buf, end, m.unrecognized);
    i := PutKv(buf, i, 0x1a, m.prevKv, end);
    i := PutKv(buf, i, 0x12, m.kv, end);
    i := PutInt(buf, i, 0x08, m.kind, end);
    FourRight(IntField(0x08, m.kind), KvField(0x12, m.kv), KvField(0x1a, m.prevKv), m.unrecognized);
  }

  lemma FourRight(a: Bytes, b: Bytes, c: Bytes, e: Bytes)
    ensures a + (b + (c + e)) == a + b + c + e
  {
  }

  function KvSize(kv: Option<KeyValue>): nat {
    if kv.Some? then 1 + SizeKv(kv.value) + Sov(SizeKv(kv.value)) else 0
  }

  function SizeEvent(m: Event): (n: nat)
    ensures n == |EncodeEvent(m)|
  {
    FieldSizes(0x08, m.kind, []);
    KvSizeIs(0x12, m.kv);
    KvSizeIs(0x1a, m.prevKv);
    IntSize(m.kind) + KvSize(m.kv) + KvSize(m.prevKv) + |m.unrecognized|
  }

  lemma KvSizeIs(tag: Byte, kv: Option<KeyValue>)
    ensures KvSize(kv) == |KvField(tag, kv)|
  {
    if kv.Some? { SovIsLength(SizeKv(kv.value)); }
  }

  method MarshalEvent(m: Event) returns (buf: array<Byte>)
    ensures fresh(buf) && buf[..] == EncodeEvent(m)
  {
    buf := new Byte[SizeEvent(m)];
    var i := MarshalEventBefore(m, buf, buf.Length);
    assert buf[..] == buf[i..buf.Length];
  }

  // ---------------------------------------------------------------- reading forwards

  function Pow128(k: nat): nat {
    if k == 0 then 1 else 128 * Pow128(k - 1)
  }

  /** Seven bits shifted into a 64-bit word: of the tenth group one bit stays. */
  lemma ShiftedBits(g: nat, k: nat)
    requires g < 128 && k <= 9
    ensures g * Pow128(k) % TWO_64 == (if k == 9 then g % 2 else g) * Pow128(k)
  {
    assert Pow128(1) == 128 && Pow128(2) == 128 * 128;
    assert Pow128(3) == 0x20_0000 && Pow128(4) == 0x1000_0000;
    assert Pow128(5) == 0x8_0000_0000 && Pow128(6) == 0x400_0000_0000;
    assert Pow128(7) == 0x2_0000_0000_0000 && Pow128(8) == 0x100_0000_0000_0000;
    assert Pow128(9) == TWO_63;
    if k == 9 {
      assert g * TWO_63 == g / 2 * TWO_64 + g % 2 * TWO_63;
    }
  }

  /** A number read from the bits already gathered and the rest. */
  function Resumed(acc: nat, pow: nat, r: Read): Read {
    match r
    case Failed(e) => Failed(e)
    case Got(v, n) => Got(acc + v * pow, n)
  }

  lemma ResumeStep(d: Bytes, j: nat, k: nat, acc: nat)
    requires k <= 9 && j < |d| && d[j] >= 128
    ensures Resumed(acc, Pow128(k), ReadVarint(d, j, k))
         == Resumed(acc + d[j] % 128 * Pow128(k), Pow128(k + 1), ReadVarint(d, j + 1, k + 1))
  {
    match ReadVarint(d, j + 1, k + 1)
    case Failed(_) =>
    case Got(v, n) => Distribute(d[j] % 128, v, Pow128(k));
  }

  lemma Distribute(g: nat, v: nat, p: nat)
    ensures (g + 128 * v) * p == g * p + v * (128 * p)
  {
  }

  lemma NothingRead(d: Bytes, i: nat)
    ensures ReadVarint(d, i, 0) == Resumed(0, Pow128(0), ReadVarint(d, i, 0))
  {
    assert Pow128(0) == 1;
  }

  lemma NoByte(d: Bytes, j: nat, k: nat, acc: nat)
    requires k == 10 || (k < 10 && j >= |d|)
    ensures Resumed(acc, Pow128(k), ReadVarint(d, j, k)) == Failed(if k == 10 then IntOverflow else UnexpectedEof)
  {
  }

  lemma LastByte(d: Bytes, j: nat, k: nat, acc: nat)
    requires k <= 9 && j < |d| && d[j] < 128
    ensures Resumed(acc, Pow128(k), ReadVarint(d, j, k)) == Got(acc + d[j] % 128 * Pow128(k) % TWO_64, j + 1)
  {
    ShiftedBits(d[j] % 128, k);
    assert d[j] % 128 == d[j];
    hide Pow128;
  }

  lemma MoreBytes(d: Bytes, j: nat, k: nat, acc: nat)
    requires k <= 9 && j < |d| && d[j] >= 128
    ensures Resumed(acc, Pow128(k), ReadVarint(d, j, k))
         == Resumed(acc + d[j] % 128 * Pow128(k) % TWO_64, Pow128(k + 1), ReadVarint(d, j + 1, k + 1))
  {
    ShiftedBits(d[j] % 128, k);
    if k < 9 { ResumeStep(d, j, k, acc); }
    hide Pow128;
  }

  /** The loop every number is read with: or in seven bits, shift, stop at a byte below 128. */
  method DecodeVarint(d: Bytes, i: nat) returns (r: Read)
    ensures r == ReadVarint(d, i, 0)
  {
    hide ReadVarint, Resumed, Pow128;
    NothingRead(d, i);
    var wire: nat, k: nat, j: nat := 0, 0, i;
    while true
      invariant k <= 10 && ReadVarint(d, i, 0) == Resumed(wire, Pow128(k), ReadVarint(d, j, k))
      decreases 10 - k
    {
      if 7 * k >= 64 || j >= |d| { NoByte(d, j, k, wire); }
      if 7 * k >= 64 { return Failed(IntOverflow); }
      if j >= |d| { return Failed(UnexpectedEof); }
      var b := d[j];
      if b < 128 {
        LastByte(d, j, k, wire);
        wire := wire + b % 128 * Pow128(k) % TWO_64;
        return Got(wire, j + 1);
      }
      MoreBytes(d, j, k, wire);
      wire := wire + b % 128 * Pow128(k) % TWO_64;
      j := j + 1;
      k := k + 1;
    }
  }

  method ReadHeader(d: Bytes, i: nat) returns (t: Tag)
    ensures t == ReadTag(d, i)
  {
    var r := DecodeVarint(d, i);
    if r.Failed? { return TagErr(r.error); }
    var field, wireType := FieldOf(r.value), r.value % 8;
    if wireType == 4 { return TagErr(BadWireType); }
    if field <= 0 { return TagErr(BadTag); }
    t := TagOf(field, wireType, r.next);
  }

  method ReadStretch(d: Bytes, i: nat) returns (s: Span)
    ensures s == ReadSpan(d, i)
  {
    var r := DecodeVarint(d, i);
    if r.Failed? { return SpanErr(r.error); }
    if r.value >= TWO_63 || r.next + r.value >= TWO_63 { return SpanErr(InvalidLength); }
    if r.next + r.value > |d| { return SpanErr(UnexpectedEof); }
    s := SpanOf(r.next, r.next + r.value);
  }

  method Hop1(d: Bytes, i: nat) returns (h: Hop)
    ensures h == HopOver(d, i)
  {
    var r := DecodeVarint(d, i);
    if r.Failed? { return HopErr(r.error); }
    match r.value % 8
    case 0 =>
      var v := DecodeVarint(d, r.next);
      h := if v.Failed? then HopErr(v.error) else HopTo(v.next, 0);
    case 1 => h := HopTo(r.next + 8, 0);
    case 2 =>
      var v := DecodeVarint(d, r.next);
      h := if v.Failed? then HopErr(v.error) else if v.value >= TWO_63 then HopErr(InvalidLength)
          else HopTo(v.next + v.value, 0);
    case 3 => h := HopTo(r.next, 1);
    case 4 => h := HopTo(r.next, -1);
    case 5 => h := HopTo(r.next + 4, 0);
    case _ => h := HopErr(BadWireType);
  }

  /** Skips one field, or a group and everything in it. */
  method SkipKv(d: Bytes, from: nat) returns (r: Result<nat>)
    ensures r == SkipFrom(d, from, from, 0)
  {
    hide HopOver;
    var i, depth: nat := from, 0;
    while i < |d|
      invariant from <= i && SkipFrom(d, from, from, 0) == SkipFrom(d, from, i, depth)
      decreases |d| - i
    {
      var h := Hop1(d, i);
      if h.HopErr? { return Err(h.error); }
      if depth + h.delta < 0 { return Err(EndOfGroup); }
      i, depth := h.next, depth + h.delta;
      if i >= from + TWO_63 { return Err(InvalidLength); }
      if depth == 0 { return Ok(i); }
    }
    r := Err(UnexpectedEof);
  }

  method SkipUnknown(d: Bytes, i: nat) returns (s: Span)
    ensures s == ReadUnknown(d, i)
  {
    var r := SkipKv(d, i);
    if r.Err? { return SpanErr(r.error); }
    if r.value >= TWO_63 { return SpanErr(InvalidLength); }
    if r.value > |d| { return SpanErr(UnexpectedEof); }
    s := SpanOf(i, r.value);
  }

  /** Reads into m; for a new record, what MarshalKv wrote comes back. */
  method UnmarshalKv(d: Bytes, into: KeyValue) returns (r: Result<KeyValue>)
    ensures r == DecodeKv(d, 0, into)
  {
    hide ReadTag, ReadSpan, ReadUnknown, ReadVarint;
    var m, i := into, 0;
    while i < |d|
      invariant 0 <= i <= |d| && DecodeKv(d, 0, into) == DecodeKv(d, i, m)
    {
      var t := ReadHeader(d, i);
      if t.TagErr? { return Err(t.error); }
      if t.field == 1 || t.field == 5 {
        if t.wireType != 2 { return Err(BadWireType); }
        var s := ReadStretch(d, t.next);
        if s.SpanErr? { return Err(s.error); }
        if t.field == 1 { m := m.(key := d[s.start..s.end]); } else { m := m.(value := d[s.start..s.end]); }
        i := s.end;
      } else if t.field <= 6 {
        if t.wireType != 0 { return Err(BadWireType); }
        var v := DecodeVarint(d, t.next);
        if v.Failed? { return Err(v.error); }
        RoomIsWord();
        m := SetInt(m, t.field, Signed(v.value));
        i := v.next;
      } else {
        var s := SkipUnknown(d, i);
        if s.SpanErr? { return Err(s.error); }
        m := m.(unrecognized := m.unrecognized + d[s.start..s.end]);
        i := s.end;
      }
    }
    r := Ok(m);
  }

  method UnmarshalEvent(d: Bytes) returns (r: Result<Event>)
    ensures r == DecodeEvent(d, 0, NEW_EVENT)
  {
    hide ReadTag, ReadSpan, ReadUnknown, ReadVarint, DecodeKv;
    var m, i := NEW_EVENT, 0;
    while i < |d|
      invariant 0 <= i <= |d| && DecodeEvent(d, 0, NEW_EVENT) == DecodeEvent(d, i, m)
    {
      var t := ReadHeader(d, i);
      if t.TagErr? { return Err(t.error); }
      if t.field == 1 {
        if t.wireType != 0 { return Err(BadWireType); }
        var v := DecodeVarint(d, t.next);
        if v.Failed? { return Err(v.error); }
        m := m.(kind := Low32(v.value));
        i := v.next;
      } else if t.field <= 3 {
        if t.wireType != 2 { return Err(BadWireType); }
        var s := ReadStretch(d, t.next);
        if s.SpanErr? { return Err(s.error); }
        var kv := UnmarshalKv(d[s.start..s.end], KvOr(if t.field == 2 then m.kv else m.prevKv));
        if kv.Err? { return Err(kv.error); }
        if t.field == 2 { m := m.(kv := Some(kv.value)); } else { m := m.(prevKv := Some(kv.value)); }
        i := s.end;
      } else {
        var s := SkipUnknown(d, i);
        if s.SpanErr? { return Err(s.error); }
        m := m.(unrecognized := m.unrecognized + d[s.start..s.end]);
        i := s.end;
      }
    }
    r := Ok(m);
  }
}
