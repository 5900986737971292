/** The wire format of key-value records and events, and what reading it back means (etcd/api/mvccpb/kv.pb.go). */
module KvFormat {
  import opened RaftTypes
  import opened Varint

  const TWO_32: nat := 0x1_0000_0000
  const TWO_31: nat := 0x8000_0000

  type Int32 = x: int | -0x8000_0000 <= x < 0x8000_0000

  /** Absent and empty byte fields are the same. */
  datatype KeyValue = KeyValue(
    key: Bytes, createRevision: Int64, modRevision: Int64, version: Int64, value: Bytes, lease: Int64,
        unrecognized: Bytes)

  datatype Event = Event(kind: Int32, kv: Option<KeyValue>, prevKv: Option<KeyValue>, unrecognized: Bytes)

  const NEW_KV := KeyValue([], 0, 0, 0, [], 0, [])
  const NEW_EVENT := Event(0, None, None, [])

  datatype Error = IntOverflow | UnexpectedEof | InvalidLength | BadWireType | BadTag | EndOfGroup

  datatype Result<+T> = Ok(value: T) | Err(error: Error)

  // ---------------------------------------------------------------- numbers as 64-bit words

  function Word(x: Int64): nat {
    if x < 0 then x + TWO_64 else x
  }

  function Signed(w: nat): Int64
    requires w < TWO_64
  {
    if w < TWO_63 then w else w - TWO_64
  }

  function Low32(w: nat): Int32 {
    if w % TWO_32 < TWO_31 then w % TWO_32 else w % TWO_32 - TWO_32
  }

  // ---------------------------------------------------------------- writing

  function IntField(tag: Byte, x: Int64): Bytes {
    if x == 0 then [] else [tag] + EncodeVarint(Word(x))
  }

  function BytesField(tag: Byte, b: Bytes): Bytes {
    if b == [] then [] else [tag] + EncodeVarint(|b|) + b
  }

  function EncodeKv(m: KeyValue): Bytes {
    BytesField(0x0a, m.key) + IntField(0x10, m.createRevision) + IntField(0x18, m.modRevision)
        + IntField(0x20, m.version)
    + BytesField(0x2a, m.value) + IntField(0x30, m.lease) + m.unrecognized
  }

  function KvField(tag: Byte, m: Option<KeyValue>): Bytes {
    if m.None? then [] else [tag] + EncodeVarint(|EncodeKv(m.value)|) + EncodeKv(m.value)
  }

  function EncodeEvent(m: Event): Bytes {
    IntField(0x08, m.kind) + KvField(0x12, m.kv) + KvField(0x1a, m.prevKv) + m.unrecognized
  }

  // ---------------------------------------------------------------- reading numbers

  datatype Read = Got(value: nat, next: nat) | Failed(error: Error)

  /** The numbers that fit into the bits above the first 7k of a word. */
  function Room(k: nat): (r: nat)
    requires k <= 9
    ensures r >= 2 && (k < 9 ==> r >= 256)
    decreases 9 - k
  {
    if k == 9 then 2 else 128 * Room(k + 1)
  }

  lemma RoomIsWord()
    ensures Room(0) == TWO_64
  {
    assert Room(9) == 2;
    assert Room(8) == 0x100;
    assert Room(7) == 0x8000;
    assert Room(6) == 0x40_0000;
    assert Room(5) == 0x2000_0000;
    assert Room(4) == 0x10_0000_0000;
    assert Room(3) == 0x800_0000_0000;
    assert Room(2) == 0x4_0000_0000_0000;
    assert Room(1) == 0x200_0000_0000_0000;
  }

  /** The (k+1)st byte of a number and the rest: seven bits a byte, low bits first. Of a tenth byte only one bit has
      room. */
  function ReadVarint(d: Bytes, i: nat, k: nat): (r: Read)
    requires k <= 10
    ensures r.Got? ==> i < r.next <= |d| && k <= 9 && r.value < Room(k)
    decreases 10 - k
  {
    if k == 10 then Failed(IntOverflow)
    else if i >= |d| then Failed(UnexpectedEof)
    else if d[i] < 128 then Got(if k == 9 then d[i] % 2 else d[i], i + 1)
    else
      match ReadVarint(d, i + 1, k + 1)
      case Failed(e) => Failed(e)
      case Got(v, next) => Got(d[i] % 128 + 128 * v, next)
  }

  /** What was written is read back, wherever it stands. */
  lemma {:induction false} VarintRoundTrip(d: Bytes, i: nat, k: nat, x: nat)
    requires k <= 9 && x < Room(k) && i + |EncodeVarint(x)| <= |d| && d[i..i + |EncodeVarint(x)|] == EncodeVarint(x)
    ensures ReadVarint(d, i, k) == Got(x, i + |EncodeVarint(x)|)
    decreases x
  {
    var e := EncodeVarint(x);
    assert d[i] == d[i..i + |e|][0] == e[0];
    if x >= 128 {
      assert e[1..] == EncodeVarint(x / 128);
      assert d[i + 1..i + |e|] == d[i..i + |e|][1..];
      VarintRoundTrip(d, i + 1, k + 1, x / 128);
    }
  }

  /** Reading looks at no byte past the number. */
  lemma {:induction false} ReadVarintLocal(d: Bytes, i: nat, d': Bytes, i': nat, k: nat)
    requires k <= 10 && ReadVarint(d, i, k).Got?
    requires var n := ReadVarint(d, i, k).next - i; i' + n <= |d'| && d'[i'..i' + n] == d[i..i + n]
    ensures ReadVarint(d', i', k) == Got(ReadVarint(d, i, k).value, i' + ReadVarint(d, i, k).next - i)
    decreases 10 - k
  {
    var n := ReadVarint(d, i, k).next - i;
    assert d'[i'] == d'[i'..i' + n][0] == d[i..i + n][0] == d[i];
    if d[i] >= 128 {
      assert d'[i' + 1..i' + n] == d'[i'..i' + n][1..] == d[i..i + n][1..] == d[i + 1..i + n];
      ReadVarintLocal(d, i + 1, d', i' + 1, k + 1);
    }
  }

  lemma WordRoundTrip(x: Int64)
    ensures Word(x) < TWO_64 && Signed(Word(x)) == x && (x == 0 <==> Word(x) == 0)
  {
  }

  // ---------------------------------------------------------------- skipping what is not known

  datatype Hop = HopTo(next: nat, delta: int) | HopErr(error: Error)

  /** The end of one field, which may lie past the end of the data, and whether it opens or closes a group. */
  function HopOver(d: Bytes, i: nat): (h: Hop)
    ensures h.HopTo? ==> i < h.next && -1 <= h.delta <= 1
  {
    match ReadVarint(d, i, 0)
    case Failed(e) => HopErr(e)
    case Got(wire, j) =>
      match wire % 8
      case 0 => (match ReadVarint(d, j, 0) case Failed(e) => HopErr(e) case Got(_, n) => HopTo(n, 0))
      case 1 => HopTo(j + 8, 0)
      case 2 =>
        (match ReadVarint(d, j, 0)
         case Failed(e) => HopErr(e)
         case Got(len, n) => if len >= TWO_63 then HopErr(InvalidLength) else HopTo(n + len, 0))
      case 3 => HopTo(j, 1)
      case 4 => HopTo(j, -1)
      case 5 => HopTo(j + 4, 0)
      case _ => HopErr(BadWireType)
  }

  /** The position after a field, or after a whole group of fields, counted from `from` as a signed word. */
  function SkipFrom(d: Bytes, from: nat, i: nat, depth: nat): (r: Result<nat>)
    ensures r.Ok? ==> i < r.value
    decreases |d| - i
  {
    if i >= |d| then Err(UnexpectedEof)
    else
      match HopOver(d, i)
      case HopErr(e) => Err(e)
      case HopTo(n, delta) =>
        if depth + delta < 0 then Err(EndOfGroup)
        else if n >= from + TWO_63 then Err(InvalidLength)
        else if depth + delta == 0 then Ok(n)
        else SkipFrom(d, from, n, depth + delta)
  }

  /** Equal stretches have equal parts. */
  lemma Slices(d: Bytes, i: nat, n: nat, d': Bytes, i': nat, a: nat, b: nat)
    requires i <= a <= b <= n <= |d| && i' + n - i <= |d'| && d'[i'..i' + n - i] == d[i..n]
    ensures d'[i' + a - i..i' + b - i] == d[a..b]
  {
    var x, y := d'[i' + a - i..i' + b - i], d[a..b];
    forall k | 0 <= k < |x| ensures x[k] == y[k] {
      assert d'[i'..i' + n - i][a - i + k] == d[i..n][a - i + k];
    }
  }

  lemma HopLocal(d: Bytes, i: nat, d': Bytes, i': nat)
    requires HopOver(d, i).HopTo?
    requires var n := HopOver(d, i).next; n <= |d| && i' + n - i <= |d'| && d'[i'..i' + n - i] == d[i..n]
    ensures HopOver(d', i') == HopTo(i' + HopOver(d, i).next - i, HopOver(d, i).delta)
  {
    hide ReadVarint;
    var n := HopOver(d, i).next;
    var Got(wire, j) := ReadVarint(d, i, 0);
    Slices(d, i, n, d', i', i, j);
    ReadVarintLocal(d, i, d', i', 0);
    if wire % 8 == 0 || wire % 8 == 2 {
      var k := ReadVarint(d, j, 0).next;
      Slices(d, i, n, d', i', j, k);
      ReadVarintLocal(d, j, d', i' + j - i, 0);
    }
  }

  /** Skipping looks at no byte past the field. */
  lemma {:induction false} SkipLocal(d: Bytes, from: nat, i: nat, depth: nat, d': Bytes, from': nat, i': nat)
    requires SkipFrom(d, from, i, depth).Ok? && i' - from' == i - from
    requires var n := SkipFrom(d, from, i, depth).value; n <= |d| && i' + n - i <= |d'| && d'[i'..i' + n - i] == d[i..n]
    ensures SkipFrom(d', from', i', depth) == Ok(i' + SkipFrom(d, from, i, depth).value - i)
    decreases |d| - i
  {
    hide HopOver;
    var n := SkipFrom(d, from, i, depth).value;
    var HopTo(m, delta) := HopOver(d, i);
    Slices(d, i, n, d', i', i, m);
    HopLocal(d, i, d', i');
    if depth + delta > 0 {
      Slices(d, i, n, d', i', m, n);
      SkipLocal(d, from, m, depth + delta, d', from', i' + m - i);
    }
  }

  // ---------------------------------------------------------------- reading records

  function FieldOf(wire: nat): Int32 {
    Low32(wire / 8)
  }

  datatype Tag = TagOf(field: Int32, wireType: nat, next: nat) | TagErr(error: Error)

  function ReadTag(d: Bytes, i: nat): (t: Tag)
    ensures t.TagOf? ==> i < t.next <= |d|
  {
    match ReadVarint(d, i, 0)
    case Failed(e) => TagErr(e)
    case Got(wire, j) =>
      if wire % 8 == 4 then TagErr(BadWireType)
      else if FieldOf(wire) <= 0 then TagErr(BadTag)
      else TagOf(FieldOf(wire), wire % 8, j)
  }

  datatype Span = SpanOf(start: nat, end: nat) | SpanErr(error: Error)

  /** A length and the stretch it announces. */
  function ReadSpan(d: Bytes, i: nat): (s: Span)
    ensures s.SpanOf? ==> i < s.start <= s.end <= |d|
  {
    match ReadVarint(d, i, 0)
    case Failed(e) => SpanErr(e)
    case Got(len, j) =>
      if len >= TWO_63 || j + len >= TWO_63 then SpanErr(InvalidLength)
      else if j + len > |d| then SpanErr(UnexpectedEof)
      else SpanOf(j, j + len)
  }

  /** An unknown field, kept as it is. */
  function ReadUnknown(d: Bytes, i: nat): (s: Span)
    ensures s.SpanOf? ==> s.start == i < s.end <= |d|
  {
    match SkipFrom(d, i, i, 0)
    case Err(e) => SpanErr(e)
    case Ok(n) =>
      if n >= TWO_63 then SpanErr(InvalidLength)
      else if n > |d| then SpanErr(UnexpectedEof)
      else SpanOf(i, n)
  }

  function SetInt(m: KeyValue, field: Int32, x: Int64): KeyValue {
    if field == 2 then m.(createRevision := x)
    else if field == 3 then m.(modRevision := x)
    else if field == 4 then m.(version := x)
    else m.(lease := x)
  }

  function SetBytes(m: KeyValue, field: Int32, b: Bytes): KeyValue {
    if field == 1 then m.(key := b) else m.(value := b)
  }

  /** Reads fields from position i on into m; a field seen again replaces the earlier one, unknown ones pile up. */
  function DecodeKv(d: Bytes, i: nat, m: KeyValue): Result<KeyValue>
    decreases |d| - i
  {
    if i >= |d| then Ok(m)
    else
      match ReadTag(d, i)
      case TagErr(e) => Err(e)
      case TagOf(field, wireType, j) =>
        if field == 1 || field == 5 then
          if wireType != 2 then Err(BadWireType)
          else
            match ReadSpan(d, j)
            case SpanErr(e) => Err(e)
            case SpanOf(a, b) => DecodeKv(d, b, SetBytes(m, field, d[a..b]))
        else if field <= 6 then
          if wireType != 0 then Err(BadWireType)
          else
            match ReadVarint(d, j, 0)
            case Failed(e) => Err(e)
            case Got(w, n) => RoomIsWord(); DecodeKv(d, n, SetInt(m, field, Signed(w)))
        else
          match ReadUnknown(d, i)
          case SpanErr(e) => Err(e)
          case SpanOf(a, b) => DecodeKv(d, b, m.(unrecognized := m.unrecognized + d[a..b]))
  }

  // ---------------------------------------------------------------- reading back what was written

  lemma TagRead(d: Bytes, i: nat, tag: Byte)
    requires i < |d| && d[i] == tag && 8 <= tag < 128 && tag % 8 != 4
    ensures ReadTag(d, i) == TagOf(tag / 8, tag % 8, i + 1)
  {
    assert ReadVarint(d, i, 0) == Got(tag, i + 1);
    hide ReadVarint;
  }

  /** Where some bytes stand, each part of them stands. */
  lemma Standing(d: Bytes, i: nat, a: Bytes, b: Bytes)
    requires i + |a + b| <= |d| && d[i..i + |a + b|] == a + b
    ensures d[i..i + |a|] == a && d[i + |a|..i + |a| + |b|] == b
  {
    assert d[i..i + |a|] == d[i..i + |a + b|][..|a|];
    assert d[i + |a|..i + |a| + |b|] == d[i..i + |a + b|][|a|..];
  }

  lemma IntFieldRead(d: Bytes, i: nat, m: KeyValue, tag: Byte, x: Int64)
    requires tag == 0x10 || tag == 0x18 || tag == 0x20 || tag == 0x30
    requires i + |IntField(tag, x)| <= |d| && d[i..i + |IntField(tag, x)|] == IntField(tag, x)
    requires SetInt(m, tag / 8, 0) == m
    ensures DecodeKv(d, i, m) == DecodeKv(d, i + |IntField(tag, x)|, SetInt(m, tag / 8, x))
  {
    hide ReadVarint, ReadTag, EncodeVarint, SetInt, Word, Signed, Room;
    if x != 0 {
      var e := EncodeVarint(Word(x));
      Standing(d, i, [tag], e);
      assert d[i..i + 1][0] == tag;
      TagRead(d, i, tag);
      WordRoundTrip(x);
      RoomIsWord();
      VarintRoundTrip(d, i + 1, 0, Word(x));
    }
  }

  lemma SpanRead(d: Bytes, i: nat, b: Bytes)
    requires var e := EncodeVarint(|b|) + b; i + |e| <= |d| < TWO_63 && d[i..i + |e|] == e
    ensures var j := i + |EncodeVarint(|b|)|; ReadSpan(d, i) == SpanOf(j, j + |b|) && d[j..j + |b|] == b
  {
    hide ReadVarint, EncodeVarint, Room;
    Standing(d, i, EncodeVarint(|b|), b);
    RoomIsWord();
    VarintRoundTrip(d, i, 0, |b|);
  }

  lemma BytesFieldRead(d: Bytes, i: nat, m: KeyValue, tag: Byte, b: Bytes)
    requires (tag == 0x0a || tag == 0x2a) && |d| < TWO_63
    requires i + |BytesField(tag, b)| <= |d| && d[i..i + |BytesField(tag, b)|] == BytesField(tag, b)
    requires SetBytes(m, tag / 8, []) == m
    ensures DecodeKv(d, i, m) == DecodeKv(d, i + |BytesField(tag, b)|, SetBytes(m, tag / 8, b))
  {
    hide ReadVarint, ReadTag, ReadSpan, EncodeVarint, SetBytes;
    if b != [] {
      var e := EncodeVarint(|b|) + b;
      assert BytesField(tag, b) == [tag] + e;
      Standing(d, i, [tag], e);
      assert d[i..i + 1][0] == tag;
      TagRead(d, i, tag);
      SpanRead(d, i + 1, b);
    }
  }

  // ---------------------------------------------------------------- unknown fields

  /** A run of whole fields with numbers above `known`. */
  predicate Unknown(u: Bytes, known: nat)
    decreases |u|
  {
    u == [] ||
    (ReadTag(u, 0).TagOf? && ReadTag(u, 0).field > known && ReadUnknown(u, 0).SpanOf?
        && Unknown(u[ReadUnknown(u, 0).end..], known))
  }

  lemma TagLocal(d: Bytes, i: nat, n: nat, d': Bytes, i': nat)
    requires ReadTag(d, i).TagOf? && ReadTag(d, i).next <= n <= |d| && i' + n - i <= |d'|
             && d'[i'..i' + n - i] == d[i..n]
    ensures ReadTag(d', i') == ReadTag(d, i).(next := i' + ReadTag(d, i).next - i)
  {
    Slices(d, i, n, d', i', i, ReadTag(d, i).next);
    ReadVarintLocal(d, i, d', i', 0);
  }

  lemma TagBeforeEnd(d: Bytes, i: nat)
    requires ReadTag(d, i).TagOf? && ReadUnknown(d, i).SpanOf?
    ensures ReadTag(d, i).next <= ReadUnknown(d, i).end
  {
    SkipPastTag(d, i, i, 0);
  }

  lemma {:induction false} SkipPastTag(d: Bytes, from: nat, i: nat, depth: nat)
    requires SkipFrom(d, from, i, depth).Ok?
    ensures ReadVarint(d, i, 0).Got? && ReadVarint(d, i, 0).next <= SkipFrom(d, from, i, depth).value
  {
    hide ReadVarint;
  }

  lemma UnknownLocal(d: Bytes, i: nat, d': Bytes, i': nat)
    requires ReadUnknown(d, i).SpanOf? && |d'| < TWO_63
    requires var n := ReadUnknown(d, i).end; i' + n - i <= |d'| && d'[i'..i' + n - i] == d[i..n]
    ensures ReadUnknown(d', i') == SpanOf(i', i' + ReadUnknown(d, i).end - i)
  {
    SkipLocal(d, i, i, 0, d', i', i');
  }

  lemma Rejoined(p: Bytes, u: Bytes, n: nat)
    requires n <= |u|
    ensures p + u[0..n] + u[n..] == p + u
  {
    assert u == u[0..n] + u[n..];
  }

  /** Unknown fields at the end are kept as they are. */
  lemma {:induction false} UnknownRead(d: Bytes, i: nat, m: KeyValue, u: Bytes)
    requires i <= |d| < TWO_63 && d[i..] == u && Unknown(u, 6)
    ensures DecodeKv(d, i, m) == Ok(m.(unrecognized := m.unrecognized + u))
    decreases |u|
  {
    hide ReadVarint, ReadTag, ReadUnknown;
    if u == [] {
      assert m.unrecognized + u == m.unrecognized;
    } else {
      var n := ReadUnknown(u, 0).end;
      TagBeforeEnd(u, 0);
      assert d[i..i + n] == d[i..][..n] == u[0..n];
      TagLocal(u, 0, n, d, i);
      UnknownLocal(u, 0, d, i);
      var m' := m.(unrecognized := m.unrecognized + d[i..i + n]);
      assert d[i + n..] == d[i..][n..] == u[n..];
      UnknownRead(d, i + n, m', u[n..]);
      Rejoined(m.unrecognized, u, n);
    }
  }

  // ---------------------------------------------------------------- round trips of records

  /** Positions of seven parts of a whole. */
  lemma SevenParts(a: Bytes, b: Bytes, c: Bytes, e: Bytes, f: Bytes, g: Bytes, h: Bytes)
    ensures var d := a + b + c + e + f + g + h;
            var i1 := |a|; var i2 := i1 + |b|; var i3 := i2 + |c|; var i4 := i3 + |e|; var i5 := i4 + |f|;
                var i6 := i5 + |g|;
            && d[0..i1] == a && d[i1..i2] == b && d[i2..i3] == c && d[i3..i4] == e && d[i4..i5] == f && d[i5..i6] == g
                 && d[i6..] == h
            && |d| == i6 + |h|
  {
  }

  lemma FirstFieldsRead(d: Bytes, m: KeyValue, i1: nat, i2: nat, i3: nat)
    requires |d| < TWO_63 && i1 == |BytesField(0x0a, m.key)| && i2 == i1 + |IntField(0x10, m.createRevision)|
    requires i3 == i2 + |IntField(0x18, m.modRevision)| && i3 <= |d|
    requires d[0..i1] == BytesField(0x0a, m.key) && d[i1..i2] == IntField(0x10, m.createRevision)
    requires d[i2..i3] == IntField(0x18, m.modRevision)
    ensures DecodeKv(d, 0, NEW_KV) == DecodeKv(d, i3, KeyValue(m.key, m.createRevision, m.modRevision, 0, [], 0, []))
  {
    hide DecodeKv, IntField, BytesField;
    BytesFieldRead(d, 0, NEW_KV, 0x0a, m.key);
    IntFieldRead(d, i1, NEW_KV.(key := m.key), 0x10, m.createRevision);
    IntFieldRead(d, i2, NEW_KV.(key := m.key, createRevision := m.createRevision), 0x18, m.modRevision);
  }

  lemma LastFieldsRead(d: Bytes, m: KeyValue, i3: nat, i4: nat, i5: nat, i6: nat)
    requires |d| < TWO_63 && i4 == i3 + |IntField(0x20, m.version)| && i5 == i4 + |BytesField(0x2a, m.value)|
    requires i6 == i5 + |IntField(0x30, m.lease)| && i6 <= |d|
    requires d[i3..i4] == IntField(0x20, m.version) && d[i4..i5] == BytesField(0x2a, m.value)
             && d[i5..i6] == IntField(0x30, m.lease)
    requires d[i6..] == m.unrecognized && Unknown(m.unrecognized, 6)
    ensures DecodeKv(d, i3, KeyValue(m.key, m.createRevision, m.modRevision, 0, [], 0, [])) == Ok(m)
  {
    hide DecodeKv, IntField, BytesField, Unknown;
    var m3 := KeyValue(m.key, m.createRevision, m.modRevision, 0, [], 0, []);
    IntFieldRead(d, i3, m3, 0x20, m.version);
    BytesFieldRead(d, i4, m3.(version := m.version), 0x2a, m.value);
    IntFieldRead(d, i5, m3.(version := m.version, value := m.value), 0x30, m.lease);
    UnknownRead(d, i6, m.(unrecognized := []), m.unrecognized);
    assert [] + m.unrecognized == m.unrecognized;
  }

  /** Every record, negative numbers and unknown fields included, is read back as it was written. */
  lemma KvRoundTrip(m: KeyValue)
    requires Unknown(m.unrecognized, 6) && |EncodeKv(m)| < TWO_63
    ensures DecodeKv(EncodeKv(m), 0, NEW_KV) == Ok(m)
  {
    hide DecodeKv, IntField, BytesField, Unknown;
    var d := EncodeKv(m);
    var a, b, c := BytesField(0x0a, m.key), IntField(0x10, m.createRevision), IntField(0x18, m.modRevision);
    var e, f, g := IntField(0x20, m.version), BytesField(0x2a, m.value), IntField(0x30, m.lease);
    SevenParts(a, b, c, e, f, g, m.unrecognized);
    var i3 := |a| + |b| + |c|;
    FirstFieldsRead(d, m, |a|, |a| + |b|, i3);
    LastFieldsRead(d, m, i3, i3 + |e|, i3 + |e| + |f|, i3 + |e| + |f| + |g|);
  }

  lemma {:induction false} UnknownAppend(u: Bytes, c: Bytes, known: nat)
    requires Unknown(u, known) && Unknown(c, known) && |u + c| < TWO_63
    ensures Unknown(u + c, known)
    decreases |u|
  {
    hide ReadTag, ReadUnknown;
    if u == [] {
      assert u + c == c;
    } else {
      var n := ReadUnknown(u, 0).end;
      TagBeforeEnd(u, 0);
      assert (u + c)[0..n] == u[0..n];
      TagLocal(u, 0, n, u + c, 0);
      UnknownLocal(u, 0, u + c, 0);
      assert (u + c)[n..] == u[n..] + c;
      UnknownAppend(u[n..], c, known);
    }
  }

  /** One unknown field, cut out, is an unknown field. */
  lemma UnknownChunk(d: Bytes, i: nat, known: nat)
    requires ReadTag(d, i).TagOf? && ReadTag(d, i).field > known && ReadUnknown(d, i).SpanOf? && |d| < TWO_63
    ensures Unknown(d[i..ReadUnknown(d, i).end], known)
  {
    var n := ReadUnknown(d, i).end;
    var c := d[i..n];
    TagBeforeEnd(d, i);
    hide ReadTag, ReadUnknown;
    assert c[0..n - i] == d[i..n];
    TagLocal(d, i, n, c, 0);
    UnknownLocal(d, i, c, 0);
    assert c[n - i..] == [];
  }

  /** Whatever is read keeps its unknown fields whole. */
  lemma {:induction false} DecodedUnknown(d: Bytes, i: nat, m: KeyValue)
    requires i <= |d| < TWO_63 && Unknown(m.unrecognized, 6) && DecodeKv(d, i, m).Ok?
             && |m.unrecognized| + |d| - i < TWO_63
    ensures Unknown(DecodeKv(d, i, m).value.unrecognized, 6)
    ensures |DecodeKv(d, i, m).value.unrecognized| <= |m.unrecognized| + |d| - i
    decreases |d| - i
  {
    hide ReadTag, ReadUnknown, ReadSpan, ReadVarint, Unknown, Signed;
    if i < |d| {
      var TagOf(field, _, j) := ReadTag(d, i);
      if field == 1 || field == 5 {
        var SpanOf(a, b) := ReadSpan(d, j);
        DecodedUnknown(d, b, SetBytes(m, field, d[a..b]));
      } else if field <= 6 {
        var Got(w, n) := ReadVarint(d, j, 0);
        RoomIsWord();
        DecodedUnknown(d, n, SetInt(m, field, Signed(w)));
      } else {
        var n := ReadUnknown(d, i).end;
        UnknownChunk(d, i, 6);
        UnknownAppend(m.unrecognized, d[i..n], 6);
        DecodedUnknown(d, n, m.(unrecognized := m.unrecognized + d[i..n]));
      }
    }
  }

  /** What was read from any accepted bytes survives being written and read again. */
  lemma KvReencode(d: Bytes)
    requires |d| < TWO_63 && DecodeKv(d, 0, NEW_KV).Ok? && |EncodeKv(DecodeKv(d, 0, NEW_KV).value)| < TWO_63
    ensures DecodeKv(EncodeKv(DecodeKv(d, 0, NEW_KV).value), 0, NEW_KV) == DecodeKv(d, 0, NEW_KV)
  {
    hide DecodeKv, EncodeKv;
    DecodedUnknown(d, 0, NEW_KV);
    KvRoundTrip(DecodeKv(d, 0, NEW_KV).value);
  }
}
