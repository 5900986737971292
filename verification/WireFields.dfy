/** What the bytes of the key-value format mean, said of the bytes: numbers, fields, and what is skipped. */
module WireFields {
  import opened RaftTypes
  import opened Varint
  import opened KvFormat
  import opened EventFormat

  // ---------------------------------------------------------------- numbers

  /** m bytes from i on are one number: all but the last say that more follow. */
  ghost predicate Stands(d: Bytes, i: nat, m: nat) {
    && 0 < m <= 10 && i + m <= |d| && d[i + m - 1] < 128
    && forall j :: i <= j < i + m - 1 ==> d[j] >= 128
  }

  /** values[j] is what the bytes from the j-th on are worth, seven bits a byte, low bits first. */
  ghost predicate Worth(d: Bytes, i: nat, m: nat, values: seq<nat>) {
    && i + m <= |d| && |values| == m + 1 && values[m] == 0
    && forall j :: 0 <= j < m ==> values[j] == d[i + j] % 128 + 128 * values[j + 1]
  }

  lemma MulAtLeast(k: nat, m: nat)
    requires k > 0
    ensures k * m >= m
  {
    assert k * m == (k - 1) * m + m;
  }

  /** Quotient and remainder are unique. */
  lemma ModIs(a: nat, q: nat, r: nat, m: nat)
    requires r < m && a == q * m + r
    ensures a % m == r
  {
    var q', r' := a / m, a % m;
    assert a == q' * m + r';
    assert (q - q') * m == q * m - q' * m && (q' - q) * m == q' * m - q * m;
    if q > q' { MulAtLeast(q - q', m); } else if q < q' { MulAtLeast(q' - q, m); }
  }

  lemma ModShift(g: nat, w: nat, r: nat)
    requires g < 128 && r > 0
    ensures (g + 128 * w) % (128 * r) == g + 128 * (w % r)
  {
    var q := w / r;
    assert w == q * r + w % r;
    assert 128 * (q * r) == q * (128 * r);
    ModIs(g + 128 * w, q, g + 128 * (w % r), 128 * r);
  }

  lemma {:induction false} ReadFrom(d: Bytes, i: nat, m: nat, values: seq<nat>, k: nat)
    requires Stands(d, i, m) && Worth(d, i, m, values) && k < m
    ensures ReadVarint(d, i + k, k) == Got(values[k] % Room(k), i + m)
    decreases m - k
  {
    var b := d[i + k];
    if k == m - 1 {
      SmallGroup(b);
      assert values[k] == b;
      LastGroup(b, k);
    } else {
      ReadFrom(d, i, m, values, k + 1);
      OneGroup(d, i, m, values, k);
    }
  }

  lemma SmallGroup(b: Byte)
    requires b < 128
    ensures b % 128 == b
  {
  }

  lemma OneGroup(d: Bytes, i: nat, m: nat, values: seq<nat>, k: nat)
    requires Stands(d, i, m) && Worth(d, i, m, values) && k + 1 < m
    requires ReadVarint(d, i + (k + 1), k + 1) == Got(values[k + 1] % Room(k + 1), i + m)
    ensures ReadVarint(d, i + k, k) == Got(values[k] % Room(k), i + m)
  {
    var g, w, r := d[i + k] % 128, values[k + 1], Room(k + 1);
    assert values[k] == g + 128 * w && Room(k) == 128 * r && d[i + k] >= 128;
    ModShift(g, w, r);
    hide Room;
  }

  lemma LastGroup(b: Byte, k: nat)
    requires b < 128 && k <= 9
    ensures b % Room(k) == if k == 9 then b % 2 else b
  {
    if k < 9 {
      var room := Room(k);
      hide Room;
      ModIs(b, 0, b, room);
    }
  }

  /** A number is what its bytes are worth, modulo 2^64; without an end in ten bytes it is an overflow, and where the
      data ends before it does, an unexpected end. */
  lemma VarintExactly(d: Bytes, i: nat, m: nat, values: seq<nat>)
    ensures Stands(d, i, m) && Worth(d, i, m, values) ==> ReadVarint(d, i, 0) == Got(values[0] % TWO_64, i + m)
    ensures i + 10 <= |d| && (forall j :: i <= j < i + 10 ==> d[j] >= 128) ==>
              ReadVarint(d, i, 0) == Failed(IntOverflow)
    ensures i <= |d| < i + 10 && (forall j :: i <= j < |d| ==> d[j] >= 128) ==>
              ReadVarint(d, i, 0) == Failed(UnexpectedEof)
  {
    RoomIsWord();
    if Stands(d, i, m) && Worth(d, i, m, values) { ReadFrom(d, i, m, values, 0); }
    if i + 10 <= |d| && (forall j :: i <= j < i + 10 ==> d[j] >= 128) { NoEnd(d, i, 0); }
    if i <= |d| < i + 10 && (forall j :: i <= j < |d| ==> d[j] >= 128) { CutShort(d, i, 0); }
  }

  lemma {:induction false} NoEnd(d: Bytes, i: nat, k: nat)
    requires k <= 10 && i + 10 - k <= |d| && forall j :: i <= j < i + 10 - k ==> d[j] >= 128
    ensures ReadVarint(d, i, k) == Failed(IntOverflow)
    decreases 10 - k
  {
    if k < 10 { NoEnd(d, i + 1, k + 1); }
  }

  lemma {:induction false} CutShort(d: Bytes, i: nat, k: nat)
    requires k <= 10 && i <= |d| < i + 10 - k && forall j :: i <= j < |d| ==> d[j] >= 128
    ensures ReadVarint(d, i, k) == Failed(UnexpectedEof)
    decreases 10 - k
  {
    if i < |d| { CutShort(d, i + 1, k + 1); }
  }

  /** Words and numbers are the same in two's complement. */
  lemma TwosComplement(w: nat)
    requires w < TWO_64
    ensures Word(Signed(w)) == w && (Signed(w) == w || Signed(w) == w - TWO_64)
    ensures Low32(w) == w % TWO_32 || Low32(w) == w % TWO_32 - TWO_32
  {
  }

  // ---------------------------------------------------------------- the fields of a record

  /** What the number field with this tag byte says. */
  ghost predicate NumberSet(tag: Byte, m: KeyValue, x: Int64, m': KeyValue) {
    || (tag == 0x10 && m' == m.(createRevision := x))
    || (tag == 0x18 && m' == m.(modRevision := x))
    || (tag == 0x20 && m' == m.(version := x))
    || (tag == 0x30 && m' == m.(lease := x))
  }

  /** A number field sets its field and nothing else, and reading goes on behind it. */
  lemma NumberField(d: Bytes, i: nat, m: KeyValue, n: nat, values: seq<nat>, m': KeyValue)
    requires i < |d| && Stands(d, i + 1, n) && Worth(d, i + 1, n, values)
    requires NumberSet(d[i], m, Signed(values[0] % TWO_64), m')
    ensures DecodeKv(d, i, m) == DecodeKv(d, i + 1 + n, m')
  {
    hide ReadVarint, ReadTag, Stands, Signed, DecodeKv, NumberSet;
    VarintExactly(d, i + 1, n, values);
    NumberTags(d[i], m, Signed(values[0] % TWO_64), m');
    TagRead(d, i, d[i]);
    NumberTaken(d, i, m, values[0] % TWO_64, i + 1 + n, m');
  }

  lemma NumberTags(tag: Byte, m: KeyValue, x: Int64, m': KeyValue)
    requires NumberSet(tag, m, x, m')
    ensures (tag == 0x10 || tag == 0x18 || tag == 0x20 || tag == 0x30) && SetInt(m, tag / 8, x) == m'
  {
  }

  lemma NumberTaken(d: Bytes, i: nat, m: KeyValue, w: nat, next: nat, m': KeyValue)
    requires i < |d| && (d[i] == 0x10 || d[i] == 0x18 || d[i] == 0x20 || d[i] == 0x30) && w < TWO_64
    requires ReadTag(d, i) == TagOf(d[i] / 8, d[i] % 8, i + 1) && ReadVarint(d, i + 1, 0) == Got(w, next)
    requires SetInt(m, d[i] / 8, Signed(w)) == m'
    ensures DecodeKv(d, i, m) == DecodeKv(d, next, m')
  {
    hide ReadVarint, ReadTag, ReadSpan, ReadUnknown, Signed, SetInt, Room;
  }

  /** What a length of len in front of position `from` announces. */
  function Stretch(d: Bytes, from: nat, len: nat): Span {
    if from + len >= TWO_63 then SpanErr(InvalidLength)
    else if from + len > |d| then SpanErr(UnexpectedEof)
    else SpanOf(from, from + len)
  }

  lemma SpanExactly(d: Bytes, i: nat, n: nat, values: seq<nat>)
    requires Stands(d, i, n) && Worth(d, i, n, values)
    ensures ReadSpan(d, i) == Stretch(d, i + n, values[0] % TWO_64)
  {
    VarintExactly(d, i, n, values);
    var len := values[0] % TWO_64;
    assert ReadVarint(d, i, 0) == Got(len, i + n);
    hide ReadVarint, Stands, Worth;
  }

  lemma BytesTaken(d: Bytes, i: nat, m: KeyValue)
    requires i < |d| && (d[i] == 0x0a || d[i] == 0x2a) && ReadTag(d, i) == TagOf(d[i] / 8, d[i] % 8, i + 1)
    ensures match ReadSpan(d, i + 1)
            case SpanErr(e) => DecodeKv(d, i, m) == Err(e)
            case SpanOf(a, b) =>
              DecodeKv(d, i, m) == DecodeKv(d, b, if d[i] == 0x0a then m.(key := d[a..b]) else m.(value := d[a..b]))
  {
    hide ReadVarint, ReadTag, ReadSpan, ReadUnknown, Signed, SetInt, Room;
  }

  /** A byte field takes as many bytes as announced; too few of them, or a length past 2^63, are errors. */
  lemma BytesFieldExactly(d: Bytes, i: nat, m: KeyValue, n: nat, values: seq<nat>)
    requires i < |d| && (d[i] == 0x0a || d[i] == 0x2a) && Stands(d, i + 1, n) && Worth(d, i + 1, n, values)
    ensures match Stretch(d, i + 1 + n, values[0] % TWO_64)
            case SpanErr(e) => DecodeKv(d, i, m) == Err(e)
            case SpanOf(a, b) =>
              DecodeKv(d, i, m) == DecodeKv(d, b, if d[i] == 0x0a then m.(key := d[a..b]) else m.(value := d[a..b]))
  {
    hide Stands, ReadVarint, ReadTag, ReadSpan, DecodeKv;
    SpanExactly(d, i + 1, n, values);
    TagRead(d, i, d[i]);
    BytesTaken(d, i, m);
  }

  /** A known field with the wrong wire type is an error. */
  lemma WrongType(d: Bytes, i: nat, m: KeyValue)
    requires i < |d| && 8 <= d[i] < 56
    requires if d[i] / 8 == 1 || d[i] / 8 == 5 then d[i] % 8 != 2 else d[i] % 8 != 0
    ensures DecodeKv(d, i, m) == Err(BadWireType)
  {
    if d[i] % 8 != 4 { TagRead(d, i, d[i]); }
  }

  /** Field number 0 is an error, and so is the end of a group that did not begin. */
  lemma NoField(d: Bytes, i: nat, m: KeyValue)
    requires i < |d| && (d[i] < 8 || (d[i] < 128 && d[i] % 8 == 4))
    ensures DecodeKv(d, i, m) == Err(if d[i] % 8 == 4 then BadWireType else BadTag)
  {
    OneByteTag(d, i);
    hide ReadTag, ReadVarint;
  }

  lemma OneByteTag(d: Bytes, i: nat)
    requires i < |d| && (d[i] < 8 || (d[i] < 128 && d[i] % 8 == 4))
    ensures ReadTag(d, i) == TagErr(if d[i] % 8 == 4 then BadWireType else BadTag)
  {
    assert ReadVarint(d, i, 0) == Got(d[i], i + 1);
    hide ReadVarint;
    if d[i] < 8 { assert d[i] / 8 == 0; }
  }

  /** Fields at their default are not written. */
  lemma DefaultsAreNotWritten(u: Bytes)
    ensures EncodeKv(KeyValue([], 0, 0, 0, [], 0, u)) == u
    ensures EncodeEvent(Event(0, None, None, u)) == u
  {
  }

  // ---------------------------------------------------------------- the fields of an event

  lemma KindTaken(d: Bytes, i: nat, m: Event, w: nat, next: nat)
    requires i < |d| && d[i] == 0x08 && ReadTag(d, i) == TagOf(1, 0, i + 1) && ReadVarint(d, i + 1, 0) == Got(w, next)
    ensures DecodeEvent(d, i, m) == DecodeEvent(d, next, m.(kind := Low32(w)))
  {
    hide ReadVarint, ReadTag, ReadSpan, ReadUnknown, Low32, DecodeKv;
  }

  /** The kind is the low 32 bits of its number. */
  lemma KindField(d: Bytes, i: nat, m: Event, n: nat, values: seq<nat>)
    requires i < |d| && d[i] == 0x08 && Stands(d, i + 1, n) && Worth(d, i + 1, n, values)
    ensures DecodeEvent(d, i, m) == DecodeEvent(d, i + 1 + n, m.(kind := Low32(values[0] % TWO_64)))
  {
    hide ReadVarint, ReadTag, Stands, DecodeEvent, Low32;
    VarintExactly(d, i + 1, n, values);
    TagRead(d, i, 0x08);
    KindTaken(d, i, m, values[0] % TWO_64, i + 1 + n);
  }

  /** What becomes of an event when a record was read into one of its two places. */
  function WithRecord(tag: Byte, m: Event, kv: KeyValue): Event {
    if tag == 0x12 then m.(kv := Some(kv)) else m.(prevKv := Some(kv))
  }

  function RecordBefore(tag: Byte, m: Event): KeyValue {
    var before := if tag == 0x12 then m.kv else m.prevKv;
    if before.Some? then before.value else KeyValue([], 0, 0, 0, [], 0, [])
  }

  /** What reading comes to when a record stands in this stretch. */
  function AfterRecord(d: Bytes, tag: Byte, m: Event, s: Span): Result<Event>
    requires s.SpanOf? ==> s.start <= s.end <= |d|
  {
    if s.SpanErr? then Err(s.error)
    else
      var kv := DecodeKv(d[s.start..s.end], 0, RecordBefore(tag, m));
      if kv.Err? then Err(kv.error) else DecodeEvent(d, s.end, WithRecord(tag, m, kv.value))
  }

  lemma RecordTaken(d: Bytes, i: nat, m: Event)
    requires i < |d| && (d[i] == 0x12 || d[i] == 0x1a) && ReadTag(d, i) == TagOf(d[i] / 8, d[i] % 8, i + 1)
    ensures DecodeEvent(d, i, m) == AfterRecord(d, d[i], m, ReadSpan(d, i + 1))
  {
    hide ReadVarint, ReadTag, ReadSpan, ReadUnknown, Low32, DecodeKv;
  }

  /** A record is read from just the bytes announced, on top of what an earlier field gave; an error in it is an error
      of the event. */
  lemma RecordField(d: Bytes, i: nat, m: Event, n: nat, values: seq<nat>)
    requires i < |d| && (d[i] == 0x12 || d[i] == 0x1a) && Stands(d, i + 1, n) && Worth(d, i + 1, n, values)
    ensures DecodeEvent(d, i, m) == AfterRecord(d, d[i], m, Stretch(d, i + 1 + n, values[0] % TWO_64))
  {
    hide Stands, ReadVarint, ReadTag, ReadSpan, DecodeEvent, DecodeKv;
    SpanExactly(d, i + 1, n, values);
    TagRead(d, i, d[i]);
    RecordTaken(d, i, m);
  }

  // ---------------------------------------------------------------- fields of any kind, and groups of them

  /** A field as a writer means it. */
  datatype Wire =
    | Number(no: nat, w: nat)
    | Fixed64(no: nat, data: Bytes)
    | Delimited(no: nat, data: Bytes)
    | Group(no: nat, fields: seq<Wire>)
    | Fixed32(no: nat, data: Bytes)

  predicate Meant(w: Wire) {
    && 0 < w.no < 0x2000_0000
    && match w
       case Number(_, x) => x < TWO_64
       case Fixed64(_, data) => |data| == 8
       case Delimited(_, data) => |data| < TWO_63
       case Group(_, fields) => forall f :: f in fields ==> Meant(f)
       case Fixed32(_, data) => |data| == 4
  }

  function TagBytes(no: nat, wireType: nat): Bytes {
    EncodeVarint(8 * no + wireType)
  }

  function WireBytes(w: Wire): (b: Bytes)
    ensures b != []
  {
    match w
    case Number(no, x) => TagBytes(no, 0) + EncodeVarint(x)
    case Fixed64(no, data) => TagBytes(no, 1) + data
    case Delimited(no, data) => TagBytes(no, 2) + (EncodeVarint(|data|) + data)
    case Group(no, fields) => TagBytes(no, 3) + (AllBytes(fields) + TagBytes(no, 4))
    case Fixed32(no, data) => TagBytes(no, 5) + data
  }

  function AllBytes(ws: seq<Wire>): Bytes {
    if ws == [] then [] else WireBytes(ws[0]) + AllBytes(ws[1..])
  }

  lemma TagReadBack(d: Bytes, i: nat, no: nat, t: nat)
    requires 0 < no < 0x2000_0000 && t < 8
    requires i + |TagBytes(no, t)| <= |d| && d[i..i + |TagBytes(no, t)|] == TagBytes(no, t)
    ensures ReadVarint(d, i, 0) == Got(8 * no + t, i + |TagBytes(no, t)|)
    ensures t != 4 ==> ReadTag(d, i) == TagOf(no, t, i + |TagBytes(no, t)|)
  {
    hide ReadVarint, EncodeVarint, Room;
    RoomIsWord();
    VarintRoundTrip(d, i, 0, 8 * no + t);
    assert (8 * no + t) % 8 == t && (8 * no + t) / 8 == no;
  }

  /** One hop takes a field that is no group, or the mark at either end of a group. */
  lemma HopsOver(d: Bytes, i: nat, w: Wire)
    requires Meant(w) && !w.Group? && i + |WireBytes(w)| <= |d| && d[i..i + |WireBytes(w)|] == WireBytes(w)
    ensures HopOver(d, i) == HopTo(i + |WireBytes(w)|, 0)
  {
    hide ReadVarint, EncodeVarint, Room;
    var t := if w.Number? then 0 else if w.Fixed64? then 1 else if w.Delimited? then 2 else 5;
    var tag := TagBytes(w.no, t);
    var rest :=
      if w.Number? then EncodeVarint(w.w) else if w.Delimited? then EncodeVarint(|w.data|) + w.data else w.data;
    assert WireBytes(w) == tag + rest;
    Standing(d, i, tag, rest);
    TagReadBack(d, i, w.no, t);
    var j := i + |tag|;
    RoomIsWord();
    if w.Number? {
      VarintRoundTrip(d, j, 0, w.w);
    } else if w.Delimited? {
      Standing(d, j, EncodeVarint(|w.data|), w.data);
      VarintRoundTrip(d, j, 0, |w.data|);
    }
  }

  lemma GroupMark(d: Bytes, i: nat, no: nat, t: nat)
    requires 0 < no < 0x2000_0000 && (t == 3 || t == 4)
    requires i + |TagBytes(no, t)| <= |d| && d[i..i + |TagBytes(no, t)|] == TagBytes(no, t)
    ensures HopOver(d, i) == HopTo(i + |TagBytes(no, t)|, if t == 3 then 1 else -1)
  {
    TagReadBack(d, i, no, t);
    hide ReadVarint, EncodeVarint;
  }

  /** Where skipping is after it passed a field: at its end, and done unless a group is still open. */
  function SkippedTo(d: Bytes, from: nat, n: nat, depth: nat): Result<nat> {
    if depth == 0 then Ok(n) else SkipFrom(d, from, n, depth)
  }

  /** Skipping passes exactly one field, whatever is nested in it. */
  lemma {:induction false} SkipsField(d: Bytes, from: nat, i: nat, depth: nat, w: Wire)
    requires Meant(w) && from <= i && i + |WireBytes(w)| <= |d| && |d| < from + TWO_63
    requires d[i..i + |WireBytes(w)|] == WireBytes(w)
    ensures SkipFrom(d, from, i, depth) == SkippedTo(d, from, i + |WireBytes(w)|, depth)
    decreases w
  {
    hide HopOver, TagBytes;
    if w.Group? {
      var a, b, c := TagBytes(w.no, 3), AllBytes(w.fields), TagBytes(w.no, 4);
      assert WireBytes(w) == a + (b + c);
      Standing(d, i, a, b + c);
      Standing(d, i + |a|, b, c);
      GroupMark(d, i, w.no, 3);
      SkipsFields(d, from, i + |a|, depth + 1, w.fields);
      GroupMark(d, i + |a| + |b|, w.no, 4);
      NotEmptyTag(w.no, 4);
    } else {
      HopsOver(d, i, w);
    }
  }

  lemma NotEmptyTag(no: nat, t: nat)
    ensures TagBytes(no, t) != []
  {
  }

  lemma {:induction false} SkipsFields(d: Bytes, from: nat, i: nat, depth: nat, ws: seq<Wire>)
    requires (forall f :: f in ws ==> Meant(f)) && depth > 0
    requires from <= i && i + |AllBytes(ws)| <= |d| && |d| < from + TWO_63 && d[i..i + |AllBytes(ws)|] == AllBytes(ws)
    ensures SkipFrom(d, from, i, depth) == SkipFrom(d, from, i + |AllBytes(ws)|, depth)
    decreases ws
  {
    hide SkipFrom, WireBytes, Meant;
    if ws != [] {
      var a, b := WireBytes(ws[0]), AllBytes(ws[1..]);
      Standing(d, i, a, b);
      SkipsField(d, from, i, depth, ws[0]);
      SkipsFields(d, from, i + |a|, depth, ws[1..]);
    }
  }

  lemma FirstTag(d: Bytes, w: Wire, rest: Bytes)
    requires Meant(w) && d == WireBytes(w) + rest
    ensures ReadTag(d, 0).TagOf? && ReadTag(d, 0).field == w.no
  {
    hide ReadTag, EncodeVarint, Meant;
    var t := if w.Number? then 0 else if w.Fixed64? then 1 else if w.Delimited? then 2 else if w.Group? then 3 else 5;
    var tag := TagBytes(w.no, t);
    assert tag <= WireBytes(w);
    assert d[0..0 + |tag|] == tag;
    assert 0 < w.no < 0x2000_0000 by { NumberMeant(w); }
    TagReadBack(d, 0, w.no, t);
  }

  lemma NumberMeant(w: Wire)
    requires Meant(w)
    ensures 0 < w.no < 0x2000_0000
  {
  }

  /** Any fields with numbers above the known ones, groups included, are unknown fields. */
  lemma {:induction false} MeantIsUnknown(ws: seq<Wire>, known: nat)
    requires forall f :: f in ws ==> Meant(f) && f.no > known
    requires |AllBytes(ws)| < TWO_63
    ensures Unknown(AllBytes(ws), known)
    decreases |ws|
  {
    hide ReadTag, WireBytes, Meant, SkipFrom;
    if ws != [] {
      var d, a := AllBytes(ws), WireBytes(ws[0]);
      FirstTag(d, ws[0], AllBytes(ws[1..]));
      assert d[0..0 + |a|] == a && d[|a|..] == AllBytes(ws[1..]);
      SkipsField(d, 0, 0, 0, ws[0]);
      assert ReadUnknown(d, 0) == SpanOf(0, |a|);
      MeantIsUnknown(ws[1..], known);
    }
  }

  /** A record written by a newer version, with any further fields, is read, and written again as it was. */
  lemma NewerRecord(m: KeyValue, ws: seq<Wire>)
    requires (forall f :: f in ws ==> Meant(f) && f.no > 6) && m.unrecognized == AllBytes(ws)
    requires |EncodeKv(m)| < TWO_63
    ensures DecodeKv(EncodeKv(m), 0, NEW_KV) == Ok(m)
  {
    hide Meant, DecodeKv, AllBytes, Unknown;
    MeantIsUnknown(ws, 6);
    KvRoundTrip(m);
  }
}
