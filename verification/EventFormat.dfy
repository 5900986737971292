/** Events: a kind and up to two records, each in its own length-delimited stretch (etcd/api/mvccpb/kv.pb.go). */
module EventFormat {
  import opened RaftTypes
  import opened Varint
  import opened KvFormat

  function KvOr(m: Option<KeyValue>): KeyValue {
    if m.Some? then m.value else NEW_KV
  }

  /** Reads fields from position i on into m; a record seen again is merged into the earlier one. */
  function DecodeEvent(d: Bytes, i: nat, m: Event): Result<Event>
    decreases |d| - i
  {
    if i >= |d| then Ok(m)
    else
      match ReadTag(d, i)
      case TagErr(e) => Err(e)
      case TagOf(field, wireType, j) =>
        if field == 1 then
          if wireType != 0 then Err(BadWireType)
          else
            match ReadVarint(d, j, 0)
            case Failed(e) => Err(e)
            case Got(w, n) => DecodeEvent(d, n, m.(kind := Low32(w)))
        else if field <= 3 then
          if wireType != 2 then Err(BadWireType)
          else
            match ReadSpan(d, j)
            case SpanErr(e) => Err(e)
            case SpanOf(a, b) =>
              match DecodeKv(d[a..b], 0, KvOr(if field == 2 then m.kv else m.prevKv))
              case Err(e) => Err(e)
              case Ok(kv) => DecodeEvent(d, b, if field == 2 then m.(kv := Some(kv)) else m.(prevKv := Some(kv)))
        else
          match ReadUnknown(d, i)
          case SpanErr(e) => Err(e)
          case SpanOf(a, b) => DecodeEvent(d, b, m.(unrecognized := m.unrecognized + d[a..b]))
  }

  // ---------------------------------------------------------------- reading back what was written

  lemma KindRoundTrip(x: Int32)
    ensures Low32(Word(x)) == x && Word(x) < TWO_64
  {
  }

  lemma KindRead(d: Bytes, i: nat, m: Event, x: Int32)
    requires i + |IntField(0x08, x)| <= |d| && d[i..i + |IntField(0x08, x)|] == IntField(0x08, x) && m.kind == 0
    ensures DecodeEvent(d, i, m) == DecodeEvent(d, i + |IntField(0x08, x)|, m.(kind := x))
  {
    hide ReadVarint, ReadTag, EncodeVarint, Word, Low32, Room;
    if x != 0 {
      Standing(d, i, [0x08], EncodeVarint(Word(x)));
      assert d[i..i + 1][0] == 0x08;
      TagRead(d, i, 0x08);
      KindRoundTrip(x);
      RoomIsWord();
      VarintRoundTrip(d, i + 1, 0, Word(x));
    }
  }

  /** A record that can be written is one whose unknown fields are whole. */
  ghost predicate Writable(m: Option<KeyValue>) {
    m.Some? ==> Unknown(m.value.unrecognized, 6)
  }

  lemma KvFieldRead(d: Bytes, i: nat, m: Event, tag: Byte, kv: Option<KeyValue>)
    requires (tag == 0x12 || tag == 0x1a) && |d| < TWO_63 && Writable(kv)
    requires i + |KvField(tag, kv)| <= |d| && d[i..i + |KvField(tag, kv)|] == KvField(tag, kv)
    requires (if tag == 0x12 then m.kv else m.prevKv) == None
    ensures DecodeEvent(d, i, m) ==
            DecodeEvent(d, i + |KvField(tag, kv)|, if tag == 0x12 then m.(kv := kv) else m.(prevKv := kv))
  {
    hide ReadVarint, ReadTag, ReadSpan, EncodeVarint, EncodeKv, DecodeKv, Unknown;
    if kv.Some? {
      var b := EncodeKv(kv.value);
      var e := EncodeVarint(|b|) + b;
      assert KvField(tag, kv) == [tag] + e;
      Standing(d, i, [tag], e);
      assert d[i..i + 1][0] == tag;
      TagRead(d, i, tag);
      SpanRead(d, i + 1, b);
      KvRoundTrip(kv.value);
    }
  }

  lemma {:induction false} UnknownEventRead(d: Bytes, i: nat, m: Event, u: Bytes)
    requires i <= |d| < TWO_63 && d[i..] == u && Unknown(u, 3)
    ensures DecodeEvent(d, i, m) == Ok(m.(unrecognized := m.unrecognized + u))
    decreases |u|
  {
    hide ReadVarint, ReadTag, ReadUnknown, DecodeKv;
    if u == [] {
      assert m.unrecognized + u == m.unrecognized;
    } else {
      var n := ReadUnknown(u, 0).end;
      TagBeforeEnd(u, 0);
      assert d[i..i + n] == d[i..][..n] == u[0..n];
      TagLocal(u, 0, n, d, i);
      UnknownLocal(u, 0, d, i);
      var m' := m.(unrecognized := m.unrecognized + d[i..i + n]);
      assert d[i + n..] == d[i..][n..] == u[n..];
      UnknownEventRead(d, i + n, m', u[n..]);
      Rejoined(m.unrecognized, u, n);
    }
  }

  lemma FourParts(a: Bytes, b: Bytes, c: Bytes, e: Bytes)
    ensures var d := a + b + c + e;
            d[0..|a|] == a && d[|a|..|a| + |b|] == b && d[|a| + |b|..|a| + |b| + |c|] == c && d[|a| + |b| + |c|..] == e
  {
  }

  /** Every event is read back as it was written. */
  lemma EventRoundTrip(m: Event)
    requires Unknown(m.unrecognized, 3) && Writable(m.kv) && Writable(m.prevKv) && |EncodeEvent(m)| < TWO_63
    ensures DecodeEvent(EncodeEvent(m), 0, NEW_EVENT) == Ok(m)
  {
    hide DecodeEvent, IntField, KvField, Unknown, Writable;
    var d := EncodeEvent(m);
    var a, b, c := IntField(0x08, m.kind), KvField(0x12, m.kv), KvField(0x1a, m.prevKv);
    FourParts(a, b, c, m.unrecognized);
    KindRead(d, 0, NEW_EVENT, m.kind);
    KvFieldRead(d, |a|, NEW_EVENT.(kind := m.kind), 0x12, m.kv);
    KvFieldRead(d, |a| + |b|, NEW_EVENT.(kind := m.kind, kv := m.kv), 0x1a, m.prevKv);
    UnknownEventRead(d, |a| + |b| + |c|, m.(unrecognized := []), m.unrecognized);
    assert [] + m.unrecognized == m.unrecognized;
  }

  // ---------------------------------------------------------------- writing what was read

  /** A record with whole unknown fields, no longer than what has been read. */
  ghost predicate Kept(m: Option<KeyValue>, i: nat) {
    m.Some? ==> Unknown(m.value.unrecognized, 6) && |m.value.unrecognized| <= i
  }

  lemma {:induction false} DecodedEventUnknown(d: Bytes, i: nat, m: Event)
    requires i <= |d| < TWO_63 && Unknown(m.unrecognized, 3) && Kept(m.kv, i) && Kept(m.prevKv, i)
             && |m.unrecognized| <= i
    requires DecodeEvent(d, i, m).Ok?
    ensures var r := DecodeEvent(d, i, m).value; Unknown(r.unrecognized, 3) && Kept(r.kv, |d|) && Kept(r.prevKv, |d|)
    decreases |d| - i
  {
    hide ReadTag, ReadUnknown, ReadSpan, ReadVarint, Unknown, Low32, DecodeKv;
    if i < |d| {
      var TagOf(field, _, j) := ReadTag(d, i);
      if field == 1 {
        var Got(w, n) := ReadVarint(d, j, 0);
        DecodedEventUnknown(d, n, m.(kind := Low32(w)));
      } else if field <= 3 {
        var SpanOf(a, b) := ReadSpan(d, j);
        var old_ := KvOr(if field == 2 then m.kv else m.prevKv);
        NewKvKept();
        DecodedUnknown(d[a..b], 0, old_);
        var kv := DecodeKv(d[a..b], 0, old_).value;
        DecodedEventUnknown(d, b, if field == 2 then m.(kv := Some(kv)) else m.(prevKv := Some(kv)));
      } else {
        var n := ReadUnknown(d, i).end;
        UnknownChunk(d, i, 3);
        UnknownAppend(m.unrecognized, d[i..n], 3);
        DecodedEventUnknown(d, n, m.(unrecognized := m.unrecognized + d[i..n]));
      }
    }
  }

  lemma NewKvKept()
    ensures Unknown(NEW_KV.unrecognized, 6)
  {
  }

  /** What was read from any accepted bytes survives being written and read again. */
  lemma EventReencode(d: Bytes)
    requires |d| < TWO_63 && DecodeEvent(d, 0, NEW_EVENT).Ok?
    requires |EncodeEvent(DecodeEvent(d, 0, NEW_EVENT).value)| < TWO_63
    ensures DecodeEvent(EncodeEvent(DecodeEvent(d, 0, NEW_EVENT).value), 0, NEW_EVENT) == DecodeEvent(d, 0, NEW_EVENT)
  {
    hide DecodeEvent, EncodeEvent, EncodeKv;
    DecodedEventUnknown(d, 0, NEW_EVENT);
    EventRoundTrip(DecodeEvent(d, 0, NEW_EVENT).value);
  }
}
