/** The Redis serialization protocol: how replies are printed and how a stream of them is parsed (resp/structure.go,
    resp/parser.go). */
module Resp {
  import opened RaftTypes
  import opened Decimal

  const CR: Byte := 13
  const LF: Byte := 10
  const STAR: Byte := 42
  const DOLLAR: Byte := 36
  const COLON: Byte := 58
  const CRLF: Bytes := [CR, LF]

  type AllocLimit = n: nat | n < TWO_63

  /** The longest buffer the runtime allocates: it depends on the platform, and nothing else is known of it here. */
  const MAX_ALLOC: AllocLimit

  datatype Scalar =
    | Bulk(data: Option<Bytes>) // None is the nil bulk string
    | Text(text: Bytes)
    | Number(number: Int64)
    | Fault(text: Bytes)
    | Plain(text: Bytes)

  datatype Value = One(scalar: Scalar) | Many(items: seq<Value>) | NullArray

  // ---------------------------------------------------------------- printing

  function ScalarBytes(s: Scalar): Bytes {
    match s
    case Bulk(None) => [DOLLAR, MINUS, ZERO + 1] + CRLF
    case Bulk(Some(data)) => [DOLLAR] + Digits(|data|) + CRLF + data + CRLF
    case Text(text) => [PLUS] + text + CRLF
    case Number(number) => [COLON] + FormatInt(number) + CRLF
    case Fault(text) => [MINUS] + text + CRLF
    case Plain(text) => text + CRLF
  }

  function ValueBytes(v: Value): Bytes {
    match v
    case One(s) => ScalarBytes(s)
    case Many(items) => [STAR] + Digits(|items|) + CRLF + ItemsBytes(items)
    case NullArray => [STAR, MINUS, ZERO + 1] + CRLF
  }

  function ItemsBytes(items: seq<Value>): Bytes {
    if items == [] then [] else ValueBytes(items[0]) + ItemsBytes(items[1..])
  }

  function StreamBytes(vs: seq<Value>): Bytes {
    if vs == [] then [] else ValueBytes(vs[0]) + StreamBytes(vs[1..])
  }

  lemma {:induction false} ItemsBytesAppend(items: seq<Value>, v: Value)
    ensures ItemsBytes(items + [v]) == ItemsBytes(items) + ValueBytes(v)
  {
    if items == [] {
      assert ItemsBytes([v]) == ValueBytes(v) + ItemsBytes([]);
    } else {
      assert (items + [v])[1..] == items[1..] + [v];
      ItemsBytesAppend(items[1..], v);
    }
  }

  /** ToBytes of an array appends element after element. */
  method ArrayToBytes(items: seq<Value>) returns (res: Bytes)
    ensures res == ValueBytes(Many(items))
  {
    hide ScalarBytes, ItemsBytes, Digits;
    res := [STAR] + Digits(|items|) + CRLF;
    ghost var head := res;
    NoItems();
    assert items[..0] == [];
    for i := 0 to |items|
      invariant res == head + ItemsBytes(items[..i])
    {
      assert items[..i + 1] == items[..i] + [items[i]];
      ItemsBytesAppend(items[..i], items[i]);
      res := res + ValueBytes(items[i]);
    }
    assert items[..|items|] == items;
  }

  // ---------------------------------------------------------------- parsing, as a function of state and input

  datatype State = State(bulkLen: int, arrayLen: int, multiLine: bool, inArray: bool, items: seq<Value>)

  const START := State(0, 0, false, false, [])

  datatype Output = Parsed(value: Value) | ProtocolError | EndOfStream | Crash

  datatype Line = LineOf(msg: Bytes, rest: Bytes) | NoLine | BadLine(rest: Bytes) | LineCrash

  function FindLF(input: Bytes): (k: nat)
    ensures k <= |input|
    ensures k < |input| ==> input[k] == LF
    ensures forall i :: 0 <= i < k ==> input[i] != LF
  {
    if input == [] || input[0] == LF then 0 else 1 + FindLF(input[1..])
  }

  /** The announced bytes of a bulk string, or everything up to the next line feed. */
  function ReadLine(st: State, input: Bytes): (r: Line)
    ensures r.LineOf? ==> |r.rest| < |input| && |r.msg| >= 2 && r.msg + r.rest == input
    ensures r.BadLine? ==> |r.rest| < |input|
  {
    if st.multiLine && st.bulkLen >= 0 then
      var n := st.bulkLen + 2;
      if n > MAX_ALLOC then LineCrash // the sum wraps around, or no buffer can be that long
      else if input == [] then NoLine
      else if |input| < n then BadLine([])
      else if input[n - 1] != LF || input[n - 2] != CR then BadLine(input[n..])
      else LineOf(input[..n], input[n..])
    else
      var k := FindLF(input);
      if k == |input| then NoLine
      else if k == 0 then LineCrash // a line feed alone: the byte before it does not exist
      else if input[k - 1] != CR then BadLine(input[k + 1..])
      else LineOf(input[..k + 1], input[k + 1..])
  }

  function Body(msg: Bytes): Bytes
    requires |msg| >= 3
  {
    msg[1..|msg| - 2]
  }

  /** A line that is not the body of a bulk string nor one of the two headers. */
  function SingleLine(msg: Bytes): Option<Scalar>
    requires |msg| >= 2
  {
    if |msg| < 3 then None
    else if msg[0] == PLUS then Some(Text(Body(msg)))
    else if msg[0] == MINUS then Some(Fault(Body(msg)))
    else if msg[0] == COLON then
      match ParseInt(Body(msg))
      case None => None
      case Some(x) => Some(Number(x))
    else Some(Plain(Body(msg)))
  }

  datatype Next = Next(state: State, out: seq<Output>)

  /** A parsed scalar goes into the array under construction, or out. */
  function Place(st: State, s: Scalar): Next {
    if !st.inArray then Next(st, [Parsed(One(s))])
    else if |st.items| + 1 == st.arrayLen then Next(START, [Parsed(Many(st.items + [One(s)]))])
    else Next(st.(items := st.items + [One(s)]), [])
  }

  function OnArrayHeader(st: State, msg: Bytes): Next
    requires |msg| >= 2
  {
    match if |msg| < 3 then None else ParseInt(Body(msg))
    case None => Next(START, [ProtocolError])
    case Some(n) =>
      if n < 0 then Next(START, [ProtocolError])
      else if n == 0 then Next(START, [Parsed(Many([]))])
      else Next(st.(arrayLen := n, inArray := true, items := []), [])
  }

  function OnBulkHeader(st: State, msg: Bytes): Next
    requires |msg| >= 2
  {
    match if |msg| < 3 then None else ParseInt(Body(msg))
    case None => Next(START, [ProtocolError])
    case Some(n) =>
      if n < -1 then Next(START, [ProtocolError])
      else if n == -1 then Place(st.(bulkLen := 0, multiLine := false), Bulk(None))
      else Next(st.(bulkLen := n, multiLine := true), [])
  }

  function OnLine(st: State, msg: Bytes): Next
    requires |msg| >= 2
  {
    if st.multiLine then Place(st.(bulkLen := 0, multiLine := false), Bulk(Some(msg[..|msg| - 2])))
    else if msg[0] == STAR then OnArrayHeader(st, msg)
    else if msg[0] == DOLLAR then OnBulkHeader(st, msg)
    else
      match SingleLine(msg)
      case None => Next(START, [ProtocolError])
      case Some(s) => Place(st, s)
  }

  function Run(st: State, input: Bytes): seq<Output>
    decreases |input|
  {
    match ReadLine(st, input)
    case NoLine => [EndOfStream]
    case LineCrash => [Crash]
    case BadLine(rest) => [ProtocolError] + Run(START, rest)
    case LineOf(msg, rest) =>
      var n := OnLine(st, msg);
      n.out + Run(n.state, rest)
  }

  // ---------------------------------------------------------------- reading back what was printed

  /** What the protocol can carry: plain text has no sign of its own, and a line ends at a line feed. */
  predicate Carried(s: Scalar) {
    match s
    case Bulk(None) => true
    case Bulk(Some(data)) => |data| + 2 <= MAX_ALLOC
    case Text(text) => LF !in text
    case Fault(text) => LF !in text
    case Number(_) => true
    case Plain(_) => false
  }

  /** Scalars that are carried, and arrays of such. */
  predicate Transmissible(v: Value) {
    match v
    case One(s) => Carried(s)
    case Many(items) => |items| < TWO_63 && forall x :: x in items ==> x.One? && Carried(x.scalar)
    case NullArray => false
  }

  lemma {:induction false} FindLFAt(a: Bytes, tail: Bytes)
    requires LF !in a
    ensures FindLF(a + CRLF + tail) == |a| + 1
  {
    var s := a + CRLF + tail;
    var k := FindLF(s);
    assert s[|a| + 1] == LF;
    assert forall i :: 0 <= i < |a| ==> s[i] == a[i] && a[i] in a;
    assert s[|a|] == CR;
  }

  /** A line without a line feed is read as such. */
  lemma LineRead(st: State, a: Bytes, tail: Bytes)
    requires !st.multiLine && LF !in a
    ensures ReadLine(st, a + CRLF + tail) == LineOf(a + CRLF, tail)
  {
    var s := a + CRLF + tail;
    FindLFAt(a, tail);
    assert s[..|a| + 2] == a + CRLF;
    assert s[|a| + 2..] == tail;
  }

  lemma RunLine(st: State, a: Bytes, tail: Bytes)
    requires !st.multiLine && LF !in a
    ensures Run(st, a + CRLF + tail) == OnLine(st, a + CRLF).out + Run(OnLine(st, a + CRLF).state, tail)
  {
    hide OnLine;
    LineRead(st, a, tail);
  }

  lemma BodyRead(st: State, data: Bytes, tail: Bytes)
    requires st.multiLine && st.bulkLen == |data| && |data| + 2 <= MAX_ALLOC
    ensures Run(st, data + CRLF + tail) ==
            (var n := Place(st.(bulkLen := 0, multiLine := false), Bulk(Some(data))); n.out + Run(n.state, tail))
  {
    hide Place;
    var s := data + CRLF + tail;
    assert s[..|data| + 2] == data + CRLF;
    assert s[|data| + 2..] == tail;
    assert (data + CRLF)[..|data|] == data;
  }

  lemma NumberLine(tag: Byte, x: Int64)
    requires tag != LF
    ensures LF !in [tag] + FormatInt(x)
    ensures var msg := [tag] + FormatInt(x) + CRLF; |msg| >= 3 && msg[0] == tag && Body(msg) == FormatInt(x)
    ensures ParseInt(FormatInt(x)) == Some(x)
  {
    IntRoundTrip(x);
    hide ParseInt, FormatInt;
    var msg := [tag] + FormatInt(x) + CRLF;
    assert msg[1..|msg| - 2] == FormatInt(x);
  }

  lemma TextLine(tag: Byte, text: Bytes)
    ensures var msg := [tag] + text + CRLF; |msg| >= 3 && msg[0] == tag && Body(msg) == text
  {
    var msg := [tag] + text + CRLF;
    assert msg[1..|msg| - 2] == text;
  }

  /** A printed scalar is parsed as that scalar, whatever follows and wherever it goes. */
  lemma ScalarRead(st: State, s: Scalar, tail: Bytes)
    requires Carried(s) && !st.multiLine && st.bulkLen == 0
    ensures Run(st, ScalarBytes(s) + tail) == (var n := Place(st, s); n.out + Run(n.state, tail))
  {
    hide Run, ParseInt, FormatInt, Place, Body;
    match s {
      case Text(text) =>
        TextLine(PLUS, text);
        RunLine(st, [PLUS] + text, tail);
      case Fault(text) =>
        TextLine(MINUS, text);
        RunLine(st, [MINUS] + text, tail);
      case Number(x) =>
        NumberLine(COLON, x);
        RunLine(st, [COLON] + FormatInt(x), tail);
      case Bulk(data) => BulkRead(st, data, tail);
    }
  }

  lemma BulkRead(st: State, data: Option<Bytes>, tail: Bytes)
    requires Carried(Bulk(data)) && !st.multiLine && st.bulkLen == 0
    ensures Run(st, ScalarBytes(Bulk(data)) + tail) == (var n := Place(st, Bulk(data)); n.out + Run(n.state, tail))
  {
    hide Run, ParseInt, Place, Body;
    var x := if data.None? then -1 else |data.value|;
    NumberLine(DOLLAR, x);
    var head := [DOLLAR] + FormatInt(x);
    if data.None? {
      MinusOne();
      assert ScalarBytes(Bulk(data)) + tail == head + CRLF + tail;
      RunLine(st, head, tail);
    } else {
      var rest := data.value + CRLF + tail;
      assert ScalarBytes(Bulk(data)) + tail == head + CRLF + rest;
      RunLine(st, head, rest);
      BodyRead(st.(bulkLen := x, multiLine := true), data.value, tail);
    }
  }

  lemma MinusOne()
    ensures FormatInt(-1) == [MINUS, ZERO + 1]
  {
  }

  /** The rest of an array whose first elements have been read. */
  lemma {:induction false} ItemsRead(st: State, items: seq<Value>, tail: Bytes)
    requires !st.multiLine && st.bulkLen == 0 && st.inArray && st.arrayLen == |st.items| + |items| && items != []
    requires forall x :: x in items ==> x.One? && Carried(x.scalar)
    ensures Run(st, ItemsBytes(items) + tail) == [Parsed(Many(st.items + items))] + Run(START, tail)
    decreases |items|
  {
    hide Run, Carried, ScalarBytes;
    var x := items[0];
    assert x in items;
    var rest := ItemsBytes(items[1..]) + tail;
    assert ItemsBytes(items) + tail == ScalarBytes(x.scalar) + rest;
    ScalarRead(st, x.scalar, rest);
    if |items| == 1 {
      assert ItemsBytes([]) + tail == tail;
      assert items[1..] == [] && items == [x];
    } else {
      assert forall e :: e in items[1..] ==> e in items;
      ItemsRead(st.(items := st.items + [x]), items[1..], tail);
      assert st.items + [x] + items[1..] == st.items + items;
    }
  }

  lemma ValueRead(v: Value, tail: Bytes)
    requires Transmissible(v)
    ensures Run(START, ValueBytes(v) + tail) == [Parsed(v)] + Run(START, tail)
  {
    hide Run, ParseInt, Body, ScalarBytes, ItemsBytes;
    match v
    case One(s) => ScalarRead(START, s, tail);
    case Many(items) =>
      var n := |items|;
      NumberLine(STAR, n);
      var head := [STAR] + FormatInt(n);
      var rest := ItemsBytes(items) + tail;
      assert ValueBytes(v) + tail == head + CRLF + rest;
      RunLine(START, head, rest);
      if items == [] {
        NoItems();
        assert rest == tail;
      } else {
        var st := START.(arrayLen := n, inArray := true, items := []);
        ItemsRead(st, items, tail);
        assert [] + items == items;
      }
  }

  lemma NoItems()
    ensures ItemsBytes([]) == []
  {
  }

  function AllParsed(vs: seq<Value>): seq<Output> {
    if vs == [] then [] else [Parsed(vs[0])] + AllParsed(vs[1..])
  }

  /** Whatever values are printed one after another, parsing the stream gives just them, in order, and then the end. */
  lemma {:induction false} StreamRoundTrip(vs: seq<Value>)
    requires forall v :: v in vs ==> Transmissible(v)
    ensures Run(START, StreamBytes(vs)) == AllParsed(vs) + [EndOfStream]
  {
    if vs != [] {
      hide Run, Transmissible, ValueBytes;
      ValueRead(vs[0], StreamBytes(vs[1..]));
      StreamRoundTrip(vs[1..]);
    }
  }

  /** A null array, which ToBytes prints, is refused when read: its length is negative. */
  lemma NullArrayIsRefused(tail: Bytes)
    ensures ValueBytes(NullArray) == ['*' as int, '-' as int, '1' as int, 13, 10]
    ensures Run(START, ValueBytes(NullArray) + tail) == [ProtocolError] + Run(START, tail)
  {
    hide Run, ParseInt, Body;
    NumberLine(STAR, -1);
    MinusOne();
    var head := [STAR] + FormatInt(-1);
    assert ValueBytes(NullArray) + tail == head + CRLF + tail;
    RunLine(START, head, tail);
  }

  // ---------------------------------------------------------------- the parser

  class Parser {
    var bulkLen: int
    var arrayLen: int
    var multiLine: bool
    var inArray: bool
    var items: seq<Value>
    var input: Bytes // what the reader has not returned yet

    function Value(): State
      reads this
    {
      State(bulkLen, arrayLen, multiLine, inArray, items)
    }

    constructor (input: Bytes)
      ensures Value() == START && this.input == input
    {
      bulkLen, arrayLen, multiLine, inArray, items := 0, 0, false, false, [];
      this.input := input;
    }

    method Reset()
      modifies this
      ensures Value() == START && input == old(input)
    {
      bulkLen, arrayLen, multiLine, inArray, items := 0, 0, false, false, [];
    }

    method NextLine() returns (line: Line)
      modifies this`input
      ensures line == ReadLine(Value(), old(input))
      ensures input == match line case LineOf(_, rest) => rest case BadLine(rest) => rest case _ => old(input)
    {
      if multiLine && bulkLen >= 0 {
        var n := bulkLen + 2;
        if n > MAX_ALLOC { return LineCrash; }
        if input == [] { return NoLine; }
        if |input| < n {
          input := [];
          return BadLine([]);
        }
        var msg := input[..n];
        input := input[n..];
        if msg[n - 1] != LF || msg[n - 2] != CR { return BadLine(input); }
        return LineOf(msg, input);
      }
      var k := ScanLF();
      if k == |input| { return NoLine; }
      var msg := input[..k + 1];
      if k == 0 { return LineCrash; }
      input := input[k + 1..];
      if msg[k - 1] != CR { return BadLine(input); }
      line := LineOf(msg, input);
    }

    method ScanLF() returns (k: nat)
      ensures k == FindLF(input)
    {
      k := 0;
      while k < |input| && input[k] != LF
        invariant k <= |input| && FindLF(input) == k + FindLF(input[k..])
      {
        assert input[k..][1..] == input[k + 1..];
        k := k + 1;
      }
    }

    /** The array under construction takes the scalar, or it goes out by itself. */
    method Take(s: Scalar) returns (out: seq<Output>)
      modifies this
      ensures Next(Value(), out) == Place(old(Value()), s) && input == old(input)
    {
      out := [];
      if inArray {
        items := items + [One(s)];
        if |items| == arrayLen {
          out := [Parsed(Many(items))];
          Reset();
        }
      } else {
        out := [Parsed(One(s))];
      }
    }

    method ArrayHeader(msg: Bytes) returns (out: seq<Output>)
      requires |msg| >= 2
      modifies this
      ensures Next(Value(), out) == OnArrayHeader(old(Value()), msg) && input == old(input)
    {
      out := [];
      var n := if |msg| < 3 then None else ParseInt(Body(msg));
      if n.None? || n.value < 0 {
        Reset();
        return [ProtocolError];
      }
      arrayLen, inArray, items := n.value, true, [];
      if arrayLen == 0 {
        Reset();
        out := [Parsed(Many([]))];
      }
    }

    method BulkHeader(msg: Bytes) returns (out: seq<Output>)
      requires |msg| >= 2
      modifies this
      ensures Next(Value(), out) == OnBulkHeader(old(Value()), msg) && input == old(input)
    {
      out := [];
      var n := if |msg| < 3 then None else ParseInt(Body(msg));
      if n.None? || n.value < -1 {
        Reset();
        return [ProtocolError];
      }
      bulkLen, multiLine := n.value, true;
      if bulkLen == -1 {
        multiLine, bulkLen := false, 0;
        out := Take(Bulk(None));
      }
    }

    method Accept(msg: Bytes) returns (out: seq<Output>)
      requires |msg| >= 2
      modifies this
      ensures Next(Value(), out) == OnLine(old(Value()), msg) && input == old(input)
    {
      if multiLine {
        multiLine, bulkLen := false, 0;
        out := Take(Bulk(Some(msg[..|msg| - 2])));
      } else if msg[0] == STAR {
        out := ArrayHeader(msg);
      } else if msg[0] == DOLLAR {
        out := BulkHeader(msg);
      } else {
        var s := SingleLine(msg);
        if s.None? {
          Reset();
          return [ProtocolError];
        }
        out := Take(s.value);
      }
    }

    /** The loop of the parser, from wherever it stands to the end of the stream. */
    method Parse() returns (out: seq<Output>)
      modifies this
      ensures out == Run(old(Value()), old(input))
    {
      hide OnLine, ReadLine;
      out := [];
      while true
        invariant Run(old(Value()), old(input)) == out + Run(Value(), input)
        decreases |input|
      {
        var line := NextLine();
        match line
        case NoLine => return out + [EndOfStream];
        case LineCrash => return out + [Crash];
        case BadLine(_) =>
          out := out + [ProtocolError];
          Reset();
        case LineOf(msg, _) =>
          var more := Accept(msg);
          out := out + more;
      }
    }
  }
}
