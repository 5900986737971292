/** What the parser of the Redis protocol cannot do: read back every printed value, and survive every input. */
module RespExact {
  import opened RaftTypes
  import opened Decimal
  import opened Resp

  // ---------------------------------------------------------------- what can be parsed at all

  /** A scalar the parser can produce. */
  predicate Clean(s: Scalar) {
    match s
    case Bulk(Some(data)) => |data| + 2 <= MAX_ALLOC
    case Bulk(None) => true
    case Number(_) => true
    case Text(text) => LF !in text
    case Fault(text) => LF !in text
    case Plain(text) => LF !in text
  }

  predicate CleanItem(v: Value) {
    v.One? && Clean(v.scalar)
  }

  predicate CleanValue(v: Value) {
    match v
    case One(s) => Clean(s)
    case Many(items) => |items| < TWO_63 && forall x :: x in items ==> CleanItem(x)
    case NullArray => false
  }

  predicate CleanOutput(o: Output) {
    o.Parsed? ==> CleanValue(o.value)
  }

  ghost predicate CleanState(st: State) {
    && (forall x :: x in st.items ==> CleanItem(x))
    && (st.inArray ==> |st.items| < st.arrayLen < TWO_63)
    && (st.multiLine ==> 0 <= st.bulkLen)
  }

  /** A line as readLine returns it in this state. */
  ghost predicate LineFor(st: State, msg: Bytes) {
    && |msg| >= 2
    && (if st.multiLine then |msg| == st.bulkLen + 2 <= MAX_ALLOC else LF !in msg[..|msg| - 1])
  }

  lemma ReadLineFor(st: State, input: Bytes)
    requires CleanState(st) && ReadLine(st, input).LineOf?
    ensures LineFor(st, ReadLine(st, input).msg)
  {
    if !st.multiLine {
      var k := FindLF(input);
      assert input[..k + 1][..k] == input[..k];
    }
  }

  lemma PlaceClean(st: State, s: Scalar)
    requires CleanState(st) && !st.multiLine && Clean(s)
    ensures CleanState(Place(st, s).state) && forall o :: o in Place(st, s).out ==> CleanOutput(o)
  {
    hide Clean;
  }

  lemma SingleLineClean(msg: Bytes)
    requires |msg| >= 2 && LF !in msg[..|msg| - 1]
    ensures SingleLine(msg).Some? ==> Clean(SingleLine(msg).value)
  {
    hide ParseInt;
    if |msg| >= 3 {
      forall b | b in Body(msg) ensures b != LF {
        var i :| 0 <= i < |Body(msg)| && Body(msg)[i] == b;
        assert msg[..|msg| - 1][i + 1] == b;
      }
    }
  }

  lemma OnLineClean(st: State, msg: Bytes)
    requires CleanState(st) && LineFor(st, msg)
    ensures CleanState(OnLine(st, msg).state) && forall o :: o in OnLine(st, msg).out ==> CleanOutput(o)
  {
    hide ParseInt, Place, SingleLine, Body;
    if st.multiLine {
      PlaceClean(st.(bulkLen := 0, multiLine := false), Bulk(Some(msg[..|msg| - 2])));
    } else if msg[0] == DOLLAR {
      PlaceClean(st.(bulkLen := 0, multiLine := false), Bulk(None));
    } else if msg[0] != STAR {
      SingleLineClean(msg);
      if SingleLine(msg).Some? { PlaceClean(st, SingleLine(msg).value); }
    }
  }

  /** Nothing with a line feed in its text, no null array and no array in an array is ever parsed. */
  lemma {:induction false} ParsedIsClean(st: State, input: Bytes)
    requires CleanState(st)
    ensures forall o :: o in Run(st, input) ==> CleanOutput(o)
    decreases |input|
  {
    hide OnLine, CleanValue, LineFor;
    match ReadLine(st, input) {
      case BadLine(rest) => ParsedIsClean(START, rest);
      case LineOf(msg, rest) =>
        ReadLineFor(st, input);
        OnLineClean(st, msg);
        ParsedIsClean(OnLine(st, msg).state, rest);
      case _ =>
    }
  }

  // ---------------------------------------------------------------- what is parsed was no shorter when it was read

  lemma {:induction false} DigitsShortest(d: Bytes)
    requires d != [] && AllDigits(d)
    ensures |Digits(Magnitude(d))| <= |d|
  {
    var n := Magnitude(d);
    if n >= 10 {
      var d' := d[..|d| - 1];
      assert n / 10 == Magnitude(d');
      assert d' != [];
      DigitsShortest(d');
    }
  }

  /** A number is written with no more bytes than it was read from. */
  lemma NumberShortest(s: Bytes)
    requires ParseInt(s).Some?
    ensures |FormatInt(ParseInt(s).value)| <= |s|
  {
    var digits := if s != [] && (s[0] == MINUS || s[0] == PLUS) then s[1..] else s;
    DigitsShortest(digits);
  }

  /** How many plain texts are in a value; each of them was read with one more byte than it is printed with. */
  function Plains(v: Value): nat {
    match v
    case One(s) => if s.Plain? then 1 else 0
    case Many(items) => PlainsIn(items)
    case NullArray => 0
  }

  function PlainsIn(items: seq<Value>): nat {
    if items == [] then 0 else Plains(items[0]) + PlainsIn(items[1..])
  }

  function Cost(v: Value): nat {
    |ValueBytes(v)| + Plains(v)
  }

  function CostIn(items: seq<Value>): nat {
    |ItemsBytes(items)| + PlainsIn(items)
  }

  lemma {:induction false} CostAppend(items: seq<Value>, v: Value)
    ensures CostIn(items + [v]) == CostIn(items) + Cost(v)
  {
    ItemsBytesAppend(items, v);
    PlainsAppend(items, v);
  }

  lemma {:induction false} PlainsAppend(items: seq<Value>, v: Value)
    ensures PlainsIn(items + [v]) == PlainsIn(items) + Plains(v)
  {
    if items == [] {
      assert PlainsIn([v]) == Plains(v) + PlainsIn([]);
    } else {
      assert (items + [v])[1..] == items[1..] + [v];
      PlainsAppend(items[1..], v);
    }
  }

  function HeadSize(n: nat): nat {
    3 + |Digits(n)|
  }

  /** What the state has taken in, at the price at which it would be printed. */
  function Weight(st: State): nat {
    (if st.inArray && st.arrayLen >= 0 then HeadSize(st.arrayLen) + CostIn(st.items) else 0)
    + (if st.multiLine && st.bulkLen >= 0 then HeadSize(st.bulkLen) else 0)
  }

  /** The step from st to n on a line of this size pays for what it takes in and puts out. */
  ghost predicate Paid(st: State, size: nat, n: Next) {
    if n.out == [] then Weight(n.state) <= Weight(st) + size
    else
      && |n.out| == 1
      && (n.out[0].Parsed? ==> Weight(n.state) == 0 && Cost(n.out[0].value) <= Weight(st) + size)
  }

  lemma PlacePaid(st: State, s: Scalar, size: nat)
    requires CleanState(st) && !st.multiLine && Cost(One(s)) <= size
    ensures Paid(st, size, Place(st, s))
  {
    hide ScalarBytes, Digits;
    if st.inArray { CostAppend(st.items, One(s)); }
  }

  lemma SingleLinePaid(msg: Bytes)
    requires |msg| >= 2 && SingleLine(msg).Some?
    ensures Cost(One(SingleLine(msg).value)) <= |msg|
  {
    hide ParseInt, FormatInt;
    if msg[0] == COLON { NumberShortest(Body(msg)); }
  }

  /** The length in a header, printed again, is no longer. */
  lemma HeaderPaid(msg: Bytes)
    requires |msg| >= 3 && ParseInt(Body(msg)).Some?
    ensures var n := ParseInt(Body(msg)).value;
            (n >= 0 ==> HeadSize(n) <= |msg|) && (n == -1 ==> Cost(One(Bulk(None))) <= |msg|)
  {
    NumberShortest(Body(msg));
    MinusOne();
  }

  lemma BulkHeaderPaid(st: State, msg: Bytes)
    requires CleanState(st) && !st.multiLine && |msg| >= 2
    ensures Paid(st, |msg|, OnBulkHeader(st, msg))
  {
    hide ParseInt, Place, Digits, Body;
    if |msg| >= 3 && ParseInt(Body(msg)).Some? {
      HeaderPaid(msg);
      if ParseInt(Body(msg)).value == -1 {
        PlacePaid(st.(bulkLen := 0, multiLine := false), Bulk(None), |msg|);
      }
    }
  }

  lemma ArrayHeaderPaid(st: State, msg: Bytes)
    requires CleanState(st) && !st.multiLine && |msg| >= 2
    ensures Paid(st, |msg|, OnArrayHeader(st, msg))
  {
    hide ParseInt, Digits, Body;
    if |msg| >= 3 && ParseInt(Body(msg)).Some? { HeaderPaid(msg); }
  }

  lemma BodyPaid(st: State, msg: Bytes)
    requires CleanState(st) && st.multiLine && LineFor(st, msg)
    ensures Paid(st, |msg|, OnLine(st, msg))
  {
    hide Place, Digits;
    var st' := st.(bulkLen := 0, multiLine := false);
    var data := msg[..|msg| - 2];
    assert Cost(One(Bulk(Some(data)))) == HeadSize(|data|) + |msg|;
    assert Weight(st) == Weight(st') + HeadSize(st.bulkLen);
    PlacePaid(st', Bulk(Some(data)), HeadSize(|data|) + |msg|);
  }

  lemma OnLinePaid(st: State, msg: Bytes)
    requires CleanState(st) && LineFor(st, msg)
    ensures Paid(st, |msg|, OnLine(st, msg))
  {
    hide Place, SingleLine, OnBulkHeader, OnArrayHeader, Cost, Weight;
    if st.multiLine {
      BodyPaid(st, msg);
    } else if msg[0] == STAR {
      ArrayHeaderPaid(st, msg);
    } else if msg[0] == DOLLAR {
      BulkHeaderPaid(st, msg);
    } else if SingleLine(msg).Some? {
      SingleLinePaid(msg);
      PlacePaid(st, SingleLine(msg).value, |msg|);
    }
  }

  function StreamCost(vs: seq<Value>): nat {
    if vs == [] then 0 else Cost(vs[0]) + StreamCost(vs[1..])
  }

  lemma {:induction false} AllParsedSize(vs: seq<Value>)
    ensures |AllParsed(vs)| == |vs| && (vs != [] ==> AllParsed(vs)[0] == Parsed(vs[0]))
  {
    if vs != [] { AllParsedSize(vs[1..]); }
  }

  lemma AllParsedTail(vs: seq<Value>, o: Output, rest: seq<Output>)
    requires AllParsed(vs) + [EndOfStream] == [o] + rest && rest != []
    ensures vs != [] && o == Parsed(vs[0]) && rest == AllParsed(vs[1..]) + [EndOfStream]
  {
    AllParsedSize(vs);
    var all := [o] + rest;
    assert |all| == |vs| + 1 >= 2 && all[0] == o && all[1..] == rest;
    var head, tail := Parsed(vs[0]), AllParsed(vs[1..]);
    assert AllParsed(vs) == [head] + tail;
    FirstOff(head, tail, [EndOfStream]);
  }

  lemma FirstOff(o: Output, tail: seq<Output>, end: seq<Output>)
    ensures ([o] + tail + end)[0] == o && ([o] + tail + end)[1..] == tail + end
  {
  }

  lemma OnlyOutput(vs: seq<Value>, o: Output)
    requires AllParsed(vs) + [EndOfStream] == [o]
    ensures vs == [] && o == EndOfStream
  {
    AllParsedSize(vs);
    var all := AllParsed(vs) + [EndOfStream];
    assert |all| == 1 && all[0] == EndOfStream;
  }

  lemma RunEnds(st: State, input: Bytes)
    ensures Run(st, input) != []
    decreases |input|
  {
    match ReadLine(st, input) {
      case LineOf(msg, rest) => RunEnds(OnLine(st, msg).state, rest);
      case _ =>
    }
  }

  /** Conservation: a stream that parses into these values was at least as long as they are when printed, and longer by
      one byte for every plain text. */
  lemma {:induction false} ParsedIsPaid(st: State, input: Bytes, vs: seq<Value>)
    requires CleanState(st) && Run(st, input) == AllParsed(vs) + [EndOfStream]
    ensures StreamCost(vs) <= Weight(st) + |input|
    decreases |input|
  {
    hide OnLine, ReadLine, Weight, Cost, LineFor, CleanState, AllParsed;
    match ReadLine(st, input) {
      case NoLine => OnlyOutput(vs, EndOfStream);
      case LineCrash => OnlyOutput(vs, Crash);
      case BadLine(rest) =>
        RunEnds(START, rest);
        AllParsedTail(vs, ProtocolError, Run(START, rest));
      case LineOf(msg, rest) =>
        var n := OnLine(st, msg);
        ReadLineFor(st, input);
        OnLineClean(st, msg);
        OnLinePaid(st, msg);
        RunEnds(n.state, rest);
        if n.out == [] {
          assert Run(st, input) == Run(n.state, rest);
          ParsedIsPaid(n.state, rest, vs);
        } else {
          AllParsedTail(vs, n.out[0], Run(n.state, rest));
          ParsedIsPaid(n.state, rest, vs[1..]);
        }
    }
  }

  // ---------------------------------------------------------------- exactly what is read back

  lemma {:induction false} StreamCostIs(vs: seq<Value>)
    ensures StreamCost(vs) == |StreamBytes(vs)| + PlainsIn(vs)
  {
    if vs != [] { StreamCostIs(vs[1..]); }
  }

  lemma {:induction false} NoPlains(vs: seq<Value>, v: Value)
    requires PlainsIn(vs) == 0 && v in vs
    ensures Plains(v) == 0
  {
    if v != vs[0] { NoPlains(vs[1..], v); }
  }

  lemma CleanIsTransmissible(v: Value)
    requires CleanValue(v) && Plains(v) == 0
    ensures Transmissible(v)
  {
    if v.Many? {
      forall x | x in v.items ensures x.One? && Carried(x.scalar) {
        assert CleanItem(x);
        NoPlains(v.items, x);
      }
    }
  }

  lemma {:induction false} ParsedAmong(vs: seq<Value>, v: Value)
    requires v in vs
    ensures Parsed(v) in AllParsed(vs)
  {
    if v != vs[0] { ParsedAmong(vs[1..], v); }
  }

  /** Printed values are read back, in order and with nothing else, exactly when all of them are transmissible: carried
      scalars and flat arrays of them. */
  lemma StreamReadExactly(vs: seq<Value>)
    ensures Run(START, StreamBytes(vs)) == AllParsed(vs) + [EndOfStream] <==> forall v :: v in vs ==> Transmissible(v)
  {
    hide Run, Transmissible, Weight, Cost;
    if forall v :: v in vs ==> Transmissible(v) {
      StreamRoundTrip(vs);
    }
    if Run(START, StreamBytes(vs)) == AllParsed(vs) + [EndOfStream] {
      StartIsClean();
      ParsedIsPaid(START, StreamBytes(vs), vs);
      StreamCostIs(vs);
      ParsedIsClean(START, StreamBytes(vs));
      forall v | v in vs ensures Transmissible(v) {
        ParsedAmong(vs, v);
        assert CleanOutput(Parsed(v));
        NoPlains(vs, v);
        CleanIsTransmissible(v);
      }
    }
  }

  lemma StartIsClean()
    ensures CleanState(START) && Weight(START) == 0
  {
  }

  // ---------------------------------------------------------------- exactly when the reader crashes

  /** A place at which a line starts, and the length of the bulk string announced for it, if any. */
  datatype Start = Start(at: nat, bulk: Option<nat>)

  /** The length this line announces for the next. */
  function Announced(msg: Bytes): Option<nat> {
    if |msg| < 3 || msg[0] != DOLLAR || msg[|msg| - 2] != CR then None
    else
      match ParseInt(Body(msg))
      case Some(n) => if n >= 0 then Some(n) else None
      case None => None
  }

  /** Where the line that starts at s would end: behind its announced bytes, or behind the next line feed. */
  function LineEnd(input: Bytes, s: Start): (end: nat)
    requires s.at <= |input|
    ensures s.at < end
  {
    match s.bulk
    case Some(n) => s.at + n + 2
    case None => s.at + FindLF(input[s.at..]) + 1
  }

  function FollowingStart(input: Bytes, s: Start): Start
    requires s.at <= |input| && LineEnd(input, s) <= |input|
  {
    var end := LineEnd(input, s);
    Start(end, if s.bulk.Some? then None else Announced(input[s.at..end]))
  }

  /** Where lines start, from s on. */
  function LineStarts(input: Bytes, s: Start): seq<Start>
    requires s.at <= |input|
    decreases |input| - s.at
  {
    if LineEnd(input, s) > |input| then [s] else [s] + LineStarts(input, FollowingStart(input, s))
  }

  /** A line that is a line feed alone, or a bulk string that with its end is too long for a buffer. */
  predicate Fatal(input: Bytes, s: Start) {
    match s.bulk
    case Some(n) => n + 2 > MAX_ALLOC
    case None => s.at < |input| && input[s.at] == LF
  }

  function BulkOf(st: State): Option<nat> {
    if st.multiLine && st.bulkLen >= 0 then Some(st.bulkLen) else None
  }

  lemma PlaceQuiet(st: State, s: Scalar)
    requires !st.multiLine
    ensures !Place(st, s).state.multiLine && Crash !in Place(st, s).out
  {
  }

  /** After a line only what it announced matters. */
  lemma OnLineAnnounces(st: State, msg: Bytes)
    requires |msg| >= 2 && msg[|msg| - 2] == CR
    ensures BulkOf(OnLine(st, msg).state) == (if st.multiLine then None else Announced(msg))
    ensures Crash !in OnLine(st, msg).out && (OnLine(st, msg).state.multiLine ==> OnLine(st, msg).state.bulkLen >= 0)
  {
    hide ParseInt, SingleLine, Place, Body;
    if st.multiLine {
      PlaceQuiet(st.(bulkLen := 0, multiLine := false), Bulk(Some(msg[..|msg| - 2])));
    } else if msg[0] == DOLLAR {
      PlaceQuiet(st.(bulkLen := 0, multiLine := false), Bulk(None));
    } else if msg[0] != STAR && SingleLine(msg).Some? {
      PlaceQuiet(st, SingleLine(msg).value);
    }
  }

  ghost predicate SomeFatal(input: Bytes, starts: seq<Start>) {
    exists s :: s in starts && Fatal(input, s)
  }

  lemma FatalFirst(input: Bytes, s: Start, rest: seq<Start>)
    ensures SomeFatal(input, [s] + rest) <==> Fatal(input, s) || SomeFatal(input, rest)
  {
    assert s in [s] + rest;
    assert forall x :: x in [s] + rest <==> x == s || x in rest;
  }

  lemma LinesLeft(input: Bytes, at: nat, n: nat)
    requires at + n <= |input|
    ensures input[at..][n..] == input[at + n..] && input[at..][..n] == input[at..at + n]
  {
  }

  /** One line further: whether the rest crashes is asked of the next place at which a line starts. */
  lemma {:induction false} CrashFrom(st: State, input: Bytes, at: nat)
    requires at <= |input| && (st.multiLine ==> st.bulkLen >= 0)
    ensures Crash in Run(st, input[at..]) <==> SomeFatal(input, LineStarts(input, Start(at, BulkOf(st))))
    decreases |input| - at
  {
    hide Run, SomeFatal, LineEnd, Announced, Fatal, BulkOf;
    var s := Start(at, BulkOf(st));
    if LineEnd(input, s) > |input| {
      ShortTail(st, input, at);
      NoneFatal(input);
      FatalFirst(input, s, []);
      assert [s] + [] == [s];
    } else {
      FatalFirst(input, s, LineStarts(input, FollowingStart(input, s)));
      if Fatal(input, s) {
        FatalCrashes(st, input, at);
      } else {
        var st' := WholeLine(st, input, at);
        CrashFrom(st', input, LineEnd(input, s));
      }
    }
  }

  lemma FatalCrashes(st: State, input: Bytes, at: nat)
    requires at <= |input| && Fatal(input, Start(at, BulkOf(st)))
    ensures Run(st, input[at..]) == [Crash]
  {
  }

  lemma NoneFatal(input: Bytes)
    ensures !SomeFatal(input, [])
  {
  }

  lemma ShortTail(st: State, input: Bytes, at: nat)
    requires at <= |input| && LineEnd(input, Start(at, BulkOf(st))) > |input|
    ensures Crash in Run(st, input[at..]) <==> Fatal(input, Start(at, BulkOf(st)))
  {
    assert Run(START, []) == [EndOfStream];
  }

  /** A line that is not fatal is read or refused, and reading goes on behind it with what it announced. */
  lemma WholeLine(st: State, input: Bytes, at: nat) returns (st': State)
    requires at <= |input| && (st.multiLine ==> st.bulkLen >= 0) && !Fatal(input, Start(at, BulkOf(st)))
    requires LineEnd(input, Start(at, BulkOf(st))) <= |input|
    ensures var s := Start(at, BulkOf(st));
            && (Crash in Run(st, input[at..]) <==> Crash in Run(st', input[LineEnd(input, s)..]))
            && (st'.multiLine ==> st'.bulkLen >= 0)
            && Start(LineEnd(input, s), BulkOf(st')) == FollowingStart(input, s)
  {
    hide OnLine, ParseInt, Body;
    var tail, n := input[at..], LineEnd(input, Start(at, BulkOf(st))) - at;
    LinesLeft(input, at, n);
    var line := ReadLine(st, tail);
    assert line == LineOf(tail[..n], tail[n..]) || line == BadLine(tail[n..]);
    st' := START;
    if line.LineOf? {
      OnLineAnnounces(st, tail[..n]);
      st' := OnLine(st, tail[..n]).state;
    }
  }

  /** The parser crashes exactly when a line, wherever one starts in the stream, is fatal. */
  lemma CrashExactly(input: Bytes)
    ensures Crash in Run(START, input) <==> SomeFatal(input, LineStarts(input, Start(0, None)))
  {
    assert input[0..] == input;
    CrashFrom(START, input, 0);
  }

  /** A line feed alone: the reader looks at the byte before it. */
  lemma LineFeedCrashes()
    ensures Run(START, [LF]) == [Crash]
  {
  }

  /** A bulk string too long for a buffer crashes the reader as soon as it is announced. */
  lemma LongBulkCrashes(n: Int64)
    requires 0 <= n && n + 2 > MAX_ALLOC
    ensures Run(START, [DOLLAR] + FormatInt(n) + CRLF) == [Crash]
  {
    hide ParseInt, FormatInt, Body, Run;
    NumberLine(DOLLAR, n);
    var head := [DOLLAR] + FormatInt(n);
    assert head + CRLF + [] == head + CRLF;
    RunLine(START, head, []);
    AnnouncedCrash(START.(bulkLen := n, multiLine := true));
  }

  /** The largest length ParseInt accepts, on every platform: two more wraps around. */
  lemma HugeBulkCrashes()
    ensures Run(START, [DOLLAR] + FormatInt(0x7fff_ffff_ffff_ffff) + CRLF) == [Crash]
  {
    LongBulkCrashes(0x7fff_ffff_ffff_ffff);
  }

  lemma AnnouncedCrash(st: State)
    requires st.multiLine && st.bulkLen + 2 > MAX_ALLOC && st.bulkLen >= 0
    ensures Run(st, []) == [Crash]
  {
  }
}
