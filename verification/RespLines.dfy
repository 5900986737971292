/** Every line the parser of the Redis protocol can meet, and what it makes of it, by the bytes of the line. */
module RespLines {
  import opened RaftTypes
  import opened Decimal
  import opened Resp

  // ---------------------------------------------------------------- decimal notation

  /** The digits d, read from the left, pass through these values. */
  ghost predicate ReadDigits(d: Bytes, values: seq<nat>) {
    && |values| == |d| + 1 && values[0] == 0
    && forall i :: 0 <= i < |d| ==> ZERO <= d[i] <= ZERO + 9 && values[i + 1] == 10 * values[i] + (d[i] - ZERO)
  }

  ghost predicate DigitsDenote(d: Bytes, n: nat) {
    d != [] && exists values :: ReadDigits(d, values) && values[|d|] == n
  }

  /** A text denotes x: at least one digit, after a sign or none. */
  ghost predicate Denotes(text: Bytes, x: int) {
    || (x >= 0 && DigitsDenote(text, x))
    || (text != [] && text[0] == PLUS && x >= 0 && DigitsDenote(text[1..], x))
    || (text != [] && text[0] == MINUS && x <= 0 && DigitsDenote(text[1..], Negated(x)))
  }

  /** A text that denotes a number of 64 bits. */
  ghost predicate IsNumber(text: Bytes) {
    exists x: Int64 :: Denotes(text, x)
  }

  lemma {:induction false} ReadIsMagnitude(d: Bytes, values: seq<nat>)
    requires ReadDigits(d, values)
    ensures AllDigits(d) && Magnitude(d) == values[|d|]
  {
    if d != [] {
      var k := |d| - 1;
      assert ReadDigits(d[..k], values[..|d|]);
      ReadIsMagnitude(d[..k], values[..|d|]);
    }
  }

  lemma {:induction false} MagnitudeIsRead(d: Bytes) returns (values: seq<nat>)
    requires AllDigits(d)
    ensures ReadDigits(d, values) && values[|d|] == Magnitude(d)
  {
    if d == [] {
      values := [0];
    } else {
      var before := MagnitudeIsRead(d[..|d| - 1]);
      values := before + [Magnitude(d)];
    }
  }

  lemma DigitsExactly(d: Bytes, n: nat)
    ensures DigitsDenote(d, n) <==> d != [] && AllDigits(d) && Magnitude(d) == n
  {
    if DigitsDenote(d, n) {
      var values :| ReadDigits(d, values) && values[|d|] == n;
      ReadIsMagnitude(d, values);
    }
    if d != [] && AllDigits(d) && Magnitude(d) == n {
      var values := MagnitudeIsRead(d);
    }
  }

  /** ParseInt accepts exactly the texts that denote a number of 64 bits, and gives that number. */
  lemma ParseIntExactly(text: Bytes, x: Int64)
    ensures ParseInt(text) == Some(x) <==> Denotes(text, x)
  {
    hide DigitsDenote;
    var d := if text != [] && (text[0] == MINUS || text[0] == PLUS) then text[1..] else text;
    if x >= 0 { DigitsExactly(d, x); }
    if x <= 0 { DigitsExactly(d, Negated(x)); }
    if text != [] && (text[0] == MINUS || text[0] == PLUS) && x >= 0 { SignIsNoDigit(text, x); }
  }

  lemma SignIsNoDigit(text: Bytes, n: nat)
    requires text != [] && (text[0] == MINUS || text[0] == PLUS)
    ensures !DigitsDenote(text, n)
  {
    DigitsExactly(text, n);
  }

  lemma NoNumber(text: Bytes)
    ensures ParseInt(text).None? <==> !IsNumber(text)
  {
    hide Denotes, ParseInt;
    if ParseInt(text).Some? { ParseIntExactly(text, ParseInt(text).value); }
    if IsNumber(text) {
      var x: Int64 :| Denotes(text, x);
      ParseIntExactly(text, x);
    }
  }

  // ---------------------------------------------------------------- what a scalar does

  /** What comes out when a scalar has been read and `tail` is left: the scalar by itself, or the array it completes, or
      for now nothing. */
  function Taken(st: State, s: Scalar, tail: Bytes): seq<Output> {
    if !st.inArray then [Parsed(One(s))] + Run(st, tail)
    else if st.arrayLen == |st.items| + 1 then [Parsed(Many(st.items + [One(s)]))] + Run(START, tail)
    else Run(st.(items := st.items + [One(s)]), tail)
  }

  /** What comes out when a line was refused: the array under construction is given up with it. */
  function RefusedThen(tail: Bytes): seq<Output> {
    [ProtocolError] + Run(START, tail)
  }

  lemma PlaceIsTaken(st: State, s: Scalar, tail: Bytes)
    ensures Place(st, s).out + Run(Place(st, s).state, tail) == Taken(st, s, tail)
  {
    hide Run;
  }

  lemma LineIs(st: State, b: Byte, text: Bytes, tail: Bytes)
    requires !st.multiLine && b != LF && LF !in text
    ensures var msg := [b] + text + CRLF;
            && |msg| >= 3 && msg[0] == b && Body(msg) == text
            && Run(st, msg + tail) == OnLine(st, msg).out + Run(OnLine(st, msg).state, tail)
  {
    hide Run, OnLine;
    TextLine(b, text);
    RunLine(st, [b] + text, tail);
  }

  // ---------------------------------------------------------------- lines

  /** A line that starts with a plus is a text, with a minus an error, and with anything that is no mark of the protocol
      a plain text without its first byte. */
  lemma TextLines(st: State, b: Byte, text: Bytes, tail: Bytes)
    requires !st.multiLine && b != LF && LF !in text && b != '*' as int && b != '$' as int && b != ':' as int
    ensures Run(st, [b] + text + CRLF + tail) == Taken(st, Kinded(b, text), tail)
  {
    hide Run, Place, Taken, Body;
    LineIs(st, b, text, tail);
    PlaceIsTaken(st, Kinded(b, text), tail);
  }

  function Kinded(b: Byte, text: Bytes): Scalar {
    if b == '+' as int then Text(text) else if b == '-' as int then Fault(text) else Plain(text)
  }

  /** A line that starts with a colon is the number its text denotes, and refused if that is no number of 64 bits. */
  lemma NumberLines(st: State, text: Bytes, tail: Bytes)
    requires !st.multiLine && LF !in text
    ensures var out := Run(st, [COLON] + text + CRLF + tail);
            && (forall x: Int64 :: Denotes(text, x) ==> out == Taken(st, Number(x), tail))
            && (!IsNumber(text) ==> out == RefusedThen(tail))
  {
    hide Run, Place, Taken, Body, Denotes, ParseInt;
    LineIs(st, COLON, text, tail);
    NoNumber(text);
    forall x: Int64 | Denotes(text, x)
      ensures Run(st, [COLON] + text + CRLF + tail) == Taken(st, Number(x), tail)
    {
      ParseIntExactly(text, x);
      PlaceIsTaken(st, Number(x), tail);
    }
  }

  /** A number line by itself is an error and then the end of the stream exactly when its text is no number. */
  lemma NumberRefusedExactly(text: Bytes)
    requires LF !in text
    ensures Run(START, [COLON] + text + CRLF) == [ProtocolError, EndOfStream] <==> !IsNumber(text)
  {
    hide Denotes, Run;
    NumberLines(START, text, []);
    NothingLeft(START);
    assert [COLON] + text + CRLF + [] == [COLON] + text + CRLF;
    if IsNumber(text) {
      var x: Int64 :| Denotes(text, x);
      assert Run(START, [COLON] + text + CRLF)[0] == Parsed(One(Number(x)));
    }
  }

  lemma NothingLeft(st: State)
    requires !st.multiLine
    ensures Run(st, []) == [EndOfStream]
  {
  }

  /** An array header is refused exactly when its text is no number of 64 bits or a negative one; otherwise an array of
      so many elements begins, or is there already if that is none. */
  lemma ArrayHeaders(st: State, text: Bytes, tail: Bytes)
    requires !st.multiLine && LF !in text
    ensures var out := Run(st, [STAR] + text + CRLF + tail);
            && (!IsNumber(text) ==> out == RefusedThen(tail))
            && (forall n: Int64 :: Denotes(text, n) ==>
                  && (n < 0 ==> out == RefusedThen(tail))
                  && (n == 0 ==> out == [Parsed(Many([]))] + Run(START, tail))
                  && (n > 0 ==> out == Run(State(st.bulkLen, n, false, true, []), tail)))
  {
    hide Run, Body, Denotes, ParseInt;
    LineIs(st, STAR, text, tail);
    NoNumber(text);
    forall n: Int64 | Denotes(text, n) ensures ParseInt(text) == Some(n) {
      ParseIntExactly(text, n);
    }
  }

  /** A bulk header is refused exactly when its text is no number of 64 bits or one below -1; -1 is the nil bulk string,
      and any other the length of what follows. */
  lemma BulkHeaders(st: State, text: Bytes, tail: Bytes)
    requires !st.multiLine && LF !in text
    ensures var out := Run(st, [DOLLAR] + text + CRLF + tail);
            && (!IsNumber(text) ==> out == RefusedThen(tail))
            && (forall n: Int64 :: Denotes(text, n) ==>
                  && (n < -1 ==> out == RefusedThen(tail))
                  && (n == -1 ==> out == Taken(st.(bulkLen := 0), Bulk(None), tail))
                  && (n >= 0 ==> out == Run(st.(bulkLen := n, multiLine := true), tail)))
  {
    hide Run, Body, Denotes, ParseInt, Place, Taken;
    LineIs(st, DOLLAR, text, tail);
    NoNumber(text);
    PlaceIsTaken(st.(bulkLen := 0), Bulk(None), tail);
    assert st.(bulkLen := 0, multiLine := false) == st.(bulkLen := 0);
    forall n: Int64 | Denotes(text, n) ensures ParseInt(text) == Some(n) {
      ParseIntExactly(text, n);
    }
  }

  /** An empty line is refused. */
  lemma EmptyLine(st: State, tail: Bytes)
    requires !st.multiLine
    ensures Run(st, CRLF + tail) == RefusedThen(tail)
  {
    hide Run;
    assert [] + CRLF + tail == CRLF + tail;
    RunLine(st, [], tail);
  }

  /** A line whose line feed does not follow a carriage return is refused. */
  lemma BrokenLine(st: State, text: Bytes, tail: Bytes)
    requires !st.multiLine && LF !in text && text != [] && text[|text| - 1] != CR
    ensures Run(st, text + [LF] + tail) == RefusedThen(tail)
  {
    BrokenRead(st, text, tail);
    hide ReadLine;
  }

  lemma BrokenRead(st: State, text: Bytes, tail: Bytes)
    requires !st.multiLine && LF !in text && text != [] && text[|text| - 1] != CR
    ensures ReadLine(st, text + [LF] + tail) == BadLine(tail)
  {
    var s := text + [LF] + tail;
    assert s[|text|] == LF && s[|text| - 1] == text[|text| - 1];
    assert forall i :: 0 <= i < |text| ==> s[i] == text[i] && text[i] in text;
    assert s[|text| + 1..] == tail;
  }

  /** Without a line feed there is no line: the stream has ended. */
  lemma UnfinishedLine(st: State, text: Bytes)
    requires !st.multiLine && LF !in text
    ensures Run(st, text) == [EndOfStream]
  {
    assert forall i :: 0 <= i < |text| ==> text[i] in text;
  }

  // ---------------------------------------------------------------- the bytes of a bulk string

  /** Where so many bytes are announced: they are taken, whatever they are, if a line end follows; they are refused with
      the two bytes behind them if not, and also when the stream ends among them; if nothing follows, that is the
      end. */
  lemma BulkBodies(st: State, data: Bytes, end: Bytes, tail: Bytes)
    requires st.multiLine && st.bulkLen >= 0 && st.bulkLen + 2 <= MAX_ALLOC
    ensures |data| == st.bulkLen && |end| == 2 ==>
              Run(st, data + end + tail) ==
              if end == CRLF then Taken(st.(bulkLen := 0, multiLine := false), Bulk(Some(data)), tail)
              else RefusedThen(tail)
    ensures 0 < |data| < st.bulkLen + 2 ==> Run(st, data) == [ProtocolError, EndOfStream]
    ensures Run(st, []) == [EndOfStream]
  {
    if |data| == st.bulkLen && |end| == 2 {
      if end == CRLF {
        BodyRead(st, data, tail);
        PlaceIsTaken(st.(bulkLen := 0, multiLine := false), Bulk(Some(data)), tail);
      } else {
        WrongEnd(st, data, end, tail);
      }
    }
    assert Run(START, []) == [EndOfStream];
  }

  lemma WrongEnd(st: State, data: Bytes, end: Bytes, tail: Bytes)
    requires st.multiLine && st.bulkLen == |data| && |data| + 2 <= MAX_ALLOC && |end| == 2 && end != CRLF
    ensures Run(st, data + end + tail) == RefusedThen(tail)
  {
    var s := data + end + tail;
    assert s[|data|] == end[0] && s[|data| + 1] == end[1] && s[|data| + 2..] == tail;
    assert end[0] == CR && end[1] == LF ==> end == CRLF;
  }
}
